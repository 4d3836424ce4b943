/** The human-readable outputs of an analysis (analysis.go,
    generateSystemDescription and generateTechnicalSummary): the Spanish
    description of the response and the technical summary map. Number
    formatting (`%.3f`, `%.1f`, `%d`) and `math.Sqrt` are parameters. */
module Report {
  import opened Common
  import opened Metrics
  import opened Poles

  /** The `raw_data` map of an analysis. The keys the pipeline always sets
      are fields; the machine-learning keys are present when the
      corresponding prediction succeeded, and `metrics` holds the four
      performance keys once they are merged in. */
  datatype RawData = RawData(voltage: real, originalPoints: nat, optimizedPoints: nat,
                             samplingPeriod: real, t0: real, tEnd: real, v0: real, vEnd: real,
                             mlType: Option<int>, mlPoles: Option<RawPoles>,
                             metrics: Option<PerformanceMetrics>)

  /** The formatting verbs and the square root the text generation uses. */
  datatype Formats = Formats(fixed3: real -> string, fixed1: real -> string,
                             decimal: int -> string, sqrt: real -> real)

  /** What the description needs of the square root: positive arguments
      have positive roots. */
  ghost predicate SqrtPositive(f: Formats)
  {
    forall x: real :: x > 0.0 ==> f.sqrt(x) > 0.0
  }

  // ----------------------------------------------------------- sentences

  /** The opening sentence naming the system type. */
  function Header(t: SystemType): (s: string)
    ensures |s| > 10
  {
    match t
    case Underdamped => "Sistema subamortiguado detectado. "
    case Overdamped => "Sistema sobreamortiguado detectado. "
    case CriticallyDamped => "Sistema críticamente amortiguado detectado. "
    case Unknown => "Sistema de control identificado con características específicas. "
  }

  /** The closing sentence every description ends with. */
  function VoltageSentence(f: Formats, v: real): string
  {
    " Análisis realizado con voltaje de entrada de " + f.fixed1(v) + "V."
  }

  const HighlyOscillatory: string := "La respuesta es altamente oscilatoria con sobrepico considerable. "
  const ModeratelyOscillatory: string := "La respuesta presenta oscilaciones moderadas. "
  const SlightlyOscillatory: string := "La respuesta es ligeramente oscilatoria. "

  /** The sentence for a damping factor, by the 0.3 and 0.7 thresholds. */
  function DampingClass(zeta: real): string
  {
    if zeta < 0.3 then HighlyOscillatory
    else if zeta < 0.7 then ModeratelyOscillatory
    else SlightlyOscillatory
  }

  /** Natural frequency `|p|` of a pole. */
  function NaturalFrequency(p: Pole, f: Formats): real
  {
    f.sqrt(p.re * p.re + p.im * p.im)
  }

  /** Damping factor `-re / |p|` of a pole off the real axis. */
  function DampingFactor(p: Pole, f: Formats): real
    requires SqrtPositive(f) && p.im != 0.0
  {
    assert p.re * p.re >= 0.0 && p.im * p.im > 0.0;
    -p.re / NaturalFrequency(p, f)
  }

  function FrequencySentence(p: Pole, f: Formats): string
  {
    "Presenta oscilaciones con una frecuencia natural de " + f.fixed3(NaturalFrequency(p, f)) + " rad/s "
  }

  function DampingSentence(p: Pole, f: Formats): string
    requires SqrtPositive(f) && p.im != 0.0
  {
    "y un factor de amortiguamiento de " + f.fixed3(DampingFactor(p, f)) + ". "
  }

  function OvershootSentence(f: Formats, mo: real): string
  {
    "Sobrepico máximo del " + f.fixed1(mo) + "%. "
  }

  function ApproxSettlingSentence(f: Formats, st: real): string
  {
    "Tiempo de establecimiento aproximado de " + f.fixed3(st) + " segundos. "
  }

  function RealPolesSentence(f: Formats, r1: real, r2: real): string
  {
    "Polos reales dominantes en s₁=" + f.fixed3(r1) + " y s₂=" + f.fixed3(r2) + ". "
  }

  function DominantSentence(f: Formats, r: real): string
  {
    "El polo dominante (s=" + f.fixed3(r) + ") determina la velocidad de respuesta. "
  }

  function RiseSentence(f: Formats, rt: real): string
  {
    "Tiempo de subida de " + f.fixed3(rt) + " segundos. "
  }

  function SettlingSentence(f: Formats, st: real): string
  {
    "Tiempo de establecimiento de " + f.fixed3(st) + " segundos. "
  }

  function MultiplePoleSentence(f: Formats, r: real): string
  {
    "Polo múltiple en s=" + f.fixed3(r) + ". "
  }

  function PoleCountSentence(f: Formats, n: int): string
  {
    "Se identificaron " + f.decimal(n) + " polo(s) en el sistema. "
  }

  // ----------------------------------------------------------- description

  const UnderdampedClosing: string :=
    "Este tipo de sistema es común en aplicaciones donde se requiere una respuesta rápida, aunque con cierta oscilación inicial."
  const GradualApproach: string := "La respuesta se aproxima gradualmente al valor final sin oscilaciones. "
  const OverdampedClosing: string :=
    "Este tipo de respuesta es ideal para aplicaciones que requieren estabilidad sin oscilaciones, aunque con una respuesta más lenta."
  const CriticalIntro: string :=
    "Representa el caso límite entre sistemas subamortiguados y sobreamortiguados. " +
    "Proporciona la respuesta más rápida posible sin oscilaciones. "
  const CriticalClosing: string := "Ideal para sistemas que requieren respuesta rápida y sin sobrepico."
  const GenericClosing: string :=
    "Consulte los datos técnicos para más detalles sobre el comportamiento del sistema."

  /** Frequency and damping sentences and the damping class, for the first
      pole when it is off the real axis. */
  function Oscillation(poles: seq<Pole>, f: Formats): string
    requires SqrtPositive(f)
  {
    if |poles| >= 2 && poles[0].im != 0.0 then
      FrequencySentence(poles[0], f) + DampingSentence(poles[0], f) +
      DampingClass(DampingFactor(poles[0], f))
    else ""
  }

  function Underdescription(raw: RawData, poles: seq<Pole>, f: Formats): string
    requires SqrtPositive(f)
  {
    var overshoot :=
      if raw.metrics.Some? && raw.metrics.value.maxOvershoot > 0.0
      then OvershootSentence(f, raw.metrics.value.maxOvershoot) else "";
    var settling :=
      if raw.metrics.Some? then ApproxSettlingSentence(f, raw.metrics.value.settlingTime) else "";
    Oscillation(poles, f) + overshoot + settling + UnderdampedClosing
  }

  /** The two real parts and the dominant (larger) one, with two poles. */
  function RealPoles(poles: seq<Pole>, f: Formats): string
  {
    if |poles| >= 2 then
      RealPolesSentence(f, poles[0].re, poles[1].re) + DominantSentence(f, Max(poles[0].re, poles[1].re))
    else ""
  }

  function Overdescription(raw: RawData, poles: seq<Pole>, f: Formats): string
  {
    var rise := if raw.metrics.Some? then RiseSentence(f, raw.metrics.value.riseTime) else "";
    var settling := if raw.metrics.Some? then SettlingSentence(f, raw.metrics.value.settlingTime) else "";
    RealPoles(poles, f) + GradualApproach + rise + settling + OverdampedClosing
  }

  function CriticalDescription(poles: seq<Pole>, f: Formats): string
  {
    CriticalIntro + (if |poles| >= 1 then MultiplePoleSentence(f, poles[0].re) else "") + CriticalClosing
  }

  function GenericDescription(poles: seq<Pole>, f: Formats): string
  {
    (if |poles| > 0 then PoleCountSentence(f, |poles|) else "") + GenericClosing
  }

  function Body(t: SystemType, raw: RawData, poles: seq<Pole>, f: Formats): string
    requires SqrtPositive(f)
  {
    match t
    case Underdamped => Underdescription(raw, poles, f)
    case Overdamped => Overdescription(raw, poles, f)
    case CriticallyDamped => CriticalDescription(poles, f)
    case Unknown => GenericDescription(poles, f)
  }

  /** The description of an analysis: the header for the type, the
      type-specific sentences, and the input-voltage sentence. */
  function Description(t: SystemType, raw: RawData, poles: seq<Pole>, v: real, f: Formats): (d: string)
    requires SqrtPositive(f)
  {
    Header(t) + Body(t, raw, poles, f) + VoltageSentence(f, v)
  }

  /** A position inside both headers of two different types at which
      they differ. */
  function DistinctIndex(t: SystemType, u: SystemType): nat
  {
    if t == Unknown || u == Unknown then
      (if t == Overdamped || u == Overdamped then 34
       else if t == CriticallyDamped || u == CriticallyDamped then 43
       else 33)
    else if (t == CriticallyDamped && u == Overdamped) || (t == Overdamped && u == CriticallyDamped) then 35
    else 33
  }

  lemma HeadersDiffer(t: SystemType, u: SystemType)
    requires t != u
    ensures DistinctIndex(t, u) < |Header(t)| && DistinctIndex(t, u) < |Header(u)|
    ensures Header(t)[DistinctIndex(t, u)] != Header(u)[DistinctIndex(t, u)]
  {
    var i := DistinctIndex(t, u);
    HeaderCharsDiffer(t, u);
    HeaderCharAt(t, i);
    HeaderCharAt(u, i);
  }

  lemma HeaderCharsDiffer(t: SystemType, u: SystemType)
    requires t != u
    ensures HeaderChar(t, DistinctIndex(t, u)) != HeaderChar(u, DistinctIndex(t, u))
  {
  }

  /** The characters of the headers at the positions
      `DistinctIndex` chooses. */
  function HeaderChar(t: SystemType, i: nat): char
  {
    match t
    case Underdamped => ' '
    case Overdamped => if i == 35 then ' ' else if i == 34 then '.' else 'o'
    case CriticallyDamped => if i == 43 then ' ' else if i == 35 then 't' else 'd'
    case Unknown => if i == 43 then 'r' else if i == 34 then 'n' else 'o'
  }

  lemma HeaderCharAt(t: SystemType, i: nat)
    requires i == 33 || i == 34 || i == 35 || i == 43
    requires t == Underdamped ==> i == 33
    requires t == Overdamped ==> i != 43
    requires t == CriticallyDamped ==> i != 34
    requires t == Unknown ==> i != 35
    ensures i < |Header(t)| && Header(t)[i] == HeaderChar(t, i)
  {
    match t
    case Underdamped =>
    case Overdamped =>
      if i == 33 { assert Header(t)[33] == 'o'; }
      else if i == 34 { assert Header(t)[34] == '.'; }
      else { assert Header(t)[35] == ' '; }
    case CriticallyDamped =>
      if i == 33 { assert Header(t)[33] == 'd'; }
      else if i == 35 { assert Header(t)[35] == 't'; }
      else { assert Header(t)[43] == ' '; }
    case Unknown =>
      if i == 33 { assert Header(t)[33] == 'o'; }
      else if i == 34 { assert Header(t)[34] == 'n'; }
      else { assert Header(t)[43] == 'r'; }
  }

  /** A string opening with one type's header does not open with
      another's. */
  lemma HeaderExclusive(t: SystemType, u: SystemType, s: string)
    requires StartsWith(s, Header(t)) && t != u
    ensures !StartsWith(s, Header(u))
  {
    HeadersDiffer(t, u);
  }

  /** Every description opens with the header of its own type, and with no
      other type's header, and closes with the input-voltage sentence. */
  lemma DescriptionFrame(t: SystemType, u: SystemType, raw: RawData, poles: seq<Pole>, v: real, f: Formats)
    requires SqrtPositive(f)
    ensures StartsWith(Description(t, raw, poles, v, f), Header(u)) <==> t == u
    ensures EndsWith(Description(t, raw, poles, v, f), VoltageSentence(f, v))
  {
    var h := Header(t);
    var b := Body(t, raw, poles, f);
    var vs := VoltageSentence(f, v);
    assert Description(t, raw, poles, v, f) == h + b + vs;
    StartsWithConcat(h + b, vs);
    StartsWithConcat(h, b);
    EndsWithConcat(h + b, vs);
    if t != u {
      HeaderExclusive(t, u, h + b + vs);
    }
  }

  /** A sentence of the body is a sentence of the description. */
  lemma InDescription(t: SystemType, raw: RawData, poles: seq<Pole>, v: real, f: Formats, sub: string)
    requires SqrtPositive(f) && Contains(Body(t, raw, poles, f), sub)
    ensures Contains(Description(t, raw, poles, v, f), sub)
  {
    ContainsPrepend(Header(t), Body(t, raw, poles, f), sub);
    ContainsAppend(Header(t) + Body(t, raw, poles, f), VoltageSentence(f, v), sub);
  }

  /** Containment in the first, second, third or fourth of four parts. */
  lemma ContainsOneOfFour(a: string, b: string, c: string, e: string, sub: string)
    requires Contains(a, sub) || Contains(b, sub) || Contains(c, sub) || Contains(e, sub)
    ensures Contains(a + b + c + e, sub)
  {
    if Contains(a, sub) {
      ContainsAppend(a, b, sub);
      ContainsAppend(a + b, c, sub);
    } else if Contains(b, sub) {
      ContainsPrepend(a, b, sub);
      ContainsAppend(a + b, c, sub);
    } else if Contains(c, sub) {
      ContainsPrepend(a + b, c, sub);
    }
    if Contains(e, sub) {
      ContainsPrepend(a + b + c, e, sub);
    } else {
      ContainsAppend(a + b + c, e, sub);
    }
  }

  /** An underdamped description of a pole off the real axis reports its
      natural frequency and damping factor, and contains the sentence the
      0.3 / 0.7 thresholds select. */
  lemma UnderdampedContents(raw: RawData, poles: seq<Pole>, v: real, f: Formats)
    requires SqrtPositive(f)
    ensures |poles| >= 2 && poles[0].im != 0.0 ==>
      var zeta := DampingFactor(poles[0], f);
      var d := Description(Underdamped, raw, poles, v, f);
      Contains(d, FrequencySentence(poles[0], f) + DampingSentence(poles[0], f)) &&
      (zeta < 0.3 ==> Contains(d, HighlyOscillatory)) &&
      (0.3 <= zeta < 0.7 ==> Contains(d, ModeratelyOscillatory)) &&
      (0.7 <= zeta ==> Contains(d, SlightlyOscillatory))
  {
    if |poles| >= 2 && poles[0].im != 0.0 {
      var fd := FrequencySentence(poles[0], f) + DampingSentence(poles[0], f);
      var c := DampingClass(DampingFactor(poles[0], f));
      OscillationInBody(raw, poles, f);
      InDescription(Underdamped, raw, poles, v, f, fd);
      InDescription(Underdamped, raw, poles, v, f, c);
    }
  }

  /** The oscillation sentences are part of the underdamped body. */
  lemma OscillationInBody(raw: RawData, poles: seq<Pole>, f: Formats)
    requires SqrtPositive(f) && |poles| >= 2 && poles[0].im != 0.0
    ensures Contains(Body(Underdamped, raw, poles, f), FrequencySentence(poles[0], f) + DampingSentence(poles[0], f))
    ensures Contains(Body(Underdamped, raw, poles, f), DampingClass(DampingFactor(poles[0], f)))
  {
    var osc := Oscillation(poles, f);
    var overshoot :=
      if raw.metrics.Some? && raw.metrics.value.maxOvershoot > 0.0
      then OvershootSentence(f, raw.metrics.value.maxOvershoot) else "";
    var settling :=
      if raw.metrics.Some? then ApproxSettlingSentence(f, raw.metrics.value.settlingTime) else "";
    assert Body(Underdamped, raw, poles, f) == osc + overshoot + settling + UnderdampedClosing;
    var fd := FrequencySentence(poles[0], f) + DampingSentence(poles[0], f);
    var c := DampingClass(DampingFactor(poles[0], f));
    ContainsSelf(fd);
    ContainsAppend(fd, c, fd);
    ContainsSelf(c);
    ContainsPrepend(fd, c, c);
    ContainsOneOfFour(osc, overshoot, settling, UnderdampedClosing, fd);
    ContainsOneOfFour(osc, overshoot, settling, UnderdampedClosing, c);
  }

  /** With the metrics merged, an underdamped description reports the
      settling time, and the overshoot when it is positive. */
  lemma UnderdampedMetrics(raw: RawData, poles: seq<Pole>, v: real, f: Formats)
    requires SqrtPositive(f)
    ensures raw.metrics.Some? ==>
      Contains(Description(Underdamped, raw, poles, v, f), ApproxSettlingSentence(f, raw.metrics.value.settlingTime))
    ensures raw.metrics.Some? && raw.metrics.value.maxOvershoot > 0.0 ==>
      Contains(Description(Underdamped, raw, poles, v, f), OvershootSentence(f, raw.metrics.value.maxOvershoot))
  {
    var osc := Oscillation(poles, f);
    var overshoot :=
      if raw.metrics.Some? && raw.metrics.value.maxOvershoot > 0.0
      then OvershootSentence(f, raw.metrics.value.maxOvershoot) else "";
    var settling :=
      if raw.metrics.Some? then ApproxSettlingSentence(f, raw.metrics.value.settlingTime) else "";
    assert Body(Underdamped, raw, poles, f) == osc + overshoot + settling + UnderdampedClosing;
    if raw.metrics.Some? {
      ContainsSelf(settling);
      ContainsOneOfFour(osc, overshoot, settling, UnderdampedClosing, settling);
      InDescription(Underdamped, raw, poles, v, f, settling);
      if raw.metrics.value.maxOvershoot > 0.0 {
        ContainsSelf(overshoot);
        ContainsOneOfFour(osc, overshoot, settling, UnderdampedClosing, overshoot);
        InDescription(Underdamped, raw, poles, v, f, overshoot);
      }
    }
  }

  /** An overdamped description with two poles names both real parts and
      reports the larger one as dominant; with the metrics merged it
      reports the rise and settling times. */
  lemma OverdampedContents(raw: RawData, poles: seq<Pole>, v: real, f: Formats)
    requires SqrtPositive(f)
    ensures |poles| >= 2 ==>
      var d := Description(Overdamped, raw, poles, v, f);
      Contains(d, RealPolesSentence(f, poles[0].re, poles[1].re)) &&
      Contains(d, DominantSentence(f, Max(poles[0].re, poles[1].re))) &&
      Max(poles[0].re, poles[1].re) >= poles[0].re && Max(poles[0].re, poles[1].re) >= poles[1].re
    ensures raw.metrics.Some? ==>
      var d := Description(Overdamped, raw, poles, v, f);
      Contains(d, RiseSentence(f, raw.metrics.value.riseTime)) &&
      Contains(d, SettlingSentence(f, raw.metrics.value.settlingTime))
  {
    var rp := RealPoles(poles, f);
    var rise := if raw.metrics.Some? then RiseSentence(f, raw.metrics.value.riseTime) else "";
    var settling := if raw.metrics.Some? then SettlingSentence(f, raw.metrics.value.settlingTime) else "";
    var first := rp + GradualApproach;
    assert Body(Overdamped, raw, poles, f) == first + rise + settling + OverdampedClosing;
    if |poles| >= 2 {
      var a := RealPolesSentence(f, poles[0].re, poles[1].re);
      var b := DominantSentence(f, Max(poles[0].re, poles[1].re));
      ContainsSelf(a);
      ContainsAppend(a, b, a);
      ContainsAppend(rp, GradualApproach, a);
      ContainsSelf(b);
      ContainsPrepend(a, b, b);
      ContainsAppend(rp, GradualApproach, b);
      ContainsOneOfFour(first, rise, settling, OverdampedClosing, a);
      ContainsOneOfFour(first, rise, settling, OverdampedClosing, b);
      InDescription(Overdamped, raw, poles, v, f, a);
      InDescription(Overdamped, raw, poles, v, f, b);
    }
    if raw.metrics.Some? {
      ContainsSelf(rise);
      ContainsOneOfFour(first, rise, settling, OverdampedClosing, rise);
      InDescription(Overdamped, raw, poles, v, f, rise);
      ContainsSelf(settling);
      ContainsOneOfFour(first, rise, settling, OverdampedClosing, settling);
      InDescription(Overdamped, raw, poles, v, f, settling);
    }
  }

  /** A critically damped description reports the first pole as the
      multiple pole; a description of an unknown type reports the number
      of poles. */
  lemma OtherContents(raw: RawData, poles: seq<Pole>, v: real, f: Formats)
    requires SqrtPositive(f)
    ensures |poles| >= 1 ==>
      Contains(Description(CriticallyDamped, raw, poles, v, f), MultiplePoleSentence(f, poles[0].re))
    ensures |poles| >= 1 ==>
      Contains(Description(Unknown, raw, poles, v, f), PoleCountSentence(f, |poles|))
  {
    if |poles| >= 1 {
      var m := MultiplePoleSentence(f, poles[0].re);
      ContainsInfix(CriticalIntro, m, CriticalClosing);
      InDescription(CriticallyDamped, raw, poles, v, f, m);
      var c := PoleCountSentence(f, |poles|);
      ContainsSelf(c);
      ContainsAppend(c, GenericClosing, c);
      InDescription(Unknown, raw, poles, v, f, c);
    }
  }
  // ----------------------------------------------------------- summary

  /** The values of the technical-summary map. */
  datatype Json = JInt(i: int) | JBool(b: bool) | JReal(r: real)

  /** Some pole has a non-zero imaginary part. */
  predicate AnyComplex(poles: seq<Pole>)
  {
    exists i :: 0 <= i < |poles| && poles[i].im != 0.0
  }

  const PoleKeys: set<string> := {"numero_polos", "polos_complejos", "polos_reales"}
  const MetricKeys: set<string> := {"sobrepico_porcentaje", "tiempo_establecimiento", "tiempo_subida"}
  const PointKeys: set<string> := {"puntos_datos_originales", "puntos_datos_procesados"}

  /** The technical summary: the pole characteristics when there are poles,
      the overshoot, settling and rise times when the metrics are merged,
      and the two point counts; the steady-state error is not reported. */
  function TechnicalSummary(raw: RawData, poles: seq<Pole>): (m: map<string, Json>)
  {
    PoleSummary(poles) + MetricSummary(raw) +
      map["puntos_datos_originales" := JInt(raw.originalPoints),
          "puntos_datos_procesados" := JInt(raw.optimizedPoints)]
  }

  function PoleSummary(poles: seq<Pole>): map<string, Json>
  {
    if |poles| > 0 then
      map["numero_polos" := JInt(|poles|),
          "polos_complejos" := JBool(AnyComplex(poles)),
          "polos_reales" := JBool(!AnyComplex(poles))]
    else map[]
  }

  function MetricSummary(raw: RawData): map<string, Json>
  {
    if raw.metrics.Some? then
      map["sobrepico_porcentaje" := JReal(raw.metrics.value.maxOvershoot),
          "tiempo_establecimiento" := JReal(raw.metrics.value.settlingTime),
          "tiempo_subida" := JReal(raw.metrics.value.riseTime)]
    else map[]
  }

  /** Which keys the summary holds, and that exactly one of the two pole
      flags is set, the complex one exactly when some pole is off the real
      axis. */
  lemma SummaryKeys(raw: RawData, poles: seq<Pole>)
    ensures var m := TechnicalSummary(raw, poles);
      m.Keys == (if |poles| > 0 then PoleKeys else {}) +
                (if raw.metrics.Some? then MetricKeys else {}) + PointKeys
    ensures var m := TechnicalSummary(raw, poles);
      |poles| > 0 ==>
        m["numero_polos"] == JInt(|poles|) &&
        m["polos_complejos"].JBool? && m["polos_reales"].JBool? &&
        m["polos_complejos"].b != m["polos_reales"].b &&
        (m["polos_complejos"].b <==> exists i :: 0 <= i < |poles| && poles[i].im != 0.0)
    ensures "steady_state_error" !in TechnicalSummary(raw, poles)
  {
    var pm := PoleSummary(poles);
    var mm := MetricSummary(raw);
    assert pm.Keys == if |poles| > 0 then PoleKeys else {};
    assert mm.Keys == if raw.metrics.Some? then MetricKeys else {};
    assert pm.Keys !! mm.Keys + PointKeys;
    if |poles| > 0 {
      assert TechnicalSummary(raw, poles)["numero_polos"] == pm["numero_polos"];
      assert TechnicalSummary(raw, poles)["polos_complejos"] == pm["polos_complejos"];
      assert TechnicalSummary(raw, poles)["polos_reales"] == pm["polos_reales"];
    }
  }

  /** The summary built step by step, the pole scan stopping at the first
      complex pole. */
  method GenerateTechnicalSummary(raw: RawData, poles: seq<Pole>) returns (summary: map<string, Json>)
    ensures summary == TechnicalSummary(raw, poles)
  {
    summary := map[];
    if |poles| > 0 {
      summary := summary["numero_polos" := JInt(|poles|)];
      summary := summary["polos_complejos" := JBool(false)];
      summary := summary["polos_reales" := JBool(true)];
      var i := 0;
      while i < |poles|
        invariant 0 <= i <= |poles|
        invariant forall j :: 0 <= j < i ==> poles[j].im == 0.0
      {
        if poles[i].im != 0.0 {
          summary := summary["polos_complejos" := JBool(true)];
          summary := summary["polos_reales" := JBool(false)];
          break;
        }
        i := i + 1;
      }
      assert summary["polos_complejos"] == JBool(AnyComplex(poles));
    }
    assert summary == PoleSummary(poles);
    if raw.metrics.Some? {
      summary := summary["sobrepico_porcentaje" := JReal(raw.metrics.value.maxOvershoot)];
      summary := summary["tiempo_establecimiento" := JReal(raw.metrics.value.settlingTime)];
      summary := summary["tiempo_subida" := JReal(raw.metrics.value.riseTime)];
    }
    assert summary == PoleSummary(poles) + MetricSummary(raw);
    summary := summary["puntos_datos_originales" := JInt(raw.originalPoints)];
    summary := summary["puntos_datos_procesados" := JInt(raw.optimizedPoints)];
  }
}
