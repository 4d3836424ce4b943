/** System classification and pole correction of processAnalysisRequest
    (analysis.go, the block after the features are extracted). The two
    calls to the classification service are parameters: each maps the
    feature vector to a reply, or to `None` when the call fails. */
module Poles {
  import opened Common

  /** The system types the pipeline and the description know about. */
  datatype SystemType = Underdamped | Overdamped | CriticallyDamped | Unknown

  /** The label stored in the result row. */
  function Label(t: SystemType): (s: string)
    ensures |s| > 0
  {
    match t
    case Underdamped => "subamortiguado"
    case Overdamped => "sobreamortiguado"
    case CriticallyDamped => "criticamente_amortiguado"
    case Unknown => "desconocido"
  }

  /** Distinct types get distinct labels, so the stored label identifies
      the type the string comparisons on it select. */
  lemma LabelInjective(t: SystemType, u: SystemType)
    ensures Label(t) == Label(u) <==> t == u
  {
  }

  /** The type for a classifier code: 0 and 1 are known, anything else is
      unknown. */
  function TypeFromCode(code: int): (t: SystemType)
    ensures t == Underdamped <==> code == 0
    ensures t == Overdamped <==> code == 1
    ensures t != CriticallyDamped
  {
    if code == 0 then Underdamped
    else if code == 1 then Overdamped
    else Unknown
  }

  /** The four numbers of the pole service's reply. */
  datatype RawPoles = RawPoles(s1Real: real, s1Imag: real, s2Real: real, s2Imag: real)

  datatype Pole = Pole(re: real, im: real)

  /** Offsets the pipeline adds to the predicted poles. */
  const UnderdampedRealShift: real := 127.0
  const UnderdampedImagShift: real := 335.25
  const OverdampedShift1: real := -425.8
  const OverdampedShift2: real := 455.0

  /** The type-specific correction of the predicted poles. */
  function Correct(t: SystemType, p: RawPoles): (c: RawPoles)
  {
    match t
    case Underdamped =>
      RawPoles(p.s1Real + UnderdampedRealShift, p.s1Imag - UnderdampedImagShift,
               p.s2Real + UnderdampedRealShift, p.s2Imag + UnderdampedImagShift)
    case Overdamped =>
      RawPoles(p.s1Real + OverdampedShift1, p.s1Imag, p.s2Real + OverdampedShift2, p.s2Imag)
    case _ => p
  }

  /** The inverse of the correction, recovering the service's reply. */
  function Uncorrect(t: SystemType, c: RawPoles): (p: RawPoles)
  {
    match t
    case Underdamped =>
      RawPoles(c.s1Real - UnderdampedRealShift, c.s1Imag + UnderdampedImagShift,
               c.s2Real - UnderdampedRealShift, c.s2Imag - UnderdampedImagShift)
    case Overdamped =>
      RawPoles(c.s1Real - OverdampedShift1, c.s1Imag, c.s2Real - OverdampedShift2, c.s2Imag)
    case _ => c
  }

  /** Correction loses nothing: the reply is recovered from the stored
      poles, and every stored value comes from exactly one reply. */
  lemma CorrectionInvertible(t: SystemType, p: RawPoles, c: RawPoles)
    ensures Uncorrect(t, Correct(t, p)) == p
    ensures Correct(t, Uncorrect(t, c)) == c
    ensures Correct(t, p) == c <==> p == Uncorrect(t, c)
  {
  }

  /** The underdamped correction keeps a conjugate pair conjugate; the
      overdamped one keeps the imaginary parts; other types change
      nothing. */
  lemma CorrectionShape(t: SystemType, p: RawPoles)
    ensures t == Underdamped && p.s1Real == p.s2Real && p.s1Imag == -p.s2Imag ==>
      Correct(t, p).s1Real == Correct(t, p).s2Real && Correct(t, p).s1Imag == -Correct(t, p).s2Imag
    ensures t == Overdamped ==>
      Correct(t, p).s1Imag == p.s1Imag && Correct(t, p).s2Imag == p.s2Imag &&
      Correct(t, p).s2Real - Correct(t, p).s1Real == p.s2Real - p.s1Real + 880.8
    ensures t == Unknown || t == CriticallyDamped ==> Correct(t, p) == p
  {
  }

  function PolesOf(p: RawPoles): (s: seq<Pole>)
    ensures |s| == 2
  {
    [Pole(p.s1Real, p.s1Imag), Pole(p.s2Real, p.s2Imag)]
  }

  /** The poles stored when no prediction is available: `-0.5 ± 0.866i`. */
  const DefaultPoles: seq<Pole> := [Pole(-0.5, 0.866), Pole(-0.5, -0.866)]

  /** What the classification block leaves behind: the type, the poles,
      and the two machine-learning fields of the result row. */
  datatype Prediction = Prediction(systemType: SystemType, poles: seq<Pole>,
                                   mlType: Option<int>, mlPoles: Option<RawPoles>)

  /** The classification block: defaults, then the type call, then the
      pole call with the correction for the type just decided; neither
      service is asked when there are no features. */
  function Predict(features: seq<real>, predictType: seq<real> -> Option<int>,
                   predictPoles: seq<real> -> Option<RawPoles>): (r: Prediction)
    ensures |r.poles| == 2
    ensures r.systemType != CriticallyDamped
    ensures r.systemType == Underdamped <==>
      |features| == 0 || predictType(features).None? || predictType(features) == Some(0)
    ensures r.mlType.Some? <==> |features| > 0 && predictType(features).Some?
    ensures |features| > 0 && predictType(features).Some? ==>
      r.systemType == TypeFromCode(predictType(features).value) && r.mlType == predictType(features)
    ensures r.mlPoles.Some? <==> |features| > 0 && predictPoles(features).Some?
    ensures r.mlPoles.None? ==> r.poles == DefaultPoles
    ensures r.mlPoles.Some? ==>
      r.mlPoles.value == Correct(r.systemType, predictPoles(features).value) &&
      r.poles == PolesOf(r.mlPoles.value)
  {
    if |features| == 0 then Prediction(Underdamped, DefaultPoles, None, None)
    else
      var typeResp := predictType(features);
      var systemType := if typeResp.Some? then TypeFromCode(typeResp.value) else Underdamped;
      match predictPoles(features)
      case None => Prediction(systemType, DefaultPoles, typeResp, None)
      case Some(p) =>
        var adjusted := Correct(systemType, p);
        Prediction(systemType, PolesOf(adjusted), typeResp, Some(adjusted))
  }
}
