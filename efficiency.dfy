/**
 * Efficiency of a DC shunt motor or generator, as computed by `Gen_Eff`
 * (app.py, lines 3-26), over exact real arithmetic.
 *
 * `Gen_Eff(V, CL, IL, K, Rsh, Ra)` runs three guards in a fixed order and
 * returns `(None, message)` for the first one that fails; otherwise it
 * computes the shunt-field current, the armature current, the copper loss
 * and the percentage efficiency, and returns `(Eff, CUL)`.
 *
 * The model keeps the arithmetic exactly as written: the copper loss is
 * `Ish*2*Rsh + Ia*2*Ra`, a DOUBLING of each current, not a square.
 */
module EfficiencyCalculator {

  /** The three refusals of `Gen_Eff`, in the order its guards test them. */
  datatype ErrorKind = NonPositiveResistance | NonPositiveLoadCurrent | ZeroDenominator

  /** Typed view of what `Gen_Eff` returns: both numbers, or one refusal and nothing else. */
  datatype Outcome = Ok(eff: real, cul: real) | Err(kind: ErrorKind)

  datatype Option<T> = None | Some(value: T)

  /** A Python value in the second slot of the returned pair: a float or a message string. */
  datatype PyValue = Float(x: real) | Str(text: string)

  /** The three message texts of app.py, lines 6, 9 and 22. */
  const ResistanceMessage := "Resistance values must be greater than zero."
  const LoadCurrentMessage := "Full load current (IL) must be greater than zero."
  const DenominatorMessage := "Invalid motor parameters, calculation results in zero denominator."

  /** The message text that accompanies `None` for each refusal; the text alone tells which refusal it was. */
  function Message(kind: ErrorKind): (m: string)
    ensures KindOfMessage(m) == Some(kind)
  {
    match kind
    case NonPositiveResistance => ResistanceMessage
    case NonPositiveLoadCurrent => LoadCurrentMessage
    case ZeroDenominator => DenominatorMessage
  }

  /** Recovers the refusal from its message; `None` for any other text. */
  function KindOfMessage(text: string): (kind: Option<ErrorKind>)
    ensures kind.None? <==> text != ResistanceMessage && text != LoadCurrentMessage && text != DenominatorMessage
  {
    if text == ResistanceMessage then Some(NonPositiveResistance)
    else if text == LoadCurrentMessage then Some(NonPositiveLoadCurrent)
    else if text == DenominatorMessage then Some(ZeroDenominator)
    else None
  }

  /** Shunt-field current `Ish = V / Rsh`; Ohm's law across the shunt winding. */
  function ShuntFieldCurrent(v: real, rsh: real): (ish: real)
    requires rsh > 0.0
    ensures ish * rsh == v
    ensures v > 0.0 <==> ish > 0.0
  {
    v / rsh
  }

  /**
   * Copper loss as written: each current is doubled, not squared, before it
   * meets its resistance. When `ish` is the shunt-field current for `v`, the
   * shunt term is exactly `2*v`.
   */
  function CopperLoss(ish: real, ia: real, rsh: real, ra: real): (cul: real)
    ensures cul == 2.0 * (ish * rsh) + 2.0 * (ia * ra)
    ensures forall v :: rsh > 0.0 && ish == ShuntFieldCurrent(v, rsh) ==> cul == 2.0 * v + 2.0 * ia * ra
  {
    ish * 2.0 * rsh + ia * 2.0 * ra
  }

  /** Input power `K*V*IL`, the denominator of the efficiency. */
  function Denominator(k: real, v: real, il: real): (d: real)
    ensures il > 0.0 ==> (d == 0.0 <==> k == 0.0 || v == 0.0)
  {
    k * v * il
  }

  /** Percentage efficiency: the share of the input power `d` left after the losses. */
  function Efficiency(d: real, cl: real, cul: real): (eff: real)
    requires d != 0.0
    ensures eff * d == 100.0 * (d - cl - cul)
  {
    ((d - cl - cul) / d) * 100.0
  }

  /**
   * `Gen_Eff(V, CL, IL, K, Rsh, Ra)`. The copper loss is computed before the
   * denominator is tested, as in the source; over the reals this order has
   * no visible effect.
   */
  function GenEff(v: real, cl: real, il: real, k: real, rsh: real, ra: real): (r: Outcome)
    ensures r.Ok? <==> rsh > 0.0 && ra > 0.0 && il > 0.0 && k != 0.0 && v != 0.0
  {
    if rsh <= 0.0 || ra <= 0.0 then Err(NonPositiveResistance)
    else if il <= 0.0 then Err(NonPositiveLoadCurrent)
    else
      var ish := ShuntFieldCurrent(v, rsh);
      var ia := k * il - ish;
      var cul := CopperLoss(ish, ia, rsh, ra);
      var d := Denominator(k, v, il);
      if d == 0.0 then Err(ZeroDenominator)
      else Ok(Efficiency(d, cl, cul), cul)
  }

  /** The Python shape of a result: `(None, message)` or `(Eff, CUL)`. */
  function ToPair(r: Outcome): (p: (Option<real>, PyValue))
    ensures p.0.None? <==> r.Err?
    ensures r.Err? ==> p.1 == Str(Message(r.kind))
    ensures r.Ok? ==> p.0 == Some(r.eff) && p.1 == Float(r.cul)
  {
    match r
    case Ok(eff, cul) => (Some(eff), Float(cul))
    case Err(kind) => (None, Str(Message(kind)))
  }

  /**
   * Inverse of `ToPair`. Its test on the first slot is the caller's
   * `Eff is None`; it then also works out which refusal the message names,
   * and gives `None` for any pair `Gen_Eff` never returns.
   */
  function FromPair(p: (Option<real>, PyValue)): (r: Option<Outcome>)
    ensures r.Some? && r.value.Err? ==> p.0.None?
    ensures r.Some? && r.value.Ok? ==> p.0.Some?
  {
    match p
    case (None, Str(text)) =>
      (match KindOfMessage(text)
       case Some(kind) => Some(Err(kind))
       case None => None)
    case (Some(eff), Float(cul)) => Some(Ok(eff, cul))
    case _ => None
  }

  /** `Gen_Eff`'s result in Python's two-slot shape, over the reals. */
  function GenEffPair(v: real, cl: real, il: real, k: real, rsh: real, ra: real): (p: (Option<real>, PyValue))
    ensures p.0.None? <==> !(rsh > 0.0 && ra > 0.0 && il > 0.0 && k != 0.0 && v != 0.0)
    ensures p.0.None? ==> p.1.Str?
  {
    ToPair(GenEff(v, cl, il, k, rsh, ra))
  }

  // ---------------------------------------------------------------------
  // Error priority
  // ---------------------------------------------------------------------

  /** A non-positive resistance is reported whatever the other four inputs are. */
  lemma ResistanceErrorDominates(v: real, cl: real, il: real, k: real, rsh: real, ra: real)
    requires rsh <= 0.0 || ra <= 0.0
    ensures GenEff(v, cl, il, k, rsh, ra) == Err(NonPositiveResistance)
  {
  }

  /** With valid resistances, a non-positive load current is reported whatever V, CL and K are. */
  lemma LoadCurrentError(v: real, cl: real, il: real, k: real, rsh: real, ra: real)
    requires rsh > 0.0 && ra > 0.0
    requires il <= 0.0
    ensures GenEff(v, cl, il, k, rsh, ra) == Err(NonPositiveLoadCurrent)
  {
  }

  /** Past the first two guards, the zero-denominator refusal happens exactly when K or V is zero. */
  lemma ZeroDenominatorIff(v: real, cl: real, il: real, k: real, rsh: real, ra: real)
    requires rsh > 0.0 && ra > 0.0 && il > 0.0
    ensures GenEff(v, cl, il, k, rsh, ra) == Err(ZeroDenominator) <==> k == 0.0 || v == 0.0
  {
  }

  /**
   * Each refusal is reported exactly when its guard fails and every earlier
   * guard passes; in particular a bad resistance is blamed even when the load
   * current is bad too.
   */
  lemma ErrorPriority(v: real, cl: real, il: real, k: real, rsh: real, ra: real, kind: ErrorKind)
    ensures GenEff(v, cl, il, k, rsh, ra) == Err(kind) <==>
      match kind
      case NonPositiveResistance => rsh <= 0.0 || ra <= 0.0
      case NonPositiveLoadCurrent => rsh > 0.0 && ra > 0.0 && il <= 0.0
      case ZeroDenominator => rsh > 0.0 && ra > 0.0 && il > 0.0 && k * v * il == 0.0
  {
  }

  // ---------------------------------------------------------------------
  // Closed forms of the outputs
  // ---------------------------------------------------------------------

  /** On success the copper loss is `2*V + 2*(K*IL - V/Rsh)*Ra`: the shunt term collapses to `2*V`. */
  lemma CopperLossClosedForm(v: real, cl: real, il: real, k: real, rsh: real, ra: real)
    requires GenEff(v, cl, il, k, rsh, ra).Ok?
    ensures GenEff(v, cl, il, k, rsh, ra).cul == (v / rsh) * 2.0 * rsh + (k * il - v / rsh) * 2.0 * ra
    ensures GenEff(v, cl, il, k, rsh, ra).cul == 2.0 * v + 2.0 * (k * il - v / rsh) * ra
  {
  }

  /** On success `Eff * (K*V*IL) == 100 * (K*V*IL - CL - CUL)`, i.e. `Eff == 100 - 100*(CL + CUL)/(K*V*IL)`. */
  lemma EfficiencyClosedForm(v: real, cl: real, il: real, k: real, rsh: real, ra: real)
    requires GenEff(v, cl, il, k, rsh, ra).Ok?
    ensures k * v * il != 0.0
    ensures GenEff(v, cl, il, k, rsh, ra).eff * (k * v * il)
         == 100.0 * (k * v * il - cl - GenEff(v, cl, il, k, rsh, ra).cul)
    ensures GenEff(v, cl, il, k, rsh, ra).eff
         == 100.0 - 100.0 * (cl + GenEff(v, cl, il, k, rsh, ra).cul) / (k * v * il)
  {
    var d := k * v * il;
    var cul := GenEff(v, cl, il, k, rsh, ra).cul;
    LossShare(d, cl + cul);
  }

  /** Over a non-zero input power `d`, the share left after losses `x` is one minus the lost share. */
  lemma LossShare(d: real, x: real)
    requires d != 0.0
    ensures ((d - x) / d) * 100.0 == 100.0 - 100.0 * x / d
  {
    DivSub(d, x, d);
    assert d / d == 1.0;
    var lost := x / d;
    assert (100.0 * lost) * d == 100.0 * x;
    CancelFactor(100.0 * lost, 100.0 * x / d, d);
  }

  /** Division by a non-zero `d` distributes over a difference. */
  lemma DivSub(a: real, b: real, d: real)
    requires d != 0.0
    ensures (a - b) / d == a / d - b / d
  {
  }

  /** A non-zero factor cancels from both sides of an equation. */
  lemma CancelFactor(a: real, b: real, d: real)
    requires d != 0.0
    requires a * d == b * d
    ensures a == b
  {
  }

  /** Multiplying by a positive factor keeps a strict order and its converse. */
  lemma ScaleByPositive(a: real, b: real, d: real)
    requires d > 0.0
    ensures a < b <==> a * d < b * d
  {
  }

  /** With positive input power, efficiency is below 100 exactly when the total loss `CL + CUL` is positive. */
  lemma EfficiencyBelowHundredIff(v: real, cl: real, il: real, k: real, rsh: real, ra: real)
    requires GenEff(v, cl, il, k, rsh, ra).Ok?
    requires k * v * il > 0.0
    ensures GenEff(v, cl, il, k, rsh, ra).eff < 100.0 <==> cl + GenEff(v, cl, il, k, rsh, ra).cul > 0.0
  {
    var d := k * v * il;
    var r := GenEff(v, cl, il, k, rsh, ra);
    EfficiencyClosedForm(v, cl, il, k, rsh, ra);
    ScaleByPositive(r.eff, 100.0, d);
  }

  /** The copper loss does not depend on the core losses, and with positive input power more core loss means strictly lower efficiency. */
  lemma EfficiencyFallsWithCoreLoss(v: real, cl1: real, cl2: real, il: real, k: real, rsh: real, ra: real)
    requires GenEff(v, cl1, il, k, rsh, ra).Ok?
    requires k * v * il > 0.0
    requires cl1 < cl2
    ensures GenEff(v, cl2, il, k, rsh, ra).Ok?
    ensures GenEff(v, cl2, il, k, rsh, ra).cul == GenEff(v, cl1, il, k, rsh, ra).cul
    ensures GenEff(v, cl2, il, k, rsh, ra).eff < GenEff(v, cl1, il, k, rsh, ra).eff
  {
  }

  // ---------------------------------------------------------------------
  // The Python return value
  // ---------------------------------------------------------------------

  /** A text that reads back as a refusal is exactly that refusal's message. */
  lemma KindOfMessageInverse(text: string, kind: ErrorKind)
    ensures KindOfMessage(text) == Some(kind) <==> text == Message(kind)
  {
  }

  /** Reading back the returned pair recovers the outcome: no refusal is mistaken for a result, and no result for a refusal. */
  lemma PairRoundTrip(r: Outcome)
    ensures FromPair(ToPair(r)) == Some(r)
  {
  }

  // ---------------------------------------------------------------------
  // Worked inputs
  // ---------------------------------------------------------------------

  /**
   * V = 220, CL = 500, IL = 20, K = 1, Rsh = 110, Ra = 0.5: Ish = 2, Ia = 18,
   * and the doubled terms give CUL = 2*2*110 + 18*2*0.5 = 458, not the
   * I^2 R value 2^2*110 + 18^2*0.5 = 602.
   */
  lemma DoubledNotSquared()
    ensures GenEff(220.0, 500.0, 20.0, 1.0, 110.0, 0.5) == Ok(344200.0 / 4400.0, 458.0)
    ensures GenEff(220.0, 500.0, 20.0, 1.0, 110.0, 0.5).cul != 2.0 * 2.0 * 110.0 + 18.0 * 18.0 * 0.5
  {
  }

  /** Zero voltage with valid resistances and load current is refused for its zero denominator. */
  lemma ZeroVoltageRefused()
    ensures GenEff(0.0, 0.0, 5.0, 1.0, 10.0, 1.0) == Err(ZeroDenominator)
    ensures GenEffPair(0.0, 0.0, 5.0, 1.0, 10.0, 1.0) == (None, Str("Invalid motor parameters, calculation results in zero denominator."))
  {
  }
}
