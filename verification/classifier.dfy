/**
 The threshold classifier of the lubricant-analysis comment generator.

 One laboratory measurement carries its value and four limits. The classifier
 names the first limit (in a fixed priority order) that the value reaches,
 together with that limit's value, or reports that no limit was surpassed.
 Every bound is inclusive: a value equal to a limit surpasses it.
 */
module Classifier {
  import opened Options

  /** One analyte reading of a sample (one row of the values table without its id). */
  datatype Measurement = Measurement(
    element: string,
    value: real,
    lowerCritical: real,
    upperCritical: real,
    lowerMarginal: real,
    upperMarginal: real)

  /** The four limits a value can surpass, plus "no limit surpassed". */
  datatype Label = LowerCritical | UpperCritical | LowerMarginal | UpperMarginal | NoLimit

  /** The pair the classifier returns: the label and the value of the named limit. */
  datatype Classification = Classification(kind: Label, limit: Option<real>)

  /** The text the module writes into the "limite transgredido" column. */
  function LabelText(l: Label): string {
    match l
    case LowerCritical => "limite inferior condenatorio"
    case UpperCritical => "limite superior condenatorio"
    case LowerMarginal => "limite inferior marginal"
    case UpperMarginal => "limite superior marginal"
    case NoLimit => "No limit surpassed"
  }

  /** Reads a label back from its column text. */
  function ParseLabel(s: string): Option<Label> {
    if s == "limite inferior condenatorio" then Some(LowerCritical)
    else if s == "limite superior condenatorio" then Some(UpperCritical)
    else if s == "limite inferior marginal" then Some(LowerMarginal)
    else if s == "limite superior marginal" then Some(UpperMarginal)
    else if s == "No limit surpassed" then Some(NoLimit)
    else None
  }

  /** The column text identifies the label: the labelled table can be read back. */
  lemma LabelTextRoundTrip(l: Label)
    ensures ParseLabel(LabelText(l)) == Some(l)
  {
  }

  /** The value of the limit a label names (none for `NoLimit`). */
  function LimitOf(m: Measurement, l: Label): Option<real> {
    match l
    case LowerCritical => Some(m.lowerCritical)
    case UpperCritical => Some(m.upperCritical)
    case LowerMarginal => Some(m.lowerMarginal)
    case UpperMarginal => Some(m.upperMarginal)
    case NoLimit => None
  }

  /** Does the value reach the named limit? Lower limits are reached from below,
      upper limits from above, both inclusively. `NoLimit` is never "surpassed". */
  predicate Surpasses(m: Measurement, l: Label) {
    match l
    case LowerCritical => m.value <= m.lowerCritical
    case UpperCritical => m.value >= m.upperCritical
    case LowerMarginal => m.value <= m.lowerMarginal
    case UpperMarginal => m.value >= m.upperMarginal
    case NoLimit => false
  }

  /** Position of a label in the order the module tests the limits. */
  function Rank(l: Label): nat {
    match l
    case LowerCritical => 0
    case UpperCritical => 1
    case LowerMarginal => 2
    case UpperMarginal => 3
    case NoLimit => 4
  }

  /** The value lies strictly inside all four limits. */
  predicate WithinLimits(m: Measurement) {
    m.lowerCritical < m.value < m.upperCritical && m.lowerMarginal < m.value < m.upperMarginal
  }

  /**
   The classifier: first match wins, testing lower-critical, upper-critical,
   lower-marginal and upper-marginal in that order.
   */
  function FindLimitSurpassed(m: Measurement): (r: Classification)
    // the accompanying value is the limit the label names
    ensures r.limit == LimitOf(m, r.kind)
    // a returned limit is really reached ...
    ensures r.kind != NoLimit ==> Surpasses(m, r.kind)
    // ... and no limit tested earlier was reached
    ensures forall l :: Rank(l) < Rank(r.kind) ==> !Surpasses(m, l)
    // "no limit surpassed" exactly when the value is strictly inside every limit
    ensures r.kind == NoLimit <==> WithinLimits(m)
  {
    if m.value <= m.lowerCritical then Classification(LowerCritical, Some(m.lowerCritical))
    else if m.value >= m.upperCritical then Classification(UpperCritical, Some(m.upperCritical))
    else if m.value <= m.lowerMarginal then Classification(LowerMarginal, Some(m.lowerMarginal))
    else if m.value >= m.upperMarginal then Classification(UpperMarginal, Some(m.upperMarginal))
    else Classification(NoLimit, None)
  }

  /** The limits in the order they are tested. */
  const Priority: seq<Label> := [LowerCritical, UpperCritical, LowerMarginal, UpperMarginal]

  /** Reference definition: the first label of `ls` whose limit the value reaches. */
  function FirstSurpassed(m: Measurement, ls: seq<Label>): (l: Label)
    ensures l != NoLimit ==> l in ls && Surpasses(m, l)
    ensures l == NoLimit ==> forall k :: 0 <= k < |ls| ==> !Surpasses(m, ls[k])
  {
    if ls == [] then NoLimit
    else if Surpasses(m, ls[0]) then ls[0]
    else FirstSurpassed(m, ls[1..])
  }

  /** The classifier agrees with the priority-list reference definition. */
  lemma FindLimitSurpassedIsFirstInPriority(m: Measurement)
    ensures FindLimitSurpassed(m).kind == FirstSurpassed(m, Priority)
    ensures FindLimitSurpassed(m) == Classification(FirstSurpassed(m, Priority), LimitOf(m, FirstSurpassed(m, Priority)))
  {
    var s1, s2, s3 := Priority[1..], Priority[2..], Priority[3..];
    assert s1 == [UpperCritical, LowerMarginal, UpperMarginal];
    assert s2 == s1[1..] == [LowerMarginal, UpperMarginal];
    assert s3 == s2[1..] == [UpperMarginal];
    assert s3[1..] == [];
    if !Surpasses(m, LowerCritical) {
      assert FirstSurpassed(m, Priority) == FirstSurpassed(m, s1);
      if !Surpasses(m, UpperCritical) {
        assert FirstSurpassed(m, s1) == FirstSurpassed(m, s2);
        if !Surpasses(m, LowerMarginal) {
          assert FirstSurpassed(m, s2) == FirstSurpassed(m, s3);
        }
      }
    }
  }

  /** Lower-critical wins whatever the other three limits are, even when the
      value also reaches the upper-critical limit. */
  lemma LowerCriticalWins(m: Measurement)
    requires m.value <= m.lowerCritical
    ensures FindLimitSurpassed(m) == Classification(LowerCritical, Some(m.lowerCritical))
  {
  }

  /** Upper-critical is returned exactly when lower-critical is not reached and
      upper-critical is. */
  lemma UpperCriticalIff(m: Measurement)
    ensures FindLimitSurpassed(m).kind == UpperCritical
        <==> m.value > m.lowerCritical && m.value >= m.upperCritical
  {
  }

  /** A marginal label means neither critical limit was reached; lower-marginal
      takes precedence over upper-marginal. */
  lemma MarginalOnlyWithoutCritical(m: Measurement)
    ensures FindLimitSurpassed(m).kind in {LowerMarginal, UpperMarginal}
        ==> m.lowerCritical < m.value < m.upperCritical
    ensures FindLimitSurpassed(m).kind == LowerMarginal
        <==> m.lowerCritical < m.value < m.upperCritical && m.value <= m.lowerMarginal
    ensures FindLimitSurpassed(m).kind == UpperMarginal
        <==> m.lowerCritical < m.value < m.upperCritical && m.lowerMarginal < m.value && m.value >= m.upperMarginal
  {
  }

  /** Every bound is inclusive: a value equal to any of the four limits yields a
      label, and a value equal to a limit that is the first one reached yields that limit. */
  lemma BoundsInclusive(m: Measurement, l: Label)
    requires l != NoLimit && LimitOf(m, l) == Some(m.value)
    ensures FindLimitSurpassed(m).kind != NoLimit
    ensures Rank(FindLimitSurpassed(m).kind) <= Rank(l)
  {
  }

  /** The worked example: a viscosity of 144.6 against an upper-critical limit of
      138.0 (marginal 120.0) is an upper-critical violation at 138.0. */
  lemma ViscosityExample()
    ensures FindLimitSurpassed(Measurement("Viscosidad", 144.6, 0.0, 138.0, 0.0, 120.0))
         == Classification(UpperCritical, Some(138.0))
  {
  }
}
