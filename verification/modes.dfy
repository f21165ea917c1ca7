/**
 The copy-mode selector of CopyCameraProperties (the C# `Options` enum).

 A C# enum is an int underneath: the five named members are 0..4 in
 declaration order, and any other int can still be stored in the field
 (through a cast or a hand-edited scene file). `Undefined(code)` is such a
 value, which is what makes the `default:` branch of the dispatch reachable.
 */
module CopyModes {

  datatype Options =
    | CopyTransform
    | CopyFOV
    | CopyTransformAndFOV
    | CopyTransformReduced
    | CopyTransformAndFOVReduced
    | Undefined(code: int)
  {
    /** An `Undefined` value never carries the code of a named member. */
    predicate WellFormed() {
      Undefined? ==> !(0 <= code < 5)
    }
  }

  /** The values the C# field can actually hold: one per int. */
  type Mode = m: Options | m.WellFormed() witness CopyTransform

  /** The int stored for a mode. */
  function Value(m: Mode): (n: int)
    ensures 0 <= n < 5 <==> !m.Undefined?
  {
    match m
    case CopyTransform => 0
    case CopyFOV => 1
    case CopyTransformAndFOV => 2
    case CopyTransformReduced => 3
    case CopyTransformAndFOVReduced => 4
    case Undefined(code) => code
  }

  /** The mode a stored int denotes. */
  function FromValue(n: int): (m: Mode)
    ensures m.Undefined? <==> !(0 <= n < 5)
  {
    if n == 0 then CopyTransform
    else if n == 1 then CopyFOV
    else if n == 2 then CopyTransformAndFOV
    else if n == 3 then CopyTransformReduced
    else if n == 4 then CopyTransformAndFOVReduced
    else Undefined(n)
  }

  /** Every stored int reads back as itself. */
  lemma ValueOfFromValue(n: int)
    ensures Value(FromValue(n)) == n
  {
  }

  /** Every mode survives being stored as an int. */
  lemma FromValueOfValue(m: Mode)
    ensures FromValue(Value(m)) == m
  {
  }

  /** The modes whose dispatch branch reads and writes a field of view
      through the cached camera handles. */
  predicate CopiesFov(m: Options) {
    match m
    case CopyFOV | CopyTransformAndFOV | CopyTransformAndFOVReduced => true
    case _ => false
  }

  /** The modes whose dispatch branch writes the target position; the
      fallback branch for an undefined mode is one of them. */
  predicate CopiesPosition(m: Options) {
    !m.CopyFOV?
  }

  /** The modes whose position copy attenuates the X axis. */
  predicate IsReduced(m: Options) {
    m.CopyTransformReduced? || m.CopyTransformAndFOVReduced?
  }

  /** The unreduced counterpart a branch comment names for each reduced mode;
      every other mode is its own counterpart. */
  function Unreduced(m: Mode): (u: Mode)
    ensures !IsReduced(u)
    ensures CopiesFov(u) == CopiesFov(m) && CopiesPosition(u) == CopiesPosition(m)
    ensures u == m <==> !IsReduced(m)
  {
    match m
    case CopyTransformReduced => CopyTransform
    case CopyTransformAndFOVReduced => CopyTransformAndFOV
    case _ => m
  }
}
