/**
  Swift's `switch` over a `Double`, as the colour and outfit functions use it.

  A case label that is a range literal matches through the range's `~=`
  operator; the cases are tried top to bottom and the first one that matches
  supplies the result; when none matches, the `default` branch runs.
  This module states that semantics once, as a first-match lookup over a
  table of arms, and proves the two facts every client needs: which arm a
  value selects, and when the default is reached.
 */
module Switch {

  /** The four range-pattern forms that occur in the source. */
  datatype Interval =
    | AtLeast(lo: real)            // `lo...`   (PartialRangeFrom)
    | Closed(lo: real, hi: real)   // `lo...hi` (ClosedRange)
    | HalfOpen(lo: real, hi: real) // `lo..<hi` (Range)
    | Below(hi: real)              // `..<hi`   (PartialRangeUpTo)

  /** Swift's `range ~= value`. */
  predicate Contains(range: Interval, t: real)
  {
    match range
    case AtLeast(lo) => lo <= t
    case Closed(lo, hi) => lo <= t <= hi
    case HalfOpen(lo, hi) => lo <= t < hi
    case Below(hi) => t < hi
  }

  /** A one-key `switch t { case r0: return v0 ... default: return fallback }`. */
  function Select<T>(arms: seq<(Interval, T)>, t: real, fallback: T): T
  {
    if arms == [] then fallback
    else if Contains(arms[0].0, t) then arms[0].1
    else Select(arms[1..], t, fallback)
  }

  /** No arm before index `k` matches `t`. */
  predicate MissesBefore<T>(arms: seq<(Interval, T)>, t: real, k: nat)
    requires k <= |arms|
  {
    forall j | 0 <= j < k :: !Contains(arms[j].0, t)
  }

  /** The first arm that matches is the one whose body the switch returns. */
  lemma {:induction false} SelectPicks<T>(arms: seq<(Interval, T)>, t: real, fallback: T, k: nat)
    requires k < |arms| && Contains(arms[k].0, t)
    requires MissesBefore(arms, t, k)
    ensures Select(arms, t, fallback) == arms[k].1
  {
    if k > 0 {
      assert !Contains(arms[0].0, t);
      SelectPicks(arms[1..], t, fallback, k - 1);
    }
  }

  /** When no arm matches, the `default` branch supplies the result. */
  lemma {:induction false} SelectFallback<T>(arms: seq<(Interval, T)>, t: real, fallback: T)
    requires MissesBefore(arms, t, |arms|)
    ensures Select(arms, t, fallback) == fallback
  {
    if arms != [] {
      assert !Contains(arms[0].0, t);
      SelectFallback(arms[1..], t, fallback);
    }
  }
}
