/** Small shared vocabulary: optional values and histories with repetitions removed. */
module Prelude {

  datatype Option<+T> = None | Some(value: T) {
    function GetOr(default: T): T {
      if Some? then value else default
    }
  }

  /** Python's `int` of a float: truncation toward zero. */
  function Truncate(x: real): int {
    if x >= 0.0 then x.Floor else -((-x).Floor)
  }

  lemma {:induction false} Associative<T>(a: seq<T>, b: seq<T>, c: seq<T>)
    ensures (a + b) + c == a + (b + c)
  {
  }

  /** The elements of a history in the order of their first occurrence. */
  function FirstOccurrences<T(==)>(history: seq<T>): seq<T> {
    if history == [] then []
    else
      var earlier := history[..|history| - 1];
      var last := history[|history| - 1];
      if last in earlier then FirstOccurrences(earlier) else FirstOccurrences(earlier) + [last]
  }

  lemma {:induction false} FirstOccurrencesOfAppend<T>(history: seq<T>, x: T)
    ensures FirstOccurrences(history + [x])
         == if x in history then FirstOccurrences(history) else FirstOccurrences(history) + [x]
  {
    assert (history + [x])[..|history|] == history;
  }

  lemma {:induction false} FirstOccurrencesMembers<T>(history: seq<T>, x: T)
    ensures x in FirstOccurrences(history) <==> x in history
  {
    if history != [] {
      var earlier := history[..|history| - 1];
      var last := history[|history| - 1];
      assert history == earlier + [last];
      FirstOccurrencesMembers(earlier, x);
      FirstOccurrencesMembers(earlier, last);
    }
  }

  ghost predicate Distinct<T>(xs: seq<T>) {
    forall i, j :: 0 <= i < j < |xs| ==> xs[i] != xs[j]
  }

  /** A scan that may restart earlier, but never skips ahead of what it has already seen,
      sees new elements in list order. */
  lemma {:induction false} RestartableScan<T>(history: seq<T>, list: seq<T>, seen: nat, k: nat)
    requires Distinct(list)
    requires seen <= |list| && k <= seen && k < |list|
    requires FirstOccurrences(history) == list[..seen]
    ensures FirstOccurrences(history + [list[k]]) == list[..if k == seen then seen + 1 else seen]
  {
    FirstOccurrencesOfAppend(history, list[k]);
    FirstOccurrencesMembers(history, list[k]);
    if k < seen {
      assert list[..seen][k] == list[k];
    } else {
      assert list[k] !in list[..seen];
      assert list[..seen] + [list[seen]] == list[..seen + 1];
    }
  }

  /** Removing repetitions leaves none, and changes nothing when there are none. */
  lemma {:induction false} FirstOccurrencesDistinct<T>(history: seq<T>)
    ensures Distinct(FirstOccurrences(history))
  {
    if history != [] {
      var earlier := history[..|history| - 1];
      FirstOccurrencesDistinct(earlier);
      FirstOccurrencesMembers(earlier, history[|history| - 1]);
    }
  }
}
