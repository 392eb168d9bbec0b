/**
 * The JavaScript array operations the source applies to its lists: `indexOf` and
 * `splice(start, 1)`.
 */
module JsArray {

  /** `s.indexOf(x)`: the first position of `x`, or -1. */
  function PositionOf<T(==)>(s: seq<T>, x: T): (i: int)
    ensures -1 <= i < |s|
    ensures i >= 0 ==> s[i] == x && x !in s[..i]
    ensures i < 0 ==> x !in s
  {
    if s == [] then -1
    else if s[0] == x then 0
    else
      var k := PositionOf(s[1..], x);
      if k < 0 then -1 else (assert s[..k + 1] == [s[0]] + s[1..][..k]; k + 1)
  }

  /**
   * `s.splice(start, 1)`, the array left behind: a negative start counts from the end, so
   * `splice(-1, 1)` drops the last element.
   */
  function SpliceOne<T>(s: seq<T>, start: int): (r: seq<T>)
    ensures 0 <= start < |s| ==> r == s[..start] + s[start + 1..]
    ensures start == -1 && s != [] ==> r == s[..|s| - 1]
  {
    var from := if start < 0 then (if |s| + start < 0 then 0 else |s| + start)
                else (if start > |s| then |s| else start);
    var count := if |s| - from < 1 then |s| - from else 1;
    s[..from] + s[from + count..]
  }

  predicate Distinct<T(==)>(s: seq<T>) {
    forall i, j | 0 <= i < j < |s| :: s[i] != s[j]
  }

  /** After removing position `i`, each element comes from the same place, or one further on. */
  lemma SpliceOneShifts<T>(s: seq<T>, i: int)
    requires 0 <= i < |s|
    ensures |SpliceOne(s, i)| == |s| - 1
    ensures forall j | 0 <= j < i :: SpliceOne(s, i)[j] == s[j]
    ensures forall j | i <= j < |s| - 1 :: SpliceOne(s, i)[j] == s[j + 1]
  {
  }

  /** Removing a present element of a list without repeats removes exactly that element. */
  lemma RemovePresent<T>(s: seq<T>, x: T)
    requires Distinct(s) && x in s
    ensures var r := SpliceOne(s, PositionOf(s, x));
      && x !in r && Distinct(r)
      && (forall y | y in s && y != x :: y in r)
      && (forall y | y in r :: y in s)
      && |r| == |s| - 1
  {
    var i := PositionOf(s, x);
    var r := SpliceOne(s, i);
    SpliceOneShifts(s, i);
    forall y | y in s && y != x ensures y in r {
      var j :| 0 <= j < |s| && s[j] == y;
      if j < i { assert r[j] == y; } else { assert r[j - 1] == y; }
    }
    forall y | y in r ensures y in s {
      var j :| 0 <= j < |r| && r[j] == y;
      if j < i { assert s[j] == y; } else { assert s[j + 1] == y; }
    }
    forall a, b | 0 <= a < b < |r| ensures r[a] != r[b] {
      var a' := if a < i then a else a + 1;
      var b' := if b < i then b else b + 1;
      assert r[a] == s[a'] && r[b] == s[b'];
    }
    forall j | 0 <= j < |r| ensures r[j] != x {
      var j' := if j < i then j else j + 1;
      assert r[j] == s[j'] && j' != i;
    }
  }

  /** Removing an absent element drops the last one instead, as `splice(-1, 1)` does. */
  lemma RemoveAbsent<T>(s: seq<T>, x: T)
    requires x !in s && s != []
    ensures SpliceOne(s, PositionOf(s, x)) == s[..|s| - 1]
  {
  }
}
