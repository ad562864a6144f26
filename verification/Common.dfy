/** What several modules share. */
module Common {

  datatype Option<+T> = None | Some(value: T)

  /** The numbers below `n`. */
  function Upto(n: nat): (r: set<nat>)
    ensures forall i: nat :: i in r <==> i < n
    ensures |r| == n
  {
    if n == 0 then {} else Upto(n - 1) + {n - 1}
  }

  lemma SubsetSize<T>(a: set<T>, b: set<T>)
    requires a <= b
    ensures |a| <= |b|
    ensures |a| == |b| <==> a == b
  {
    assert b == a + (b - a);
  }

  function Elements<T(!new)>(s: seq<T>): (r: set<T>)
    ensures forall x :: x in r <==> x in s
  {
    if s == [] then {} else Elements(s[..|s| - 1]) + {s[|s| - 1]}
  }

  ghost predicate Distinct<T>(s: seq<T>) {
    forall i, j :: 0 <= i < j < |s| ==> s[i] != s[j]
  }

  lemma {:induction false} DistinctSize<T(!new)>(s: seq<T>)
    requires Distinct(s)
    ensures |Elements(s)| == |s|
  {
    if s != [] {
      var init, last := s[..|s| - 1], s[|s| - 1];
      DistinctSize(init);
      assert last !in init;
    }
  }

  /** Distinct numbers below `n` are at most `n`, and exactly `n` when none is left out. */
  lemma Pigeonhole(ids: seq<nat>, n: nat)
    requires Distinct(ids) && forall i :: 0 <= i < |ids| ==> ids[i] < n
    ensures |ids| <= n
    ensures |ids| == n <==> forall i: nat :: i < n ==> i in ids
  {
    DistinctSize(ids);
    SubsetSize(Elements(ids), Upto(n));
  }
}
