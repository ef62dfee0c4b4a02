/** pandas `Series.unique()`: each value once, in the order of its first appearance. */
module Distinct {

  /** No value occurs twice. */
  predicate NoDuplicates(s: seq<string>) {
    forall i, j :: 0 <= i < j < |s| ==> s[i] != s[j]
  }

  /** The position of the first occurrence of `v` in `s`. */
  function FirstIndex(s: seq<string>, v: string): (i: nat)
    requires v in s
    ensures i < |s| && s[i] == v && v !in s[..i]
  {
    if s[0] == v then 0
    else
      var i := 1 + FirstIndex(s[1..], v);
      assert s[..i] == [s[0]] + s[1..][..i - 1];
      i
  }

  lemma {:induction false} FirstIndexInPrefix(p: seq<string>, x: string, v: string)
    requires v in p
    ensures FirstIndex(p + [x], v) == FirstIndex(p, v)
  {
    if p[0] != v {
      assert (p + [x])[1..] == p[1..] + [x];
      FirstIndexInPrefix(p[1..], x, v);
    }
  }

  lemma {:induction false} FirstIndexOfNew(p: seq<string>, x: string)
    requires x !in p
    ensures FirstIndex(p + [x], x) == |p|
  {
    if p != [] {
      assert (p + [x])[1..] == p[1..] + [x];
      FirstIndexOfNew(p[1..], x);
    }
  }

  /**
   * `Series.unique()`: no duplicates, the same values as `s`, and listed in
   * the order in which they first occur in `s`.
   */
  function Unique(s: seq<string>): (u: seq<string>)
    ensures NoDuplicates(u)
    ensures forall v :: v in u <==> v in s
    ensures forall i, j :: 0 <= i < j < |u| ==> FirstIndex(s, u[i]) < FirstIndex(s, u[j])
  {
    if s == [] then []
    else
      var p, x := s[..|s| - 1], s[|s| - 1];
      assert s == p + [x];
      var u := Unique(p);
      forall v | v in p ensures FirstIndex(s, v) == FirstIndex(p, v) {
        FirstIndexInPrefix(p, x, v);
      }
      if x in u then
        u
      else
        FirstIndexOfNew(p, x);
        var r := u + [x];
        assert forall i :: 0 <= i < |u| ==> r[i] == u[i];
        r
  }
}
