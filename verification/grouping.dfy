/**
 * `df_filtrado.groupby(col, as_index=False)['analisis'].sum()`: one entry
 * per distinct key, keys in ascending order (pandas sorts them), each entry
 * the sum of `analisis` over the rows with that key.
 */
module Grouping {
  import opened Text
  import opened Records
  import opened Filters

  /** One row of the grouped frame: the key and its summed `analisis`. */
  datatype Group = Group(key: string, analisis: int)

  function Keys(g: seq<Group>): set<string> {
    set e | e in g :: e.key
  }

  /** Keys strictly ascending: sorted, and no key appears twice. */
  ghost predicate Ascending(g: seq<Group>) {
    forall i, j :: 0 <= i < j < |g| ==> Precedes(g[i].key, g[j].key)
  }

  /** The sum of the entries' amounts. */
  function Total(g: seq<Group>): int {
    if g == [] then 0 else g[0].analisis + Total(g[1..])
  }

  /** The amount shown for `k`: that of its entry, or 0 when there is none. */
  function Amount(g: seq<Group>, k: string): int {
    if g == [] then 0 else if g[0].key == k then g[0].analisis else Amount(g[1..], k)
  }

  lemma {:induction false} AmountAbsent(g: seq<Group>, k: string)
    requires k !in Keys(g)
    ensures Amount(g, k) == 0
  {
    if g != [] {
      assert Keys(g[1..]) <= Keys(g);
      AmountAbsent(g[1..], k);
    }
  }

  /** In an ascending grouping every entry is the one `Amount` finds for its key. */
  lemma {:induction false} AmountOfEntry(g: seq<Group>, i: nat)
    requires Ascending(g) && i < |g|
    ensures Amount(g, g[i].key) == g[i].analisis
  {
    if i > 0 {
      PrecedesIrreflexive(g[i].key);
      assert g[0].key != g[i].key;
      AmountOfEntry(g[1..], i - 1);
    }
  }

  /** A key below the first key of an ascending grouping is below all of them. */
  lemma BelowFirstIsNew(g: seq<Group>, k: string)
    requires Ascending(g) && g != [] && Precedes(k, g[0].key)
    ensures k !in Keys(g)
    ensures forall j :: 0 <= j < |g| ==> Precedes(k, g[j].key)
  {
    forall j | 0 <= j < |g| ensures Precedes(k, g[j].key) {
      if j > 0 {
        PrecedesTransitive(k, g[0].key, g[j].key);
      }
    }
    forall e | e in g ensures e.key != k {
      var j :| 0 <= j < |g| && g[j] == e;
      PrecedesIrreflexive(k);
    }
  }

  /** Adding to the first entry, when it already holds `k`. */
  lemma AddToFirst(g: seq<Group>, k: string, a: int)
    requires Ascending(g) && g != [] && g[0].key == k
    ensures var r := [Group(k, g[0].analisis + a)] + g[1..];
      && Ascending(r)
      && Keys(r) == Keys(g) + {k}
      && Total(r) == Total(g) + a
      && forall k' :: Amount(r, k') == Amount(g, k') + (if k' == k then a else 0)
  {
    var r := [Group(k, g[0].analisis + a)] + g[1..];
    assert r[1..] == g[1..];
    assert forall i :: 0 <= i < |r| ==> r[i].key == g[i].key;
    assert Keys(g) == {k} + Keys(g[1..]);
    assert Keys(r) == {k} + Keys(g[1..]);
  }

  /** A new entry in front, when `k` sorts before every key present. */
  lemma AddInFront(g: seq<Group>, k: string, a: int)
    requires Ascending(g) && g != [] && Precedes(k, g[0].key)
    ensures var r := [Group(k, a)] + g;
      && Ascending(r)
      && Keys(r) == Keys(g) + {k}
      && Total(r) == Total(g) + a
      && forall k' :: Amount(r, k') == Amount(g, k') + (if k' == k then a else 0)
  {
    BelowFirstIsNew(g, k);
    AmountAbsent(g, k);
    var r := [Group(k, a)] + g;
    assert r[1..] == g;
    forall i, j | 0 <= i < j < |r| ensures Precedes(r[i].key, r[j].key) {
      assert r[j] == g[j - 1];
      if i > 0 {
        assert r[i] == g[i - 1];
      }
    }
    assert Keys(r) == {k} + Keys(g);
    forall k' ensures Amount(r, k') == Amount(g, k') + (if k' == k then a else 0) {
      if k' != k {
        assert Amount(r, k') == Amount(g, k');
      }
    }
  }

  /** The first key stays in front when `k`, a later key, is added to the others. */
  lemma FirstStaysFirst(g: seq<Group>, k: string, rest: seq<Group>)
    requires Ascending(g) && g != [] && Precedes(g[0].key, k)
    requires Ascending(rest) && Keys(rest) == Keys(g[1..]) + {k}
    ensures Ascending([g[0]] + rest)
  {
    var r := [g[0]] + rest;
    forall j | 0 <= j < |rest| ensures Precedes(g[0].key, rest[j].key) {
      assert rest[j].key in Keys(rest);
      if rest[j].key != k {
        assert rest[j].key in Keys(g[1..]);
        var e :| e in g[1..] && e.key == rest[j].key;
        var m :| 0 <= m < |g[1..]| && g[1..][m] == e;
        assert g[m + 1] == e;
      }
    }
    forall i, j | 0 <= i < j < |r| ensures Precedes(r[i].key, r[j].key) {
      assert r[j] == rest[j - 1];
      if i > 0 {
        assert r[i] == rest[i - 1];
      }
    }
  }

  /** The first entry kept in front of `rest`, the result of adding to the others. */
  lemma AddBehindFirst(g: seq<Group>, k: string, a: int, rest: seq<Group>)
    requires Ascending(g) && g != [] && Precedes(g[0].key, k)
    requires Ascending(rest)
    requires Keys(rest) == Keys(g[1..]) + {k}
    requires Total(rest) == Total(g[1..]) + a
    requires forall k' :: Amount(rest, k') == Amount(g[1..], k') + (if k' == k then a else 0)
    ensures var r := [g[0]] + rest;
      && Ascending(r)
      && Keys(r) == Keys(g) + {k}
      && Total(r) == Total(g) + a
      && forall k' :: Amount(r, k') == Amount(g, k') + (if k' == k then a else 0)
  {
    FirstStaysFirst(g, k, rest);
    var r := [g[0]] + rest;
    assert r[1..] == rest;
    assert Keys(g) == {g[0].key} + Keys(g[1..]);
    assert Keys(r) == {g[0].key} + Keys(rest);
    assert g[0].key != k by { PrecedesIrreflexive(k); }
  }

  /** Adds `a` to the entry for `k`, creating that entry in its sorted place when missing. */
  function Add(g: seq<Group>, k: string, a: int): (r: seq<Group>)
    requires Ascending(g)
    ensures Ascending(r)
    ensures Keys(r) == Keys(g) + {k}
    ensures Total(r) == Total(g) + a
    ensures forall k' :: Amount(r, k') == Amount(g, k') + (if k' == k then a else 0)
  {
    if g == [] then
      [Group(k, a)]
    else if g[0].key == k then
      AddToFirst(g, k, a);
      [Group(k, g[0].analisis + a)] + g[1..]
    else if Precedes(k, g[0].key) then
      AddInFront(g, k, a);
      [Group(k, a)] + g
    else
      PrecedesTotal(k, g[0].key);
      var rest := Add(g[1..], k, a);
      AddBehindFirst(g, k, a, rest);
      [g[0]] + rest
  }

  /**
   * The grouped frame of `rows` by `d`: ascending keys, exactly the keys
   * present in `rows`, each amount the sum of `analisis` over that key's
   * rows (0 for a key that is absent), and the amounts adding up to the
   * total of `analisis`.
   */
  function SumBy(rows: seq<Row>, d: Dimension): (g: seq<Group>)
    ensures Ascending(g)
    ensures Keys(g) == KeySet(rows, d)
    ensures forall k :: Amount(g, k) == Sum(IsIn(rows, d, [k]), Analisis)
    ensures Total(g) == Sum(rows, Analisis)
  {
    if rows == [] then []
    else
      var x := rows[0];
      var rest := SumBy(rows[1..], d);
      assert KeySet(rows, d) == {Key(x, d)} + KeySet(rows[1..], d) by {
        assert rows == [x] + rows[1..];
      }
      forall k ensures Sum(IsIn(rows, d, [k]), Analisis)
                    == (if k == Key(x, d) then x.analisis else 0) + Sum(IsIn(rows[1..], d, [k]), Analisis) {
        var tail := IsIn(rows[1..], d, [k]);
        assert IsIn(rows, d, [k]) == (if k == Key(x, d) then [x] else []) + tail;
        if k == Key(x, d) {
          assert ([x] + tail)[1..] == tail;
        } else {
          assert [] + tail == tail;
        }
      }
      Add(rest, Key(x, d), x.analisis)
  }

  /** Each bar of the chart carries the sum of `analisis` over the rows of its key. */
  lemma SumByEntries(rows: seq<Row>, d: Dimension)
    ensures forall i :: 0 <= i < |SumBy(rows, d)| ==>
      SumBy(rows, d)[i].analisis == Sum(IsIn(rows, d, [SumBy(rows, d)[i].key]), Analisis)
  {
    var g := SumBy(rows, d);
    forall i | 0 <= i < |g| ensures g[i].analisis == Sum(IsIn(rows, d, [g[i].key]), Analisis) {
      AmountOfEntry(g, i);
    }
  }
}
