/**
 * The filter chain of `actualizar_dashboard`: region, then city, then
 * partner, each an inclusion filter that is skipped when its selection is
 * empty or unset.
 */
module Filters {
  import opened Wrappers
  import opened Records

  /** A multi-select dropdown's value: `None` until the user picks, then the picked values. */
  type Selection = Option<seq<string>>

  /** Python truthiness of a selection: `if region:` is false for `None` and for `[]`. */
  predicate Active(sel: Selection) {
    sel.Some? && |sel.value| > 0
  }

  /** Whether a row whose value is `v` gets past the filter for `sel`. */
  predicate Admits(sel: Selection, v: string) {
    !Active(sel) || v in sel.value
  }

  /** `df[df[col].isin(values)]`: the rows whose value in `d` is one of `values`, in order. */
  function IsIn(rows: seq<Row>, d: Dimension, values: seq<string>): (r: seq<Row>)
    ensures |r| <= |rows|
    ensures forall x :: x in r <==> x in rows && Key(x, d) in values
  {
    if rows == [] then []
    else (if Key(rows[0], d) in values then [rows[0]] else []) + IsIn(rows[1..], d, values)
  }

  /** One step of the chain: `if sel: df_filtrado = df_filtrado[df_filtrado[col].isin(sel)]`. */
  function Narrow(rows: seq<Row>, d: Dimension, sel: Selection): (r: seq<Row>)
    ensures !Active(sel) ==> r == rows
    ensures forall x :: x in r <==> x in rows && Admits(sel, Key(x, d))
  {
    if Active(sel) then IsIn(rows, d, sel.value) else rows
  }

  /** The three filters together: the condition a row must meet to be shown. */
  predicate Matches(x: Row, ciudad: Selection, aliado: Selection, region: Selection) {
    Admits(region, x.region) && Admits(ciudad, x.ciudad) && Admits(aliado, x.aliado)
  }

  /** `a` is `b` with some elements left out and the rest in their original order. */
  predicate IsSubsequence<T(==)>(a: seq<T>, b: seq<T>) {
    if a == [] then true
    else if b == [] then false
    else (a[0] == b[0] && IsSubsequence(a[1..], b[1..])) || IsSubsequence(a, b[1..])
  }

  /** Reference definition of the chain: one pass that keeps exactly the matching rows. */
  function Select(rows: seq<Row>, ciudad: Selection, aliado: Selection, region: Selection): (r: seq<Row>)
    ensures IsSubsequence(r, rows)
    ensures forall x :: multiset(r)[x] == if Matches(x, ciudad, aliado, region) then multiset(rows)[x] else 0
  {
    if rows == [] then []
    else
      assert rows == [rows[0]] + rows[1..];
      var rest := Select(rows[1..], ciudad, aliado, region);
      if Matches(rows[0], ciudad, aliado, region) then
        assert ([rows[0]] + rest)[1..] == rest;
        [rows[0]] + rest
      else
        rest
  }

  lemma {:induction false} IsInAppend(a: seq<Row>, b: seq<Row>, d: Dimension, values: seq<string>)
    ensures IsIn(a + b, d, values) == IsIn(a, d, values) + IsIn(b, d, values)
  {
    if a == [] {
      assert a + b == b;
    } else {
      var head := if Key(a[0], d) in values then [a[0]] else [];
      assert (a + b)[0] == a[0] && (a + b)[1..] == a[1..] + b;
      assert IsIn(a + b, d, values) == head + IsIn(a[1..] + b, d, values);
      IsInAppend(a[1..], b, d, values);
      assert IsIn(a, d, values) == head + IsIn(a[1..], d, values);
    }
  }

  lemma NarrowAppend(a: seq<Row>, b: seq<Row>, d: Dimension, sel: Selection)
    ensures Narrow(a + b, d, sel) == Narrow(a, d, sel) + Narrow(b, d, sel)
  {
    if Active(sel) {
      IsInAppend(a, b, d, sel.value);
    }
  }

  lemma NarrowSingle(x: Row, d: Dimension, sel: Selection)
    ensures Narrow([x], d, sel) == if Admits(sel, Key(x, d)) then [x] else []
  {
    if Active(sel) {
      assert [x][1..] == [];
      assert IsIn([x], d, sel.value) == (if Key(x, d) in sel.value then [x] else []) + IsIn([], d, sel.value);
    }
  }

  /** Filtering region, then city, then partner keeps exactly the rows that pass all three. */
  lemma {:induction false} ChainIsSelect(rows: seq<Row>, ciudad: Selection, aliado: Selection, region: Selection)
    ensures Narrow(Narrow(Narrow(rows, Region, region), Ciudad, ciudad), Aliado, aliado)
         == Select(rows, ciudad, aliado, region)
  {
    if rows != [] {
      var x, rest := rows[0], rows[1..];
      assert rows == [x] + rest;
      NarrowAppend([x], rest, Region, region);
      NarrowSingle(x, Region, region);
      var r1 := if Admits(region, x.region) then [x] else [];
      NarrowAppend(r1, Narrow(rest, Region, region), Ciudad, ciudad);
      NarrowSingle(x, Ciudad, ciudad);
      var r2 := if Admits(region, x.region) && Admits(ciudad, x.ciudad) then [x] else [];
      assert Narrow(r1, Ciudad, ciudad) == r2;
      NarrowAppend(r2, Narrow(Narrow(rest, Region, region), Ciudad, ciudad), Aliado, aliado);
      NarrowSingle(x, Aliado, aliado);
      var r3 := if Matches(x, ciudad, aliado, region) then [x] else [];
      assert Narrow(r2, Aliado, aliado) == r3;
      ChainIsSelect(rest, ciudad, aliado, region);
    }
  }

  /**
   * `df_filtrado` after lines 100-106: an order-preserving subsequence of
   * the base rows that keeps every copy of a matching row and nothing else;
   * with no active selection it is the base itself.
   */
  function Filtered(base: seq<Row>, ciudad: Selection, aliado: Selection, region: Selection): (r: seq<Row>)
    ensures IsSubsequence(r, base)
    ensures forall x :: multiset(r)[x] == if Matches(x, ciudad, aliado, region) then multiset(base)[x] else 0
    ensures forall x :: x in r <==> x in base && Matches(x, ciudad, aliado, region)
    ensures !Active(ciudad) && !Active(aliado) && !Active(region) ==> r == base
  {
    ChainIsSelect(base, ciudad, aliado, region);
    Narrow(Narrow(Narrow(base, Region, region), Ciudad, ciudad), Aliado, aliado)
  }
}
