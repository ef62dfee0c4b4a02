/** The one entity of the dashboard: a row of `mi_tabla` as the callback reads it. */
module Records {

  /**
   * A record with the five columns the dashboard needs: `analisis`,
   * `total_po`, `ciudad`, `aliado` and `región`. Both counts are integers.
   */
  datatype Row = Row(analisis: int, totalPo: int, ciudad: string, aliado: string, region: string)

  /** The three categorical columns a filter or a group-by can name. */
  datatype Dimension = Ciudad | Aliado | Region

  function Key(r: Row, d: Dimension): string {
    match d
    case Ciudad => r.ciudad
    case Aliado => r.aliado
    case Region => r.region
  }

  /** The two numeric columns that are summed. */
  datatype Measure = Analisis | TotalPo

  function Value(r: Row, m: Measure): int {
    match m
    case Analisis => r.analisis
    case TotalPo => r.totalPo
  }

  /**
   * pandas `Series.sum()` over one numeric column: 0 on no rows, and never
   * negative when no row holds a negative count.
   */
  function Sum(rows: seq<Row>, m: Measure): (s: int)
    ensures rows == [] ==> s == 0
    ensures (forall i :: 0 <= i < |rows| ==> Value(rows[i], m) >= 0) ==> s >= 0
  {
    if rows == [] then 0 else Value(rows[0], m) + Sum(rows[1..], m)
  }

  /** The sum over two tables put one after the other is the sum of their sums. */
  lemma {:induction false} SumAppend(a: seq<Row>, b: seq<Row>, m: Measure)
    ensures Sum(a + b, m) == Sum(a, m) + Sum(b, m)
  {
    if a == [] {
      assert a + b == b;
    } else {
      assert (a + b)[0] == a[0] && (a + b)[1..] == a[1..] + b;
      SumAppend(a[1..], b, m);
    }
  }

  /** One categorical column, row by row (`df['ciudad']`). */
  function Column(rows: seq<Row>, d: Dimension): (c: seq<string>)
    ensures |c| == |rows|
    ensures forall i :: 0 <= i < |rows| ==> c[i] == Key(rows[i], d)
    ensures forall v :: v in c <==> v in KeySet(rows, d)
  {
    seq(|rows|, i requires 0 <= i < |rows| => Key(rows[i], d))
  }

  /** The distinct values of one categorical column. */
  function KeySet(rows: seq<Row>, d: Dimension): set<string> {
    set x | x in rows :: Key(x, d)
  }
}
