/**
 * Start-up: `cargar_datos` reads `mi_tabla` and normalises its column
 * labels; the script then stops unless the data arrived and the five
 * columns the dashboard reads are among the labels.
 */
module Loader {
  import opened Wrappers
  import opened Text
  import opened Records

  /** A loaded table: its column labels, and its records as the callback reads them. */
  datatype Frame = Frame(columns: seq<string>, rows: seq<Row>)

  /** The two `ValueError`s raised at start-up. */
  datatype LoadError =
    | NoData                                 // the query raised and `cargar_datos` returned None
    | MissingColumns(available: seq<string>)  // a required column is absent; the message lists the labels found

  /** `columnas_necesarias`. */
  const RequiredColumns: set<string> := {"analisis", "total_po", "ciudad", "aliado", "regi\U{F3}n"}

  /** `label.lower().strip()`: the result has no capital and neither starts nor ends with whitespace. */
  function NormalizeColumn(c: string): (r: string)
    ensures IsLower(r)
    ensures r == [] || (!IsSpace(r[0]) && !IsSpace(r[|r| - 1]))
  {
    var l := Lower(c);
    LowerIsLower(c);
    StripKeepsLower(l);
    Strip(l)
  }

  /** Normalising a label a second time changes nothing. */
  lemma NormalizeColumnIdempotent(c: string)
    ensures NormalizeColumn(NormalizeColumn(c)) == NormalizeColumn(c)
  {
    var r := NormalizeColumn(c);
    assert Lower(r) == r;
    StripIdempotent(Lower(c));
  }

  /** `df.columns.str.lower().str.strip()`. */
  function NormalizeColumns(columns: seq<string>): (r: seq<string>)
    ensures |r| == |columns|
    ensures forall i :: 0 <= i < |r| ==> r[i] == NormalizeColumn(columns[i])
  {
    seq(|columns|, i requires 0 <= i < |columns| => NormalizeColumn(columns[i]))
  }

  /**
   * `cargar_datos`: `query` is the result of `SELECT * FROM mi_tabla`, or
   * None when it raised. The records pass through; the labels are normalised.
   */
  function CargarDatos(query: Option<Frame>): (r: Option<Frame>)
    ensures r.Some? <==> query.Some?
    ensures r.Some? ==> r.value.rows == query.value.rows
    ensures r.Some? ==> r.value.columns == NormalizeColumns(query.value.columns)
  {
    match query
    case None => None
    case Some(frame) => Some(Frame(NormalizeColumns(frame.columns), frame.rows))
  }

  /** `columnas_necesarias.issubset(set(df.columns))`: every required name is one of the labels. */
  function HasRequiredColumns(columns: seq<string>): (b: bool)
    ensures b <==> forall c :: c in RequiredColumns ==> c in columns
  {
    RequiredColumns <= set c | c in columns
  }

  /**
   * The module-level start-up: the normalised table, or the error the
   * script raises. It succeeds exactly when the data arrived and all five
   * required names are among the normalised labels.
   */
  function Startup(query: Option<Frame>): (r: Result<Frame, LoadError>)
    ensures query.None? ==> r == Failure(NoData)
    ensures query.Some? ==> (r.Success? <==> HasRequiredColumns(NormalizeColumns(query.value.columns)))
    ensures r.Success? ==> query.Some? && r.value == Frame(NormalizeColumns(query.value.columns), query.value.rows)
    ensures r.Success? ==> HasRequiredColumns(r.value.columns)
    ensures query.Some? && r.Failure? ==> r.error == MissingColumns(NormalizeColumns(query.value.columns))
  {
    match CargarDatos(query)
    case None => Failure(NoData)
    case Some(df) =>
      if HasRequiredColumns(df.columns) then Success(df)
      else Failure(MissingColumns(df.columns))
  }

  /** A label that lower-cases to a word with whitespace around it normalises to that word. */
  lemma NormalizePadded(heading: string, pre: string, word: string, post: string)
    requires Lower(heading) == pre + word + post
    requires AllSpace(pre) && AllSpace(post)
    requires word != [] && !IsSpace(word[0]) && !IsSpace(word[|word| - 1])
    ensures NormalizeColumn(heading) == word
  {
    StripPadding(pre, word, post);
  }

  /** The accented capital of `REGIÓN` lower-cases too, so a padded upper-case heading still names the region column. */
  lemma RegionHeadingNormalizes()
    ensures NormalizeColumn(" REGI\U{D3}N\t") == "regi\U{F3}n"
    ensures "regi\U{F3}n" in RequiredColumns
  {
    NormalizePadded(" REGI\U{D3}N\t", " ", "regi\U{F3}n", "\t");
  }
}
