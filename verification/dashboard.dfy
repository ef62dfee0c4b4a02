/**
 * The `actualizar_dashboard` callback: filter the base table by the three
 * dropdowns, then compute the three headline figures, the two grouped
 * series behind the charts and the new option lists of the dropdowns.
 */
module Dashboard {
  import opened Records
  import opened Filters
  import opened Grouping
  import opened Distinct

  /** One entry of a dropdown's options: `{'label': c, 'value': c}`, the label held in `text`. */
  datatype DropdownOption = DropdownOption(text: string, value: string)

  /** The option list built from a list of values, one option per value, text and value alike. */
  function Options(values: seq<string>): (o: seq<DropdownOption>)
    ensures |o| == |values|
    ensures forall i :: 0 <= i < |o| ==> o[i].text == o[i].value == values[i]
  {
    seq(|values|, i requires 0 <= i < |values| => DropdownOption(values[i], values[i]))
  }

  /** The values a dropdown offers. */
  function Values(o: seq<DropdownOption>): seq<string> {
    seq(|o|, i requires 0 <= i < |o| => o[i].value)
  }

  /**
   * The division in the percentage is defined: the callback guards only
   * the empty result, so a non-empty result must have a non-zero
   * `total_po` sum.
   */
  predicate Guarded(rows: seq<Row>) {
    rows == [] || Sum(rows, TotalPo) != 0
  }

  /** `p` is `part` as a percentage of `whole`: `p * whole == 100 * part`. */
  predicate PercentOf(p: real, part: int, whole: int) {
    p * whole as real == 100.0 * part as real
  }

  /**
   * `porcentaje`: 0 on no rows, otherwise the exact ratio with
   * `porcentaje * sum(total_po) == 100 * sum(analisis)`.
   */
  function Porcentaje(rows: seq<Row>): (p: real)
    requires Guarded(rows)
    ensures rows == [] ==> p == 0.0
    ensures rows != [] ==> PercentOf(p, Sum(rows, Analisis), Sum(rows, TotalPo))
  {
    if rows == [] then 0.0
    else
      var a, t := Sum(rows, Analisis) as real, Sum(rows, TotalPo) as real;
      assert (a / t) * t == a;
      (a / t) * 100.0
  }

  /** Everything the callback returns, the two figures reduced to the frames they plot. */
  datatype View = View(
    porcentaje: real,
    publicoObjetivo: int,
    cargasPresenze: int,
    barras: seq<Group>,
    lineas: seq<Group>,
    ciudadesOptions: seq<DropdownOption>,
    aliadosOptions: seq<DropdownOption>,
    regionesOptions: seq<DropdownOption>)

  /**
   * The options of one dropdown: the distinct values of a column, listed in
   * the order of their first appearance in the column, each label equal to
   * its value.
   */
  function OptionsOf(rows: seq<Row>, d: Dimension): (o: seq<DropdownOption>)
    ensures Values(o) == Unique(Column(rows, d))
    ensures NoDuplicates(Values(o))
    ensures forall v :: v in Values(o) <==> v in KeySet(rows, d)
    ensures forall i, j :: 0 <= i < j < |Values(o)| ==>
      FirstIndex(Column(rows, d), Values(o)[i]) < FirstIndex(Column(rows, d), Values(o)[j])
    ensures forall i :: 0 <= i < |o| ==> o[i].text == o[i].value
  {
    var u := Unique(Column(rows, d));
    var o := Options(u);
    assert Values(o) == u;
    o
  }

  /**
   * The callback. The three figures are the sums and the ratio over the
   * filtered rows; both charts conserve `cargasPresenze` and have one
   * ascending entry per key present; the city and partner options list the
   * distinct values of the filtered rows and the region options those of
   * the whole table, each in first-appearance order.
   */
  function ActualizarDashboard(base: seq<Row>, ciudad: Selection, aliado: Selection, region: Selection): (v: View)
    requires Guarded(Filtered(base, ciudad, aliado, region))
    ensures var f := Filtered(base, ciudad, aliado, region);
      && v.publicoObjetivo == Sum(f, TotalPo)
      && v.cargasPresenze == Sum(f, Analisis)
      && (f == [] ==> v.porcentaje == 0.0)
      && (f != [] ==> PercentOf(v.porcentaje, v.cargasPresenze, v.publicoObjetivo))
    ensures var f := Filtered(base, ciudad, aliado, region);
      && Ascending(v.barras) && Keys(v.barras) == KeySet(f, Ciudad)
      && (forall k :: Amount(v.barras, k) == Sum(IsIn(f, Ciudad, [k]), Analisis))
      && Total(v.barras) == v.cargasPresenze
    ensures var f := Filtered(base, ciudad, aliado, region);
      && Ascending(v.lineas) && Keys(v.lineas) == KeySet(f, Aliado)
      && (forall k :: Amount(v.lineas, k) == Sum(IsIn(f, Aliado, [k]), Analisis))
      && Total(v.lineas) == v.cargasPresenze
    ensures var f := Filtered(base, ciudad, aliado, region);
      && Values(v.ciudadesOptions) == Unique(Column(f, Ciudad))
      && NoDuplicates(Values(v.ciudadesOptions))
      && (forall c :: c in Values(v.ciudadesOptions) <==> c in KeySet(f, Ciudad))
      && Values(v.aliadosOptions) == Unique(Column(f, Aliado))
      && NoDuplicates(Values(v.aliadosOptions))
      && (forall a :: a in Values(v.aliadosOptions) <==> a in KeySet(f, Aliado))
    ensures Values(v.regionesOptions) == Unique(Column(base, Region))
    ensures NoDuplicates(Values(v.regionesOptions))
    ensures forall r :: r in Values(v.regionesOptions) <==> r in KeySet(base, Region)
    ensures forall i :: 0 <= i < |v.ciudadesOptions| ==> v.ciudadesOptions[i].text == v.ciudadesOptions[i].value
    ensures forall i :: 0 <= i < |v.aliadosOptions| ==> v.aliadosOptions[i].text == v.aliadosOptions[i].value
    ensures forall i :: 0 <= i < |v.regionesOptions| ==> v.regionesOptions[i].text == v.regionesOptions[i].value
  {
    var f := Filtered(base, ciudad, aliado, region);
    var porcentaje := Porcentaje(f);
    var publicoObjetivo, cargasPresenze := Sum(f, TotalPo), Sum(f, Analisis);
    var barras, lineas := SumBy(f, Ciudad), SumBy(f, Aliado);
    var ciudades, aliados, regiones := OptionsOf(f, Ciudad), OptionsOf(f, Aliado), OptionsOf(base, Region);
    View(porcentaje, publicoObjetivo, cargasPresenze, barras, lineas, ciudades, aliados, regiones)
  }

  /** When no row survives the filters every figure is 0 and both charts are empty. */
  lemma EmptyResultShowsZero(base: seq<Row>, ciudad: Selection, aliado: Selection, region: Selection)
    requires Filtered(base, ciudad, aliado, region) == []
    ensures var v := ActualizarDashboard(base, ciudad, aliado, region);
      && v.porcentaje == 0.0 && v.publicoObjetivo == 0 && v.cargasPresenze == 0
      && v.barras == [] && v.lineas == []
      && v.ciudadesOptions == [] && v.aliadosOptions == []
  {
  }

  /** The region dropdown's options are the same whatever is selected in any of the three dropdowns. */
  lemma RegionOptionsIgnoreSelections(base: seq<Row>,
                                      c1: Selection, a1: Selection, r1: Selection,
                                      c2: Selection, a2: Selection, r2: Selection)
    requires Guarded(Filtered(base, c1, a1, r1)) && Guarded(Filtered(base, c2, a2, r2))
    ensures ActualizarDashboard(base, c1, a1, r1).regionesOptions
         == ActualizarDashboard(base, c2, a2, r2).regionesOptions
  {
  }

  /** With nothing selected the figures cover the whole table. */
  lemma NoSelectionShowsWholeTable(base: seq<Row>, ciudad: Selection, aliado: Selection, region: Selection)
    requires !Active(ciudad) && !Active(aliado) && !Active(region)
    requires Guarded(base)
    ensures var v := ActualizarDashboard(base, ciudad, aliado, region);
      && v.publicoObjetivo == Sum(base, TotalPo) && v.cargasPresenze == Sum(base, Analisis)
      && Keys(v.barras) == KeySet(base, Ciudad) && Keys(v.lineas) == KeySet(base, Aliado)
  {
  }
}
