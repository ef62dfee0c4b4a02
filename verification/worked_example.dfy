/**
 * A two-row example table worked through the model: a northern row for
 * city A and partner X, a southern row for city B and partner Y. The
 * example lemmas state fields of `ActualizarDashboard` through the
 * functions that compute them there: the sums and `Porcentaje` of the
 * filtered rows, `SumBy` for the bars, and `OptionsOf` over the filtered
 * rows (cities) or over the whole table (regions).
 */
module WorkedExample {
  import opened Wrappers
  import opened Records
  import opened Filters
  import opened Grouping
  import opened Dashboard
  import opened Distinct
  import opened Text

  /** The example table. */
  const Table: seq<Row> := [Row(10, 100, "A", "X", "North"), Row(5, 50, "B", "Y", "South")]

  lemma SumOfTwo(x: Row, y: Row, m: Measure)
    ensures Sum([x, y], m) == Value(x, m) + Value(y, m)
  {
    assert [x, y][1..] == [y];
    assert [y][1..] == [];
    assert Sum([y], m) == Value(y, m) + Sum([], m);
    assert Sum([x, y], m) == Value(x, m) + Sum([y], m);
  }

  /** No filter: 100 * 15 / 150 = 10 %, totals 150 and 15, bars A:10 then B:5. */
  lemma UnfilteredExample()
    ensures Filtered(Table, None, None, None) == Table
    ensures Sum(Table, TotalPo) == 150 && Sum(Table, Analisis) == 15
    ensures Porcentaje(Table) == 10.0
    ensures SumBy(Table, Ciudad) == [Group("A", 10), Group("B", 5)]
  {
    SumOfTwo(Table[0], Table[1], Analisis);
    SumOfTwo(Table[0], Table[1], TotalPo);
    assert Table[1..] == [Table[1]];
    assert SumBy(Table[1..], Ciudad) == [Group("B", 5)];
    assert Precedes("A", "B");
  }

  /** Region North selected: only the first row is left, and 100 * 10 / 100 = 10 %. */
  lemma NorthExample()
    ensures Filtered(Table, None, None, Some(["North"])) == [Table[0]]
    ensures Porcentaje([Table[0]]) == 10.0
  {
    assert Table[1..] == [Table[1]];
    assert "South" != "North";
    assert Select(Table[1..], None, None, Some(["North"])) == [] by {
      assert Table[1..][1..] == [];
    }
    ChainIsSelect(Table, None, None, Some(["North"]));
    assert [Table[0]][1..] == [];
    assert Sum([Table[0]], Analisis) == 10 && Sum([Table[0]], TotalPo) == 100;
  }

  /** Region North selected: the city dropdown offers only A. */
  lemma NorthCityOptionsExample()
    ensures Values(OptionsOf([Table[0]], Ciudad)) == ["A"]
  {
    assert Column([Table[0]], Ciudad) == ["A"];
    assert Unique(["A"]) == ["A"] by {
      assert ["A"][..0] == [];
    }
  }

  lemma UniqueOfTwo(a: string, b: string)
    requires a != b
    ensures Unique([a, b]) == [a, b]
  {
    assert [a][..0] == [];
    assert Unique([a]) == [a];
    assert [a, b][..1] == [a];
    assert b !in Unique([a]);
    assert Unique([a, b]) == Unique([a]) + [b];
  }

  /** The region dropdown offers both regions, in table order, whatever is selected. */
  lemma RegionOptionsExample()
    ensures Values(OptionsOf(Table, Region)) == ["North", "South"]
  {
    var regions := ["North", "South"];
    assert Column(Table, Region) == regions;
    UniqueOfTwo("North", "South");
    assert OptionsOf(Table, Region) == Options(regions);
  }
}
