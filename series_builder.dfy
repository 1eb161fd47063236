/** The series builder of the home page: the three spreadsheet tables
    (`types`, `totals`, `totalsByType`, rows of text cells) become the running
    total of cups, the aggregate "Coffee" series and one series per coffee type. */
module SeriesBuilder {
  import opened JsNumber

  /** A range read: rows of text cells, with no schema beyond column position. */
  type Table = seq<seq<string>>

  /** One chart point. `date` is `row[0]`, which is `undefined` for an empty row. */
  datatype Coffee = Coffee(date: Cell, cups: Num)

  datatype Series = Series(name: string, data: seq<Coffee>)

  /** Evaluating the page either yields a value or throws a TypeError. */
  datatype Outcome<T> = Ok(value: T) | TypeError

  /** The cups value that the total adds for one `totals` row. */
  function RowCups(row: seq<string>): Num
  {
    Number(CellAt(row, 1))
  }

  /** `totals.reduce((prev, cur) => prev + Number(cur[1]), 0)`: a left fold from 0.
      The total is NaN exactly when some row has a missing or non-numeric column 1. */
  function Total(totals: Table): (t: Num)
    ensures t.NaN? <==> exists j :: 0 <= j < |totals| && RowCups(totals[j]).NaN?
  {
    if totals == [] then Val(0)
    else Add(Total(totals[..|totals| - 1]), RowCups(totals[|totals| - 1]))
  }

  /** Every row has a number in column 1. */
  ghost predicate AllNumeric(totals: Table)
  {
    forall j :: 0 <= j < |totals| ==> RowCups(totals[j]).Val?
  }

  /** The arithmetic sum of column 1, added up from the first row on. */
  ghost function ColumnSum(totals: Table): int
    requires AllNumeric(totals)
  {
    if totals == [] then 0 else RowCups(totals[0]).v + ColumnSum(totals[1..])
  }

  /** The chart point that the page builds from `row`, with cups read from column `col`. */
  function Point(row: seq<string>, col: nat): Coffee
  {
    Coffee(CellAt(row, 0), Number(CellAt(row, col)))
  }

  /** `rows.map(r => ({ date: r[0], cups: Number(r[col]) }))`: one point per row,
      in row order. */
  function Points(rows: Table, col: nat): (r: seq<Coffee>)
    ensures |r| == |rows|
    ensures forall j :: 0 <= j < |rows| ==>
      r[j].date == CellAt(rows[j], 0) && r[j].cups == Number(CellAt(rows[j], col))
  {
    if rows == [] then [] else [Point(rows[0], col)] + Points(rows[1..], col)
  }

  /** The aggregate dataset: a single series labelled "Coffee" with one point
      per `totals` row, in row order, dated by column 0 and counted by column 1. */
  function TotalsData(totals: Table): (r: seq<Series>)
    ensures |r| == 1 && r[0].name == "Coffee" && |r[0].data| == |totals|
    ensures forall j :: 0 <= j < |totals| ==>
      r[0].data[j] == Coffee(CellAt(totals[j], 0), Number(CellAt(totals[j], 1)))
  {
    [Series("Coffee", Points(totals, 1))]
  }

  /** The series of the coffee type at header position `i`: its counts sit in
      column `i + 1` of every `totalsByType` row. */
  function TypeSeries(header: seq<string>, totalsByType: Table, i: nat): Series
    requires i < |header|
  {
    Series(header[i], Points(totalsByType, i + 1))
  }

  /** The per-type dataset for a header row, in header order. */
  function TypesData(header: seq<string>, totalsByType: Table): seq<Series>
  {
    seq(|header|, i requires 0 <= i < |header| => TypeSeries(header, totalsByType, i))
  }

  /** Left fold of the cups of a series, as the page's reduce adds them. */
  function SumCups(points: seq<Coffee>): Num
  {
    if points == [] then Val(0) else Add(SumCups(points[..|points| - 1]), points[|points| - 1].cups)
  }

  /** `types[0].forEach((type, index) => typesData.push(...))`. The loop only
      appends, so after header index `k` the array holds the series of
      indices 0..k and nothing before them changes. `types[0]` of an empty
      table is `undefined`, and calling `forEach` on it throws. */
  method BuildTypesData(types: Table, totalsByType: Table) returns (r: Outcome<seq<Series>>)
    ensures r.TypeError? <==> types == []
    ensures r.Ok? ==> r.value == TypesData(types[0], totalsByType)
    ensures r.Ok? ==> (|r.value| == |types[0]| &&
      forall i :: 0 <= i < |types[0]| ==>
        r.value[i].name == types[0][i] && |r.value[i].data| == |totalsByType| &&
        forall j :: 0 <= j < |totalsByType| ==>
          r.value[i].data[j] == Coffee(CellAt(totalsByType[j], 0), Number(CellAt(totalsByType[j], i + 1))))
  {
    if types == [] {
      return TypeError;
    }
    var header := types[0];
    var typesData: seq<Series> := [];
    var index := 0;
    while index < |header|
      invariant 0 <= index <= |header|
      invariant typesData == TypesData(header[..index], totalsByType)
      invariant forall i :: 0 <= i < index ==> typesData[i] == TypeSeries(header, totalsByType, i)
    {
      typesData := typesData + [Series(header[index], Points(totalsByType, index + 1))];
      index := index + 1;
    }
    assert header[..index] == header;
    r := Ok(typesData);
  }

  lemma {:induction false} TotalOfConcat(a: Table, b: Table)
    ensures Total(a + b) == Add(Total(a), Total(b))
  {
    if b == [] {
      assert a + b == a;
    } else {
      var b' := b[..|b| - 1];
      assert (a + b)[..|a + b| - 1] == a + b';
      TotalOfConcat(a, b');
      AddAssociates(Total(a), Total(b'), RowCups(b[|b| - 1]));
    }
  }

  /** `ColumnSum` adds from the first row on; the last row can equally be
      added at the end. */
  lemma {:induction false} ColumnSumOfLast(totals: Table)
    requires totals != [] && AllNumeric(totals)
    ensures AllNumeric(totals[..|totals| - 1])
    ensures ColumnSum(totals) == ColumnSum(totals[..|totals| - 1]) + RowCups(totals[|totals| - 1]).v
  {
    var front := totals[..|totals| - 1];
    assert forall j :: 0 <= j < |front| ==> front[j] == totals[j];
    if |totals| > 1 {
      var tail := totals[1..];
      assert forall j :: 0 <= j < |tail| ==> tail[j] == totals[j + 1];
      ColumnSumOfLast(tail);
      assert tail[..|tail| - 1] == front[1..];
    }
  }

  /** With a number in every column 1, the total is the arithmetic sum of that
      column; with no rows it is 0. */
  lemma {:induction false} TotalIsColumnSum(totals: Table)
    requires AllNumeric(totals)
    ensures Total(totals) == Val(ColumnSum(totals))
  {
    if totals != [] {
      var front := totals[..|totals| - 1];
      ColumnSumOfLast(totals);
      TotalIsColumnSum(front);
    }
  }

  /** The total does not depend on the order of the rows. */
  lemma {:induction false} TotalIgnoresOrder(a: Table, b: Table)
    requires multiset(a) == multiset(b)
    ensures Total(a) == Total(b)
  {
    if a != [] {
      var x := a[0];
      assert x in multiset(b);
      var i :| 0 <= i < |b| && b[i] == x;
      var rest := b[..i] + b[i + 1..];
      assert b == b[..i] + [x] + b[i + 1..];
      assert a == [x] + a[1..];
      assert multiset(b) == multiset(b[..i]) + multiset{x} + multiset(b[i + 1..]);
      assert multiset(a) == multiset{x} + multiset(a[1..]);
      assert multiset(rest) == multiset(b[..i]) + multiset(b[i + 1..]);
      assert multiset(a[1..]) == multiset(a) - multiset{x};
      assert multiset(rest) == multiset(b) - multiset{x};
      TotalIgnoresOrder(a[1..], rest);
      TotalOfConcat([x], a[1..]);
      TotalOfConcat(b[..i] + [x], b[i + 1..]);
      TotalOfConcat(b[..i], [x]);
      TotalOfConcat(b[..i], b[i + 1..]);
      AddAssociates(Total(b[..i]), Total([x]), Total(b[i + 1..]));
      AddCommutes(Total(b[..i]), Total([x]));
      AddAssociates(Total([x]), Total(b[..i]), Total(b[i + 1..]));
    }
  }

  /** The aggregate series has one point per `totals` row, in order, and the
      figure shown as the total is the fold of exactly those points' cups. */
  lemma {:induction false} TotalMatchesAggregateSeries(totals: Table)
    ensures |TotalsData(totals)| == 1 && TotalsData(totals)[0].name == "Coffee"
    ensures Total(totals) == SumCups(TotalsData(totals)[0].data)
  {
    if totals != [] {
      var n := |totals|;
      var front := totals[..n - 1];
      TotalMatchesAggregateSeries(front);
      assert Points(totals, 1)[..n - 1] == Points(front, 1);
    }
  }

  /** Appending a header cell appends exactly one series and leaves the
      earlier ones as they were. */
  lemma TypesDataExtends(header: seq<string>, totalsByType: Table, k: nat)
    requires k < |header|
    ensures TypesData(header[..k + 1], totalsByType)
      == TypesData(header[..k], totalsByType) + [TypeSeries(header, totalsByType, k)]
  {
  }

  /** With no rows there are no points and the total is 0. */
  lemma EmptyTotals()
    ensures Total([]) == Val(0) && TotalsData([]) == [Series("Coffee", [])]
  {
  }

  /** A header of `"Espresso", "Filter"` and the row `"2024-01-01", "3", "5"`
      give one point per type, from columns 1 and 2. */
  lemma TwoTypesExample()
    ensures TypesData(["Espresso", "Filter"], [["2024-01-01", "3", "5"]])
      == [Series("Espresso", [Coffee(Text("2024-01-01"), Val(3))]),
          Series("Filter", [Coffee(Text("2024-01-01"), Val(5))])]
  {
    var rows: Table := [["2024-01-01", "3", "5"]];
    assert ParseText("3") == Val(3) by { assert IsDigits("3"); assert DigitsValue("3") == 3; }
    assert ParseText("5") == Val(5) by { assert IsDigits("5"); assert DigitsValue("5") == 5; }
    var espresso, filter := Points(rows, 1), Points(rows, 2);
    assert espresso == [Coffee(Text("2024-01-01"), Val(3))];
    assert filter == [Coffee(Text("2024-01-01"), Val(5))];
  }

  /** A type with no column in a short row reads `undefined`, so its point is NaN. */
  lemma MissingColumnIsNaN(header: seq<string>, totalsByType: Table, i: nat, j: nat)
    requires i < |header| && j < |totalsByType| && |totalsByType[j]| <= i + 1
    ensures TypesData(header, totalsByType)[i].data[j].cups == NaN
  {
  }

  /** A row whose count reads "n/a" contributes a NaN point and makes the
      total NaN instead of being skipped. */
  lemma NonNumericRowExample(before: Table, after: Table)
    ensures Points(before + [["2024-01-02", "n/a"]] + after, 1)[|before|].cups == NaN
    ensures Total(before + [["2024-01-02", "n/a"]] + after) == NaN
  {
    var rows := before + [["2024-01-02", "n/a"]] + after;
    assert rows[|before|] == ["2024-01-02", "n/a"];
    NonNumeralIsNaN("n/a", 0);
    assert RowCups(rows[|before|]).NaN?;
  }
}
