# Verticafé series builder, in Dafny

Verticafé is one server-rendered page that charts coffee consumption read from
a spreadsheet. The page component `Home` receives three tables of text cells:
`types` (a header row of coffee types), `totals` (date and cups per row) and
`totalsByType` (date, then one count column per type). From them it computes:

- the total number of cups, a `reduce` over `totals`;
- the aggregate dataset, one series labelled "Coffee" with one point per `totals` row;
- the per-type dataset, one series per header cell, where type `i` reads column `i + 1`;
- which of the two datasets goes to the chart, chosen by the `showTypes` state that the button flips.

This project models that logic and proves its properties. It has three modules:

- `JsNumber` (`js_number.dfy`) covers cells and JavaScript's `Number(...)`.
  A cell is `Text(s)`, or `Undefined` when the index is past the end of the row.
  A number is `Val(int)` or `NaN`. `Number` maps the empty text to 0, as JavaScript does.
  It maps an optional sign followed by decimal digits to that integer.
  It maps every other text, and `undefined`, to NaN. `Add` lets NaN absorb.
  `Show` is JavaScript's `String` on integers of magnitude below 2^53. It serves as `Number`'s inverse.
- `SeriesBuilder` (`series_builder.dfy`) covers the `Coffee` and `Series` records and the total.
  `Total` is the left fold that `reduce` performs.
  `Points` is the `map` from rows to chart points.
  `TotalsData`, and the function `TypesData`, specify the two datasets.
  `BuildTypesData` is the `forEach`/`push` loop, proved against `TypesData`.
- `Home` (`home.dfy`) covers the component state.
  `HomeView` has the `showTypes` field, the toggle and the render.
  The tables are parameters of the render, because fetching them is I/O and is not modelled.

Three behaviours of the code are kept as written:

- A blank count cell that the spreadsheet returns as `""` adds 0 to the total. A count cell missing from a short row adds NaN.
- An empty `types` table makes `types[0].forEach` throw a TypeError. The render then yields `TypeError` and no page.
- The total can be NaN, not only an integer: the code adds `Number(...)` values and nothing rejects NaN.

The `label` field of the source's `Series` type is called `name` here, because `label` is a reserved word in Dafny.

## Model

| member | source | states |
|---|---|---|
| `JsNumber.ParseShow` | pages/index.tsx:98 | `Number` reads back every integer that `Show` writes: `Number(Text(Show(n))) == Val(n)` for every integer `n`, negative ones included |
| `JsNumber.NonNumeralIsNaN` | pages/index.tsx:74 | a text with a character that is neither a digit nor a leading sign followed by more text (such as "n/a") gives NaN |
| `JsNumber.NumberIgnoresLeadingZeros` | pages/index.tsx:108 | `Number` of a count cell written with leading zeros (such as "007") is the count itself |
| `JsNumber.AddCommutes` | pages/index.tsx:74 | the `+` of the fold gives the same result with its operands swapped, NaN included |
| `JsNumber.AddAssociates` | pages/index.tsx:74 | the `+` of the fold can be regrouped, NaN included, so partial totals may be combined in any grouping |
| `JsNumber.DigitsValueOfNatDigits` | pages/index.tsx:98 | reading the decimal digits of a natural number gives back that number |
| `SeriesBuilder.Total` | pages/index.tsx:74 | the total is NaN if and only if some `totals` row has a missing or non-numeric column 1; no row is skipped |
| `SeriesBuilder.TotalOfConcat` | pages/index.tsx:74 | the total of two tables placed one after the other is the sum of their totals |
| `SeriesBuilder.TotalIsColumnSum` | pages/index.tsx:74 | when every column 1 holds a number, the left fold from 0 equals the arithmetic sum of column 1 |
| `SeriesBuilder.TotalIgnoresOrder` | pages/index.tsx:74 | two tables that hold the same rows in any order have the same total |
| `SeriesBuilder.EmptyTotals` | pages/index.tsx:74-100 | an empty `totals` table gives a total of 0 and a "Coffee" series with no points |
| `SeriesBuilder.NonNumericRowExample` | pages/index.tsx:74-98 | an "n/a" count anywhere in `totals` gives that row's point NaN cups and makes the total NaN |
| `SeriesBuilder.Points` | pages/index.tsx:98 | the map gives one point per row and keeps row order; point `j` has `date == rows[j][0]` (undefined for an empty row) and `cups == Number(rows[j][col])` |
| `SeriesBuilder.TotalsData` | pages/index.tsx:95-100 | the aggregate dataset is exactly one series named "Coffee" with one point per `totals` row, in row order; point `j` is dated `totals[j][0]` and counts `Number(totals[j][1])` |
| `SeriesBuilder.TotalMatchesAggregateSeries` | pages/index.tsx:74-100 | the aggregate dataset is exactly one series labelled "Coffee"; the total shown is the fold of that series' cups |
| `SeriesBuilder.BuildTypesData` | pages/index.tsx:102-111 | throws exactly when `types` is empty; otherwise yields `TypesData(types[0], totalsByType)`: one series per cell of `types[0]`, in header order, and series `i` is labelled `types[0][i]` with one point per `totalsByType` row, whose cups come from column `i + 1` |
| `SeriesBuilder.TypesDataExtends` | pages/index.tsx:102-111 | processing header index `k` appends exactly the series of index `k` and leaves every earlier series unchanged |
| `SeriesBuilder.MissingColumnIsNaN` | pages/index.tsx:106-109 | a `totalsByType` row too short to hold column `i + 1` gives NaN cups in series `i` |
| `SeriesBuilder.TwoTypesExample` | pages/index.tsx:102-111 | header "Espresso", "Filter" with row "2024-01-01", "3", "5" gives Espresso 3 cups and Filter 5 cups on that date |
| `Home.SelectedDataset` | pages/index.tsx:113 | what the chart receives: with `showTypes` on, one series per cell of `types[0]`, named by it, each with one point per `totalsByType` row; with it off, the single "Coffee" series with one point per `totals` row |
| `Home.ButtonLabel` | pages/index.tsx:135 | the button reads "Show types" if and only if `showTypes` is false, and "Hide types" if and only if it is true |
| `Home.ClicksParity` | pages/index.tsx:72-135 | from the initial `false`, an even number of presses shows the aggregate series and offers "Show types"; an odd number shows the per-type series and offers "Hide types"; two more presses always restore the view |
| `Home.HomeView.constructor` | pages/index.tsx:72 | the state starts with `showTypes` false, which is the aggregate view |
| `Home.HomeView.Toggle` | pages/index.tsx:134 | a press negates `showTypes` |
| `Home.HomeView.ToggleTwice` | pages/index.tsx:134 | two presses return `showTypes` to its previous value |
| `Home.HomeView.Render` | pages/index.tsx:71-113 | the render fails with TypeError exactly when `types` is empty; otherwise it shows `Total(totals)`, the per-type dataset when `showTypes` holds and the aggregate dataset when it does not, and the matching button label |

Some functions model a source expression without a contract of their own.
The members listed above state their properties:

- `JsNumber.CellAt` is `row[k]` (pages/index.tsx:74, 98, 107-108). `SeriesBuilder.Points` and `SeriesBuilder.MissingColumnIsNaN` state what it yields inside and past the end of a row.
- `JsNumber.Number` and `JsNumber.ParseText` are `Number(...)` (pages/index.tsx:74, 98, 108). `JsNumber.ParseShow`, `JsNumber.NumberIgnoresLeadingZeros` and `JsNumber.NonNumeralIsNaN` state their properties.
- `JsNumber.Add` is the `+` of the fold (pages/index.tsx:74). `JsNumber.AddCommutes`, `JsNumber.AddAssociates` and the NaN clause of `SeriesBuilder.Total` state its properties.
- `Home.Selected` is `showTypes ? typesData : totalsData` (pages/index.tsx:113). `Home.SelectedDataset`, `Home.ClicksParity` and `Home.HomeView.Render` state its properties.

## Left out

- `getServerSideProps` (JWT service-account authentication, environment variables, the private-key unescaping, three spreadsheet reads) is I/O and foreign calls. The three tables are parameters of `Render` instead.
- A spreadsheet response without a `values` field would make a prop `undefined`. The model always receives three tables, possibly empty.
- React hooks and rendering are not modelled: the `useMemo` axis configurations, the Chakra UI markup and the `react-charts` chart. `Render` returns the values the markup displays.
- `Number` semantics beyond integers are not modelled: fractions, exponents, hexadecimal, binary (`0b`) and octal (`0o`) prefixes, whitespace trimming, `Infinity`, `-0`, and the loss of precision above 2^53. In the model such texts are NaN or exact integers.
- Whether rows are in chronological order is not modelled. The code neither sorts nor checks the order, so the model only proves that input order is kept.
