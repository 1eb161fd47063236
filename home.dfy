/** The `Home` page component: its one piece of state, `showTypes`, the button
    that flips it, and one render, which computes the total and both datasets
    and hands the selected one to the chart. */
module Home {
  import opened JsNumber
  import opened SeriesBuilder

  /** The three tables the page receives from the server. */
  datatype Props = Props(types: Table, totals: Table, totalsByType: Table)

  /** What one render shows: the total, the chart's dataset and the button text. */
  datatype Page = Page(total: Num, data: seq<Series>, buttonLabel: string)

  /** `showTypes ? typesData : totalsData`. */
  function Selected(showTypes: bool, typesData: seq<Series>, totalsData: seq<Series>): seq<Series>
  {
    if showTypes then typesData else totalsData
  }

  /** `{!showTypes ? "Show" : "Hide"} types`: the button offers the view that is
      not showing. */
  function ButtonLabel(showTypes: bool): (text: string)
    ensures text == "Show types" <==> !showTypes
    ensures text == "Hide types" <==> showTypes
  {
    assert "Show types"[0] != "Hide types"[0];
    (if !showTypes then "Show" else "Hide") + " types"
  }

  /** The dataset handed to the chart: with the per-type view on, one series
      per header cell, named by it; with it off, the single "Coffee" series
      with one point per `totals` row. */
  lemma SelectedDataset(showTypes: bool, props: Props)
    requires props.types != []
    ensures var data := Selected(showTypes, TypesData(props.types[0], props.totalsByType), TotalsData(props.totals));
      (showTypes ==> (|data| == |props.types[0]| &&
        forall i :: 0 <= i < |data| ==> data[i].name == props.types[0][i] && |data[i].data| == |props.totalsByType|)) &&
      (!showTypes ==> |data| == 1 && data[0].name == "Coffee" && |data[0].data| == |props.totals|)
  {
  }

  /** `showTypes` after the button has been pressed `clicks` times, starting
      from `useState(false)`. */
  function ShowTypesAfter(clicks: nat): bool
  {
    if clicks == 0 then false else !ShowTypesAfter(clicks - 1)
  }

  /** After an even number of presses the page shows the aggregate series and
      offers "Show types"; after an odd number it shows the per-type series and
      offers "Hide types". Two more presses always lead back to the same view. */
  lemma {:induction false} ClicksParity(clicks: nat, typesData: seq<Series>, totalsData: seq<Series>)
    ensures ShowTypesAfter(clicks) <==> clicks % 2 == 1
    ensures Selected(ShowTypesAfter(clicks), typesData, totalsData)
      == if clicks % 2 == 0 then totalsData else typesData
    ensures ButtonLabel(ShowTypesAfter(clicks)) == if clicks % 2 == 0 then "Show types" else "Hide types"
    ensures Selected(ShowTypesAfter(clicks + 2), typesData, totalsData)
      == Selected(ShowTypesAfter(clicks), typesData, totalsData)
  {
    if clicks > 0 {
      ClicksParity(clicks - 1, typesData, totalsData);
    }
  }

  /** The mounted component. `clicks` counts button presses since mounting. */
  class HomeView {
    var showTypes: bool
    ghost var clicks: nat

    ghost predicate Valid()
      reads this
    {
      showTypes == ShowTypesAfter(clicks)
    }

    /** `useState(false)`: the aggregate view shows first. */
    constructor ()
      ensures Valid() && clicks == 0 && !showTypes
    {
      showTypes := false;
      clicks := 0;
    }

    /** The button's `onClick`: `setShowTypes(!showTypes)`. */
    method Toggle()
      requires Valid()
      modifies this
      ensures Valid() && clicks == old(clicks) + 1
      ensures showTypes == !old(showTypes)
    {
      showTypes := !showTypes;
      clicks := clicks + 1;
    }

    /** Not an operation of the page: the stated property that two presses
        of the button restore the view that was showing. */
    method ToggleTwice()
      requires Valid()
      modifies this
      ensures Valid() && clicks == old(clicks) + 2
      ensures showTypes == old(showTypes)
    {
      Toggle();
      Toggle();
    }

    /** One evaluation of the component body. The total and both datasets are
        rebuilt from the tables; `types[0].forEach` throws when `types` has no
        row, which aborts the render; otherwise the chart gets the per-type
        series when `showTypes` holds and the aggregate series when it does not. */
    method Render(props: Props) returns (page: Outcome<Page>)
      ensures page.TypeError? <==> props.types == []
      ensures page.Ok? ==> page.value.total == Total(props.totals)
      ensures page.Ok? && showTypes ==> page.value.data == TypesData(props.types[0], props.totalsByType)
      ensures page.Ok? && !showTypes ==> page.value.data == TotalsData(props.totals)
      ensures page.Ok? ==> page.value.buttonLabel == ButtonLabel(showTypes)
    {
      var total := Total(props.totals);
      var data: seq<Series> := [];
      var totalsData := TotalsData(props.totals);
      var typesData := BuildTypesData(props.types, props.totalsByType);
      if typesData.TypeError? {
        return TypeError;
      }
      data := Selected(showTypes, typesData.value, totalsData);
      page := Ok(Page(total, data, ButtonLabel(showTypes)));
    }
  }
}
