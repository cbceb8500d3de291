/** `DashboardPage` (pages/dashboard/dashboard.page.ts): seven components
    merged over the page's own (empty) maps in a fixed order. Each component
    is encoded by the key sets of its `*.locators.ts` builders; the
    statistics chart's builders are not part of this model, so its maps are
    a constructor parameter. */
module DashboardPage {
  import opened Locators
  import opened Navigation
  import BasePage

  const DashboardUrl: string := "./vue-element-admin/#/dashboard"

  /** The page's own maps (dashboard.locators.ts): both empty. */
  const BaseOnLoadLocators: LocatorMap := map[]
  const BaseLocators: LocatorMap := BaseOnLoadLocators

  const BudgetChart: Component :=
    Build("budgetChart",
      {"chartContainer", "lineChart", "weeklyRadio", "monthlyRadio", "budgetLegend", "spendingLegend"},
      {"dataPoints", "tooltips"})

  const AreasChart: Component :=
    Build("areasChart",
      {"chartContainer", "areaChart", "newVisitsLegend", "messagesLegend", "purchasesLegend"},
      {"dataPoints", "tooltips"})

  const WeekChart: Component :=
    Build("weekChart", {"chartContainer", "lineChart"}, {"dataPoints", "tooltips"})

  const OrderTable: Component :=
    Build("orderTable", {"orderTable", "orderTableHeaders"}, {"orderRows"})

  const TodoList: Component :=
    Build("todoList", {"todoInput", "todoList", "todoItems"},
      {"todoCheckboxes", "todoCompletedItems", "todoActiveItems"})

  const ProgressCard: Component :=
    Build("progressCard",
      {"progressContainer", "vueProgress", "javascriptProgress", "cssProgress", "eslintProgress"},
      {"progressBars"})

  /** The list `getComponents()` returns, for a given statistics chart. */
  function Components(statsChart: Component): seq<Component> {
    [statsChart, BudgetChart, AreasChart, WeekChart, OrderTable, TodoList, ProgressCard]
  }

  function MergedLocators(statsChart: Component): LocatorMap {
    BasePage.MergeLocators(BaseLocators, Components(statsChart))
  }

  function MergedOnLoadLocators(statsChart: Component): LocatorMap {
    BasePage.MergeOnLoadLocators(BaseOnLoadLocators, Components(statsChart))
  }

  /** `DashboardPage`: the seven components, and the page base that holds the merged maps. */
  class DashboardPage {
    const statsChart: Component
    const budgetChart: Component
    const areasChart: Component
    const weekChart: Component
    const orderTable: Component
    const todoList: Component
    const progressCard: Component
    const pageBase: BasePage.PageBase

    /** Builds every component first, then merges their maps once, in `getComponents()` order. */
    constructor (statsChart: Component)
      ensures this.statsChart == statsChart && budgetChart == BudgetChart && areasChart == AreasChart
      ensures weekChart == WeekChart && orderTable == OrderTable && todoList == TodoList
      ensures progressCard == ProgressCard
      ensures GetComponents() == Components(statsChart)
      ensures fresh(pageBase) && pageBase.url == DashboardUrl
      ensures pageBase.locators == BasePage.MergeLocators(BaseLocators, GetComponents())
      ensures pageBase.onLoadLocators == BasePage.MergeOnLoadLocators(BaseOnLoadLocators, GetComponents())
      ensures pageBase.dynamicPath == "" && pageBase.trace == []
    {
      this.statsChart := statsChart;
      budgetChart := BudgetChart;
      areasChart := AreasChart;
      weekChart := WeekChart;
      orderTable := OrderTable;
      todoList := TodoList;
      progressCard := ProgressCard;
      var components := [statsChart, BudgetChart, AreasChart, WeekChart, OrderTable, TodoList, ProgressCard];
      pageBase := new BasePage.PageBase(DashboardUrl,
        BasePage.MergeOnLoadLocators(BaseOnLoadLocators, components),
        BasePage.MergeLocators(BaseLocators, components));
    }

    /** `getComponents()`. */
    function GetComponents(): seq<Component> {
      [statsChart, budgetChart, areasChart, weekChart, orderTable, todoList, progressCard]
    }
  }

  /** The merged entry for `key` is the week chart's. */
  predicate FromWeekChart(m: LocatorMap, key: string) {
    key in m && m[key] == Loc("weekChart", key)
  }

  /** The keys of the week chart that the budget or areas chart also uses
      (each is shared by two or three of the budget, areas and week charts):
      all in the week chart's full map, the first two also in its on-load map. */
  predicate ChartKey(key: string) {
    key == "chartContainer" || key == "lineChart" || key == "dataPoints" || key == "tooltips"
  }

  lemma WeekChartKeys(key: string)
    requires ChartKey(key)
    ensures key in WeekChart.locators
    ensures key == "chartContainer" || key == "lineChart" ==> key in WeekChart.onLoadLocators
  {
  }

  /** The components merged after the week chart use none of its keys. */
  lemma LaterComponentsLackChartKeys(key: string)
    requires ChartKey(key)
    ensures key !in OrderTable.locators && key !in TodoList.locators && key !in ProgressCard.locators
    ensures key !in OrderTable.onLoadLocators && key !in TodoList.onLoadLocators && key !in ProgressCard.onLoadLocators
  {
  }

  /** If the week chart (index 3) defines `key` and no later component does,
      the merged entry is the week chart's. */
  lemma WeekChartWins(components: seq<Component>, which: BasePage.Which, key: string)
    requires |components| == 7 && components[3] == WeekChart
    requires key in BasePage.Pick(WeekChart, which)
    requires key !in BasePage.Pick(components[4], which)
    requires key !in BasePage.Pick(components[5], which)
    requires key !in BasePage.Pick(components[6], which)
    ensures FromWeekChart(BasePage.Merge(map[], components, which), key)
  {
    BasePage.MergeKeys(map[], components, which, key);
    BasePage.MergeLastWriteWins(map[], components, which, key);
    assert BasePage.LastDefining(components, which, key) == 3;
  }

  /** The keys the budget, areas and week charts share all resolve to the
      week chart, which is merged after the other two and whose keys no later
      component reuses: `chartContainer`, `lineChart`, `dataPoints` and
      `tooltips` in `locators`, and `chartContainer` and `lineChart` in
      `onLoadLocators`. */
  lemma SharedChartKeysFromWeekChart(statsChart: Component)
    ensures FromWeekChart(MergedLocators(statsChart), "chartContainer")
    ensures FromWeekChart(MergedLocators(statsChart), "lineChart")
    ensures FromWeekChart(MergedLocators(statsChart), "dataPoints")
    ensures FromWeekChart(MergedLocators(statsChart), "tooltips")
    ensures FromWeekChart(MergedOnLoadLocators(statsChart), "chartContainer")
    ensures FromWeekChart(MergedOnLoadLocators(statsChart), "lineChart")
  {
    FullChartKeyFromWeekChart(statsChart, "chartContainer");
    FullChartKeyFromWeekChart(statsChart, "lineChart");
    FullChartKeyFromWeekChart(statsChart, "dataPoints");
    FullChartKeyFromWeekChart(statsChart, "tooltips");
    OnLoadChartKeyFromWeekChart(statsChart, "chartContainer");
    OnLoadChartKeyFromWeekChart(statsChart, "lineChart");
  }

  lemma FullChartKeyFromWeekChart(statsChart: Component, key: string)
    requires ChartKey(key)
    ensures FromWeekChart(MergedLocators(statsChart), key)
  {
    WeekChartKeys(key);
    LaterComponentsLackChartKeys(key);
    WeekChartWins(Components(statsChart), BasePage.All, key);
  }

  lemma OnLoadChartKeyFromWeekChart(statsChart: Component, key: string)
    requires key == "chartContainer" || key == "lineChart"
    ensures FromWeekChart(MergedOnLoadLocators(statsChart), key)
  {
    WeekChartKeys(key);
    LaterComponentsLackChartKeys(key);
    WeekChartWins(Components(statsChart), BasePage.OnLoad, key);
  }

  /** The page declares no locators of its own: every merged key comes from some component. */
  lemma EveryKeyFromAComponent(statsChart: Component, key: string)
    ensures key in MergedLocators(statsChart)
        <==> exists i :: 0 <= i < 7 && key in Components(statsChart)[i].locators
    ensures key in MergedOnLoadLocators(statsChart)
        <==> exists i :: 0 <= i < 7 && key in Components(statsChart)[i].onLoadLocators
  {
    var cs := Components(statsChart);
    BasePage.MergeKeys(BaseLocators, cs, BasePage.All, key);
    BasePage.MergeKeys(BaseOnLoadLocators, cs, BasePage.OnLoad, key);
    if exists i :: 0 <= i < 7 && key in cs[i].locators {
      var i :| 0 <= i < 7 && key in cs[i].locators;
      assert key in BasePage.Pick(cs[i], BasePage.All);
    }
    if exists i :: 0 <= i < 7 && key in cs[i].onLoadLocators {
      var i :| 0 <= i < 7 && key in cs[i].onLoadLocators;
      assert key in BasePage.Pick(cs[i], BasePage.OnLoad);
    }
  }

  /** Each shown component spreads its on-load map into its full map, so
      when the statistics chart does too, the merged on-load keys are among
      the merged keys. */
  lemma OnLoadKeysWithinLocators(statsChart: Component)
    requires statsChart.onLoadLocators.Keys <= statsChart.locators.Keys
    ensures MergedOnLoadLocators(statsChart).Keys <= MergedLocators(statsChart).Keys
  {
    ShownComponentsSpreadOnLoad();
    SpreadingComponentsMergeWithin(statsChart, BudgetChart, AreasChart, WeekChart,
      OrderTable, TodoList, ProgressCard);
  }

  /** Seven components that each spread their on-load map give merged
      on-load keys among the merged keys, over the empty page maps. */
  lemma SpreadingComponentsMergeWithin(c0: Component, c1: Component, c2: Component, c3: Component,
                                       c4: Component, c5: Component, c6: Component)
    requires Spreads(c0) && Spreads(c1) && Spreads(c2) && Spreads(c3)
    requires Spreads(c4) && Spreads(c5) && Spreads(c6)
    ensures BasePage.MergeOnLoadLocators(BaseOnLoadLocators, [c0, c1, c2, c3, c4, c5, c6]).Keys
         <= BasePage.MergeLocators(BaseLocators, [c0, c1, c2, c3, c4, c5, c6]).Keys
  {
    var cs := [c0, c1, c2, c3, c4, c5, c6];
    assert forall c :: c in cs ==> Spreads(c);
    BasePage.MergedOnLoadWithinLocators(BaseOnLoadLocators, BaseLocators, cs);
  }

  /** A component's on-load keys are among its full keys. */
  predicate Spreads(c: Component) {
    c.onLoadLocators.Keys <= c.locators.Keys
  }

  lemma ShownComponentsSpreadOnLoad()
    ensures Spreads(BudgetChart) && Spreads(AreasChart) && Spreads(WeekChart)
    ensures Spreads(OrderTable) && Spreads(TodoList) && Spreads(ProgressCard)
  {
  }

  /** A bare `goto()` on a fresh dashboard visits the dashboard url and does not wait. */
  method FreshDashboardBareGoto(statsChart: Component) returns (visited: seq<Effect>)
    ensures visited == [Navigate(DashboardUrl)]
  {
    var d := new DashboardPage(statsChart);
    d.pageBase.Goto();
    visited := d.pageBase.trace;
  }

  /** `goto(true)` on a fresh dashboard visits the dashboard url, then waits
      for every merged on-load key. */
  method FreshDashboardGotoAndWait(statsChart: Component) returns (visited: seq<Effect>)
    ensures visited == [Navigate(DashboardUrl), WaitVisible(MergedOnLoadLocators(statsChart).Keys, DefaultTimeout)]
  {
    var d := new DashboardPage(statsChart);
    d.pageBase.Goto(Bool(true));
    visited := d.pageBase.trace;
  }
}
