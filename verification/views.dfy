/**
 * The data each tab of the main area shows, as a value rather than markup,
 * and the dispatch from a tab identifier to the tab that renders.
 */
module Views {
  import opened LedgerTypes
  import opened Aggregator

  datatype Tab = Dashboard | TransactionList | SettingsPage

  /**
   * `renderFunctions[tabId] || renderDashboard`: the three known identifiers
   * select their tab, anything else falls back to the dashboard.
   */
  function Dispatch(tabId: string): (r: Tab)
    ensures r == TransactionList <==> tabId == "transactions"
    ensures r == SettingsPage <==> tabId == "settings"
    ensures r == Dashboard <==> tabId != "transactions" && tabId != "settings"
  {
    if tabId == "dashboard" then Dashboard
    else if tabId == "transactions" then TransactionList
    else if tabId == "settings" then SettingsPage
    else Dashboard
  }

  /**
   * What the main area displays: the dashboard's three totals, the two values
   * fed to the pie chart and the recent list; the full list; or the static
   * settings page.
   */
  datatype View =
    | DashboardView(income: int, expenses: int, balance: int, chart: seq<int>, recent: seq<Transaction>)
    | TransactionsView(rows: seq<Transaction>)
    | SettingsView

  /** `renderContent(tabId)`, computed from a read-only view of the ledger. */
  function RenderContent(tabId: string, txs: seq<Transaction>): (v: View)
    ensures v.DashboardView? <==> Dispatch(tabId) == Dashboard
    ensures v.TransactionsView? <==> Dispatch(tabId) == TransactionList
    ensures v.DashboardView? ==> && v.income == TotalIncome(txs)
                                 && v.expenses == TotalExpenses(txs)
                                 && v.balance == v.income - v.expenses
                                 && v.chart == [v.income, v.expenses]
                                 && v.recent == Recent(txs)
    ensures v.TransactionsView? ==> multiset(v.rows) == multiset(txs) && IsStableDateDescSortOf(v.rows, txs)
  {
    match Dispatch(tabId)
    case Dashboard =>
      var income := TotalIncome(txs);
      var expenses := TotalExpenses(txs);
      RecentSpec(txs);
      DashboardView(income, expenses, income - expenses, [income, expenses], Recent(txs))
    case TransactionList =>
      SortIsStable(txs);
      TransactionsView(SortByDateDesc(txs))
    case SettingsPage =>
      SettingsView
  }

  /** An unknown tab identifier shows exactly what the dashboard shows. */
  lemma UnknownTabShowsDashboard(tabId: string, txs: seq<Transaction>)
    requires tabId != "dashboard" && tabId != "transactions" && tabId != "settings"
    ensures RenderContent(tabId, txs) == RenderContent("dashboard", txs)
  {
  }

  /**
   * The dashboard's totals depend only on which transactions the ledger
   * holds, not on their order.
   */
  lemma DashboardTotalsOrderIndependent(a: seq<Transaction>, b: seq<Transaction>)
    requires multiset(a) == multiset(b)
    ensures var va, vb := RenderContent("dashboard", a), RenderContent("dashboard", b);
            va.income == vb.income && va.expenses == vb.expenses && va.balance == vb.balance
  {
    TotalsPermutationInvariant(a, b);
  }
}
