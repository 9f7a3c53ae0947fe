/**
 * The money figures every page shows for a raffle: total sales, total costs without
 * donations, and profit (components/RaffleDetailPage.tsx, RaffleListPage.tsx,
 * RelatoriosPage.tsx and MonthlyReportsPage.tsx compute them with the same reduces).
 */
module Totals {
  import opened Wrappers
  import opened Types
  import opened Seqs

  /** `sales.reduce((sum, s) => sum + s.amount, 0)`. */
  function SalesTotal(sales: seq<Sale>): real {
    Sum(sales, (s: Sale) => s.amount)
  }

  /** `sales.reduce((sum, s) => sum + s.quantity, 0)`: the tickets sold. */
  function QuantityTotal(sales: seq<Sale>): int {
    SumInt(sales, (s: Sale) => s.quantity)
  }

  predicate NotDonation(c: Cost) {
    !Flag(c.isDonation)
  }

  /** `costs.filter(c => !c.isDonation).reduce((sum, c) => sum + c.amount, 0)`. */
  function CostsTotal(costs: seq<Cost>): real {
    Sum(Filter(costs, NotDonation), (c: Cost) => c.amount)
  }

  function Profit(r: Raffle): real {
    SalesTotal(r.sales) - CostsTotal(r.costs)
  }

  /** A cost's weight in the costs total: its amount, or nothing for a donation. */
  function CashCost(c: Cost): real {
    if Flag(c.isDonation) then 0.0 else c.amount
  }

  /** The costs total charges every cost but the donations, each at its amount. */
  lemma CostsTotalExcludesDonations(costs: seq<Cost>)
    ensures CostsTotal(costs) == Sum(costs, CashCost)
  {
    SumFilter(costs, NotDonation, (c: Cost) => c.amount);
    SumPointwise(costs, (x: Cost) => if NotDonation(x) then x.amount else 0.0, CashCost);
  }

  /** Adding a donation leaves the costs total unchanged; adding any other cost raises it by its amount. */
  lemma CostsTotalAppend(costs: seq<Cost>, c: Cost)
    ensures CostsTotal(costs + [c]) == CostsTotal(costs) + CashCost(c)
  {
    FilterAppend(costs, [c], NotDonation);
    SumAppend(Filter(costs, NotDonation), Filter([c], NotDonation), (x: Cost) => x.amount);
  }

  /** The total of sales grows by exactly the amount of a sale appended. */
  lemma SalesTotalAppend(sales: seq<Sale>, s: Sale)
    ensures SalesTotal(sales + [s]) == SalesTotal(sales) + s.amount
  {
    SumAppend(sales, [s], (x: Sale) => x.amount);
  }

  /** The three figures shown for a raffle: what it raised, what it cost and what is left. */
  datatype Figures = Figures(sales: real, costs: real, profit: real)

  /** `totalSales`, `totalCosts` and `profit` of a raffle's page and of its card in the list. */
  function FiguresOf(r: Raffle): (f: Figures)
    ensures f.sales == SalesTotal(r.sales)
    ensures f.costs == Sum(r.costs, CashCost)
    ensures f.profit == f.sales - f.costs
  {
    CostsTotalExcludesDonations(r.costs);
    Figures(SalesTotal(r.sales), CostsTotal(r.costs), Profit(r))
  }

  /** Every sale sells at least one ticket, so the ticket count is at least the number of sales. */
  lemma {:induction false} TicketsCoverSales(sales: seq<Sale>)
    requires forall s :: s in sales ==> s.quantity > 0
    ensures QuantityTotal(sales) >= |sales|
    decreases |sales|
  {
    if sales != [] {
      assert sales[0] in sales;
      assert forall s :: s in sales[1..] ==> s in sales;
      TicketsCoverSales(sales[1..]);
    }
  }
}
