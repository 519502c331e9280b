# Factory operations: inventory ledger, production orders and costing

This project models, in Dafny, the core of a small factory-operations
application. The application has an HTTP server over a key-value store, and a
browser client that computes a few figures of its own.

What is modelled:

- **Inventory ledger.** Each raw material's stock, book value and
  weighted-average unit cost come from one fold over an append-only list of
  signed transactions (`Ledger`).
- **Production orders.** An order moves forward only: scheduled, then
  in_progress, then completed (`Production`). Starting needs a scheduled
  order. Completing is allowed from scheduled as well as from in_progress.
- **Completion transaction.** Completion runs in this order:
  1. It resolves the product's bill of materials into a map of required
     quantities.
  2. It checks every required material's stock before it writes anything.
  3. It appends one consumption row to the ledger and one usage row per
     material, both at the material's average cost.
  4. It completes the order.
  5. It raises one high-severity low-stock alert per raw material that ends
     at or below its reorder point.
- **Reports.** The server computes the dashboard and the per-order cost and
  margin report (`Reports`).
- **Role allow-lists.** Each endpoint has its own list (`Access`).
- **Client helpers.**
  - The downtime log's duration text and cost (`Downtime`).
  - The sign rule for the quantity entered on the inventory screen
    (`InventoryForm`).
  - The cost-report screen's totals, average margin, chart and
    negative-margin warning (`CostReportsView`).
  - The role-filtered sidebar (`Navigation`).

The store is the class `Store.FactoryStore`. It holds one factory's partition
of the key-value store: one sequence per entity kind, in insertion order
(the order a prefix scan returns), and an id counter `nextId`.

Each handler is a method on this class:

- It takes the caller (role and factory) as a parameter. It also takes the
  clock (`now`, or `today` as a UTC day number) as a parameter.
- Fresh ids are drawn from `nextId`.
- Its `modifies` clause names exactly the fields it writes: the tables and the id counter.
- Its postconditions state the whole new state in terms of the old one.

The loops of the server are methods with loop invariants, proved against
specification functions:

- the ledger fold (`Ledger.FoldStock`);
- building the required-materials dictionary (`Production.BuildRequired`);
- the all-or-nothing stock check (`Production.CheckStock`);
- the consumption loop and the alert loop
  (`Store.FactoryStore.AppendConsumption`,
  `Store.FactoryStore.AppendLowStockAlerts`).

The filter, reduce and map expressions of the reports and of the client are
functions, with lemmas about them.

Ids are natural numbers from the counter, so every generated id is fresh.
Quantities and money are `real`. Timestamps are integer milliseconds.

## Model

Source paths are relative to the repository root.

| member | source | states |
|---|---|---|
| Access.AllowList | src/supabase/functions/server/index.tsx:145-804 | The allow-list of each endpoint (create/update of master data: Owner and Plant Manager; deletes of products and materials: Owner only; floor writes: Owner, Plant Manager and Supervisor; cost reports: Owner, Accountant and Plant Manager); the Owner is on every list, and only reads and the alert dismissal have none |
| Access.Authorized | src/supabase/functions/server/index.tsx:145 | The guard every handler opens with: a caller passes only with a user record and a factory, and an Owner with a factory passes everywhere |
| Access.NoFactoryNoAccess | src/supabase/functions/server/index.tsx:364-368 | A caller without a user record or without a factory is refused by every endpoint |
| Access.OnlyOwnerDeletes | src/supabase/functions/server/index.tsx:196-199 | Deleting a product or a raw material is allowed exactly for an Owner with a factory |
| Access.AccountantOnlyDismisses | src/supabase/functions/server/index.tsx:703-707 | Of all writing endpoints, an Accountant may call only the alert dismissal |
| Access.SupervisorScope | src/supabase/functions/server/index.tsx:421-425 | A Supervisor may post transactions, create, start and complete orders and log downtime, but may not touch master data or read cost reports |
| Domain.HttpStatus | src/supabase/functions/server/index.tsx:505-513 | Unauthorized answers 401, a missing order 404, and a refused transition or a shortage 400, each in both directions |
| Ledger.FoldStock | src/supabase/functions/server/index.tsx:375-389 | The fold loop creates an entry exactly for materials with at least one row, holding the sums of qty and qty times unit cost and the row count; the key order is the order of first appearance |
| Ledger.SeenMaterialsSpec | src/supabase/functions/server/index.tsx:377-392 | The listed materials are distinct and are exactly those with at least one ledger row |
| Ledger.NoRowsNoStock | src/supabase/functions/server/index.tsx:378-385 | A material without ledger rows has zero stock and zero value |
| Ledger.FoldAppend | src/supabase/functions/server/index.tsx:377-389 | Stock, value and row count add up over concatenated ledgers |
| Ledger.FoldSnoc | src/supabase/functions/server/index.tsx:386-388 | Appending one row changes only the totals of that row's material, by its qty, qty times cost and one |
| Ledger.StockOrZeroIsQty | src/supabase/functions/server/index.tsx:573 | Reading the fold's result with the missing-is-zero default gives the ledger sum of the material |
| Ledger.AvgUnitCost | src/supabase/functions/server/index.tsx:399 | The average unit cost is 0 without positive stock and never negative for a non-negative book value |
| Ledger.AvgTimesQty | src/supabase/functions/server/index.tsx:399 | With positive stock, average unit cost times stock is the book value |
| Ledger.FindMaterial | src/supabase/functions/server/index.tsx:393 | The lookup returns a stored material with that id, or none exists |
| Ledger.Inventory | src/supabase/functions/server/index.tsx:392-402 | One row per transacted material in first-appearance order, with its quantity, value and count sums, the name and unit of its material record (absent without one), its reorder point or 0, its average cost (0 without positive stock), and the reorder flag exactly when stock is at most the reorder point |
| Ledger.InventoryCoversTransacted | src/supabase/functions/server/index.tsx:377-392 | Every transacted material appears in the inventory exactly once and nothing else does |
| Ledger.WeightedAverageExample | src/supabase/functions/server/index.tsx:584 | Buying 1000 at 5 and consuming 100 at the average leaves 900 units still costed at 5 |
| Production.FindOrder | src/supabase/functions/server/index.tsx:505-509 | The key lookup finds an order with that id or shows that none is stored |
| Production.StartedOrder | src/supabase/functions/server/index.tsx:515-517 | Starting raises the status rank by one, keeps id and product and records the start time |
| Production.CompletedOrder | src/supabase/functions/server/index.tsx:616-619 | Completing raises the status to completed, keeps id and product and records the produced quantity and the end time |
| Production.OrdersAdvanceTransitive | src/supabase/functions/server/index.tsx:511-546 | Forward-only progress of the order list composes over any sequence of handler calls |
| Production.StepAdvances | src/supabase/functions/server/index.tsx:511-519 | Replacing one order by a same-id order of higher rank, never touching a completed one, is forward progress |
| Production.BomsFor | src/supabase/functions/server/index.tsx:549-550 | The product's entries are exactly the stored entries for that product |
| Production.Required | src/supabase/functions/server/index.tsx:553-556 | The required-materials dictionary built entry by entry; its keys are stated by Production.RequiredDomain and its values by Production.RequiredLastWins and Production.RequiredStep |
| Production.RequiredDomain | src/supabase/functions/server/index.tsx:553-556 | The required dictionary's keys are exactly the distinct materials of the product's entries |
| Production.RequiredKeysSpec | src/supabase/functions/server/index.tsx:553-556 | The dictionary's iteration order lists each material of the entries once, and only those |
| Production.RequiredLastWins | src/supabase/functions/server/index.tsx:554-555 | A material's requirement is its last entry's qty per unit times the produced quantity, so a later duplicate overwrites |
| Production.RequiredStep | src/supabase/functions/server/index.tsx:554-555 | Adding one entry sets or overwrites that material's requirement and leaves the others alone |
| Production.BuildRequired | src/supabase/functions/server/index.tsx:553-556 | The in-place loop builds exactly the required dictionary and its key order |
| Production.FirstShortage | src/supabase/functions/server/index.tsx:572-579 | A reported shortage is a required material whose stock is below its requirement |
| Production.FirstShortageSpec | src/supabase/functions/server/index.tsx:572-579 | The reported shortage is the first in key order, and there is none exactly when every material has enough stock |
| Production.CheckStock | src/supabase/functions/server/index.tsx:572-579 | The check loop reads the fold with the zero default and returns the first shortage, in both directions |
| Production.UnitCostAt | src/supabase/functions/server/index.tsx:584 | The cost basis of a consumption, total value over total quantity before the completion; Production.UnitCostTimesQty states that it times the stock is the book value |
| Production.ConsumptionRows | src/supabase/functions/server/index.tsx:582-599 | The consumption rows of a completion; their shape is stated by Production.ConsumptionRowsShape and their effect on stock by Production.StockDropsByRequirement |
| Production.UsageRows | src/supabase/functions/server/index.tsx:601-612 | The usage rows of a completion; their shape is stated by Production.UsageRowsShape and their pairing with the consumption rows by Production.UsageMirrorsConsumption |
| Production.ConsumptionRowsShape | src/supabase/functions/server/index.tsx:582-599 | The j-th consumption row is for the j-th material, carries minus its requirement at the pre-completion average cost and the order id, and takes the 2j-th fresh id |
| Production.UsageRowsShape | src/supabase/functions/server/index.tsx:601-612 | The j-th usage row carries the j-th material's requirement at the same cost and takes the (2j+1)-th fresh id |
| Production.RowsStep | src/supabase/functions/server/index.tsx:582-613 | One loop iteration appends exactly one consumption row and one usage row |
| Production.ConsumptionRowCount | src/supabase/functions/server/index.tsx:588-599 | The consumption rows hold one row per required material and none for the others, carrying minus the requirement |
| Production.ConsumptionRowValue | src/supabase/functions/server/index.tsx:584-593 | The consumption rows value a material at minus its requirement times its cost basis |
| Production.StockDropsByRequirement | src/supabase/functions/server/index.tsx:582-599 | After the consumption rows each required material's stock drops by exactly its requirement and its row count grows by one; other materials are unchanged |
| Production.AverageCostPreserved | src/supabase/functions/server/index.tsx:584-593 | Consuming at the running average keeps a material's weighted-average cost while stock stays positive |
| Production.AverageAfterConsumption | src/supabase/functions/server/index.tsx:584 | Booking units out at the cost basis keeps the average cost |
| Production.ConsumedTotals | src/supabase/functions/server/index.tsx:588-599 | Quantity and value of a consumed material after completion are before less the requirement and less the requirement times its cost |
| Production.UnitCostTimesQty | src/supabase/functions/server/index.tsx:584 | The cost basis times the stock is the book value |
| Production.UsageMirrorsConsumption | src/supabase/functions/server/index.tsx:588-611 | Usage and consumption rows pair up one to one: same material, opposite quantity, same unit cost, both tagged with the order, different ids |
| Production.LowMaterialsSpec | src/supabase/functions/server/index.tsx:625-627 | The low materials are exactly the stored materials whose stock less requirement is at most their reorder point |
| Production.LowStockAlerts | src/supabase/functions/server/index.tsx:624-640 | The alerts of a completion; stated by Production.LowStockAlertsShape and Production.LowStockAlertsSpec |
| Production.LowStockAlertsShape | src/supabase/functions/server/index.tsx:625-639 | The j-th alert is for the j-th low material and takes the j-th fresh id |
| Production.LowStockAlertsStep | src/supabase/functions/server/index.tsx:625-639 | One loop iteration appends at most that material's alert, with the next id |
| Production.LowStockAlertsSpec | src/supabase/functions/server/index.tsx:624-640 | Every alert is high-severity low-stock for a material, and a material gets one exactly when its post-completion stock is at most its reorder point; all materials are checked, not only consumed ones |
| Reports.TodayOrders | src/supabase/functions/server/index.tsx:737-739 | Today's orders are exactly the stored orders whose end time falls on today's date |
| Reports.CompletedOrders | src/supabase/functions/server/index.tsx:761 | The completed orders are exactly those with status completed, never more than the stored orders |
| Reports.CompletedOrdersKeepsOrder | src/supabase/functions/server/index.tsx:761 | The filter keeps store order and multiplicity: it distributes over concatenation |
| Reports.CompletedOrdersOne | src/supabase/functions/server/index.tsx:761 | A single order passes exactly when it is completed |
| Reports.CompletedOrdersDistinct | src/supabase/functions/server/index.tsx:761 | With distinct order ids in the store, the completed orders have distinct ids |
| Reports.LowStockMaterials | src/supabase/functions/server/index.tsx:755-758 | The low-stock filter never yields more materials than are stored |
| Reports.LowStockMaterialsSpec | src/supabase/functions/server/index.tsx:755-758 | The low materials are exactly the stored materials whose stock (0 without rows) is at most the reorder point |
| Reports.LowStockMaterialsKeepsOrder | src/supabase/functions/server/index.tsx:786-789 | The filter keeps store order and multiplicity: it distributes over concatenation |
| Reports.LowStockMaterialsOne | src/supabase/functions/server/index.tsx:786-789 | A single material passes exactly when its stock is at most its reorder point |
| Reports.LowStockMaterialsDistinct | src/supabase/functions/server/index.tsx:786-792 | With distinct material ids in the store, the low materials, and so the stock alerts, are for distinct materials |
| Reports.StockAlerts | src/supabase/functions/server/index.tsx:786-792 | The k-th stock alert is the k-th low material with its current stock (0 without rows), one alert per low material; order and distinctness of that list are stated by Reports.LowStockMaterialsKeepsOrder and Reports.LowStockMaterialsDistinct |
| Reports.SumProduced | src/supabase/functions/server/index.tsx:741-743 | The output total is never negative when no order records a negative output |
| Reports.ProductionCost | src/supabase/functions/server/index.tsx:762-764 | The production cost is never negative when no usage row has a negative quantity or unit cost |
| Reports.EventCost | src/supabase/functions/server/index.tsx:768-773 | An event without both times adds nothing; otherwise its cost is negative exactly when it ends before it starts |
| Reports.DowntimeCost | src/supabase/functions/server/index.tsx:768-774 | The downtime total is never negative when no logged event ends before it starts |
| Reports.Reverse | src/supabase/functions/server/index.tsx:785 | Reversal keeps the length and mirrors the positions |
| Reports.RecentOrders | src/supabase/functions/server/index.tsx:785 | The recent list is the last five orders (or all of them), newest first |
| Reports.Dashboard | src/supabase/functions/server/index.tsx:721-798 | The low-stock count is the number of stock alerts, at most the number of materials; today's and the completed counts are at most the number of orders; at most five recent orders |
| Reports.DashboardStockAlerts | src/supabase/functions/server/index.tsx:786-792 | Over the fold's levels, membership both ways: every stock alert is for a stored material with its ledger stock at most its reorder point, and every such material has an alert |
| Reports.LowStockMaterialsByLedger | src/supabase/functions/server/index.tsx:755-758 | Over the fold's levels, the `?.qty \|\| 0` low-stock filter is the same list, in order and multiplicity, as the filter by summed ledger quantity (Reports.LowByLedger) |
| Reports.DashboardAlertsByLedger | src/supabase/functions/server/index.tsx:755-793 | Over the fold's levels, the k-th stock alert is the k-th material of the ledger filter with its ledger stock, and the low-stock figure equals both the number of alerts and the length of that filter |
| Reports.EventCostAgrees | src/supabase/functions/server/index.tsx:768-773 | The dashboard's cost of a closed downtime event equals the downtime log's cost of that event |
| Reports.DowntimeCostSnoc | src/supabase/functions/server/index.tsx:768-774 | Logging an event adds its cost to the dashboard total; an event without both times adds nothing |
| Reports.ProductionCostAppend | src/supabase/functions/server/index.tsx:762-764 | Production cost adds over concatenated usage lists |
| Reports.ProducedTodayIgnoresOtherDays | src/supabase/functions/server/index.tsx:737-743 | An order that did not end today changes neither today's orders nor today's output |
| Reports.UsagesOf | src/supabase/functions/server/index.tsx:816 | An order's usages are exactly the usage rows tagged with it |
| Reports.FindProduct | src/supabase/functions/server/index.tsx:821 | The lookup returns a stored product with that id, or none exists |
| Reports.ReportFor | src/supabase/functions/server/index.tsx:815-842 | A report carries its order's id, produced quantity and end time; its selling price and product name are those of the first product record with the order's product id, or 0 and no name without one; revenue is output times that price and profit is revenue less material cost; the remaining figures are stated by Reports.ReportArithmetic |
| Reports.CostReports | src/supabase/functions/server/index.tsx:813-842 | The k-th report is the report of the k-th completed order, one per completed order, so reports follow the order of Reports.CompletedOrdersKeepsOrder |
| Reports.OneReportPerCompletedOrder | src/supabase/functions/server/index.tsx:813-842 | Every completed order has a report with its produced quantity, and every report belongs to a stored completed order |
| Reports.ExactlyOneReport | src/supabase/functions/server/index.tsx:813-842 | With distinct order ids, each completed order has exactly one report carrying its id, and it is that order's report |
| Reports.ReportArithmetic | src/supabase/functions/server/index.tsx:822-828 | Profit is revenue less material cost; cost per unit is 0 without positive output, else cost over output; revenue is output times the report's selling price, which Reports.ReportFor ties to the product record; the margin is 0 without positive revenue, else profit over revenue times 100 |
| Reports.NegativeMarginIff | src/supabase/functions/server/index.tsx:826-828 | A report's margin is negative exactly when revenue is positive and material cost exceeds it |
| Reports.MaterialCostAppend | src/supabase/functions/server/index.tsx:816-819 | Material cost adds over concatenated usage lists |
| Reports.UsagesOfAppend | src/supabase/functions/server/index.tsx:816 | Filtering usages by order distributes over concatenation |
| Downtime.CalculateCost | src/components/DowntimeLog.tsx:112-116 | The cost is negative exactly when the event ends before it starts, and zero exactly when it ends when it starts |
| Downtime.CostOfEqualTimes | src/components/DowntimeLog.tsx:112-116 | An event ending when it starts costs 0 |
| Downtime.CostNegativeWhenReversed | src/components/DowntimeLog.tsx:113-115 | With the end before the start the cost is negative |
| Downtime.CostAdditive | src/components/DowntimeLog.tsx:113-115 | The costs of consecutive intervals add up |
| Downtime.CostScales | src/components/DowntimeLog.tsx:112-116 | Cost is linear in the duration: k times as long costs k times as much |
| Downtime.CostShift | src/components/DowntimeLog.tsx:113 | Cost depends only on the length of the interval |
| Downtime.TruncRem | src/components/DowntimeLog.tsx:108 | The remainder truncates toward zero: it has the dividend's sign and is smaller than the divisor in magnitude |
| Downtime.TruncDivision | src/components/DowntimeLog.tsx:108 | Truncated quotient and remainder reassemble the dividend |
| Downtime.DurationParts | src/components/DowntimeLog.tsx:106-108 | The hours are the floor of the duration in hours, and the minutes lie in -60..59, negative only for a negative duration |
| Downtime.DurationPartsNonNegative | src/components/DowntimeLog.tsx:106-108 | For a non-negative duration the minutes lie in 0..59 and hours times 60 plus minutes is the whole minutes of the duration |
| Downtime.NegativeDurationExample | src/components/DowntimeLog.tsx:106-109 | Just under an hour backwards gives -1 hours and -60 minutes |
| Downtime.NatToString | src/components/DowntimeLog.tsx:109 | A rendered number is a non-empty string of decimal digits |
| Downtime.NatToStringRoundTrip | src/components/DowntimeLog.tsx:109 | Reading a rendered natural number back gives the number |
| Downtime.CalculateDuration | src/components/DowntimeLog.tsx:105-110 | The "<h>h <m>m" text of the duration parts; stated by Downtime.DurationOfEqualTimes and, for its numbers, Downtime.NatToStringRoundTrip |
| Downtime.DurationOfEqualTimes | src/components/DowntimeLog.tsx:105-110 | An event ending when it starts lasts "0h 0m" |
| InventoryForm.Abs | src/components/Inventory.tsx:68 | The magnitude is non-negative and is the value or its negation |
| InventoryForm.SentQty | src/components/Inventory.tsx:66-68 | The sent quantity has the entered magnitude, is negative only for an adjustment, is the entered value unchanged for any adjustment, and is non-negative for every other kind |
| InventoryForm.PurchaseNeverLowersStock | src/components/Inventory.tsx:66-68 | A purchase posted from the screen never lowers its material's ledger stock and leaves other materials alone |
| CostReportsView.TotalRevenue | src/components/CostReports.tsx:46 | The revenue card is never negative when no row has negative revenue |
| CostReportsView.TotalCost | src/components/CostReports.tsx:47 | The cost card is never negative when no row has a negative cost |
| CostReportsView.TotalProfit | src/components/CostReports.tsx:48 | The profit card, revenue total less cost total; CostReportsView.TotalProfitIsSumOfProfits states it equals the sum of the row profits |
| CostReportsView.AvgMargin | src/components/CostReports.tsx:49-51 | The average margin is 0 without rows, else times the row count it is the sum of the margins |
| CostReportsView.TotalProfitIsSumOfProfits | src/components/CostReports.tsx:46-48 | On rows whose profit is revenue less cost, total revenue less total cost is the sum of the profits |
| CostReportsView.ServerTotalProfit | src/components/CostReports.tsx:48 | Over the server's rows the profit card equals the sum of the rows' profits |
| CostReportsView.SumMarginsBounds | src/components/CostReports.tsx:49-51 | With every margin in [lo, hi], the sum of margins lies between n times lo and n times hi |
| CostReportsView.AvgMarginBetween | src/components/CostReports.tsx:49-51 | The average margin lies between the smallest and the largest margin |
| CostReportsView.ChartName | src/components/CostReports.tsx:54 | The label is the first ten characters of the name followed by "...", or "undefined..." without a name |
| CostReportsView.ChartData | src/components/CostReports.tsx:53-58 | The chart has min(10, n) points; the k-th carries the k-th row's label, cost per unit, price and margin |
| CostReportsView.ChartIgnoresLaterRows | src/components/CostReports.tsx:53 | Rows after the tenth never reach the chart: appending rows to ten or more leaves it unchanged |
| CostReportsView.NegativeMargins | src/components/CostReports.tsx:188-189 | The warning lists exactly the rows with a negative margin, no more rows than there are |
| CostReportsView.NegativeMarginsKeepsOrder | src/components/CostReports.tsx:188-189 | The warning keeps the rows' order and multiplicity: the filter distributes over concatenation |
| CostReportsView.NegativeMarginsOne | src/components/CostReports.tsx:188-189 | A single row is listed exactly when its margin is negative |
| CostReportsView.AlertIffListed | src/components/CostReports.tsx:181-189 | The warning box is shown exactly when its list is not empty |
| CostReportsView.ServerNegativeMargins | src/components/CostReports.tsx:181-189 | A server row is listed under the warning exactly when it earned revenue and its materials cost more than that |
| Navigation.NavItems | src/App.tsx:124-132 | Nine items for nine distinct pages; Owner and Plant Manager are on every item and every listed role is one of the four |
| Navigation.CanAccess | src/App.tsx:119-121 | Access needs a signed-in user whose role is on the list; stated by Navigation.NoUserSeesNothing and Navigation.VisibleSpec |
| Navigation.VisibleNavItems | src/App.tsx:135 | The sidebar of a user; stated by Navigation.VisibleNavItemsSpec |
| Navigation.VisibleSpec | src/App.tsx:135 | From any position, the visible items are exactly the table items the user may open, as an order-preserving sub-list |
| Navigation.VisibleNavItemsSpec | src/App.tsx:135 | The sidebar is the order-preserving sub-list of the navigation table whose role lists hold the user's role |
| Navigation.RolesDistinct | src/App.tsx:124-132 | The four role names differ |
| Navigation.NoUserSeesNothing | src/App.tsx:119-121 | Without a user no page is accessible and the sidebar is empty |
| Navigation.ManagersSeeEverything | src/App.tsx:124-132 | Owners and Plant Managers see all nine pages |
| Navigation.AccountantSidebar | src/App.tsx:124-135 | An Accountant's sidebar holds exactly the first, sixth, eighth and ninth table rows |
| Navigation.AccountantPages | src/App.tsx:124-132 | An Accountant sees exactly dashboard, inventory, cost reports and alerts, in that order |
| Navigation.SupervisorSidebar | src/App.tsx:124-135 | A Supervisor's sidebar holds exactly the first, fifth, sixth, seventh and ninth table rows |
| Navigation.SupervisorPages | src/App.tsx:125-131 | A Supervisor sees dashboard, production, inventory, downtime and alerts, so never products, raw materials, BOM or cost reports |
| Navigation.CommonPages | src/App.tsx:124-132 | Dashboard, inventory and alerts are visible to all four roles |
| Navigation.NavAgreesWithServer | src/App.tsx:128-131 | The production, downtime and cost-report pages are offered to exactly the known roles the server lets call the matching endpoints |
| Store.CompletionReq | src/supabase/functions/server/index.tsx:553-556 | Every material in the completion's key order has a requirement |
| Store.WithoutAlert | src/supabase/functions/server/index.tsx:711 | The alert table after deleting a key; stated by Store.WithoutAlertSpec, Store.WithoutAlertIdempotent and Store.WithoutMissingAlert |
| Store.WithoutAlertSpec | src/supabase/functions/server/index.tsx:711 | After deleting, the alerts are exactly the stored ones under other ids |
| Store.WithoutAlertIdempotent | src/supabase/functions/server/index.tsx:711 | Deleting an alert twice is the same as deleting it once |
| Store.WithoutMissingAlert | src/supabase/functions/server/index.tsx:711 | Deleting an id no alert carries changes nothing |
| Store.CompletionLowersStock | src/supabase/functions/server/index.tsx:582-627 | After a completion each material's ledger stock is its stock before less its requirement (0 if not required), the very figure the low-stock check compares, and only required materials gain a row |
| Store.FactoryStore.PostTransaction | src/supabase/functions/server/index.tsx:421-450 | Refused roles change nothing; otherwise exactly one row with a fresh id is appended, nothing else changes, and only that material's stock moves, by the signed quantity |
| Store.FactoryStore.GetInventory | src/supabase/functions/server/index.tsx:364-409 | Refused exactly without a factory; otherwise the rows of Ledger.Inventory over the stored ledger and materials: sums, count, name and unit of the material record, reorder point or 0, average cost and reorder flag |
| Store.FactoryStore.CreateOrder | src/supabase/functions/server/index.tsx:464-495 | Refused roles change nothing; otherwise a scheduled order with nothing produced and a fresh id is appended and nothing else changes |
| Store.FactoryStore.StartOrder | src/supabase/functions/server/index.tsx:497-525 | Unauthorized, not found, or not scheduled each fail and write nothing; otherwise only that order becomes in_progress with its start time; order progress is forward-only |
| Store.FactoryStore.CompleteOrder | src/supabase/functions/server/index.tsx:527-647 | Fails on a refused role, a missing order, a completed order, or the first material short of stock (reporting its requirement and stock), writing nothing; succeeds exactly otherwise (also from scheduled), writing the rows, the completed order and the alerts of Store.CompletionWritten |
| Store.FactoryStore.CommitCompletion | src/supabase/functions/server/index.tsx:582-640 | The writes of an accepted completion: consumption and usage rows, the completed order, then the low-stock alerts, with forward-only progress and the store invariant kept |
| Store.FactoryStore.AppendConsumption | src/supabase/functions/server/index.tsx:582-613 | The loop appends exactly the consumption and usage rows of the required materials, two fresh ids each |
| Store.FactoryStore.AppendLowStockAlerts | src/supabase/functions/server/index.tsx:624-640 | The loop over every raw material appends exactly the low-stock alerts of the pre-completion stock less the requirement, one fresh id each |
| Store.FactoryStore.PostDowntime | src/supabase/functions/server/index.tsx:661-689 | Refused roles change nothing; otherwise the event is appended with a fresh id and the dashboard's downtime cost grows by the event's cost |
| Store.FactoryStore.DismissAlert | src/supabase/functions/server/index.tsx:703-717 | Any member of a factory may delete; the alert under that id is removed and nothing else changes, also when it is missing |
| Store.FactoryStore.GetDashboard | src/supabase/functions/server/index.tsx:721-798 | Refused exactly without a factory; otherwise today's output and count, the completed count, the production and downtime costs, the recent orders, and stock alerts that are, index by index, the materials of the ledger filter Reports.LowByLedger with their ledger stock, in store order and multiplicity, with the low-stock figure equal to their number |
| Store.FactoryStore.GetCostReports | src/supabase/functions/server/index.tsx:802-849 | Refused exactly for callers outside Owner, Accountant and Plant Manager with a factory; otherwise the reports of Reports.CostReports |

## Left out

- Identity and authentication (token check, signup, login, `/me`) are not modelled. They call an external identity provider, so the caller is a parameter: a user record with a role and an optional factory, or none.
- Create, update and delete of products, raw materials and BOM entries are not modelled. They are plain key writes; only their allow-lists are in `Access`. The plain list reads (transactions, orders, downtime events, alerts) return a stored table unchanged and are also not modelled.
- The seed-data endpoint is not modelled. It is a fixture loader.
- Routing, CORS, logging, JSON parsing and the key-value module are not part of this model. `parseFloat` and the `|| 0` / `|| null` defaults of request bodies are assumed already applied: the handlers receive reals and options.
- Id generation, the clock and message text are parameters or dropped. Random UUIDs are replaced by a counter. `now` and today's UTC day number are parameters. Error and alert messages, `toFixed` rounding and material names in alert messages are not modelled. "Ends with today's date" is modelled as the end timestamp's UTC day equalling `today`.
- Concurrency is not modelled. Handlers are sequential and each runs to completion. The source's multi-key writes are not atomic, and two concurrent completions can both pass the stock check.
- Floating point is not modelled. Quantities, costs and margins are exact reals, so IEEE rounding, NaN and Infinity do not appear.
- Store.FactoryStore.CompleteOrder: it requires every required material to have ledger rows and a non-zero stock whenever a permitted caller's completion would be accepted. A refused caller is never constrained. In the source such a material either throws at the average-cost line (index.tsx:584), after the earlier materials' rows were already written, or books a NaN/Infinity unit cost. The model excludes both cases instead of modelling the partial write.
- Store.FactoryStore.CompleteOrder: the produced quantity is a single real. The source multiplies the raw request value into the requirements and stores its `parseFloat` on the order.
- The client's date parsing of the downtime times is not modelled. The times are given as milliseconds, and the rendered duration uses exact integer arithmetic, with `Math.floor` and the truncating `%` written out.
- CostReportsView.ChartName: counts characters rather than UTF-16 code units.
- The user interface screens (JSX, state setters, fetch calls, colour maps) are not modelled. The production-orders screen hides "complete" for scheduled orders. That is a screen restriction; the server rule, modelled here, accepts it.
