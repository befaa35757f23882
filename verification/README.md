# Inventory control web app — a Dafny model of its page logic

This project models the bookkeeping that the pages of a React/Firebase
inventory and point-of-sale app do, and proves what that logic promises.
The app keeps a product catalog. It sells from a shopping cart, records each
sale, lowers stock, and logs inventory movements. Its dashboards, reports,
sales history and analytics pages summarise all of this.

The model covers:

- **Sales page (`Cart`)**:
  - the cart total;
  - the product picker;
  - adding a product, removing a line and changing a line's quantity;
  - the sale record built at checkout and handed to the store.
- **Catalog list (`ProductList`)**:
  - the category chips;
  - the category and text filters;
  - the sort comparator with falsy keys last, and the column toggle.
- **Stock tiers (`StockLevels`)**: the thresholds shared by the catalog, the
  dashboard and the product page.
- **Dashboard and reports**:
  - inventory figures (`InventoryStats`);
  - the low-stock panel (`Dashboard`);
  - sales figures, including the breakdown by payment method (`SalesStats`).
- **Sales history (`SalesHistory`)**: the date filter and its totals.
- **Add-product form (`AddProduct`)**:
  - the ordered field checks and the saved record;
  - the category search and the creation of a new category;
  - the form's setters.
- **Product page (`ProductDetail`)**:
  - the loaded form and `handleChange`;
  - saving, the margin, the stock value and the stock label.
- **Inventory context (`InventoryStore`)**: the stock and movement effect of
  `registerSale` and `addProduct`, and the date range of `getSales`.
- **Analytics page (`Analytics`)**: the chart window, the prediction cards,
  the seasonal chart, the tab precedence and the guard of `analyzeData`.

Conventions:

- **Money** is an exact integer number of cents. The margin and the daily
  average are `real`s.
- **Absent fields and NaN** are `None`. JavaScript truthiness is written
  out explicitly:
  - `x || 0` is `OrZero`;
  - a number is truthy when present and non-zero;
  - a string is truthy when present and non-empty.
  - A comparison with an absent value is false, as `undefined <= 5` is.
- **State.** The state a page changes step by step is a `class` whose
  methods are proved against specification functions:
  - the cart (`Cart.SalesPage`);
  - the add-product form (`AddProduct.AddProductForm`);
  - the store's stock map, movement log and sales list (`InventoryStore.Store`).
- **Loops.** The two loops of the source are `while` loops with invariants:
  - `registerSale`'s item loop;
  - the `salesByPaymentMethod` accumulator.
- **The filter/sort effect** is a method that reassigns `result` as the
  source does.

## Notes

- **Sales history, unknown date filter.** With a filter value other than
  `all`, `today`, `week` or `month`, the history does not keep every sale.
  It keeps only the dated ones, because the `if (!saleDate) return false`
  test (src/pages/SalesHistoryPage.js:55) runs before the final
  `return true`.

## Model

| member | source | states |
|---|---|---|
| Cart.TotalIsSumOfLines | src/pages/SalesPage.js:23-26 | The total is the sum of price × quantity over all lines and 0 for an empty cart. It is NaN exactly when some line has no price. |
| Cart.PickerListsMatchingInStock | src/pages/SalesPage.js:29-43 | The picker lists a product iff its quantity is above 0 and either the query is empty or the lowercased query occurs in its lowercased name or SKU. The list keeps catalog order. |
| Cart.LineIndex | src/pages/SalesPage.js:56-58 | `findIndex`: the first line with the product's id, or -1 exactly when no line has it. |
| Cart.LineIndexOfDistinct | src/pages/SalesPage.js:56-58 | In a cart without duplicate ids, each line is found at its own index. |
| Cart.AddNewProduct | src/pages/SalesPage.js:75-84 | A product not in the cart is appended as one line of quantity 1, capped at the product's stock. Earlier lines are unchanged. |
| Cart.AddExistingProduct | src/pages/SalesPage.js:56-72 | A product already in the cart raises only its own line by 1. The cart is unchanged when that line already holds the product's stock. |
| Cart.AddKeepsDistinct | src/pages/SalesPage.js:56-84 | Adding never creates two lines for one product. |
| Cart.AddKeepsPositive | src/pages/SalesPage.js:56-84 | Adding keeps every line quantity positive. |
| Cart.AddKeepsWithinStock | src/pages/SalesPage.js:66-82 | While the product's stock is the one its line recorded, adding keeps every line within its cap. |
| Cart.AddNewRaisesTotal | src/pages/SalesPage.js:23-26 | Adding a new product raises the total by its price. |
| Cart.AddExistingRaisesTotal | src/pages/SalesPage.js:23-26 | Adding a unit to an existing line below its cap raises the total by that line's price. |
| Cart.OneMoreUnit | src/pages/SalesPage.js:71 | One more unit adds one unit price to a line's amount. |
| Cart.TotalConcat | src/pages/SalesPage.js:23-26 | The total of two carts put together is the sum of their totals. |
| Cart.RemoveDeletesLine | src/pages/SalesPage.js:93-97 | `splice(i, 1)` with an index in range deletes exactly line i and keeps the other lines in order. |
| Cart.RemoveOutOfRange | src/pages/SalesPage.js:95 | An index past the end removes nothing. |
| Cart.RemoveKeepsInvariants | src/pages/SalesPage.js:93-97 | Removal keeps ids distinct, quantities positive and lines within their caps. It only deletes lines. |
| Cart.UpdateCases | src/pages/SalesPage.js:100-117 | The cap check comes first and leaves the cart unchanged. Next, a quantity ≤ 0 removes the line. Otherwise only that line's quantity is set. |
| Cart.UpdateKeepsInvariants | src/pages/SalesPage.js:100-117 | Setting a quantity keeps ids distinct, quantities positive and lines within their caps. |
| Cart.SaleItems | src/pages/SalesPage.js:131-137 | One sale item per cart line, in order. |
| Cart.CheckoutRecord | src/pages/SalesPage.js:121-142 | An empty cart is refused. Otherwise there is one item per line, with its price, its quantity and subtotal = price × quantity. The sale total is the sum of the subtotals, and the chosen payment method is kept. |
| Cart.SubtotalsAddUp | src/pages/SalesPage.js:130-138 | The subtotals of the sale add up to the cart total. |
| Cart.RemoveKeepsDistinctPositive | src/pages/SalesPage.js:93-97 | Any index, in range or not, keeps ids distinct and quantities positive. |
| Cart.SalesPage.constructor | src/pages/SalesPage.js:14-18 | The page starts with an empty cart, no notes, 'Efectivo', a closed picker and an empty search. |
| Cart.SalesPage.AddToCart | src/pages/SalesPage.js:54-90 | The cart becomes the added cart. The picker closes and its search clears, except when the stock alert returns early. |
| Cart.SalesPage.RemoveFromCart | src/pages/SalesPage.js:93-97 | The cart becomes the spliced cart. Nothing else changes. |
| Cart.SalesPage.UpdateItemQuantity | src/pages/SalesPage.js:100-117 | The cart becomes the updated cart. Nothing else changes. |
| Cart.SalesPage.Checkout | src/pages/SalesPage.js:120-153 | An empty cart changes nothing. Otherwise the sale record is registered in the store (sale appended, stock lowered, movements logged) and the cart, notes and payment method are reset. |
| ProductList.CategoryValues | src/components/ProductList.js:39 | `map(category).filter(Boolean)`: exactly the non-empty categories of the products. |
| ProductList.InsertionOrderFacts | src/components/ProductList.js:39 | `new Set(...)` lists each value once, exactly the values of the input, in first-occurrence order. |
| ProductList.CategoriesListed | src/components/ProductList.js:37-40 | The chips are 'Todos' followed by each non-empty category exactly once, in first-occurrence order. |
| ProductList.VisibleMembers | src/components/ProductList.js:44-61 | A product passes iff its category equals the selected one (unless 'Todos') and, for a non-empty query, the lowercased query occurs in its truthy name, SKU or description. |
| ProductList.TwoFiltersAreVisible | src/components/ProductList.js:44-61 | Filtering by category and then by query gives the products that pass both filters. |
| ProductList.FilterAndSort | src/components/ProductList.js:43-85 | The result is a permutation of the products that pass both filters, sorted by the comparator. A product is in it iff it passes both filters. |
| ProductList.FalsyLast | src/components/ProductList.js:67-69 | A falsy key sorts after a truthy one in both directions. |
| ProductList.FalsyTies | src/components/ProductList.js:67 | Two falsy keys compare equal. |
| ProductList.TruthyOrder | src/components/ProductList.js:72-80 | For truthy keys, names compare by string order and numbers by a − b. 'desc' swaps the arguments. |
| ProductList.CompareAntisymmetric | src/components/ProductList.js:65-81 | Swapping the arguments negates the comparison. |
| ProductList.CompareTransitive | src/components/ProductList.js:65-81 | The comparator is transitive. |
| ProductList.SortByFacts | src/components/ProductList.js:65-81 | The sort keeps the same products (as a multiset) and orders them by the comparator. |
| ProductList.InsertFacts | src/components/ProductList.js:65-81 | Inserting into a sorted list adds one element and keeps the list sorted. |
| ProductList.SortedPutsFalsyLast | src/components/ProductList.js:67-69 | In a sorted list, every product with a truthy key precedes every product with a falsy one. |
| ProductList.HandleSortToggles | src/components/ProductList.js:97-107 | The same column flips the direction, so two clicks restore it. Another column starts 'asc'. |
| StockLevels.StatusTiers | src/components/ProductList.js:241-247 | 'out' iff quantity ≤ 0, 'low' iff 0 < quantity ≤ 5, otherwise 'in' (also for an absent quantity). |
| StockLevels.OutOfStockIsLowStock | src/pages/ReportsPage.js:21-26 | Quantity ≤ 0 implies quantity ≤ 5, and the non-'in' tiers are exactly the low-stock ones. |
| StockLevels.BadgeAgotadoIffOut | src/components/ProductList.js:249-251 | The badge reads 'Agotado' iff the quantity is ≤ 0. Otherwise it reads the unit count followed by ' uds.'. |
| StockLevels.DetailLabelTiers | src/pages/ProductDetailPage.js:349-353 | 'Agotado' iff ≤ 0, 'Stock Bajo' iff 0 < q ≤ 5, 'En Stock' otherwise (also for NaN). |
| InventoryStats.OutOfStockWithinLowStock | src/pages/ReportsPage.js:21-26 | The out-of-stock count never exceeds the low-stock count, which never exceeds the catalog size. |
| InventoryStats.LowStockIsNotInTier | src/pages/ReportsPage.js:21-23 | The low-stock count counts the products outside the 'in' tier. |
| InventoryStats.TotalItemsOfPresent | src/pages/ReportsPage.js:17-20 | totalItems is the sum of the quantities that are present. Missing ones count as 0. |
| InventoryStats.InventoryValueOfComplete | src/pages/ReportsPage.js:29-32 | inventoryValue is the sum of price × quantity over products having both values. The others count as 0. |
| InventoryStats.FiguresNonNegative | src/pages/HomePage.js:21-33 | With no negative price or quantity, total items and inventory value are non-negative. |
| InventoryStats.FiguresAdd | src/pages/HomePage.js:20-33 | Each figure of two catalogs put together is the sum of their figures. |
| Dashboard.PanelItems | src/pages/HomePage.js:248-263 | One panel row per product, in order. |
| Dashboard.PanelContents | src/pages/HomePage.js:243-261 | The panel holds the first min(5, n) low-stock products in catalog order, where n is the low-stock count. Each row's label is 'Agotado' iff quantity ≤ 0, else the unit count. Its status is 'out' iff quantity ≤ 0. |
| Dashboard.PanelShownIffLowStock | src/pages/HomePage.js:243 | The panel is shown iff some product has quantity ≤ 5, iff the low-stock count is positive. |
| SalesStats.ItemsSoldIsFlatSum | src/pages/ReportsPage.js:83-91 | The nested sum of item quantities equals the sum over all items of all sales. A missing item list counts as 0. |
| SalesStats.RevenueAdds | src/pages/ReportsPage.js:79-91 | Revenue and items sold of two sale lists put together are the sums of their figures. |
| SalesStats.GroupIndex | src/pages/ReportsPage.js:96 | The entry of a payment method in the accumulator, or -1 exactly when there is none. |
| SalesStats.SalesByPaymentMethod | src/pages/ReportsPage.js:94-102 | The accumulator loop computes the grouping specification. |
| SalesStats.StepEntry | src/pages/ReportsPage.js:95-100 | One reducer call counts the sale into its own method's entry only. |
| SalesStats.GroupedDistinct | src/pages/ReportsPage.js:94-102 | No payment method gets two entries. |
| SalesStats.GroupedEntry | src/pages/ReportsPage.js:94-102 | A method has an entry iff some sale is labelled with it (a missing method reads 'Efectivo'). The entry holds the number of those sales and the sum of their totals. |
| SalesStats.CountOfPositive | src/pages/ReportsPage.js:95 | A method's count is positive iff some sale carries that label. |
| SalesStats.GroupedSums | src/pages/ReportsPage.js:78-102 | The group counts sum to totalSales and the group totals sum to totalRevenue. |
| SalesStats.PeriodTitles | src/pages/ReportsPage.js:113-126 | 'day', 'month' and 'year' have their own titles. Every other value, 'week' included, reads 'Últimos 7 días'. |
| SalesHistory.FilterKeeps | src/pages/SalesHistoryPage.js:48-76 | 'all' keeps every sale. Any other filter drops undated sales. 'today' keeps today's calendar day, 'week' keeps from midnight minus 7 days, 'month' keeps from the month cut-off, and an unknown value keeps the dated sales. The result is an order-preserving subsequence. |
| SalesHistory.DayBounds | src/pages/SalesHistoryPage.js:58-60 | A timestamp's day is today iff it lies between today's midnight and the next one. |
| SalesHistory.FiltersNest | src/pages/SalesHistoryPage.js:57-73 | Today's sales are among the week's, and the week's among the month's, when the month cut-off is no later than the week's. |
| SalesHistory.AllTotals | src/pages/SalesHistoryPage.js:79-83 | Under 'all', totalSales and totalAmount are the reports' sale count and revenue. |
| SalesHistory.AmountSplits | src/pages/SalesHistoryPage.js:79-83 | totalAmount plus the revenue of the dropped sales is the revenue of all sales. |
| SalesHistory.PartitionRevenue | src/pages/SalesHistoryPage.js:80-83 | The revenues of a sale list split by a predicate add up to the whole. |
| SalesHistory.CheckoutLineAmount | src/pages/SalesHistoryPage.js:290 | For a line recorded at checkout the shown amount is its price × quantity. |
| InventoryStore.AppliedSaleKeys | src/context/InventoryContext.js:225-237 | Registering a sale never adds or drops products. |
| InventoryStore.AppliedSaleAt | src/context/InventoryContext.js:225-237 | Each existing product ends at its quantity minus all the units the sale's items sold of it, cumulatively over repeated items. |
| InventoryStore.UnsoldProductUnchanged | src/context/InventoryContext.js:225-237 | A product that no item names keeps its quantity. |
| InventoryStore.StockMayGoNegative | src/context/InventoryContext.js:234-235 | No lower bound: selling 3 of a product with 1 in stock leaves -2. |
| InventoryStore.SaleMovementsAreFilteredItems | src/context/InventoryContext.js:230-248 | One 'sale' movement per item whose product exists, in item order, with quantity −item.quantity and the sale id as reference. Items of missing products log nothing. |
| InventoryStore.SalesInRangeMembers | src/context/InventoryContext.js:264-270 | The range applies only when both bounds are given, and both bounds are inclusive. Undated sales are dropped under a range. The result keeps the order of the store's sale sequence. |
| InventoryStore.Store.AddProduct | src/context/InventoryContext.js:118-131 | The product is added with its quantity and exactly one 'initial' movement of that quantity is appended. |
| InventoryStore.Store.RegisterSale | src/context/InventoryContext.js:213-252 | The sale is appended. The stock becomes the applied sale and the movements grow by the sale movements of the existing products. |
| AddProduct.ValidationOrder | src/pages/AddProductPage.js:67-91 | A blank name (after trim) fails first. Then the price must parse and be > 0, then the cost must parse and be > 0, then the quantity must parse and be ≥ 0. Each rejection names the first failed check, and the record is accepted iff all pass. |
| AddProduct.AcceptedRecord | src/pages/AddProductPage.js:97-105 | The name is stored as typed. SKU and description are trimmed, or null when blank. The category is trimmed, or 'Sin categoría' when blank. The numbers are the checked ones. |
| AddProduct.FilterCategoriesListed | src/pages/AddProductPage.js:28-37 | A blank search lists every category. Otherwise a category is listed iff its lowercased name contains the lowercased search. Order is kept. |
| AddProduct.AsWrittenStoresDuplicate | src/pages/AddProductPage.js:155-173 | As written, a search with a trailing space passes the duplicate check and stores an existing name again. |
| AddProduct.AsWrittenAgreesWhenTrimmed | src/pages/AddProductPage.js:155-173 | The as-written check and the corrected one agree on searches without surrounding white space. |
| AddProduct.NewCategoryChecks | src/pages/AddProductPage.js:155-173 | A blank search is refused. A stored name is the trimmed search and differs, ignoring case, from every existing name. A refusal as a duplicate names an existing category. |
| AddProduct.AddProductForm.constructor | src/pages/AddProductPage.js:9-21 | Every field starts empty, with no image and a closed category picker. |
| AddProduct.AddProductForm.ResetForm | src/pages/AddProductPage.js:135-144 | Every field but the category is cleared. |
| AddProduct.AddProductForm.SelectCategory | src/pages/AddProductPage.js:147-151 | Sets the category, closes the picker and clears the search. |
| AddProduct.AddProductForm.AddNewCategory | src/pages/AddProductPage.js:154-177 | The result is the check as written, on the untrimmed search. On success the untrimmed search becomes the category, the picker closes and the search is cleared. A refusal changes nothing. |
| AddProduct.NewCategoryAsWrittenChecks | src/pages/AddProductPage.js:154-173 | As written, a blank search is refused (iff it is all white space). A duplicate is refused iff the untrimmed search equals an existing name ignoring case. Otherwise the trimmed search is returned as the name to store. |
| AddProduct.AddProductForm.SaveProduct | src/pages/AddProductPage.js:65-125 | The result is the validation of the fields, with the quantity `parseInt` of the quantity field. An accepted product is added to the store with its initial movement. Adding another clears the form but keeps the category. |
| ProductDetail.HandleChange | src/pages/ProductDetailPage.js:49-52 | The named field takes the value and every other field keeps its text. |
| ProductDetail.HandleChangeLaws | src/pages/ProductDetailPage.js:49-52 | Writing back a field's own text changes nothing, and a later edit of the same field overrides an earlier one. |
| ProductDetail.LoadedFields | src/pages/ProductDetailPage.js:32-41 | A text field loads as '' iff it is missing or empty. A number loads as '' iff it is missing or 0. A non-zero quantity's text parses back to that quantity. |
| ProductDetail.SaveOutcome | src/pages/ProductDetailPage.js:69-82 | Save refuses exactly an empty name. Otherwise every text is kept, and price, cost and quantity are their parses, or 0 when they do not parse. |
| ProductDetail.SaveLoadedQuantity | src/pages/ProductDetailPage.js:37-41 | Saving an untouched loaded form writes back the product's quantity (0 when absent). |
| ProductDetail.MarginFacts | src/pages/ProductDetailPage.js:121-126 | On parsed numbers with a positive price, the margin is 100 at zero cost and 0 when cost equals price. It is negative iff cost exceeds price, and at most 100 for a non-negative cost. |
| ProductDetail.TotalValueOfLoaded | src/pages/ProductDetailPage.js:129-134 | For a loaded form, the total value computed from `parseFloat` of the loaded price text and `parseInt` of the loaded quantity text is the dashboard's stock value. A price of 0 loads as '' and reads as NaN, and the value is 0 all the same. |
| ProductDetail.ShownStockLabel | src/pages/ProductDetailPage.js:341-353 | The label follows parseInt of the quantity text. 'Agotado' iff ≤ 0, 'Stock Bajo' iff 0 < q ≤ 5, 'En Stock' iff above 5 or unparsable. |
| ProductDetail.ZeroStockShownInStock | src/pages/ProductDetailPage.js:39 | As written, a product with stock 0 loads an empty quantity text, so it is labelled 'En Stock' although its stock level is 'Agotado'. |
| ProductDetail.KeepingZeroShowsStock | src/pages/ProductDetailPage.js:37-39 | When every present number is rendered, 0 included, the label of every loaded product is its own stock label. The text fields load as before, and a number differs from the as-written load only at 0. |
| ProductDetail.ZeroCostShowsNoMargin | src/pages/ProductDetailPage.js:38 | A product with a positive price and cost 0 loads its cost as '', which parses as NaN, so the page shows margin 0 where its numbers give 100. |
| ProductDetail.KeepingZeroShowsMargin | src/pages/ProductDetailPage.js:121-126 | With every present number rendered, the parsed price and cost are the product's own, so the shown margin is the product's margin (100 for a positive price at cost 0). |
| Text.ParseIntText | src/pages/ProductDetailPage.js:131 | parseInt of String(n) is n, and parseInt('') is NaN. |
| Text.IncludesIffOccurs | src/components/ProductList.js:56-59 | `includes` holds iff the query occurs at some position. |
| Text.TrimEmptyIffBlank | src/pages/AddProductPage.js:67 | A trimmed string is empty iff the string is all white space. |
| Text.CompareAntisymmetric | src/components/ProductList.js:74-75 | The string order is antisymmetric. |
| Text.CompareTransitive | src/components/ProductList.js:74-75 | The string order is transitive. |
| Normalize.TrimOrNull | src/pages/AddProductPage.js:99-100 | `s.trim() \|\| null` is null iff s is blank, else the non-empty trimmed text. |
| Analytics.ChartWindow | src/pages/AnalyticsPage.js:138-153 | The chart has at most 14 points. It holds the last ≤ 7 observed entries, then the first ≤ 7 predicted ones, each taken from the series. |
| Analytics.ChartShownIffSeries | src/pages/AnalyticsPage.js:129-132 | A missing or empty series gives the placeholder, which draws no chart. Any entry makes the chart drawn. |
| Analytics.TotalPredictionsAsWritten | src/pages/AnalyticsPage.js:171-177 | As written, the 'next 7 days' card sums every predicted entry. With more than seven positive ones it exceeds the week the chart shows. |
| Analytics.WeekPredictionsMatchChart | src/pages/AnalyticsPage.js:142-153 | The corrected week total is the revenue of exactly the predicted points the chart draws. |
| Analytics.WeekPredictionsWithinSeven | src/pages/AnalyticsPage.js:171-177 | With at most seven predicted entries, the corrected and as-written totals agree. |
| Analytics.DailyAverageTimesSeven | src/pages/AnalyticsPage.js:278 | The daily average times 7 is the total, and it lies between 0 and the total for a non-negative total. |
| Analytics.Cards | src/pages/AnalyticsPage.js:171-179 | The forecast card shows `getTotalPredictions`, the sum over every predicted entry, and the daily card a seventh of it. The cards agree with the week the chart draws when at most seven entries are predicted. |
| Analytics.WeekCards | src/pages/AnalyticsPage.js:269-280 | The corrected cards: the forecast is the revenue of exactly the predicted points the chart draws, and the daily card a seventh of it. |
| Analytics.SeasonalChart | src/pages/AnalyticsPage.js:159-168 | No analysis or no by-day breakdown gives []. Otherwise there is one point per day, named by the first 3 characters of its name and valued at its total. |
| Analytics.RenderTabContent | src/pages/AnalyticsPage.js:182-200 | Loading wins over everything. A non-empty error wins over the tab. |
| Analytics.TabSelection | src/pages/AnalyticsPage.js:202-213 | Each known tab draws itself. Any other name draws the predictions. |
| Analytics.InitialState | src/pages/AnalyticsPage.js:33-38 | The page starts with empty predictions and recommendations, no performance report, no patterns and no error. |
| Analytics.AnalyzeDataOutcome | src/pages/AnalyticsPage.js:85-111 | Missing sales or products change nothing. Otherwise the results are stored in call order. The first analysis that throws stops the rest and sets the error. |

## Findings

| source | as written | input that shows it | evidently intended | confidence | as-written member | corrected member |
|---|---|---|---|---|---|---|
| src/pages/AddProductPage.js:161-173 | the duplicate check compares the untrimmed search, but the name stored is the trimmed search | existing category 'Bebidas', search 'Bebidas ' | a new category never duplicates an existing name | not executed; high | AddProduct.AsWrittenStoresDuplicate | AddProduct.NewCategoryChecks |
| src/pages/ProductDetailPage.js:39 | a quantity of 0 loads as '' (0 is falsy), and parseInt('') is NaN, so the label reads 'En Stock' | a product with quantity 0 | a product with no stock is labelled 'Agotado' | not executed; high | ProductDetail.ZeroStockShownInStock | ProductDetail.KeepingZeroShowsStock |
| src/pages/ProductDetailPage.js:38 | a cost of 0 loads as '' (0 is falsy), and parseFloat('') is NaN, so `calculateProfit` shows a margin of 0.00 % | a product with price 10 and cost 0 | the margin reads 100.00 % | not executed; high | ProductDetail.ZeroCostShowsNoMargin | ProductDetail.KeepingZeroShowsMargin |
| src/pages/AnalyticsPage.js:171-177 | the card subtitled 'Próximos 7 días' sums every predicted entry, and the page asks `predictSales` for 30 days | a series with eight predicted entries of revenue 100 | the card shows the seven predicted days the chart draws | not executed; medium, because the length of the prediction series comes from code that is not part of this model | Analytics.TotalPredictionsAsWritten | Analytics.WeekPredictionsMatchChart |

`AddProductForm.AddNewCategory` and `Analytics.Cards` model the page as
written. `NewCategory` is the corrected category check, and
`Analytics.WeekCards` holds the corrected cards.
`LoadFormKeepingZero`, which renders every present number including 0, is the corrected load of the product page. The
as-written `LoadForm` stays for the properties the page has as written.

## Left out

- The four analyses (`predictSales`, `getRestockRecommendations`,
  `getProductPerformance`, `analyzeSeasonalPatterns`) come from
  src/utils/analysisUtils, which is not part of this model. Their results are
  inputs to the analytics view-model, and their types are type parameters.
- **Firestore and Storage I/O.** This covers the snapshot listeners, the
  document reads and writes, image upload and the server timestamps. The
  store is an in-memory map from product id to quantity, plus a movement log
  and a sale list. The database-assigned ids and the clock are parameters.
- **Failures.** The store never throws, so `registerSale` always finishes
  its loop.
- **Authentication and routing, presentational components, styling.** Out of
  scope. The `createdBy` user id and `updatedAt` stamps are not modelled.
- **Date arithmetic.**
  - JavaScript `Date` arithmetic and month rollover are not modelled.
  - "Today" is a day number, and timestamps are local-time milliseconds.
  - Every day is 24 hours long, so `setDate(getDate() - 7)` is seven such
    days back; daylight-saving shifts are not modelled.
  - The calendar month back used by the 'month' filter is a parameter of
    `SalesHistory.Clock`.
  - The query windows of the reports and analytics pages are not modelled.
- **Formatting and collation.**
  - `Intl.NumberFormat`, `toLocaleDateString` and `toFixed` are not modelled;
    the chart keeps the entry's timestamp instead of a formatted date.
  - `localeCompare` is replaced by the lexicographic order of code units, a
    total order proved antisymmetric and transitive.
  - `toLowerCase` lowercases ASCII letters only.
- **Numbers and parsing.**
  - IEEE floating point is not modelled; amounts are exact cents.
  - `parseFloat` is not modelled: its results for price and cost come in as
    `Option` values (`None` for NaN). The margin lemmas of the product page
    assume only that blank text reads as NaN and that an amount's own
    rendering reads back as that amount (`ProductDetail.ReadsAmount`).
  - `parseInt` is modelled in base 10 only. Hexadecimal prefixes are not
    recognised.
  - `-0` and integers above 2^53 are not distinguished from other integers.
- **Alerts, `window.confirm`, navigation, loading flags, effect
  scheduling.** The outcome of `window.confirm` after saving is the
  `addAnother` parameter.
- Cart.SalesPage.AddToCart, Cart.SalesPage.UpdateItemQuantity: the source mutates the line object shared between the old and the new array (`updatedItems[i].quantity += 1` in `addToCart`, `updatedItems[index].quantity = newQuantity` in `updateItemQuantity`). The model builds a new line, so that aliasing is not captured.
- Cart.SalesPage.UpdateItemQuantity: requires an index in range, which the page guarantees by rendering one control per line. An out-of-range index throws in the source at `updatedItems[index].maxQuantity`.
- SalesStats.SalesByPaymentMethod: the accumulator keeps payment methods in first-seen order. A JavaScript object lists integer-like keys first, and names such as `constructor` would collide with the object's prototype. Neither effect is modelled.
- ProductList.SortByFacts: `Array.prototype.sort` is modelled by a stable insertion sort. Sortedness and permutation are proved; stability is not stated.
- **Records.** Sale items are assumed to carry a numeric quantity, and
  prediction entries a numeric total. A missing total would make JavaScript
  sums NaN.
- **Product page display.** The image preview on the product page
  (`FileReader`) and `deleteProduct` are I/O and are not modelled.
  `handleSave` passes the record to `updateProduct`; that store update is not
  part of this model.
- AddProduct.AddProductForm.AddNewCategory: the category store of the context (`addCategory`) is not modelled. The method returns the name that would be stored.
- InventoryStore.SalesInRangeMembers: `getSales` returns sales in the order Firestore reads them. That is document-id order without a range and `createdAt` order with one. The model keeps the order of its own sale sequence, which is the order of registration.
- AddProduct.AddProductForm.SaveProduct: the image handed to `addProduct` (`imageToUpload`, a string image or null) is not modelled. The store keeps no images, and the upload is Storage I/O.
