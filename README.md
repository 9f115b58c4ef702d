# tcc-29-09 ERP core, modelled in Dafny

This project models the data-handling core of a small ERP web application. The application is
written in TypeScript/React over a Supabase backend. The model covers:

- **Dashboard.** The AI insight cards (`AIInsights`), the sales line chart with its forecast
  (`MainChart`), the top-products bar chart (`TopProductsChart`) and the revenue-by-category
  doughnut (`CategoryChart`).
- **Sales forecast.** The `useSalesPrediction` hook. Its state is a class (`PredictionState`), and
  the reply of the remote `sales-prediction` function is an input.
- **Pages.** Stock (`Estoque`), purchases (`Compras`), reports (`Relatorios`) and AI
  recommendations (`AIRecommendations`).
- **Record forms.** The product, employee and customer forms (`ProductForm`, `EmployeeForm`,
  `CustomerForm`). They share `Forms.Form`, a class holding `formData`, `formErrors` and `loading`
  that the change, blur, open and submit handlers update. `Masks` holds the input masks.
- **Sign-in screen.** `LoginForm` covers the three views, the error translations and the
  transitions between views.
- **Backend module.** `Supabase` holds the row types, their status enumerations and
  `isSupabaseConfigured`.

The grouping code shared by the charts and the insight cards is in `Rollup`. It covers revenue
maps filled sale by sale, their entries, a stable sort by descending amount and the first *n*
entries. `Seqs`, `Text` and `Wrappers` are generic helpers for these.

Conventions:

- Money is an integer number of cents.
- A nullable column is an `Option`. Where a component coerces null to 0, `Num` does the same.
- Text is `seq<char>`.
- The backend calls, the clock and the language model are not modelled. What they answer is a
  parameter of the operation that awaits them: an `AuthAnswer`, a `failed` flag, a parsed reply,
  or `today`.

Two behaviours of the code worth noting:

- **The dashboard's "top product" card.** It goes to the product with the highest summed revenue.
  On a tie it goes to the product whose first contributing sale comes earliest, because the
  revenue map keeps insertion order and the sort is stable. Catalogue order plays no part
  (`Rollup.SortedTiesKeepFirstOrder`, `AIInsights.TopProductChoice`).
- **The forecast hook's "function not found" text.** The hook shows it for a transport error whose
  message mentions a missing function. It also shows it for a reply body whose `error` field says
  so, because both errors reach the same `catch` (`SalesPrediction.BodyErrorOutcome`).

## Model

| member | source | states |
|---|---|---|
| Supabase.ParseSaleStatus | tcc-29-09/src/lib/supabase.ts:63 | a sale status read back from text names that text |
| Supabase.ParsePurchaseStatus | tcc-29-09/src/lib/supabase.ts:77 | a purchase status read back from text names that text |
| Supabase.ParseCustomerStatus | tcc-29-09/src/lib/supabase.ts:51 | a customer status read back from text names that text |
| Supabase.StatusNamesRoundTrip | tcc-29-09/src/lib/supabase.ts:43-77 | every status of the three enumerations reads back from its stored name |
| Supabase.ConfiguredIff | tcc-29-09/src/lib/supabase.ts:7-11 | the client counts as configured exactly when URL and key are present and non-empty and the URL contains the hosted domain |
| Supabase.HostedUrlConfigured | tcc-29-09/src/lib/supabase.ts:7-11 | any `https://<project>.supabase.co` URL with a non-empty key is accepted |
| Supabase.FindById | tcc-29-09/src/components/Dashboard/TopProductsChart.tsx:32 | `find` returns the first product with the id, and None exactly when no product has it |
| SalesPrediction.FailureMessageShape | tcc-29-09/src/hooks/useSalesPrediction.ts:61-71 | the error shown is never empty; it is the generic text exactly when there is no message, else the deployment hint or text starting 'Erro: ' |
| SalesPrediction.TransportErrorOutcome | tcc-29-09/src/hooks/useSalesPrediction.ts:40-71 | a transport error mentioning a missing function shows the deployment hint, any other message is shown after 'Erro: ', and no message gives the generic text |
| SalesPrediction.InsufficientDataIsNotAnError | tcc-29-09/src/hooks/useSalesPrediction.ts:48-53 | an 'insufficient data' reply ends with no data and no error |
| SalesPrediction.BodyErrorOutcome | tcc-29-09/src/hooks/useSalesPrediction.ts:54-56 | any other body error leaves no data and shows the failure message for the body's error text |
| SalesPrediction.DefaultBodyErrorShown | tcc-29-09/src/hooks/useSalesPrediction.ts:55 | the body's default error text is shown after 'Erro: ' |
| SalesPrediction.SuccessOutcome | tcc-29-09/src/hooks/useSalesPrediction.ts:57-59 | a successful reply's data is stored and no error is shown |
| SalesPrediction.OutcomeExclusive | tcc-29-09/src/hooks/useSalesPrediction.ts:61-72 | a fetch never ends with both data and an error |
| SalesPrediction.PredictionState.constructor | tcc-29-09/src/hooks/useSalesPrediction.ts:30-32 | the hook starts with no data, loading, and no error |
| SalesPrediction.PredictionState.BeginFetch | tcc-29-09/src/hooks/useSalesPrediction.ts:35-36 | a fetch sets loading and clears the error, keeping the data |
| SalesPrediction.PredictionState.CompleteFetch | tcc-29-09/src/hooks/useSalesPrediction.ts:38-75 | after the reply the data is the outcome's data, a failure sets its error, and loading is off |
| SalesPrediction.PredictionState.Fetch | tcc-29-09/src/hooks/useSalesPrediction.ts:34-76 | a whole fetch ends with exactly the outcome's data and error, not loading |
| AIInsights.Insight.Id | tcc-29-09/src/components/Dashboard/AIInsights.tsx:23-79 | each card kind has its own fixed id |
| AIInsights.InsightLinks | tcc-29-09/src/components/Dashboard/AIInsights.tsx:23-79 | every card shown links to sales or stock, and to stock exactly when it is the low-stock or top-product card |
| AIInsights.Contributions | tcc-29-09/src/components/Dashboard/AIInsights.tsx:50-52 | every sale adds its total (null as 0) under its product id, in sale order |
| AIInsights.AssembleMembers | tcc-29-09/src/components/Dashboard/AIInsights.tsx:17-80 | the card list holds exactly the cards whose rules fire, or only the start card when none fires |
| AIInsights.ComputeInsights | tcc-29-09/src/components/Dashboard/AIInsights.tsx:16-84 | the memo's loop builds the list the rules define |
| AIInsights.TopProductCard | tcc-29-09/src/components/Dashboard/AIInsights.tsx:48-68 | the loop over sales yields the top-product card the rule defines |
| AIInsights.InsightsOrdered | tcc-29-09/src/components/Dashboard/AIInsights.tsx:19-83 | one to three cards, in rule order (forecast, stock, top product, start), with distinct ids |
| AIInsights.PredictionInsightIff | tcc-29-09/src/components/Dashboard/AIInsights.tsx:20-31 | the forecast card is shown exactly when there are predictions; it comes first and carries the sum of the first seven |
| AIInsights.LowStockInsightIff | tcc-29-09/src/components/Dashboard/AIInsights.tsx:34-45 | the stock card is shown exactly when some product is at or below its minimum, with their count |
| AIInsights.TopProductNeedsData | tcc-29-09/src/components/Dashboard/AIInsights.tsx:48 | no sales or no products means no top-product card |
| AIInsights.TopProductChoice | tcc-29-09/src/components/Dashboard/AIInsights.tsx:49-56 | the card names the catalogue product whose id has the highest revenue, ties going to the earliest first sale |
| AIInsights.TopProductShown | tcc-29-09/src/components/Dashboard/AIInsights.tsx:48-67 | with sales and products present and the best-selling id in the catalogue, the card naming that product is shown |
| AIInsights.MissingTopProduct | tcc-29-09/src/components/Dashboard/AIInsights.tsx:53-67 | when the best id is not in the catalogue, no top-product card is shown |
| AIInsights.FallbackIff | tcc-29-09/src/components/Dashboard/AIInsights.tsx:71-81 | there is always a card, and the start card appears exactly when no rule produces one |
| MainChart.ChartData | tcc-29-09/src/components/Dashboard/MainChart.tsx:19-48 | labels run over recorded then forecast days; real values on recorded days, forecast values only on forecast days |
| TopProductsChart.RevenueContributions | tcc-29-09/src/components/Dashboard/TopProductsChart.tsx:21-25 | only sales with a product and a non-zero total contribute, each with a non-empty id and non-zero amount |
| TopProductsChart.RevenueOfProduct | tcc-29-09/src/components/Dashboard/TopProductsChart.tsx:19-25 | a product's accumulated revenue is the sum of its contributing sales' totals |
| TopProductsChart.Labels | tcc-29-09/src/components/Dashboard/TopProductsChart.tsx:31-34 | each bar is labelled with its product's catalogue name or 'Desconhecido' |
| TopProductsChart.ChartData | tcc-29-09/src/components/Dashboard/TopProductsChart.tsx:14-50 | the memo's accumulate-sort-slice computes the chart the definition gives |
| TopProductsChart.EmptyChart | tcc-29-09/src/components/Dashboard/TopProductsChart.tsx:15-17 | the chart is empty exactly when there are no sales or no products |
| TopProductsChart.ChartShape | tcc-29-09/src/components/Dashboard/TopProductsChart.tsx:19-50 | at most five bars, one per product, non-increasing, each the product's summed revenue |
| TopProductsChart.OmittedEarnLess | tcc-29-09/src/components/Dashboard/TopProductsChart.tsx:27-29 | a product left off a full chart earns no more than the fifth bar |
| TopProductsChart.TiesKeepFirstSaleOrder | tcc-29-09/src/components/Dashboard/TopProductsChart.tsx:19-28 | equal bars keep the order of their products' first contributing sale |
| CategoryChart.ProductMap | tcc-29-09/src/components/Dashboard/CategoryChart.tsx:20 | the id-to-product map holds exactly the catalogue's ids, each mapped to a catalogue product with that id |
| CategoryChart.ProductMapLastWins | tcc-29-09/src/components/Dashboard/CategoryChart.tsx:20 | on duplicate ids the last product's category wins |
| CategoryChart.CategoryContributions | tcc-29-09/src/components/Dashboard/CategoryChart.tsx:22-27 | at most one contribution per sale, each under a non-empty category with a non-zero amount |
| CategoryChart.RevenueOfCategory | tcc-29-09/src/components/Dashboard/CategoryChart.tsx:22-27 | a category's slice is the sum of the totals of its qualifying sales |
| CategoryChart.ChartData | tcc-29-09/src/components/Dashboard/CategoryChart.tsx:14-50 | the memo's loop computes the chart the definition gives |
| CategoryChart.EmptyChart | tcc-29-09/src/components/Dashboard/CategoryChart.tsx:15-17 | the chart is empty exactly when there are no sales or no products |
| CategoryChart.ChartShape | tcc-29-09/src/components/Dashboard/CategoryChart.tsx:22-37 | one slice per distinct category, each its category's revenue, slices summing to all qualifying revenue |
| CategoryChart.LabelMembership | tcc-29-09/src/components/Dashboard/CategoryChart.tsx:22-29 | a category is a label exactly when some qualifying sale falls in it |
| Rollup.Distinct | tcc-29-09/src/components/Dashboard/TopProductsChart.tsx:19-27 | the map's keys are exactly the contributed keys, without repeats |
| Rollup.DistinctOrder | tcc-29-09/src/components/Dashboard/CategoryChart.tsx:29 | keys keep the order of their first insertion |
| Rollup.DistinctCardinality | tcc-29-09/src/pages/Compras.tsx:32 | the number of distinct keys is the size of the set of keys |
| Rollup.Accumulate | tcc-29-09/src/components/Dashboard/TopProductsChart.tsx:19-25 | the loop filling the revenue map ends with exactly the keys in first-insertion order, each with its total |
| Rollup.AccumulateStep | tcc-29-09/src/components/Dashboard/TopProductsChart.tsx:23 | one `(map[k] \|\| 0) + amount` step keeps the map equal to the running totals |
| Rollup.GroupedTotal | tcc-29-09/src/components/Dashboard/CategoryChart.tsx:22-30 | the grouped entries add up to the total of all contributions |
| Rollup.SortDesc | tcc-29-09/src/components/Dashboard/TopProductsChart.tsx:28 | the sort is a permutation of its input (the `sort` call on the map's entries) |
| Rollup.SortDescSorted | tcc-29-09/src/components/Dashboard/TopProductsChart.tsx:28 | the sorted entries are in non-increasing amount order |
| Rollup.SortDescStable | tcc-29-09/src/components/Dashboard/TopProductsChart.tsx:28 | entries of equal amount keep their input order |
| Rollup.SortDescKeys | tcc-29-09/src/components/Dashboard/TopProductsChart.tsx:27-28 | sorting keeps keys distinct |
| Rollup.SortDescHead | tcc-29-09/src/components/Dashboard/AIInsights.tsx:53 | the sorted head is the first entry of maximal amount |
| Rollup.TopEntries | tcc-29-09/src/components/Dashboard/TopProductsChart.tsx:27-29 | the first n sorted entries are at most n, sorted, of distinct keys, drawn from the input, and no omitted entry has more |
| Rollup.TopOmitted | tcc-29-09/src/components/Dashboard/TopProductsChart.tsx:27-29 | an entry past the slice has no larger amount than the last kept one |
| Rollup.OmittedKey | tcc-29-09/src/components/Dashboard/TopProductsChart.tsx:19-29 | a key not in the slice totals no more than the last kept entry |
| Rollup.SortedHeadIsTopKey | tcc-29-09/src/components/Dashboard/AIInsights.tsx:49-53 | the sorted head's key has the largest total |
| Rollup.TopKeyUnique | tcc-29-09/src/components/Dashboard/AIInsights.tsx:53 | at most one key has the highest total and, among equals, the earliest first insertion |
| Rollup.SortedTiesKeepFirstOrder | tcc-29-09/src/components/Dashboard/TopProductsChart.tsx:27-28 | among equal totals the sorted order is first-insertion order |
| Rollup.FirstMaxBound | tcc-29-09/src/components/Dashboard/AIInsights.tsx:53 | the first largest grouped entry's total bounds every key's, and on a tie it was inserted no later |
| Estoque.Status | tcc-29-09/src/pages/Estoque.tsx:215-226 | the badge is low at or below the minimum, medium up to twice it, normal above |
| Estoque.RedIffLow | tcc-29-09/src/pages/Estoque.tsx:201-216 | the stock figure is red exactly when the badge is low |
| Estoque.LowStockCountIff | tcc-29-09/src/pages/Estoque.tsx:28 | the low-stock count counts exactly the products at or below their minimum |
| Estoque.TotalValueNonNegative | tcc-29-09/src/pages/Estoque.tsx:29 | with non-negative prices and stocks the stock value is non-negative |
| Estoque.SearchFilter | tcc-29-09/src/pages/Estoque.tsx:75-79 | a product is listed exactly when its lower-cased name or SKU contains the lower-cased term |
| Estoque.EmptySearchKeepsAll | tcc-29-09/src/pages/Estoque.tsx:75-79 | an empty search lists every product in order |
| Compras.SupplierCountBounds | tcc-29-09/src/pages/Compras.tsx:32 | the supplier count is the number of distinct suppliers, at most the number of purchases |
| Compras.PendingCountIff | tcc-29-09/src/pages/Compras.tsx:31 | the pending count is positive exactly when some purchase is pending |
| Compras.SearchFilter | tcc-29-09/src/pages/Compras.tsx:34-37 | a purchase is listed exactly when its product name or supplier contains the term |
| Compras.StatusText | tcc-29-09/src/pages/Compras.tsx:52-63 | a status other than the three known ones is shown unchanged |
| Compras.StatusColor | tcc-29-09/src/pages/Compras.tsx:65-76 | a status other than the three known ones gets the grey badge |
| Compras.KnownStatusesTranslated | tcc-29-09/src/pages/Compras.tsx:52-76 | each known status gets one of the three Portuguese names and a non-grey badge, and distinct statuses get distinct names |
| Relatorios.ExportPlan | tcc-29-09/src/pages/Relatorios.tsx:66-162 | export waits while loading; an unknown report gives the error document; a report without data alerts; otherwise its three summary figures and one row per record |
| Relatorios.SalesChart | tcc-29-09/src/pages/Relatorios.tsx:236-247 | one bar per sale, 'Venda 1' to 'Venda n', with its quantity (null as 0), or a single 'Sem Dados' bar |
| Relatorios.SalesChartLabelsDistinct | tcc-29-09/src/pages/Relatorios.tsx:237 | distinct sales get distinct labels |
| Relatorios.CustomerSegments | tcc-29-09/src/pages/Relatorios.tsx:250-263 | all customers count as new; the other two segments are 0 |
| Relatorios.ProductPerformance | tcc-29-09/src/pages/Relatorios.tsx:266-280 | the first five products, each with its units sold, or a single 'Sem Produtos' bar |
| Relatorios.UnitsSoldIsMaskedSum | tcc-29-09/src/pages/Relatorios.tsx:272-273 | units sold is the sum of quantities of the product's sales |
| Relatorios.FinancialChart | tcc-29-09/src/pages/Relatorios.tsx:283-299 | revenue, spending, and profit equal to their difference |
| AIRecommendations.BuildContext | tcc-29-09/src/pages/AIRecommendations.tsx:35-42 | the summary's counts, revenue and shortage count agree with the lists; the first ten products are summarised |
| AIRecommendations.ActiveOf | tcc-29-09/src/pages/AIRecommendations.tsx:98 | the shown recommendations are a subsequence of the received ones |
| AIRecommendations.ActiveMembership | tcc-29-09/src/pages/AIRecommendations.tsx:98 | a recommendation is shown exactly when received and not implemented |
| AIRecommendations.ImplementHidesId | tcc-29-09/src/pages/AIRecommendations.tsx:75-77 | implementing an id removes exactly its recommendations, keeping the rest in order |
| AIRecommendations.PriorityText | tcc-29-09/src/pages/AIRecommendations.tsx:89-96 | an unknown priority reads 'Normal', the three known ones their own text |
| AIRecommendations.PriorityColor | tcc-29-09/src/pages/AIRecommendations.tsx:80-87 | an unknown priority gets the neutral badge |
| AIRecommendations.PrioritiesDistinguished | tcc-29-09/src/pages/AIRecommendations.tsx:80-96 | the three known priorities have distinct texts and colours |
| AIRecommendations.RecommendationsPage.constructor | tcc-29-09/src/pages/AIRecommendations.tsx:19-22 | the page starts empty, loading, without error and with nothing implemented |
| AIRecommendations.RecommendationsPage.BeginFetch | tcc-29-09/src/pages/AIRecommendations.tsx:31-32 | a fetch sets loading and clears the error |
| AIRecommendations.RecommendationsPage.CompleteFetch | tcc-29-09/src/pages/AIRecommendations.tsx:58-72 | a reply replaces the list; a failure keeps it and shows the fixed message |
| AIRecommendations.RecommendationsPage.Implement | tcc-29-09/src/pages/AIRecommendations.tsx:75-77 | the id is recorded and no shown recommendation carries it afterwards |
| ProductForm.SkuFormatIff | tcc-29-09/src/components/forms/ProductForm.tsx:34 | the SKU pattern accepts exactly upper-case alphanumeric runs joined by single hyphens |
| ProductForm.Validate | tcc-29-09/src/components/forms/ProductForm.tsx:26-51 | each field's message is empty exactly when the field's rule holds |
| ProductForm.SkuInput | tcc-29-09/src/components/forms/ProductForm.tsx:163-164 | the SKU input upper-cases and keeps only SKU characters |
| ProductForm.SkuInputIdempotent | tcc-29-09/src/components/forms/ProductForm.tsx:164 | normalising a normalised SKU changes nothing |
| ProductForm.StockInputAccepted | tcc-29-09/src/components/forms/ProductForm.tsx:161-162 | a stock typed through the digit filter fails only when empty |
| ProductForm.PriceInputAccepted | tcc-29-09/src/components/forms/ProductForm.tsx:159-160 | a price typed through the decimal filter fails exactly when it has no digit where a number must start |
| ProductForm.ProductFormState.constructor | tcc-29-09/src/components/forms/ProductForm.tsx:14-24 | the form opens blank, without errors, not loading |
| ProductForm.ProductFormState.Change | tcc-29-09/src/components/forms/ProductForm.tsx:156-177 | the normalised value is stored; a field showing an error is re-validated |
| ProductForm.ProductFormState.CheckSku | tcc-29-09/src/components/forms/ProductForm.tsx:53-79 | a non-empty SKU with no SKU error is available exactly when not in use, and flagged as taken otherwise; any other SKU is available and unflagged |
| ProductForm.ProductFormState.Blur | tcc-29-09/src/components/forms/ProductForm.tsx:179-187 | blur records the field's message, and for the SKU also runs the uniqueness check |
| ProductForm.ProductFormState.Submit | tcc-29-09/src/components/forms/ProductForm.tsx:81-154 | each path of submit: field errors, taken SKU, not configured, signed out, duplicate key, other failure, success with a blank form; loading ends on every path that started it, and an unsaved path keeps the form data |
| ProductForm.FailedSubmitDisables | tcc-29-09/src/components/forms/ProductForm.tsx:302 | after a submit stopped by field errors the button is disabled |
| ProductForm.UnknownFieldsAccepted | tcc-29-09/src/components/forms/ProductForm.tsx:48-49 | any other field name is accepted |
| EmployeeForm.Validate | tcc-29-09/src/components/forms/EmployeeForm.tsx:53-73 | required fields fail exactly when blank; email and salary rules; unchecked fields always pass |
| EmployeeForm.ErrorsOnlyOnChecked | tcc-29-09/src/components/forms/EmployeeForm.tsx:78-87 | only the seven checked fields can block a save |
| EmployeeForm.MaskedPhoneAccepted | tcc-29-09/src/components/forms/EmployeeForm.tsx:147-152 | a masked phone passes exactly when a digit was typed |
| EmployeeForm.DatePart | tcc-29-09/src/components/forms/EmployeeForm.tsx:38-40 | a date is cut before its first 'T', a missing one falls back |
| EmployeeForm.FromEmployee | tcc-29-09/src/components/forms/EmployeeForm.tsx:31-42 | an employee's entries are its attributes, '' for missing ones, dates without time |
| EmployeeForm.NewEntries | tcc-29-09/src/components/forms/EmployeeForm.tsx:44-47 | a new employee's entries are blank except the hire date, which is today |
| EmployeeForm.Prefill | tcc-29-09/src/components/forms/EmployeeForm.tsx:28-51 | the form opens with every field, and prefilled dates carry no time part |
| EmployeeForm.Record | tcc-29-09/src/components/forms/EmployeeForm.tsx:110-122 | the saved record maps empty optional fields to null and is 'active' |
| EmployeeForm.Submit | tcc-29-09/src/components/forms/EmployeeForm.tsx:75-138 | each path of submit: field errors, not configured, signed out, failure, success with the record sent; the field errors and loading flag are otherwise left as they were |
| CustomerForm.Validate | tcc-29-09/src/components/forms/CustomerForm.tsx:38-51 | name and phone fail exactly when blank, email by its rule, company always passes |
| CustomerForm.MaskedPhoneAccepted | tcc-29-09/src/components/forms/CustomerForm.tsx:115-120 | a masked phone passes exactly when a digit was typed |
| CustomerForm.SubmitErrors | tcc-29-09/src/components/forms/CustomerForm.tsx:56-63 | the errors object holds exactly the failing fields with their messages, never the company |
| CustomerForm.Prefill | tcc-29-09/src/components/forms/CustomerForm.tsx:22-36 | the form opens with the customer's attributes, '' for missing ones, or blank |
| CustomerForm.Record | tcc-29-09/src/components/forms/CustomerForm.tsx:86-92 | the saved record maps an empty company to null and is 'active' |
| CustomerForm.Open | tcc-29-09/src/components/forms/CustomerForm.tsx:22-36 | opening refills the entries and clears the errors; a closed form is untouched |
| CustomerForm.Submit | tcc-29-09/src/components/forms/CustomerForm.tsx:53-108 | each path of submit: field errors, not configured, signed out, failure, success with the record sent; the field errors and loading flag are otherwise left as they were |
| Forms.Form.constructor | tcc-29-09/src/components/forms/CustomerForm.tsx:13-20 | a form starts with its initial entries, no errors, not loading |
| Forms.Form.Open | tcc-29-09/src/components/forms/CustomerForm.tsx:22-36 | reopening replaces the entries and clears the errors |
| Forms.Form.Change | tcc-29-09/src/components/forms/EmployeeForm.tsx:140-168 | the normalised value is stored; only a field showing an error is re-validated |
| Forms.Form.Blur | tcc-29-09/src/components/forms/EmployeeForm.tsx:170-174 | blur records the field's message, empty included |
| Forms.Form.Submit | tcc-29-09/src/components/forms/EmployeeForm.tsx:78-94 | submit proceeds exactly when every checked field passes; otherwise the errors are shown |
| Forms.GuardedSave | tcc-29-09/src/components/forms/EmployeeForm.tsx:96-137 | configuration, then sign-in, then the save; each failure alerts its own message and loading ends |
| Forms.CollectErrors | tcc-29-09/src/components/forms/CustomerForm.tsx:56-63 | the loop builds the errors object field by field |
| Forms.ErrorsOfIff | tcc-29-09/src/components/forms/EmployeeForm.tsx:78-92 | a field has an entry exactly when checked and failing, holding its message |
| Forms.NoErrorsIff | tcc-29-09/src/components/forms/CustomerForm.tsx:65-68 | the errors object is empty exactly when every checked field passes |
| Forms.EmailMessage | tcc-29-09/src/components/forms/EmployeeForm.tsx:60-63 | an email passes exactly when non-empty and matching the pattern; empty gets the required message |
| Forms.EmailAccepted | tcc-29-09/src/components/forms/CustomerForm.tsx:44 | `user@host.tld` with space-free parts passes, whatever surrounds it |
| Forms.PlainDecimalParses | tcc-29-09/src/components/forms/EmployeeForm.tsx:68 | a digits-and-dots value parses exactly when it starts with a digit or a dot and digit |
| Forms.OrEmpty | tcc-29-09/src/components/forms/CustomerForm.tsx:26-29 | a missing or empty attribute becomes '' |
| Forms.NullIfEmpty | tcc-29-09/src/components/forms/EmployeeForm.tsx:118-120 | an empty entry is saved as null |
| Text.TrimEmptyIff | tcc-29-09/src/components/forms/CustomerForm.tsx:41 | a value trims to '' exactly when it is all white space |
| Masks.PhoneMaskClosed | tcc-29-09/src/components/forms/EmployeeForm.tsx:147-152 | the mask's output is a phone layout of its digits |
| Masks.PhoneMaskDigits | tcc-29-09/src/components/forms/EmployeeForm.tsx:147-152 | the masked phone keeps the first eleven typed digits |
| Masks.PhoneMaskEleven | tcc-29-09/src/components/forms/EmployeeForm.tsx:147-152 | eleven digits give `(dd) ddddd-dddd` |
| Masks.PhoneMaskBlankIff | tcc-29-09/src/components/forms/EmployeeForm.tsx:147-152 | the masked phone is blank exactly when no digit was typed |
| Masks.PhoneMaskIdempotent | tcc-29-09/src/components/forms/EmployeeForm.tsx:147-152 | masking a masked phone changes nothing |
| Masks.PhoneMaskLength | tcc-29-09/src/components/forms/EmployeeForm.tsx:152 | the masked phone is at most 15 characters |
| Masks.DocumentMaskClosed | tcc-29-09/src/components/forms/EmployeeForm.tsx:153-159 | the CPF mask's output is a CPF layout of its digits |
| Masks.DocumentMaskEleven | tcc-29-09/src/components/forms/EmployeeForm.tsx:153-159 | eleven digits give `ddd.ddd.ddd-dd` |
| Masks.DocumentMaskDigits | tcc-29-09/src/components/forms/EmployeeForm.tsx:153-159 | up to eleven digits the masked CPF keeps exactly the digits typed; with twelve or thirteen it keeps the first eleven, with fourteen or more the first twelve |
| Masks.DocumentMaskOverflow | tcc-29-09/src/components/forms/EmployeeForm.tsx:153-159 | twelve or thirteen digits move the hyphen right and lose the digits after the cut; fourteen or more give `ddd.ddd.dddddd` with no hyphen |
| Masks.NameInput | tcc-29-09/src/components/forms/EmployeeForm.tsx:144 | a name loses its digits and keeps everything else in order |
| Masks.DropLastDotSpec | tcc-29-09/src/components/forms/EmployeeForm.tsx:146 | the dot rewrite keeps every digit; with fewer than two dots it changes nothing, and otherwise it removes exactly the last dot |
| Masks.DecimalInputSpec | tcc-29-09/src/components/forms/EmployeeForm.tsx:146 | the filter's output holds only digits and dots and keeps every typed digit; with fewer than two dots typed it is the typed digits and dots, otherwise those without the last dot |
| Masks.DecimalKeepsOneDot | tcc-29-09/src/components/forms/EmployeeForm.tsx:146 | one character typed into a value with at most one dot leaves at most one dot after the filter |
| LoginForm.Title | tcc-29-09/src/components/LoginForm.tsx:142-146 | each view has its heading |
| LoginForm.TitlesDistinct | tcc-29-09/src/components/LoginForm.tsx:142-146 | the three views have distinct headings |
| LoginForm.FirstMatch | tcc-29-09/src/components/LoginForm.tsx:90-106 | the first table entry whose fragment occurs in the message, or None when none does |
| LoginForm.ErrorMessageIsFirstMatch | tcc-29-09/src/components/LoginForm.tsx:88-107 | no message gives the generic text; a message gives its first translation, else 'Erro: ' and the message |
| LoginForm.ForeignMessageShown | tcc-29-09/src/components/LoginForm.tsx:104-106 | a non-empty message lacking every letter that marks a known fragment is shown after 'Erro: ' |
| LoginForm.TooShortShown | tcc-29-09/src/components/LoginForm.tsx:57-58 | the local length error matches no translation, so it is shown as 'Erro: ' and the untranslated text |
| LoginForm.MismatchShown | tcc-29-09/src/components/LoginForm.tsx:53-54 | the local mismatch error is translated to the text with a full stop |
| LoginForm.MismatchFragmentShown | tcc-29-09/src/components/LoginForm.tsx:100-101 | a message with the mismatch fragment and none of the earlier ones gets the mismatch text |
| LoginForm.CatchMessage | tcc-29-09/src/components/LoginForm.tsx:85-109 | the catch block's if-chain computes the translation |
| LoginForm.NotConfiguredFirst | tcc-29-09/src/components/LoginForm.tsx:34-38 | without configuration the fixed error is shown and nothing is called |
| LoginForm.RegisterChecksFirst | tcc-29-09/src/components/LoginForm.tsx:52-61 | mismatch is checked before length, and sign-up is called only when both pass |
| LoginForm.SignUpAnswered | tcc-29-09/src/components/LoginForm.tsx:72-83 | an unconfirmed sign-up returns to login with the confirmation notice; a confirmed one logs in |
| LoginForm.SubmitShape | tcc-29-09/src/components/LoginForm.tsx:29-113 | a submit never enters the reset view, never sets both lines, and logs in only without an error |
| LoginForm.ForgotOnlyByLink | tcc-29-09/src/components/LoginForm.tsx:276-279 | the reset view is entered from another view only through the login view's link |
| LoginForm.RunReachesForgotByLink | tcc-29-09/src/components/LoginForm.tsx:276-279 | any run of steps reaching the reset view follows the link |
| LoginForm.LoginScreen.constructor | tcc-29-09/src/components/LoginForm.tsx:12-22 | the screen starts on the login view, empty, with no messages |
| LoginForm.LoginScreen.Change | tcc-29-09/src/components/LoginForm.tsx:135-140 | a change sets its field and nothing else |
| LoginForm.LoginScreen.ToggleView | tcc-29-09/src/components/LoginForm.tsx:328-331 | the toggle swaps login and register (any other view goes to login) and clears the messages |
| LoginForm.LoginScreen.FollowForgotLink | tcc-29-09/src/components/LoginForm.tsx:276-279 | the link opens the reset view and clears the messages |
| LoginForm.LoginScreen.SubmitForm | tcc-29-09/src/components/LoginForm.tsx:29-113 | the screen after submit is the outcome its inputs determine, not loading |
| LoginForm.LoginScreen.PasswordReset | tcc-29-09/src/components/LoginForm.tsx:115-133 | success returns to login with the notice; failure stays with the error |

## Left out

- The forecast itself: the `sales-prediction` function runs on the backend, and its reply is an input.
- The network, authentication and storage calls. This includes the inserts and updates, the SKU lookup and the stock page's product deletion (`handleDeleteProduct`). Their answers are parameters such as `failed`, `inUse`, `signedIn` and `AuthAnswer`.
- The AI recommendations prompt, the language model and `JSON.parse`: the parsed reply is an input.
- PDF generation and chart rendering, including the financial chart's colour by the sign of profit.
- The report title, the date and file name, and the 'generating' notice shown before drawing.
- Locale formatting: `toLocaleDateString` is the parameter `dayLabel`, and currency formatting is not modelled.
- The clock: `today` is a parameter.
- Floating point: money is integer cents, and rounding is not modelled.
- `Forms.ParsesAsNumber` approximates `parseFloat` on its first characters and ignores exponents.
- Case mapping covers ASCII letters only, and `.length` counts characters rather than UTF-16 code units.
- JavaScript coercion of `undefined` and `NaN` is not modelled. A null number column reads as 0 wherever a component writes `|| 0`.
- A nullable text column is a `string` in which '' stands for both null and empty, since the components only test it for truthiness.
- The dashboard's hard-coded prediction figures and the purely presentational components (header, sidebar, layout, metric cards).
- The purchase page's `totalPurchases`, which is the length of the list.
