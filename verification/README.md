# Product and offer tracker: a Dafny model of the bookkeeping core

The tracker keeps a list of products. Each product has one or more sources,
and each source has a price. A source marked as an offer is time-boxed by a
start date and an end date. The system has:

- a React front end: a card page and a table page, three dialogs that create
  or edit products, a statistics tab, a pricing calculator and its settings
  dialog;
- an Express back end that serves products from a database and guards the
  write routes.

This project models the logic under those screens and handlers in Dafny 4:

- **Offer lifecycle.** Days remaining, the four-way offer status, the
  progress of an offer window, the most-urgent status of a product, and the
  status and source counters (`ProductUtils`).
- **CSV export and import.** The product CSV export and its importer
  (`ProductCsv`).
- **Pricing.** The pricing chain of the calculator (`Pricing`) and the
  calculator settings editor (`Settings`).
- **Table page.** Flattening to (product, source) rows, the filter, the sort
  and its state machine, and the id-keyed list edits (`TableView`).
- **Statistics.** Channel, creator and category counts, the top-five lists,
  percentages and the recent-activity sort (`Stats`).
- **Product list page.** Cleaning, the regular/offer partition, the edit
  permission and the submission shape (`IndexPage`).
- **Back end.** Token authentication and the admin check, the 400 guards,
  the grouping of LEFT JOIN rows into products, the stored source rows, and
  the replace-all-sources update transaction (`Server`).
- **Dialogs.** The edit, add-product and add-offer dialogs with their
  source-row editing (`EditProduct`, `AddProduct`, `AddOffer`, `FormLists`).

**How the runtime is represented**

- The wall clock, id generation, date-text parsing (`new Date(text)`) and
  `toISOString()` are parameters (module `Clock`).
- Instants are integer milliseconds. Prices and rates are exact reals.
- Component state that the source changes in place is a class:
  - its fields are the `useState` variables;
  - the callbacks a component calls (`onUpdateProduct`, `onAddProduct`,
    `onAddOffer`, `onCalculatorSettingsChange`, the body POSTed to
    /api/products) are log fields that its methods append to.

## Model

| member | source | states |
|---|---|---|
| ProductUtils.DaysRemaining | src/utils/productUtils.ts:15-20 | the result is the ceiling of (end − now) / 86 400 000: the least whole number of days covering the difference |
| ProductUtils.OfferStatusAt | src/utils/productUtils.ts:3-13 | expired exactly when the end lies a full day or more in the past; urgent, warning and active exactly on the intervals (−1, 2], (2, 5] and beyond 5 days; expired exactly when days remaining is negative |
| ProductUtils.CalculateProgress | src/utils/productUtils.ts:22-31 | undefined (0/0) exactly at start == end == now; otherwise in [0, 100]; 0 before the start; 100 after the end |
| ProductUtils.ProgressMonotone | src/utils/productUtils.ts:27-30 | for start < end, progress is defined and never decreases as now advances |
| ProductUtils.ProductStatus | src/utils/productUtils.ts:33-39 | a product is `regular` exactly when no source is an offer |
| ProductUtils.OfferStatusesFacts | src/utils/productUtils.ts:35-41 | the computed statuses are empty iff no source is an offer; each comes from an offer source; every offer source's status is among them |
| ProductUtils.MostUrgentWins | src/utils/productUtils.ts:41-47 | a non-regular product status is the status of one of its offer sources, and no offer source is more urgent |
| ProductUtils.MostUrgentWinsExample | src/utils/productUtils.ts:35-47 | a non-offer source, a warning offer and an expired offer give `expired` |
| ProductUtils.StatusCounts.Incr | src/utils/productUtils.ts:146 | `counts[status]++` raises that counter by one, leaves the other four, and raises the sum by one |
| ProductUtils.GetStatusCounts | src/utils/productUtils.ts:134-151 | the loop's counters equal the counting function over all products |
| ProductUtils.CountsMeaning | src/utils/productUtils.ts:143-148 | each counter is the number of non-archived products with that status; the five sum to the number of non-archived products |
| ProductUtils.Labels | src/utils/productUtils.ts:126 | one label per source: `sourceName`, or `name` when `sourceName` is empty |
| ProductUtils.SourceLabels | src/utils/productUtils.ts:123-128 | as many labels as there are sources across all products |
| ProductUtils.GetSourceDistribution | src/utils/productUtils.ts:120-132 | the counts sum to the number of sources; each label's count is how often it occurs among the sources |
| ProductUtils.CountSources | src/utils/productUtils.ts:125-128 | the inner loop over one product's sources adds that product's labels to the tally |
| ProductUtils.ProgressIntended | src/utils/productUtils.ts:22-31 | corrected progress: always in [0, 100], 0 before the start, 100 once the end is reached, equal to the source's value wherever that is defined |
| ProductUtils.ProgressUndefinedAtDegenerateWindow | src/utils/productUtils.ts:27-30 | at start == end == now the source divides 0 by 0, while the corrected progress is 100 |
| ProductUtils.ProgressIntendedMonotone | src/utils/productUtils.ts:27-30 | the corrected progress never decreases as now advances, for every window |
| ProductCsv.HeaderShape | src/utils/productUtils.ts:56-57 | the header line has no newline and no surrounding whitespace |
| ProductCsv.BoolText | src/utils/productUtils.ts:68-70 | a flag is written as "true" exactly when it is set |
| ProductCsv.Cells | src/utils/productUtils.ts:62-71 | eight cells: quoted product name and source label; empty dates for a non-offer source and its dates for an offer; the three flags as text |
| ProductCsv.Rows | src/utils/productUtils.ts:59-74 | one line per (product, source) pair, in order |
| ProductCsv.ExportToCSV | src/utils/productUtils.ts:55-77 | the nested loops produce the header followed by one line per (product, source) pair, joined by newlines |
| ProductCsv.ExportLines | src/utils/productUtils.ts:55-77 | for comma- and newline-free names, the text splits back into the header plus one line per pair (1 + number of sources lines), and each line into its eight cells |
| ProductCsv.RowCells | src/utils/productUtils.ts:62-72 | a line of plain names has no newline, splits into its eight cells, and reads back as the unquoted cells |
| ProductCsv.Values | src/utils/productUtils.ts:85 | a line's values are its comma-separated cells with every double quote removed |
| ProductCsv.SourceOf | src/utils/productUtils.ts:101-112 | the new source: fresh id, no url, the label in both names, the offer and alert flags read as "true", the dates read from the line for an offer and today's date otherwise |
| ProductCsv.NewProduct | src/utils/productUtils.ts:88-99 | a product first seen: fresh id, the name, no sources, archived iff the seventh value is "true", not uploaded, no owner |
| ProductCsv.Groups.Products | src/utils/productUtils.ts:117 | `Object.values`: one product per name, in order of first appearance |
| ProductCsv.StepValid | src/utils/productUtils.ts:84-115 | reading a line keeps the names distinct and equal to the dictionary keys |
| ProductCsv.StepKnown | src/utils/productUtils.ts:101-114 | a line of a known name appends exactly one source to that product, drawing one id |
| ProductCsv.StepNew | src/utils/productUtils.ts:88-114 | a line of a name not yet in the dictionary (and, as ParseCSV checks before each step, not an inherited property) adds the name at the end and a product holding that one source, drawing two ids |
| ProductCsv.StepOthers | src/utils/productUtils.ts:114 | a line leaves every other product untouched |
| ProductCsv.FoldLinesValid | src/utils/productUtils.ts:84-115 | the dictionary stays well formed over any sequence of lines |
| ProductCsv.ParseCSV | src/utils/productUtils.ts:79-118 | throws (no result) exactly when some line after the header names its product after a property inherited from `Object.prototype` (`constructor`, `toString`, `__proto__`, …); otherwise the index loop from the second line on computes the grouping function |
| ProductCsv.ReadLine | src/utils/productUtils.ts:85-114 | one loop iteration is one grouping step |
| ProductCsv.RoundTrip | src/utils/productUtils.ts:55-118 | for distinct, plain product names none of which is an inherited property, each product having a source: parsing the export does not throw and gives back as many products, with the same names, archive flags, source labels, offer and alert flags, and offer dates |
| TableView.RowOf | src/pages/TableView.tsx:119-131 | a row copies the product and source fields; its status is `regular` iff the source is no offer; a non-offer row has 0 days, an offer row the days remaining to its end date and the status of that count |
| TableView.Flatten | src/pages/TableView.tsx:118-132 | one row per (product, source) pair, in product-then-source order |
| TableView.FlattenAt | src/pages/TableView.tsx:118-132 | source j of product i is the row at (number of sources before product i) + j |
| TableView.SourceNames | src/pages/TableView.tsx:134 | the source name of every row, in order |
| TableView.UniqueSourcesFacts | src/pages/TableView.tsx:134 | every row's source name is listed; every listed name occurs in a row; the list is strictly increasing in JavaScript's string order (by UTF-16 code unit), so no name repeats |
| TableView.Filtered | src/pages/TableView.tsx:136-156 | a subsequence of the rows, holding exactly the unarchived rows that match search, status and source |
| TableView.ArchivedOptionShowsNothing | src/pages/TableView.tsx:150-155 | with the `archived` status option no row is shown |
| TableView.NoStatusIsArchived | src/pages/TableView.tsx:150 | no computed status is named `archived` |
| TableView.StatusOptions | src/pages/TableView.tsx:142-151 | `all` keeps every row, `offer` the offer rows, `regular` the others, and a status name the rows with that status |
| TableView.EmptySearchMatchesAll | src/pages/TableView.tsx:138 | an empty search term matches every row |
| TableView.Compare | src/pages/TableView.tsx:191-193 | the comparator answers −1, 0 or 1 |
| TableView.CompareLaws | src/pages/TableView.tsx:157-194 | descending exactly negates ascending; swapping the rows negates the result; equal keys compare 0 |
| TableView.StatusOrder | src/pages/TableView.tsx:182-186 | sorting on status puts expired rows first and regular rows last, by the rank order |
| TableView.ComparatorTotal | src/pages/TableView.tsx:157-194 | of any two rows one may precede the other |
| TableView.Visible | src/pages/TableView.tsx:136-194 | the shown rows are a permutation of the filtered rows, in comparator order, none archived |
| TableView.NextSortLaws | src/pages/TableView.tsx:103-110 | a click on the current field flips the direction and two such clicks restore the state; a click on another field selects it ascending |
| TableView.WithId | src/pages/TableView.tsx:196-200 | the added product keeps every given field and receives the new id |
| TableView.UpdateWhere | src/pages/TableView.tsx:208-209 | same length; exactly the entries with the id are rewritten |
| TableView.RemoveId | src/pages/TableView.tsx:216-218 | no entry with the id remains; every other entry remains, in order |
| TableView.UniqueIdsKept | src/pages/TableView.tsx:196-249 | update, delete and an add with an unused id keep ids unique |
| TableView.ArchiveRoundTrip | src/pages/TableView.tsx:225-249 | unarchiving an archived, previously unarchived product restores it |
| TableView.TablePage.constructor | src/pages/TableView.tsx:37-54 | no products, no filters, sorted by days remaining ascending, settings equal to the settings dialog's defaults |
| TableView.TablePage.HandleSort | src/pages/TableView.tsx:103-110 | the sort state takes its next value; the products are untouched |
| TableView.TablePage.AddProduct | src/pages/TableView.tsx:196-206 | the new product goes at the end |
| TableView.TablePage.UpdateProduct | src/pages/TableView.tsx:208-214 | only entries with the product's id are replaced |
| TableView.TablePage.DeleteProduct | src/pages/TableView.tsx:216-223 | exactly the entries with the id are removed |
| TableView.TablePage.ArchiveProduct | src/pages/TableView.tsx:225-236 | matching entries become archived with an archive date; the others are untouched |
| TableView.TablePage.UnarchiveProduct | src/pages/TableView.tsx:238-249 | matching entries become unarchived without a date; the others are untouched |
| TableView.TablePage.ImportData | src/pages/TableView.tsx:274-290 | when `parseCSV` throws the error is caught, "Import Failed" is reported and the products are unchanged; otherwise the parsed products go after the existing ones |
| Stats.OverviewBounds | src/components/StatsPanel.tsx:15-17 | the offer count is the number of products with an offer source; both it and the regular count lie in [0, total] |
| Stats.ChannelsSum | src/components/StatsPanel.tsx:20-25 | the four channel counts add up to the products that carry a channel, which is all of them when every product has one |
| Stats.ChannelsSumOfPresent | src/components/StatsPanel.tsx:20-25 | the four counts sum to the number of products with a channel |
| Stats.CreatorKeys | src/components/StatsPanel.tsx:29 | one key per product: its creator name, or `Unknown` |
| Stats.CategoryKeys | src/components/StatsPanel.tsx:40 | one key per product: its category name, or `Uncategorized` |
| Stats.Reduce | src/components/StatsPanel.tsx:28-32 | the reduce loop builds the tally of the keys |
| Stats.UserContributions | src/components/StatsPanel.tsx:28-32 | counts sum to the number of products; each name's count is how many products map to it; the names are exactly the creators, listed once |
| Stats.CategoryStats | src/components/StatsPanel.tsx:39-43 | the same for categories |
| Stats.UnknownCreator | src/components/StatsPanel.tsx:29 | a product falls under `Unknown` iff it has no creator name or an empty one |
| Stats.TopFacts | src/components/StatsPanel.tsx:34-36 | at most five entries, taken from the tally, with non-increasing counts; an entry left out is not larger than the fifth one |
| Stats.NonIncreasing | src/components/StatsPanel.tsx:35 | a list sorted by descending count has non-increasing counts throughout |
| Stats.Percent | src/components/StatsPanel.tsx:115 | 0 when there are no products, otherwise count / total · 100 |
| Stats.PercentBounds | src/components/StatsPanel.tsx:150 | a count not above the total gives a percentage in [0, 100] |
| Stats.OffersShareFacts | src/components/StatsPanel.tsx:74 | the offer share exists iff there is an offer; then there are products, and the share is in (0, 100] |
| Stats.SortNewestFirst | src/components/StatsPanel.tsx:216-217 | the array is sorted in place, newest creation first, as a permutation of itself |
| Stats.SinkLast | src/components/StatsPanel.tsx:217 | one insertion step extends the sorted prefix by one element and keeps the contents |
| Stats.RecentActivity | src/components/StatsPanel.tsx:216-218 | sorts the passed array in place, newest first, and shows its first min(5, n) products, none older than a product left out |
| IndexPage.Clean | src/pages/Index.tsx:62 | a missing sources list becomes empty, a present one is kept, nothing else changes |
| IndexPage.CleanAll | src/pages/Index.tsx:62 | every fetched product is cleaned, in order |
| IndexPage.PartitionMembership | src/pages/Index.tsx:63-64 | a product is in the regular list iff it has no offer source and in the offer list iff it has one; both lists keep the fetched order |
| IndexPage.PartitionCounts | src/pages/Index.tsx:63-64 | the two lists together have as many products as fetched, each as often as fetched |
| IndexPage.CanEdit | src/pages/Index.tsx:230 | nobody signed in: no; an administrator: yes; a plain user: exactly their own products |
| IndexPage.Index.FetchProducts | src/pages/Index.tsx:62-66 | the lists are the two partitions of the cleaned products; the stats input `[...products, ...offers]` is a permutation of them of the fetched length |
| IndexPage.Index.HandleAddProduct | src/pages/Index.tsx:119-126 | nothing is posted without a user; otherwise the name, sources, category and the user's own id |
| IndexPage.Index.HandleAddOffer | src/pages/Index.tsx:218 | the same path as adding a product |
| Server.AuthenticateToken | backend/server.js:32-42 | 401 iff the header is missing, or is non-empty and has no second word (an empty header passes on the empty text as its token); 403 iff that token fails verification; otherwise the request goes on with the verified user |
| Server.IsAdmin | backend/server.js:45-50 | a response passes through; an authenticated request goes on iff the role is `administrator`, else 403 |
| Server.BearerToken | backend/server.js:34-35 | `Bearer t` yields the token t; a one-word or missing header gives 401; an empty header yields the empty token and so never 401 |
| Server.AdminChain | backend/server.js:32-50 | the two middlewares let a request through iff a token is present, verifies, and names an administrator; otherwise 401 or 403 |
| Server.GuardsAdmit | backend/server.js:189-191 | archive proceeds iff `isArchived` is a boolean; user creation needs four truthy fields; user update needs name and role; an admin cannot delete their own id; a category needs a truthy name |
| Server.AdminRoute | backend/server.js:186-191 | a guarded admin route answers 400 only after authentication passed; it goes on iff the middlewares and the guard pass; other answers are 401 or 403 |
| Server.ProductOfRow | backend/server.js:97-103 | a new product: id and name from the row, no sources, archive flag coerced, `Unknown` and `Uncategorized` for missing names, no channel |
| Server.SourceOfRow | backend/server.js:105-110 | a source: id and both names from the row, flags coerced to booleans |
| Server.Ids | backend/server.js:96 | the row ids, in row order |
| Server.Grouped | backend/server.js:95-113 | one product per distinct row id, in first-appearance order |
| Server.GroupRows | backend/server.js:95-113 | the loop over the rows computes the grouping |
| Server.AddRow | backend/server.js:97-111 | one iteration: the map gains the row's product if new, the order gains its id only if new |
| Server.MirrorsStep | backend/server.js:96-112 | the loop invariant (map and order mirror the rows read so far) survives one row |
| Server.GroupedIds | backend/server.js:95-113 | the grouped ids are distinct, cover every row, and follow the first appearance of each id |
| Server.GroupedFirstRow | backend/server.js:97-111 | each product takes name and archive flag from its first row, and its sources are exactly its rows with a source, in row order |
| Server.NoSources | backend/server.js:105-111 | a product without rows gets no sources |
| Server.SourceRowOf | backend/server.js:133 | a stored source row keeps name and offer flag, and has dates iff the source is an offer |
| Server.SourceRowsOf | backend/server.js:160 | one stored row per submitted source, in order |
| Server.CategoryColumn | backend/server.js:129 | a missing or empty category id is stored as null, any other is kept |
| Server.Database.UpdateProduct | backend/server.js:148-172 | answers 200 or 500; on 500 both tables are as before; on 200 the product's name and category are updated and its source rows replaced by the submitted list |
| Server.Database.SetArchived | backend/server.js:193 | only the product's archive flag changes |
| Server.ReplaceAllSources | backend/server.js:153-163 | after the update, the product's rows are exactly the submitted sources and every other product keeps its rows |
| Pricing.Price | src/components/Calculator.tsx:39-53 | the total is the purchase cost plus the four charges; the margin is suggested price minus total, one fifth of the total |
| Pricing.Charges | src/components/Calculator.tsx:39-50 | each fee is cost · rate / 100; shipping is the reduced fee strictly below the threshold and the full cost from the threshold on |
| Pricing.PricingBounds | src/components/Calculator.tsx:39-53 | with non-negative inputs every charge is non-negative, the total is at least the purchase cost, the suggested price at least the total |
| Pricing.ProfitIsTwentyPercent | src/components/Calculator.tsx:128 | the displayed profit percentage is 20 whenever the total is non-zero |
| Pricing.Example | src/components/Calculator.tsx:39-53 | 2 × 10.00 with the default settings and a 5% creator commission costs 29.09 in total and suggests 34.908 |
| Pricing.Calculator.constructor | src/components/Calculator.tsx:16-26 | price 0, quantity 1, no results |
| Pricing.Calculator.SetPurchasePrice | src/components/Calculator.tsx:16 | only the price changes |
| Pricing.Calculator.SetQuantity | src/components/Calculator.tsx:17 | only the quantity changes |
| Pricing.Calculator.CalculatePricing | src/components/Calculator.tsx:28-56 | the results become the pricing of the current inputs |
| Pricing.Calculator.Reset | src/components/Calculator.tsx:58-62 | price 0, quantity 1, results cleared |
| Settings.LocalSettings.With | src/components/SettingsDialog.tsx:43 | the edited key takes the new value, the other four keep theirs, and the spread copies every extra property |
| Settings.WithLaws | src/components/SettingsDialog.tsx:42-45 | writing a key's own value changes nothing; a second write to a key overrides the first |
| Settings.SettingsDialog.constructor | src/components/SettingsDialog.tsx:36 | the local copy starts as the given settings, including properties beyond the five edited ones (the page passes the full server row: id, creator commission, audit fields) |
| Settings.SettingsDialog.HandleSettingChange | src/components/SettingsDialog.tsx:42-46 | the key is updated, the other keys and every extra property (such as `creatorCommission`) are kept, and the callback receives exactly the new settings |
| Settings.SettingsDialog.ResetToDefaults | src/components/SettingsDialog.tsx:48-58 | the settings become 9, 20, 22, 2.29, 3.99 with no extra property, so the record handed on carries no `creatorCommission`, and the callback receives them |
| Settings.ResetIdempotent | src/components/SettingsDialog.tsx:48-58 | resetting twice leaves the same settings as resetting once |
| FormLists.RemoveAt | src/components/EditProductDialog.tsx:109-114 | exactly the given position is removed and the rest keep their order; an index outside the list removes nothing |
| FormLists.UpdateAt | src/components/EditProductDialog.tsx:116-123 | same length; the given position is rewritten and every other position is untouched |
| FormLists.RemoveKeepsOne | src/components/EditProductDialog.tsx:170 | removal offered only with two or more rows never empties the list |
| FormLists.RemoveThenAppend | src/components/EditProductDialog.tsx:94-114 | removing a row then appending one equals appending then removing the same position |
| EditProduct.Apply | src/components/EditProductDialog.tsx:120 | the edited field takes the new value and no other field changes |
| EditProduct.LoadSource | src/components/EditProductDialog.tsx:51-59 | id and price kept; label falls back to `name`; a missing date becomes now; missing flags are false |
| EditProduct.Load | src/components/EditProductDialog.tsx:47-63 | the form holds the product's name and archive flag and one row per source, in order |
| EditProduct.SubmitSource | src/components/EditProductDialog.tsx:77-87 | id and price kept; the label in both names; no url; each date is the part of its ISO text before `T` |
| EditProduct.Submitted | src/components/EditProductDialog.tsx:74-89 | every other product field is kept; the name, archive flag and sources come from the form, one per row in order |
| EditProduct.SourceRoundTrip | src/components/EditProductDialog.tsx:47-89 | a source already in submitted form survives loading and resubmitting unchanged |
| EditProduct.ProductRoundTrip | src/components/EditProductDialog.tsx:47-89 | load-then-submit keeps all product fields, and per source the id, price, label and flags; with canonical sources the product is unchanged |
| EditProduct.EditProductDialog.constructor | src/components/EditProductDialog.tsx:41-45 | empty name, no rows, not archived |
| EditProduct.EditProductDialog.LoadProduct | src/components/EditProductDialog.tsx:47-63 | a given product replaces the form; none leaves it |
| EditProduct.EditProductDialog.SetProductName | src/components/EditProductDialog.tsx:139 | only the name changes |
| EditProduct.EditProductDialog.SetArchived | src/components/EditProductDialog.tsx:150 | only the archive flag changes |
| EditProduct.EditProductDialog.AddSource | src/components/EditProductDialog.tsx:94-107 | exactly one row is appended: empty label, price 0, both dates now, alerts on, no offer |
| EditProduct.EditProductDialog.RemoveSource | src/components/EditProductDialog.tsx:109-114 | the rows lose exactly the given position |
| EditProduct.EditProductDialog.UpdateSource | src/components/EditProductDialog.tsx:116-123 | only the given row changes, and in it only the edited field |
| EditProduct.EditProductDialog.HandleSubmit | src/components/EditProductDialog.tsx:65-92 | an empty name, no rows or no product sends nothing; otherwise the submitted product is sent and the dialog closes |
| EditProduct.UpdateOnlyThatField | src/components/EditProductDialog.tsx:116-123 | after an edit the row holds the new value, differs only in that field and keeps its id; the other rows are equal |
| AddProduct.Apply | src/components/AddProductDialog.tsx:68-72 | the edited field takes the new value and no other field changes |
| AddProduct.Today | src/components/AddProductDialog.tsx:46-47 | today's date text is the part of the ISO text before `T` |
| AddProduct.Blank | src/components/AddProductDialog.tsx:43-50 | a blank row: no label, price 0, both dates today, alerts on, no offer |
| AddProduct.NewSource | src/components/AddProductDialog.tsx:84-94 | a fresh id, the label in both names, no url, everything else as typed |
| AddProduct.Draft | src/components/AddProductDialog.tsx:81-99 | one source per row in order; not uploaded, not archived, owned by the user, no category, stamped now |
| AddProduct.AcceptedDraft | src/components/AddProductDialog.tsx:77-99 | an accepted draft has a name and labelled sources, and is an offer iff a row was marked as one |
| AddProduct.AddProductDialog.constructor | src/components/AddProductDialog.tsx:41-51 | empty name and exactly one blank row |
| AddProduct.AddProductDialog.SetProductName | src/components/AddProductDialog.tsx:129 | only the name changes |
| AddProduct.AddProductDialog.AddSource | src/components/AddProductDialog.tsx:53-62 | exactly one blank row is appended; the others are kept |
| AddProduct.AddProductDialog.RemoveSource | src/components/AddProductDialog.tsx:64-66 | the rows lose exactly the given position |
| AddProduct.AddProductDialog.UpdateSource | src/components/AddProductDialog.tsx:68-72 | written on a fresh array copy: only the given row changes, and in it only the edited field |
| AddProduct.AddProductDialog.HandleSubmit | src/components/AddProductDialog.tsx:74-113 | rejected (empty name, an unlabelled row, or no user): nothing changes; otherwise the draft is sent, the form resets to one blank row and the dialog closes |
| AddOffer.Initial | src/components/AddOfferDialog.tsx:30-36 | empty names, price 0, both dates at the given instant |
| AddOffer.OfferDraft | src/components/AddOfferDialog.tsx:45-63 | exactly one source: an offer with alerts on, the entered name in both names, no url, dates cut before `T`; not uploaded, owned by nobody, not archived, no category |
| AddOffer.OfferDraftIsOffer | src/components/AddOfferDialog.tsx:57 | a product made from an offer draft goes to the offer list |
| AddOffer.AddOfferDialog.constructor | src/components/AddOfferDialog.tsx:30-36 | the form starts at its initial value |
| AddOffer.AddOfferDialog.SetProductName | src/components/AddOfferDialog.tsx:91 | only the product name changes |
| AddOffer.AddOfferDialog.SetSourceName | src/components/AddOfferDialog.tsx:102 | only the source name changes |
| AddOffer.AddOfferDialog.SetPrice | src/components/AddOfferDialog.tsx:115 | only the price changes |
| AddOffer.AddOfferDialog.SetStartDate | src/components/AddOfferDialog.tsx:141 | only the start date changes |
| AddOffer.AddOfferDialog.SetEndDate | src/components/AddOfferDialog.tsx:168 | only the end date changes |
| AddOffer.AddOfferDialog.HandleSubmit | src/components/AddOfferDialog.tsx:38-75 | an empty product or source name changes nothing; otherwise the offer is sent, the form starts over at now and the dialog closes |
| Types.SourcePairs | src/types/index.ts:16-21 | one (product, source) pair per source of the product, in order |
| Types.PairsAt | src/types/index.ts:16-21 | source j of product i is pair (number of sources before product i) + j |
| Text.Split | src/utils/productUtils.ts:80 | `split`: at least one piece, none holding the separator, and joining the pieces gives the text back |
| Text.SplitJoin | src/utils/productUtils.ts:57-85 | splitting a join of separator-free parts gives back the parts |
| Text.UnitsOf | src/pages/TableView.tsx:191-192 | a character is one UTF-16 unit below U+10000 and a surrogate pair above, the first unit being a high surrogate exactly then |
| Text.UnitsInjective | src/pages/TableView.tsx:191-192 | two strings with the same UTF-16 units are equal |
| Text.LessTrichotomy | src/pages/TableView.tsx:191-193 | JavaScript's `<` on strings, by UTF-16 code unit: exactly one of less, equal, greater |
| Text.LessTransitive | src/pages/TableView.tsx:191-193 | that order is transitive |
| Text.SurrogateOrder | src/pages/TableView.tsx:134 | U+1F600 sorts before U+FF01, as its first unit 0xD83D is smaller, although its code point is larger |
| Text.Lower | src/pages/TableView.tsx:139 | `toLowerCase`: each ASCII capital becomes its small letter, every other character and the length are kept |
| Text.DatePart | src/components/EditProductDialog.tsx:83-84 | `split('T')[0]`: the prefix of the text before the first `T` |

## Left out

- The user interface: rendering, toasts, dialog open/close handlers other than the submit paths, cards and badges.
- HTTP and the database driver: the fetch calls, Express routing, SQL text, the connection pool. The database is two abstract tables, and a failing statement is a parameter of the update.
- bcrypt and JSON Web Tokens: verification is a parameter returning the claims or nothing.
- localStorage and the settings API: the table page's persisted products and settings are not modelled.
- The clock, random ids, `new Date(text)` and `toISOString()` are parameters. Date formatting for display is left out.
- Floating point: prices are exact reals. `toFixed`, `toString` and `parseFloat(...) || 0` are parameters.
- ProductCsv.RoundTrip: price is excluded, because price text goes through floating-point printing and parsing.
- ProductCsv.StepNew: one step assumes the name is not an inherited property of the dictionary object; the throw on such a name is modelled by ProductCsv.ParseCSV, which checks each line before its step.
- ProductCsv.Field and ProductCsv.SourceOf: a cell missing from a short line reads as the empty text. JavaScript reads `undefined`, so a one-cell line gives a source whose name is undefined; the table search then throws on `toLowerCase()` and the distribution counts it under "undefined".
- ProductUtils.GetSourceDistribution: a label named after a property inherited from `Object.prototype` is counted like any other. JavaScript stores a text instead of a count for such a label (`constructor` + 1 concatenates) and drops `__proto__` altogether.
- Stats.Reduce: the same inherited-property effect on the creator and category tallies is not modelled.
- Stats.UserContributions: a creator named `constructor`, `toString` or `__proto__` is counted like any other name (see Stats.Reduce).
- Stats.CategoryStats: a category named after an inherited property is counted like any other name (see Stats.Reduce).
- ProductUtils.DaysRemaining and ProductUtils.OfferStatusAt: every date text has an instant. An unparsable text (an offer line imported with an empty end date, say) is an Invalid Date in JavaScript: days remaining are NaN and the status falls through to "active".
- TableView.RowOf: a row's days remaining and status are computed from a valid instant; the NaN days of an unparsable end date are not modelled.
- TableView.Compare: date keys are always comparable. In JavaScript an Invalid Date compares neither less nor greater, so the comparator answers 0 and the sort order is not guaranteed.
- EditProduct.EditProductDialog.HandleSubmit: `toISOString()` always yields a text. On an Invalid Date it throws a RangeError, and no update is sent.
- ProductCsv.ParseCSV: keys are kept in insertion order. JavaScript lists integer-like object keys first, so products named by digits would be reordered.
- Text.Lower and Text.Trim: only ASCII letters and ASCII whitespace are handled, not Unicode case mapping or all Unicode spaces.
- TableView.Visible: the sort is proved ordered and a permutation, not stable. Equal rows may be ordered differently from the browser's sort.
- Server.Grouped: GET rows carry no url and no channel, so fetched products have no `channelStatus` and count under no channel in the statistics.
- Server.SourceOfRow: a null date from the database becomes the empty text, and numeric ids are represented as text.
- The remaining routes of backend/server.js: DELETE, POST /api/products insertion, users and categories. Only their 400 guards are modelled, because their effects are single SQL statements.
- backend/addUser.ts, UserManagement.tsx and CategoryManagement.tsx are not part of this model.
- AddProduct.AddProductDialog.UpdateSource requires an existing index. The row inputs only ever pass one, whereas JavaScript would grow the array.
- EditProduct.Apply and AddProduct.Apply: the field name is one of the six form fields, while the JavaScript takes any string key. The inputs only pass those six.
- The `categories` prop of the add dialogs is unused by their logic, and AddProductDialog sends no `categoryId`. The model follows the code.
- POST /api/products requires an administrator, although any signed-in user can open the add dialogs. The model keeps both rules as written.

## Findings

| source | as written | input that shows it | evidently intended | confidence | as-written member | corrected member |
|---|---|---|---|---|---|---|
| src/utils/productUtils.ts:22-31 | with now == start == end neither early return fires and the ratio is (0 / 0) · 100, which is NaN | a one-instant offer window, start = end, looked at at that instant | an offer window that has been reached is complete: 100 | not executed | ProductUtils.ProgressUndefinedAtDegenerateWindow | ProductUtils.ProgressIntendedMonotone |
