# Restaurant finder: filter normalisation, pagination window and search state

This project models the client-side logic of a restaurant finder web page and
proves properties of it. The user picks a runner type, a budget bucket, a
restaurant type and any number of food types. The form turns those picks into a
query payload, a remote API answers with a list of restaurants, and the page
shows that list ten rows at a time with a window of at most five page buttons.

Three modules follow the three source files:

- `FilterForm` (`filter_form.dfy`) holds the fixed catalogues: four runner
  types, nine budget buckets, five restaurant types and 25 food types. It also
  holds the payload built on submit and the food-type multi-select. The payload
  is a pure function. The multi-select is a class whose methods update
  `selectedFoodTypes` and `selectAll` the way the React handlers do.
- `ResultsTable` (`results_table.dfy`) holds the page-button window
  `getPaginationPages` and the first/previous/next/last moves with their
  disabled states.
- `IndexPage` (`index_page.dfy`) holds the ten-item page slice, the page
  count and the state class of the page. Its `Settle` method applies a
  search outcome to `results`, `currentPage` and `isLoading`, and picks the
  notification.

The HTTP request is not modelled. Its outcome is a parameter: data came back
(`Fetched`), the status was not ok (`NotOk`), or something threw (`Threw`).
Restaurant records are an opaque type parameter `T`, because no logic looks
inside them.

Facts about the code worth stating plainly:

- The food catalogue has 25 entries.
- A failed search leaves the previous results and page in place.
- "<" and ">" hand `currentPage - 1` and `currentPage + 1` to the page change.
  They are not clamped; they are only disabled on page 1 and on the last page.
- Only the exact sentinels `"Any"` and `"Any Type"` become `null`. An
  unselected runner type or restaurant type is sent as the empty string
  (`UntouchedFormPayload`), although the comment above the payload says
  "null for 'Any' or unselected options". `"Any"` is not offered by the
  runner-type catalogue at all (`SentinelsInCatalogues`).

## Model

| member | source | states |
|---|---|---|
| FilterForm.FindBucket | src/components/FilterForm.tsx:74-76 | `find` gives a bucket of the catalogue carrying the label, and gives nothing exactly when no bucket carries it |
| FilterForm.FindBucketFirst | src/components/FilterForm.tsx:74-76 | the bucket found is the first one in catalogue order carrying the label |
| FilterForm.BudgetLabelsDistinct | src/components/FilterForm.tsx:14-24 | no two budget buckets share a label |
| FilterForm.BudgetOfCatalogueLabel | src/components/FilterForm.tsx:14-24 | for every bucket in the catalogue, its label yields exactly that bucket's declared `min` and `max` |
| FilterForm.AnyBudgetUnbounded | src/components/FilterForm.tsx:15 | "Any Budget" yields `null` for both bounds |
| FilterForm.UnmatchedBudget | src/components/FilterForm.tsx:74-76 | through the `{ min: null, max: null }` fallback of `SelectedBudget`, a label no bucket carries yields null bounds instead of an error |
| FilterForm.BucketsContiguous | src/components/FilterForm.tsx:16-23 | each numeric bucket has min ≤ max, and each bucket's max + 1 is the next bucket's min |
| FilterForm.SentinelsInCatalogues | src/components/FilterForm.tsx:13-31 | "Any" is not among the runner types, so the drop-down never yields a null runner type; "Any Type" is among the restaurant types |
| FilterForm.BuildPayload | src/components/FilterForm.tsx:72-86 | runner type is `null` iff it is "Any", else passed through verbatim; the same for restaurant type with "Any Type"; the budget bounds are the looked-up ones; food types are `null` iff none are selected, else the selection in selection order |
| FilterForm.UntouchedFormPayload | src/components/FilterForm.tsx:66-70 | submitting the untouched form sends `""` for runner and restaurant type and `null` for the budget and food types |
| FilterForm.Without | src/components/FilterForm.tsx:181 | the filtered selection holds exactly the old items other than the removed type, and is no longer |
| FilterForm.WithoutAppend | src/components/FilterForm.tsx:181 | filtering distributes over concatenation, so the kept items keep their relative order |
| FilterForm.WithoutAbsent | src/components/FilterForm.tsx:181 | filtering out a type that is not selected leaves the selection unchanged |
| FilterForm.WithoutNoDuplicates | src/components/FilterForm.tsx:181 | filtering keeps a duplicate-free selection duplicate-free |
| FilterForm.AppendNoDuplicates | src/components/FilterForm.tsx:180 | appending a type that is not selected keeps the selection duplicate-free |
| FilterForm.CheckThenUncheck | src/components/FilterForm.tsx:177-183 | checking an unselected type and then unchecking it restores the selection exactly |
| FilterForm.FoodTypesDistinct | src/components/FilterForm.tsx:33-59 | the food catalogue names each of its 25 types once |
| FilterForm.FilterState.constructor | src/components/FilterForm.tsx:66-70 | the form starts with `""` drop-downs, an empty selection and the flag off, and satisfies the selection invariant |
| FilterForm.FilterState.SetRunnerType | src/components/FilterForm.tsx:105 | the runner-type drop-down stores its value, changes nothing else and keeps the selection invariant |
| FilterForm.FilterState.SetBudget | src/components/FilterForm.tsx:122 | the budget drop-down stores the chosen label, changes nothing else and keeps the selection invariant |
| FilterForm.FilterState.SetRestaurantType | src/components/FilterForm.tsx:141 | the restaurant-type drop-down stores its value, changes nothing else and keeps the selection invariant |
| FilterForm.FilterState.SelectAll | src/components/FilterForm.tsx:93-96 | on selects the whole catalogue in catalogue order and raises the flag; off empties the selection and lowers it; the invariant holds afterwards |
| FilterForm.FilterState.ClearFoodTypes | src/components/FilterForm.tsx:88-91 | empties the selection and lowers the flag |
| FilterForm.FilterState.ToggleFoodType | src/components/FilterForm.tsx:176-184 | checking appends the type at the end and keeps the flag; unchecking removes every occurrence and lowers the flag; the selection stays a duplicate-free subset of the catalogue, and the flag is raised only while the whole catalogue is selected |
| FilterForm.FilterState.Submit | src/components/FilterForm.tsx:72-86 | submitting sends the payload of the current selections |
| ResultsTable.InRange | src/components/ResultsTable.tsx:86 | the filter keeps exactly the pages in [1, totalPages] |
| ResultsTable.InRangeKeepsAll | src/components/ResultsTable.tsx:86 | the filter returns a run whose pages all exist unchanged |
| ResultsTable.PaginationPages | src/components/ResultsTable.tsx:66-87 | for any inputs the buttons are consecutive pages within [1, totalPages], there are min(totalPages, 5) of them, and they include the current page whenever it exists |
| ResultsTable.PaginationWindows | src/components/ResultsTable.tsx:67-86 | the four windows: all pages when at most 5 (none for 0), pages 1..5 while currentPage ≤ 4, the last five when currentPage > totalPages − 5, and otherwise currentPage−2..currentPage+2 |
| ResultsTable.CentredWindow | src/components/ResultsTable.tsx:79-86 | in the centred case the range filter drops nothing, because 5 ≤ currentPage ≤ totalPages − 5 |
| ResultsTable.PaginationExamples | src/components/ResultsTable.tsx:66-87 | (1, 3) → [1,2,3]; (1, 20) → [1..5]; (20, 20) → [16..20]; (10, 20) → [8..12] |
| ResultsTable.MoveTarget | src/components/ResultsTable.tsx:137-180 | "<<" goes to 1, "<" to currentPage−1, ">" to currentPage+1, ">>" to totalPages; from an existing page, a move enabled by `MoveEnabled` (not on page 1 for "<<" and "<", not on the last page for ">" and ">>") lands on an existing page |
| ResultsTable.PrevThenNext | src/components/ResultsTable.tsx:143-176 | from an existing page with "<" enabled, ">" is enabled on the page reached and leads back |
| ResultsTable.NextThenPrev | src/components/ResultsTable.tsx:143-176 | from an existing page with ">" enabled, "<" is enabled on the page reached and leads back |
| IndexPage.SliceIndex | src/pages/Index.tsx:63-66 | a `slice` bound is clamped to the list; a non-negative bound is kept up to the list's length |
| IndexPage.PageSlice | src/pages/Index.tsx:63-66 | page p ≥ 1 shows exactly the items at indices (p−1)·10 up to min(p·10, length), so at most 10 |
| IndexPage.TotalPages | src/pages/Index.tsx:103 | the page count is ⌈length / 10⌉: enough pages of ten for every item, and no page more |
| IndexPage.PageNonEmptyIff | src/pages/Index.tsx:63-66 | for p ≥ 1, page p has items iff p ≤ totalPages |
| IndexPage.TwentyFiveResults | src/pages/Index.tsx:63-66 | 25 results make 3 pages; page 3 holds items 20..24 and page 4 nothing |
| IndexPage.PagesPrefix | src/pages/Index.tsx:63-66 | pages 1..k one after another are the first min(10k, length) results |
| IndexPage.AllPagesReproduceResults | src/pages/Index.tsx:63-66 | pages 1..totalPages one after another reproduce the results exactly |
| IndexPage.OutcomeNotification | src/pages/Index.tsx:40-57 | data with items gives "Success" with the count; empty data gives "No Results"; a non-ok status or a thrown error gives the error notification |
| IndexPage.NotificationKinds | src/pages/Index.tsx:40-57 | only the success notification is not destructive; the titles tell empty results apart from failures |
| IndexPage.SearchPage.constructor | src/pages/Index.tsx:11-13 | the page starts with no results, on page 1, not loading |
| IndexPage.SearchPage.PaginatedResults | src/pages/Index.tsx:63-66 | the rows handed to the table are the current page's slice: at most 10, and not empty while there are results |
| IndexPage.SearchPage.ShowsTable | src/pages/Index.tsx:94-107 | the table is shown iff not loading and there are results, and then totalPages ≥ 1 and the current page exists |
| IndexPage.SearchPage.StartSearch | src/pages/Index.tsx:18 | a search turns the spinner on and leaves results and page alone, so the page invariant is kept |
| IndexPage.SearchPage.Settle | src/pages/Index.tsx:32-60 | data replaces the results outright and resets the page to 1; a failure leaves results and page unchanged; loading is off on every path; the notification follows the outcome; the page invariant is kept |
| IndexPage.SearchPage.HandleSubmit | src/pages/Index.tsx:17-61 | a whole search, ending not loading with the outcome applied as in `Settle` |
| IndexPage.SearchPage.GoToPage | src/components/ResultsTable.tsx:155-159 | a page-number button moves to its page, which exists, so the page invariant is kept |
| IndexPage.SearchPage.Navigate | src/components/ResultsTable.tsx:137-180 | an enabled arrow moves to its target, a disabled one does nothing, and the page stays within [1, totalPages] |

## Left out

- The HTTP `fetch`, `JSON.stringify`, `response.json()`, the endpoint URL and the headers: network I/O, replaced by the `FetchOutcome` parameter.
- Toast rendering, the table columns and all markup: those are UI widgets. Only the notification kind, its title and its destructive flag are modelled.
- The `isMobile` resize listener: window-event plumbing whose value is never read.
- The `showFilter` toggle and the "Page X of Y" caption: display only.
- Overlapping searches, where the later response wins: concurrency, with no guard in the code to model.
- `Math.ceil` over floating-point division: modelled as integer ceiling division `(n + 9) / 10`, which is equal for every list length.
- The `"_"`→space formatting of food-type labels: display only.
- `e.preventDefault()` in the submit handler: a browser side effect.
- FilterForm.FilterState.ToggleFoodType: takes only the events the checkbox can emit. The box is drawn checked exactly when the type is selected, so its `checked` argument is the negation of that. A "checked" event for an already selected type, which would append a duplicate, is excluded by the precondition.
- IndexPage.SearchPage.GoToPage: requires the table to be shown, because the page buttons exist only then. The same holds for IndexPage.SearchPage.Navigate.
