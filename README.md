# Business activity fee lookup — a Dafny model

The page lets a user find one business activity in a four-level taxonomy
(industry → business category → subcategory → activity) and shows the
Finance Act fee rows whose trade key (`NAICS`) equals the activity's `trade`
code. The model covers the four pieces of logic in the page component:

- **Flattening** (`taxonomy.dfy`). The taxonomy becomes one denormalised
  `FlatActivity` per leaf. `FlattenTaxonomy` is the four nested push loops,
  with one method per `forEach` callback. It is proved equal to the recursive specification `Flatten`. Lemmas give
  the leaf count, the traversal order and the provenance of every record.
- **Search** (`search.dfy`). This is the case-insensitive substring filter
  over the flattened list. `Includes` models `String.prototype.includes` and
  is tied to a positional substring definition. `LowerCase` models
  `toLowerCase`.
- **Fee join** (`fees.dfy`). `FeeJoin` is the `financeAct.filter` on
  `NAICS == trade`.
- **UI state** (`page.dfy`). The class `BusinessFinancePage` holds the four
  `useState` cells: `search`, `searchValue`, `selectedActivity` and
  `filteredFinanceAct`. Its methods are the handlers for open, type, select and
  close. The effect that recomputes the fee rows when a selection appears is
  folded into `SelectActivity`. `Valid()` is the invariant the handlers keep:
  a selection exists only while the box is open, it is one of the flattened
  activities, and the rows on show are the join for it. `CurrentPhase()` maps
  the state to the phases Idle, Searching and Selected. `RestaurantSession` is
  a client of the class on a one-leaf taxonomy. Its assertions, proved from
  the contracts, follow a session: open the box, pick the only match, see
  exactly the one matching Finance Act row, close.

The record types are in `definitions.dfy`. In `src/app/lib/definitions.ts` a
category's list of subcategories is declared as `businessCategory`, and a
subcategory's fields as `subcategoryCode`/`subcategoryName`. The page instead
reads `businessSubCategories`, `subCategoryCode` and `subCategoryName`
(`src/app/page.tsx:43,52-53`). The model follows the
page, because the page is the code that runs against the data. The taxonomy and
the Finance Act table come from a data module that is not part of this model.
Both are parameters of the page's constructor.

Two behaviours of the code are modelled as written:

- Typing while an activity is selected changes `searchValue`. The selection
  and the shown fee rows stay, and the match list stays hidden.
- Closing keeps the typed text, so reopening lists the matches for it.

## Model

| member | source | states |
|---|---|---|
| Taxonomy.FlattenTaxonomy | src/app/page.tsx:28-62 | the industry loop, started from an empty list, builds exactly `Flatten(data)` |
| Taxonomy.PushCategories | src/app/page.tsx:42-58 | the category loop of one industry appends exactly that industry's records, in category order |
| Taxonomy.PushSubCategories | src/app/page.tsx:43-57 | the subcategory loop of one category appends exactly that category's records, in subcategory order |
| Taxonomy.PushActivities | src/app/page.tsx:44-56 | the activity loop pushes exactly one record per activity of the subcategory, in activity order |
| Taxonomy.Record | src/app/page.tsx:45-55 | the pushed record carries the leaf's name, code and trade and the names and codes of its industry, category and subcategory unchanged: each can be rebuilt from it |
| Taxonomy.FlattenLength | src/app/page.tsx:41-59 | the flattened list has one record per leaf: its length is the sum over industries, categories and subcategories of the activity counts |
| Taxonomy.CategoryRecordsLength | src/app/page.tsx:42-58 | one industry's records number the leaves under its categories |
| Taxonomy.SubCategoryRecordsLength | src/app/page.tsx:43-57 | one category's records number the leaves under its subcategories |
| Taxonomy.ActivityRecordsLength | src/app/page.tsx:44-56 | one subcategory yields one record per activity |
| Taxonomy.ActivityRecordsAt | src/app/page.tsx:44-56 | within a subcategory the k-th record is the copy of the k-th activity (activity order is kept) |
| Taxonomy.FlattenAppend | src/app/page.tsx:41-59 | flattening distributes over concatenation of industry lists: the output keeps industry order |
| Taxonomy.FlattenSingle | src/app/page.tsx:42-58 | one industry flattens to the concatenation of its categories' records |
| Taxonomy.FlattenMember | src/app/page.tsx:45-55 | a record is in the flattened list iff it copies some leaf's name, code and trade together with that leaf's own industry, category and subcategory names and codes |
| Taxonomy.CategoryRecordsMember | src/app/page.tsx:42-58 | the same membership characterisation for one industry's categories |
| Taxonomy.SubCategoryRecordsMember | src/app/page.tsx:43-57 | the same membership characterisation for one category's subcategories |
| Taxonomy.ActivityRecordsMember | src/app/page.tsx:44-56 | the same membership characterisation for one subcategory's activities |
| Search.LowerCase | src/app/page.tsx:146-147 | lower-casing keeps the length of a string |
| Search.Includes | src/app/page.tsx:147 | `s.includes(q)`: `q` is a prefix of some suffix of `s`; it implies `q` is no longer than `s`, and `IncludesIff` proves it equals the positional substring definition |
| Search.IncludesIff | src/app/page.tsx:147 | `includes(s, q)` holds iff `q` occurs in `s` at some offset |
| Search.OccursAtTransitive | src/app/page.tsx:147 | an occurrence inside an occurrence is an occurrence, at the summed offset |
| Search.IncludesTransitive | src/app/page.tsx:147 | a substring of a substring is a substring |
| Search.LowerCaseIncludes | src/app/page.tsx:145-147 | lower-casing both strings keeps a substring a substring |
| Search.IncludesSelfAndEmpty | src/app/page.tsx:147 | a string includes itself and the empty string |
| Search.Matches | src/app/page.tsx:144-148 | the filter callback: the lower-cased name includes the lower-cased search value; every activity matches the empty value, none matches a value longer than its name |
| Search.SearchFilter | src/app/page.tsx:143-148 | the shown activities are a subsequence of the list, in order; an activity is kept iff its lower-cased name includes the lower-cased search value, with its full multiplicity |
| Search.SearchFilterEmptyQuery | src/app/page.tsx:143-148 | the empty search value keeps the whole list |
| Search.MatchesMonotone | src/app/page.tsx:145-147 | if `q` is a substring of `q'`, every activity matching `q'` matches `q` |
| Search.SearchFilterNarrowing | src/app/page.tsx:143-148 | filtering by `q` and then by a `q'` that includes `q` equals filtering by `q'` |
| Search.SearchFilterIdempotent | src/app/page.tsx:143-148 | re-filtering with the same search value changes nothing |
| Search.SearchFilterMonotone | src/app/page.tsx:143-148 | a longer query that includes `q` returns a subsequence of the matches for `q`, never more of them |
| Fees.FeeJoin | src/app/page.tsx:94-96 | the joined rows are a subsequence of the table in table order; a row is kept iff its `NAICS` equals the trade code, with its full multiplicity |
| Fees.FeeJoinEmpty | src/app/page.tsx:94-97 | the join is empty iff no row carries the trade code |
| Fees.FeeJoinAll | src/app/page.tsx:94-96 | a table whose every row carries the trade code is returned whole |
| Fees.FeeJoinIdempotent | src/app/page.tsx:94-96 | joining the joined rows again with the same code changes nothing |
| Page.BusinessFinancePage.CurrentPhase | src/app/page.tsx:141 | Idle exactly when the box is closed (the `search` test at line 112); Searching exactly when the match list is rendered (`search && !selectedActivity`); Selected exactly when open with a selection |
| Page.BusinessFinancePage.MatchList | src/app/page.tsx:141-148 | the listed activities are a subsequence of the flattened list; while the box is open with nothing selected they are exactly the activities matching the search value, each with its full multiplicity (all of them for an empty value), and otherwise none |
| Page.BusinessFinancePage.constructor | src/app/page.tsx:10-62 | initial state: box closed, empty search value, no selection, no rows; the activities are the flattened taxonomy |
| Page.BusinessFinancePage.Open | src/app/page.tsx:134 | opening sets only `search`; from Idle it moves to Searching and shows the matches |
| Page.BusinessFinancePage.ChangeSearch | src/app/page.tsx:72-74 | typing sets only the search value; the phase does not change |
| Page.BusinessFinancePage.SelectActivity | src/app/page.tsx:77-99 | selecting a listed activity records it and shows its name; the fee rows are exactly the table rows whose `NAICS` equals its trade, in table order; the list is hidden and the phase moves from Searching to Selected |
| Page.BusinessFinancePage.Close | src/app/page.tsx:122-126 | closing clears `search`, the selection and the rows and keeps the search value; the phase is Idle |

## Left out

- All markup is left out: the read-only detail fields, the table rendering and the `layout.tsx` shell. None of it holds logic.
- `toLocaleString("en-US")` formatting of the fee amounts is left out. It is locale-dependent formatting of floating-point numbers. Fee amounts are `int`s that are only carried along.
- Search.LowerCase: full Unicode `toLowerCase` is not modelled. Only the ASCII letters `A`–`Z` are lowered, one character at a time. Every lemma about substrings and lower-casing holds for any character-wise map, but JavaScript's `toLowerCase` is not character-wise: it can change the length (`"İ"` lowers to two code units) and depends on context (the Greek final-sigma rule lowers `"ΑΣ"` to `"ας"` but `"ΑΣΑ"` to `"ασα"`). So `LowerCase`, `LowerCaseIncludes`, `MatchesMonotone`, `SearchFilterNarrowing` and `SearchFilterMonotone` hold only under the ASCII lowering; with Greek input the page's filter is not monotone (an activity named "ΑΣΑ" matches the query "ΑΣΑ" but not its prefix "ΑΣ").
- React's machinery is left out: `useMemo` memoisation, `useEffect` scheduling and re-rendering. The flattening runs once in the constructor. The effect becomes a synchronous step inside `SelectActivity`, which is the only handler that sets a non-null selection.
- Page.BusinessFinancePage.SelectActivity: it requires the activity to be in the rendered match list. The handler's only call site is a list item's click (`src/app/page.tsx:149-152`), and that list exists only while the box is open with nothing selected.
- The contents of the data module (`./lib/data`) are not part of this model. The taxonomy and the Finance Act table are inputs.
- The `console.log` of the selection (`src/app/page.tsx:101`) is left out. It is I/O.
- The commented-out `filteredActivities` memo (`src/app/page.tsx:64-69`) is left out. It is not live code, and its filter is the same as `SearchFilter`.
