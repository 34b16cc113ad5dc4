# venderCRM dashboard core, modelled in Dafny

venderCRM is a React dashboard that sellers use to match customer requests with vendor
inventory. This project models its client-side core: the logic that runs in the browser
between the backend's JSON replies and what the screens show. The views covered are:

- **Field helpers** (`Config`). `safeValue` shows an em dash for a missing value.
  `getFieldValue` looks a field up under a list of alternative keys, falling back to "N/A".
- **The multi-term search screen** (`SearchProductsView`):
  - the text box is split into terms on commas and line feeds;
  - each term is searched in turn, and every hit is tagged with its term;
  - hits are grouped by term, and a group is shown 50 at a time;
  - a group can be exported as CSV.
- **The single-list product search screen** (`ProductSearchView`):
  - terms are split on commas only;
  - a reply that is not ok skips its term; a thrown error abandons the search;
  - the distinct vendors of the hits are counted, and the list can be exported as CSV.
- **The product database screen** (`AllProductsView`):
  - the list is fetched once into a module-level cache that outlives the screen;
  - it is filtered by a search term and a status, and shown in pages of 50 that grow as
    the list is scrolled;
  - a CSV upload invalidates the cache and schedules a refetch.
- **The matching board** (`MatchingSheet`):
  - the polled feed of customer requests, newest first, with newly arrived rows marked;
  - each request is grouped with its matched vendor items and their placeholder vendor
    responses;
  - the free-text group filter and the response statistics of each group;
  - RFQ (request for quote) dispatch to one vendor, to all of a group, or to the ticked
    ones, with the per-key status map;
  - the per-row vendor selection, the vendor-response view, and the checks made before a
    price offer is sent.

Supporting modules hold the JavaScript semantics the views rely on:

- `Js` models values, truthiness, `||`, optional chaining and decoded JSON bodies.
- `Text` models `trim`, the `\s` class, ASCII `toLowerCase`, `includes` and `join`.
- `Numbers` models the sign of `Number(s)`, which decides `> 0` and `<= 0`.
- `Csv` models `csvEscape`, the CSV encoder, and a reader for the format it writes.
- `SearchCommon` holds term splitting and tagging, shared by both search screens.
- `Sequences` holds generic facts about sequences.

Network replies, webhook outcomes and confirmation-dialog answers are parameters of the
handlers. Each timer is an event method. Components whose state the handlers update are
classes with those fields. Memoised derivations and helpers are functions.

Each JSX file has its own Dafny file: `config.dfy`, `search_products_view.dfy`,
`product_search_view.dfy`, `all_products_view.dfy` and `matching_sheet.dfy`. The
supporting modules are in `js_values.dfy`, `text.dfy`, `numbers.dfy`, `csv.dfy`,
`search_common.dfy` and `sequences.dfy`.

Where the code's fallbacks suggest one behaviour and its effect is another, the model
follows the code:

- The status filter of the database screen defaults a record without a status to
  `getFieldValue`'s "N/A", not to "Active". The `|| 'Active'` after `getFieldValue` is
  dead (`AllProductsView.MissingStatusIsNotAvailable`;
  src/components/crm/AllProductsView.jsx:53 and :99).
- A failed fetch on the database screen empties the shown list but never clears the cache
  (src/components/crm/AllProductsView.jsx:110-112).
- The database screen has no control that changes the status filter, so the filter stays
  "All" (src/components/crm/AllProductsView.jsx:32).
- The product search screen counts "N/A" as a vendor (`ProductSearchView.VendorsAsWritten`;
  src/components/crm/ProductSearchView.jsx:131-133), and the matching board compares the
  match id without lower-casing it (`MatchingSheet.GroupMatchesAsWritten`;
  src/components/MatchingSheet.jsx:988). Both are
  listed under "## Findings". The screens are modelled as written; the intended versions
  (`Vendors`, `GroupMatches`) are defined beside them, and lemmas relate the two.
- The refetch an upload schedules uses the search term of the moment of the upload, since
  its timer callback closes over that render's `searchTerm` (src/components/crm/AllProductsView.jsx:153).
- A search term is kept when its `length` is at least three, and `length` counts UTF-16
  code units: a character outside the Basic Multilingual Plane counts two
  (`SearchCommon.AstralTermsKept`; src/components/crm/SearchProductsView.jsx:31 and
  src/components/crm/ProductSearchView.jsx:27).

## Model

| member | source | states |
|---|---|---|
| Config.MissingIsNotTruthy | src/utils/config.jsx:28 | A value is missing (`null`, `undefined` or `''`) exactly when it is falsy. |
| Config.SafeValue | src/utils/config.jsx:28 | A missing value becomes the em dash; any other value is returned unchanged; the result is never missing. |
| Config.SafeValueIdempotent | src/utils/config.jsx:28 | Applying `safeValue` twice gives the same as applying it once. |
| Config.GetFieldValue | src/utils/config.jsx:31-38 | The result is the value under the first listed key that holds a value. A key holds one when it is defined, non-null and non-empty. The result is "N/A" when no key holds one, and is never empty. |
| Config.GetFieldValueCases | src/utils/config.jsx:31-38 | Two cases: some listed key holds a value and the result is that value, or none does and the result is "N/A". |
| Config.GetFieldValueIgnoresLaterKeys | src/utils/config.jsx:32-35 | Keys listed after the first key that holds a value never change the result. |
| Config.GetFieldValueIsTruthy | src/utils/config.jsx:31-38 | The result is always truthy, so a `\|\| 'N/A'` written after it is never taken. |
| Js.Or | src/components/crm/SearchProductsView.jsx:39 | `a \|\| b` is `a` when `a` is truthy, else `b`. |
| Js.FirstTruthyMember | src/components/crm/ProductSearchView.jsx:120 | A chain `data?.k1 \|\| data?.k2 \|\| …` gives the member of the first key whose member is present and truthy, every earlier key's member being absent or falsy. It gives nothing exactly when no listed member is truthy. |
| Js.FirstTruthyMemberAt | src/components/crm/ProductSearchView.jsx:120 | When key i is the first with a truthy member, the chain yields exactly that member. |
| Js.ItemsOrEmpty | src/components/crm/ProductSearchView.jsx:121 | `Array.isArray(x) ? x : []`: an array is kept, anything else becomes empty. |
| Js.Min | src/components/crm/SearchProductsView.jsx:235 | `Math.min` is at most each argument and equal to one of them. |
| Text.Trim | src/components/crm/SearchProductsView.jsx:30-31 | `trim` gives a string with no whitespace at either end, never longer than its input. The result is empty exactly when the string is all whitespace. |
| Text.TrimInfix | src/components/crm/SearchProductsView.jsx:30-31 | The trimmed string is the infix of the input that starts right after the leading whitespace. |
| Text.Utf16Length | src/components/crm/SearchProductsView.jsx:31 | `length` counts UTF-16 code units: between one and two per character, exactly one per character if and only if none lies outside the Basic Multilingual Plane, and two per character if and only if all do. |
| Text.Utf16LengthAppend | src/components/crm/SearchProductsView.jsx:31 | The `length` of a concatenation is the sum of the two lengths. |
| Text.Utf16LengthInfix | src/components/crm/SearchProductsView.jsx:31 | An infix is never longer, in code units, than the string it occurs in. |
| Text.TrimShortens | src/components/crm/SearchProductsView.jsx:31 | Neither `trimStart` nor `trim` makes a string longer in code units. |
| Text.ToLower | src/components/crm/AllProductsView.jsx:50 | `toLowerCase` keeps the length and lowers each ASCII capital, one character at a time. |
| Text.ContainsAt | src/components/crm/AllProductsView.jsx:55 | An occurrence of `t` at some position of `s` makes `s.includes(t)` true. |
| Numbers.NumberSign | src/components/MatchingSheet.jsx:958 | `Number(s)` of a blank string is zero. |
| Numbers.DigitsSign | src/components/MatchingSheet.jsx:958 | A string of digits converts to a positive number exactly when one of its digits is not zero, and to zero otherwise. |
| Numbers.NegatedDigitsSign | src/components/MatchingSheet.jsx:323 | A minus sign in front of digits negates the sign of the number. |
| Numbers.LetterIsNaN | src/components/MatchingSheet.jsx:958 | Text starting with a lower-case letter converts to NaN, which is neither above nor at most zero. |
| SearchCommon.Split | src/components/crm/SearchProductsView.jsx:31 | Splitting gives at least one piece, and no piece contains a separator of the rule. |
| SearchCommon.KeepTerms | src/components/crm/SearchProductsView.jsx:31 | After trimming and dropping pieces whose `length` is under 3, there are no more terms than pieces. Every term is trimmed, at least 3 UTF-16 code units long, and free of separators. |
| SearchCommon.PieceTerm | src/components/crm/SearchProductsView.jsx:31 | A trimmed piece is kept exactly when its `length`, in UTF-16 code units, is at least 3, and a kept piece is a well-formed term. |
| SearchCommon.Terms | src/components/crm/SearchProductsView.jsx:29-32 | A blank box gives no terms; every term given is trimmed, separator-free and at least 3 UTF-16 code units long. |
| SearchCommon.SinglePieceKept | src/components/crm/SearchProductsView.jsx:29-32 | A box holding one trimmed piece yields that piece if and only if its `length` in UTF-16 code units is at least 3, and nothing otherwise. |
| SearchCommon.AstralTermsKept | src/components/crm/ProductSearchView.jsx:19-29 | For any character outside the Basic Multilingual Plane (such as U+1F529), a term of two of them is kept, as is one of them beside a plain character; two plain characters are dropped. |
| SearchCommon.TermsOfJoined | src/components/crm/SearchProductsView.jsx:29-32 | Well-formed terms written comma-separated are read back as the same terms, in the same order. |
| SearchCommon.TermsIdempotent | src/components/crm/SearchProductsView.jsx:29-32 | Writing the terms back comma-separated and reading the box again gives the same terms. |
| SearchCommon.SplitJoined | src/components/crm/SearchProductsView.jsx:31 | Terms joined with commas split back into exactly those terms. |
| SearchCommon.ShortTermDropped | src/components/crm/SearchProductsView.jsx:31 | A piece after a comma whose `length` is under 3 UTF-16 code units is dropped: `"bolt, nu"` gives only `"bolt"`. |
| SearchCommon.NewlineSplitsOnlyInOneView | src/components/crm/SearchProductsView.jsx:31 | The multi-term screen splits two terms at a line feed. The single-list screen keeps them as one term spanning the line break. |
| SearchCommon.NewlineSplits | src/components/crm/SearchProductsView.jsx:31 | `a + "\n" + b` gives the terms `a` and `b` under the comma-or-newline rule. |
| SearchCommon.NewlineKept | src/components/crm/ProductSearchView.jsx:24-27 | Under the comma-only rule, `a + "\n" + b` is a single term. |
| SearchCommon.SplitCommaFree | src/components/crm/ProductSearchView.jsx:25 | A string without a comma is one piece under the comma-only rule. |
| SearchCommon.Tag | src/components/crm/SearchProductsView.jsx:92-95 | Tagging keeps the number of hits and sets `sourceSearchTerm` to the term. Every other field of every hit is unchanged. |
| Csv.EscapeText | src/components/crm/SearchProductsView.jsx:147-151 | The value is trimmed. It is then wrapped in quotes, with its inner quotes doubled, exactly when it holds a comma, a quote or a line feed. |
| Csv.Escape | src/components/crm/SearchProductsView.jsx:145-152 | `null` and `undefined` become the empty field; a string is escaped as text. |
| Csv.HeaderLine | src/components/crm/SearchProductsView.jsx:171 | The header line is the one-row CSV document of the header. |
| Csv.EncodeDocumentAppend | src/components/crm/SearchProductsView.jsx:181 | Appending a row's line to a document gives the document of the rows plus that row. |
| Csv.ParseFieldEscaped | src/components/crm/SearchProductsView.jsx:145-152 | Reading back one escaped field gives the trimmed value and stops at the following comma or line feed. |
| Csv.EscapeRoundTrip | src/components/crm/SearchProductsView.jsx:145-152 | Reading back the escaped form of an already trimmed value recovers it exactly. |
| Csv.ParseFieldsEncoded | src/components/crm/SearchProductsView.jsx:174-180 | Reading back one encoded line gives its cells, each one trimmed. |
| Csv.ParseEncodedDocument | src/components/crm/SearchProductsView.jsx:171-183 | Reading back a written file gives every row, in order, with each cell trimmed. |
| Csv.HeaderedDocumentReadsBack | src/components/crm/SearchProductsView.jsx:171-183 | A file of a header and rows of the header's width reads back as one more record than there are rows, each of the header's width. |
| SearchProductsView.Wording | src/components/crm/SearchProductsView.jsx:56-126 | The error text is empty exactly when no notice is set, which is what `if (!error)` tests. |
| SearchProductsView.Envelope | src/components/crm/SearchProductsView.jsx:89-90 | `data?.matches \|\| data?.data \|\| data`: an array body is the hit list. A body that is neither an array nor an object gives no hits. An object with no truthy envelope member falls back to itself, which is not an array, so it gives no hits. |
| SearchProductsView.EnvelopeTakesFirst | src/components/crm/SearchProductsView.jsx:89-90 | When an envelope member is truthy, the hits come from the first truthy one: its items when it is an array, none otherwise. |
| SearchProductsView.TermHits | src/components/crm/SearchProductsView.jsx:84-90 | A term yields no hits exactly when its request threw or its reply was not ok. Otherwise it yields the envelope of the body. |
| SearchProductsView.CollectedAppend | src/components/crm/SearchProductsView.jsx:98 | The hits of a run are the hits of its first part followed by those of the rest, so results are in term order. |
| SearchProductsView.FirstFailureAppend | src/components/crm/SearchProductsView.jsx:103-105 | A later failure never replaces the message of an earlier one. |
| SearchProductsView.FailedTermSkipped | src/components/crm/SearchProductsView.jsx:101-107 | A failing term adds no hits, and the terms after it are still searched. |
| SearchProductsView.FirstFailureIsFirst | src/components/crm/SearchProductsView.jsx:103-105 | When every term before a failing one succeeded, the failing term is the one reported. |
| SearchProductsView.NoFailure | src/components/crm/SearchProductsView.jsx:119-123 | No failure is reported exactly when every request succeeded. |
| SearchProductsView.CollectedTagged | src/components/crm/SearchProductsView.jsx:92-98 | Every collected hit carries, as `sourceSearchTerm`, one of the searched terms. |
| SearchProductsView.Collected | src/components/crm/SearchProductsView.jsx:92-98 | Defines `cumulativeResults` after the terms' requests. CollectedAppend and CollectedTagged state its properties. |
| SearchProductsView.FirstFailure | src/components/crm/SearchProductsView.jsx:101-107 | Defines the first term whose request failed. FirstFailureAppend and FirstFailureIsFirst state its properties. |
| SearchProductsView.RunTerms | src/components/crm/SearchProductsView.jsx:68-113 | The sequential loop returns three things: the hits collected in term order, whether any term failed, and the notice naming the first failed term. |
| SearchProductsView.GroupKeys | src/components/crm/SearchProductsView.jsx:34-44 | Group keys are distinct, and every hit's key (its term, or "Unknown") is among them. |
| SearchProductsView.FirstIndex | src/components/crm/SearchProductsView.jsx:34-44 | The position of the first hit with a key: that hit has the key and no earlier hit has it. It is the length of the list when no hit has the key. |
| SearchProductsView.FirstIndexIffKey | src/components/crm/SearchProductsView.jsx:34-44 | A key has a first hit exactly when it is a group key. |
| SearchProductsView.GroupKeysFirstSeen | src/components/crm/SearchProductsView.jsx:34-44 | The group keys come in the order of their first hits: an earlier key's first hit comes before a later key's. |
| SearchProductsView.Members | src/components/crm/SearchProductsView.jsx:38-42 | Every member of a group has that group's key. |
| SearchProductsView.MembersInOrder | src/components/crm/SearchProductsView.jsx:38-42 | A group is the hits with its key, in their original order. It embeds into the hit list in order, and the positions it takes are exactly the hits with that key. |
| SearchProductsView.MembersNonEmptyIffKey | src/components/crm/SearchProductsView.jsx:38-42 | A group is non-empty exactly when its key is a group key. |
| SearchProductsView.MemberOfItsGroup | src/components/crm/SearchProductsView.jsx:38-42 | A hit is in a group exactly when the group's key is its own. |
| SearchProductsView.GroupStep | src/components/crm/SearchProductsView.jsx:38-42 | One more hit appends its key when the key is new, and joins its own group only. |
| SearchProductsView.GroupSizesSumToTotal | src/components/crm/SearchProductsView.jsx:34-44 | The groups partition the hits: their sizes add up to the number of hits. |
| SearchProductsView.GroupResults | src/components/crm/SearchProductsView.jsx:34-44 | The `Map` built by the loop has the group keys in insertion order, and each entry is that key's group. |
| SearchProductsView.CurrentView | src/components/crm/SearchProductsView.jsx:46-49 | No group is shown while no term, or the empty term, is selected. Every shown hit belongs to the selected term, and every hit of the selected term is shown. |
| SearchProductsView.CurrentViewInOrder | src/components/crm/SearchProductsView.jsx:46-49 | For a selected term, the view is that term's hits in their original order, at exactly their positions. |
| SearchProductsView.Displayed | src/components/crm/SearchProductsView.jsx:229-231 | The displayed hits are a prefix of the view, as long as the smaller of the limit and the view's length. |
| SearchProductsView.NextLimit | src/components/crm/SearchProductsView.jsx:233-237 | `loadMore` grows a limit below the view's size by one page or up to the end, and changes nothing otherwise. |
| SearchProductsView.ShownAfterLoads | src/components/crm/SearchProductsView.jsx:229-237 | After k calls of `loadMore`, the view shows min(50 + 50k, n) hits. |
| SearchProductsView.CsvRow | src/components/crm/SearchProductsView.jsx:173-180 | A hit's row has one non-empty cell per header column. |
| SearchProductsView.CsvRows | src/components/crm/SearchProductsView.jsx:173-180 | The CSV has one row per hit, the i-th being that hit's row. |
| SearchProductsView.GenerateCsvContent | src/components/crm/SearchProductsView.jsx:154-184 | The content is the CSV document of the header followed by one row per hit. |
| SearchProductsView.AppendHitLines | src/components/crm/SearchProductsView.jsx:173-182 | The loop appends exactly the lines of the hits' rows, in order. |
| SearchProductsView.CsvReadsBack | src/components/crm/SearchProductsView.jsx:154-184 | An export reads back as the header and one nine-field record per hit, cells as written up to surrounding whitespace. |
| SearchProductsView.FinalError | src/components/crm/SearchProductsView.jsx:115-123 | The final notice is cleared exactly when no term failed and there are hits. It names a term exactly when one failed, and that term is the first failure. It is never the no-terms notice. |
| SearchProductsView.SearchScreen.constructor | src/components/crm/SearchProductsView.jsx:16-24 | The initial state: empty box and results, not loading, no notice or selection, and a limit of one page. |
| SearchProductsView.SearchScreen.SetSearchTerm | src/components/crm/SearchProductsView.jsx:414 | Typing changes the box and nothing else. |
| SearchProductsView.SearchScreen.PerformSearch | src/components/crm/SearchProductsView.jsx:56-126 | With no terms: the notice, no results, a count of 0. Otherwise: the hits of all terms in order, the count reported, loading ended, the summary shown, and the first failure's notice or "no results". |
| SearchProductsView.SearchScreen.RejectSearch | src/components/crm/SearchProductsView.jsx:58-63 | The "enter a term" notice, an empty result and a count of zero. |
| SearchProductsView.SearchScreen.Search | src/components/crm/SearchProductsView.jsx:65-124 | Running the terms leaves their collected hits, reports their count, and ends loading with the final notice. |
| SearchProductsView.SearchScreen.ShowOutcome | src/components/crm/SearchProductsView.jsx:115-124 | The final error is the first failure's, else "no results" for an empty result, else none. Loading is cleared. |
| SearchProductsView.SearchScreen.OpenVendorDetailView | src/components/crm/SearchProductsView.jsx:53 | Selects the term and resets the limit to one page. |
| SearchProductsView.SearchScreen.GoToSummaryView | src/components/crm/SearchProductsView.jsx:52 | Clears the selection and resets the limit to one page. |
| SearchProductsView.SearchScreen.LoadMore | src/components/crm/SearchProductsView.jsx:233-237 | The limit advances as `NextLimit` over the current view; nothing else changes. |
| SearchProductsView.SearchScreen.ExportTermToCsv | src/components/crm/SearchProductsView.jsx:186-194 | Nothing is exported for a term without hits. Otherwise the export is the CSV document of that term's group. |
| ProductSearchView.Wording | src/components/crm/ProductSearchView.jsx:89-152 | The error text is empty exactly when no notice is set. |
| ProductSearchView.Envelope | src/components/crm/ProductSearchView.jsx:120-121 | Only an object body yields hits. An object whose envelope members are all absent or falsy yields none, since the chain ends in `[]`. A body that is itself an array yields nothing. |
| ProductSearchView.EnvelopeTakesFirst | src/components/crm/ProductSearchView.jsx:120-121 | When a member is truthy, the hits are the first truthy member's items when it is an array, none otherwise. |
| ProductSearchView.StepOf | src/components/crm/ProductSearchView.jsx:106-126 | A thrown request aborts the search with its message. A reply that is not ok skips its term. An ok reply adds the body's hits tagged with the term. |
| ProductSearchView.FirstThrownPrefix | src/components/crm/ProductSearchView.jsx:102-148 | Once a request has thrown, later replies no longer matter. |
| ProductSearchView.FirstThrownIsFirst | src/components/crm/ProductSearchView.jsx:147-148 | The search is abandoned exactly when some request threw, and then with the message of the first one. |
| ProductSearchView.GatheredAppend | src/components/crm/ProductSearchView.jsx:128 | The hits of a run are those of its first part followed by those of the rest. |
| ProductSearchView.Gathered | src/components/crm/ProductSearchView.jsx:123-128 | Defines `allResults` after the requests of the terms. GatheredAppend and GatheredTagged state its properties. |
| ProductSearchView.FirstThrown | src/components/crm/ProductSearchView.jsx:102-148 | Defines the message of the first request that threw. FirstThrownPrefix and FirstThrownIsFirst state its properties. |
| ProductSearchView.SkippedTerm | src/components/crm/ProductSearchView.jsx:114-117 | A term whose reply is not ok adds nothing, and the terms after it are still searched. |
| ProductSearchView.GatheredTagged | src/components/crm/ProductSearchView.jsx:123-128 | Every hit carries, as `sourceSearchTerm`, one of the searched terms. |
| ProductSearchView.Vendors | src/components/crm/ProductSearchView.jsx:130-135 | Defines the intended vendor set: the `Potential_Buyer_1` values of the hits that name one. VendorsMembers, VendorsBound and VendorsAppend state its properties. |
| ProductSearchView.VendorsMembers | src/components/crm/ProductSearchView.jsx:130-135 | A name is counted as a vendor exactly when some hit holds it under `Potential_Buyer_1`. |
| ProductSearchView.VendorsBound | src/components/crm/ProductSearchView.jsx:130-139 | There are never more distinct named vendors than hits. |
| ProductSearchView.VendorsAppend | src/components/crm/ProductSearchView.jsx:130-135 | The vendors of two hit lists together are the union of each list's vendors. |
| ProductSearchView.VendorsAsWritten | src/components/crm/ProductSearchView.jsx:130-135 | Defines the vendor set the code builds, "N/A" included. VendorsAsWrittenMembers, VendorsAsWrittenBound and VendorsAsWrittenAddsPlaceholder state its properties. |
| ProductSearchView.VendorsAsWrittenMembers | src/components/crm/ProductSearchView.jsx:130-135 | A name is in the code's vendor set exactly when `getFieldValue` returns it for some hit. |
| ProductSearchView.VendorsAsWrittenBound | src/components/crm/ProductSearchView.jsx:130-139 | The count the code reports never exceeds the number of hits. |
| ProductSearchView.VendorsAsWrittenAppend | src/components/crm/ProductSearchView.jsx:130-135 | The code's set for a concatenation is the union of the parts' sets, so the loop over terms builds it term by term. |
| ProductSearchView.AddVendors | src/components/crm/ProductSearchView.jsx:130-135 | The inner loop adds `getFieldValue(item, 'Potential_Buyer_1')` of every hit to the set, "N/A" included, and nothing else. |
| ProductSearchView.VendorsAsWrittenAddsPlaceholder | src/components/crm/ProductSearchView.jsx:130-135 | The code's set is the vendors plus "N/A" whenever a hit has no vendor. |
| ProductSearchView.PlaceholderCountedAsVendor | src/components/crm/ProductSearchView.jsx:130-139 | One hit without a vendor is reported as one vendor although none is named. |
| ProductSearchView.RunTerms | src/components/crm/ProductSearchView.jsx:99-139 | The loop ends with the first thrown message, if any. When none threw, it gives the gathered hits and the size of the vendor set the code builds, "N/A" included. |
| ProductSearchView.ExportRow | src/components/crm/ProductSearchView.jsx:61-70 | A hit's export row has three non-empty cells. |
| ProductSearchView.ExportRows | src/components/crm/ProductSearchView.jsx:61-70 | The export has one row per hit, the i-th being that hit's row. |
| ProductSearchView.AppendHitLines | src/components/crm/ProductSearchView.jsx:61-73 | The loop appends exactly the lines of the hits' rows, in order. |
| ProductSearchView.ExportText | src/components/crm/ProductSearchView.jsx:42-73 | The downloaded text is the CSV document of the header and one row per hit. |
| ProductSearchView.ExportReadsBack | src/components/crm/ProductSearchView.jsx:59-73 | An export reads back as the header and one three-field record per hit, cells as written up to surrounding whitespace. |
| ProductSearchView.FinalError | src/components/crm/ProductSearchView.jsx:138-148 | The final notice is cleared exactly when nothing threw and there are hits. It carries the thrown message exactly when a request threw, and it is never the no-terms notice. |
| ProductSearchView.SearchScreen.constructor | src/components/crm/ProductSearchView.jsx:12-16 | The initial state: empty box and results, not loading, no notice, and a vendor count of zero. |
| ProductSearchView.SearchScreen.SetSearchTerm | src/components/crm/ProductSearchView.jsx:173 | Typing changes the box and nothing else. |
| ProductSearchView.SearchScreen.PerformSearch | src/components/crm/ProductSearchView.jsx:89-152 | With no terms: the notice, empty results, a count of 0. A thrown request leaves the results empty and the count unchanged. Otherwise: the gathered hits and the size of the code's vendor set, "N/A" included. Loading ends with the final notice. |
| ProductSearchView.SearchScreen.RejectSearch | src/components/crm/ProductSearchView.jsx:91-96 | The "enter a term" notice, an empty result and a count of zero. |
| ProductSearchView.SearchScreen.ShowOutcome | src/components/crm/ProductSearchView.jsx:138-151 | An aborted run leaves the results empty with its message. A finished run leaves its hits and count. Loading is cleared. |
| ProductSearchView.SearchScreen.ExportToCsv | src/components/crm/ProductSearchView.jsx:42-73 | Nothing is exported exactly when there are no results. Otherwise the export is the CSV text of the results. |
| AllProductsView.Wording | src/components/crm/AllProductsView.jsx:68-155 | The error text is empty exactly when no notice is set. |
| AllProductsView.Select | src/components/crm/AllProductsView.jsx:49-62 | Filtering never lengthens the cache. |
| AllProductsView.SelectMembers | src/components/crm/AllProductsView.jsx:49-62 | A record is kept exactly when it is in the cache and the criterion accepts it. |
| AllProductsView.SelectAppend | src/components/crm/AllProductsView.jsx:49-62 | Filtering a concatenation gives the filtered first part followed by the filtered second part. |
| AllProductsView.SelectAll | src/components/crm/AllProductsView.jsx:49-62 | A criterion every record meets keeps the whole cache. |
| AllProductsView.Keep | src/components/crm/AllProductsView.jsx:49-62 | Defines the predicate of `filterAndChunkData`. FilteredMembers, EmptyFilterKeepsAll and MissingStatusIsNotAvailable state its properties. |
| AllProductsView.Filtered | src/components/crm/AllProductsView.jsx:49-62 | Defines the list `filterAndChunkData` keeps. FilteredMembers and FilteredKeepsOrder state its properties. |
| AllProductsView.InitiallyFiltered | src/components/crm/AllProductsView.jsx:97-101 | Defines the list kept right after a fetch. InitialWithinFiltered and InitialIgnoresBuyer state its properties. |
| AllProductsView.FilteredMembers | src/components/crm/AllProductsView.jsx:49-62 | A record is kept exactly when two things hold. Its description, buyer or unlowered id contains the lower-cased term. And the status is "All" or equals its lower-cased status. |
| AllProductsView.FilteredKeepsOrder | src/components/crm/AllProductsView.jsx:49 | The filtered list keeps cache order. |
| AllProductsView.EmptyFilterKeepsAll | src/components/crm/AllProductsView.jsx:55-59 | An empty term with the status "All" keeps the whole cache. |
| AllProductsView.MissingStatusIsNotAvailable | src/components/crm/AllProductsView.jsx:53 | A record without a status normalises to "n/a", so it never matches "Active". |
| AllProductsView.InitialWithinFiltered | src/components/crm/AllProductsView.jsx:97-101 | Every record the post-fetch filter keeps, `filterAndChunkData` keeps too. |
| AllProductsView.InitialIgnoresBuyer | src/components/crm/AllProductsView.jsx:97-101 | The post-fetch filter does not search the buyer, so the converse fails. |
| AllProductsView.FilterError | src/components/crm/AllProductsView.jsx:68 | The "no results" message is set exactly when nothing matched and the trimmed term is not empty or a status is in force. Otherwise the error is cleared. |
| AllProductsView.LoadedError | src/components/crm/AllProductsView.jsx:107-109 | After an ok fetch: "no data" exactly when the cache is empty. "No results" exactly when it is not empty, nothing matched and a filter is in force. Otherwise the error is cleared. For a non-empty cache this is the rule of `filterAndChunkData`. |
| AllProductsView.ChunkGrows | src/components/crm/AllProductsView.jsx:120-127 | Appending the next page keeps the chunk a prefix of the filtered list, one page longer or up to its end. |
| AllProductsView.FetchEnvelope | src/components/crm/AllProductsView.jsx:88-89 | An array body is the list. A body that is neither an array nor an object gives an empty list. An object with no truthy member falls back to itself and so gives an empty list. |
| AllProductsView.FetchEnvelopeTakesFirst | src/components/crm/AllProductsView.jsx:88-89 | When a member is truthy, the cache is filled from the first truthy one: its items when it is an array, nothing otherwise. |
| AllProductsView.FetchFailure | src/components/crm/AllProductsView.jsx:85-111 | The banner's message for a failed fetch: a thrown error's message as it is, or for a reply that is not ok the status line, which ends with the status text. |
| AllProductsView.UploadFailure | src/components/crm/AllProductsView.jsx:145-150 | The message is one of three. The body's truthy JSON `message`. The raw body, when it is not JSON and not empty. Otherwise the status line. |
| AllProductsView.ProductCache.constructor | src/components/crm/AllProductsView.jsx:10-11 | The module cache starts empty and not loaded. |
| AllProductsView.ProductsScreen.constructor | src/components/crm/AllProductsView.jsx:23-32 | The screen starts from the cache's list, with an empty chunk on page 1, more to load, the status "All" and no notice. |
| AllProductsView.ProductsScreen.SetSearchTerm | src/components/crm/AllProductsView.jsx:217 | Typing changes the search term and nothing else. |
| AllProductsView.ProductsScreen.ShowFirstPage | src/components/crm/AllProductsView.jsx:64-67 | The chunk is the first page of the new filtered list, on page 1. It has more exactly when the list is longer than a page. |
| AllProductsView.ProductsScreen.FilterAndChunk | src/components/crm/AllProductsView.jsx:48-69 | The filtered list is the cache filtered by term and status. The first page of it is shown, with the "no results" rule, and the paging invariant holds. |
| AllProductsView.ProductsScreen.LoadMoreData | src/components/crm/AllProductsView.jsx:117-131 | Nothing happens while loading or with no more to load. Otherwise the next page is appended (the chunk becomes the first page+1 pages), or `hasMore` is cleared at the end. The invariant is kept. |
| AllProductsView.ProductsScreen.FetchFailed | src/components/crm/AllProductsView.jsx:110-112 | A failed fetch shows its message and empties the list and chunk, with nothing more to load. |
| AllProductsView.ProductsScreen.FetchSucceeded | src/components/crm/AllProductsView.jsx:87-109 | The cache is replaced by the data and marked loaded, and its size is reported. The first page of the description-only filter is shown with the post-fetch error rule. |
| AllProductsView.ProductsScreen.FetchData | src/components/crm/AllProductsView.jsx:72-114 | Nothing happens when the cache is loaded and this is not a refresh. Otherwise: page 1 and loading ended. An ok reply refills the cache and list. A failure empties the list and keeps the cache. |
| AllProductsView.ProductsScreen.Load | src/components/crm/AllProductsView.jsx:75-113 | The request and the state its reply leaves, as in `FetchData`. |
| AllProductsView.ProductsScreen.HandleCsvUpload | src/components/crm/AllProductsView.jsx:140-160 | No file: nothing happens. A failure shows its message. An ok upload marks the cache stale, schedules the refetch and records the search term of that moment for it. The list is untouched. |
| AllProductsView.ProductsScreen.RefreshTimerFires | src/components/crm/AllProductsView.jsx:153 | Nothing changes when no refetch is scheduled. Otherwise it runs a refresh fetch with the term the upload recorded, then page 1 and loading ended. An ok reply refills the cache and filters it with that term. It shows the first page, sets whether more remain, and applies the post-fetch error rule. A failure shows its message, empties the list and the chunk, clears the more-flag and keeps the cache. |
| AllProductsView.ProductsScreen.Shown | src/components/crm/AllProductsView.jsx:168-175 | An unloaded cache is fetched with the current term, with the whole outcome of `FetchData` for an ok or a failed reply. A loaded cache with an empty chunk gets the whole outcome of `filterAndChunkData`: page 1, the first page, the more-flag and the error rule. Otherwise nothing changes. |
| AllProductsView.ProductsScreen.DebounceElapsed | src/components/crm/AllProductsView.jsx:177-184 | A non-empty cache is refiltered with the whole outcome of `filterAndChunkData`: page 1, the first page, the more-flag and the error rule; the rest of the state is kept. With an empty cache nothing changes. |
| MatchingSheet.Envelope | src/components/MatchingSheet.jsx:730 | `data?.data \|\| data \|\| []`: a list is kept, a falsy body becomes the empty list, and the result is truthy. |
| MatchingSheet.FeedOf | src/components/MatchingSheet.jsx:714-733 | Defines the try block of one poll. FeedReversesList, FeedOfOtherBodies and FeedFailures state its cases. |
| MatchingSheet.CauseMessage | src/components/MatchingSheet.jsx:723-733 | A thrown error keeps its message. The other two causes give a message that is not empty. A status failure's message ends with the response text. |
| MatchingSheet.FeedReversesList | src/components/MatchingSheet.jsx:728-733 | An ok list body, bare or under `data`, loads reversed: the server's last request comes first, and reversing again gives the list. |
| Sequences.Reverse | src/components/MatchingSheet.jsx:733 | `reverse()` keeps the length and puts the i-th element from the end at position i. |
| Sequences.ReverseTwice | src/components/MatchingSheet.jsx:733 | Reversing twice restores the list, so the feed's order can be recovered from the board's. |
| MatchingSheet.FeedOfOtherBodies | src/components/MatchingSheet.jsx:730-733 | A falsy body is an empty feed. Any other body without a list throws at `reverse`. |
| MatchingSheet.FeedFailures | src/components/MatchingSheet.jsx:723-726 | A thrown error or a status outside 200-299 never loads anything, and carries its cause. |
| MatchingSheet.FirstIndices | src/components/MatchingSheet.jsx:736-740 | The highlighted positions are exactly those below the count of new rows. |
| MatchingSheet.FirstIndicesSize | src/components/MatchingSheet.jsx:736-741 | As many positions are highlighted as there are new rows. |
| MatchingSheet.NewEntryIds | src/components/MatchingSheet.jsx:737-740 | The loop collects exactly the first `newCount` positions. |
| MatchingSheet.Wording | src/components/MatchingSheet.jsx:749 | The banner text is empty exactly when there is no error. |
| MatchingSheet.MockOf | src/components/MatchingSheet.jsx:954-961 | The placeholder response is available, priced and "Matched" exactly when the item has a price. It can deliver exactly when its quantity is above zero. Its phone is the safe contact. |
| MatchingSheet.MockFor | src/components/MatchingSheet.jsx:954-961 | An item's placeholder response is Matched exactly when it has a price, and otherwise Awaiting with no availability. It is deliverable exactly when the quantity is above zero, and its phone is never missing. |
| MatchingSheet.MockFieldsAgree | src/components/MatchingSheet.jsx:955-959 | Availability, "Matched" and the price always agree with one another. |
| MatchingSheet.DeliverableQuantity | src/components/MatchingSheet.jsx:958 | A quantity written as digits can be delivered exactly when it is not zero. |
| MatchingSheet.ProductNeeded | src/components/MatchingSheet.jsx:942 | The product needed is `safeValue(product_req)`; its `\|\| 'N/A'` is never taken. |
| MatchingSheet.ParentFields | src/components/MatchingSheet.jsx:946-953 | Defines the seven parent fields copied onto each vendor item. ParentFieldKeys states its keys. |
| MatchingSheet.VendorOf | src/components/MatchingSheet.jsx:945-962 | Defines a vendor item: its own fields with the parent's spread over them, and its placeholder response. VendorOfGet states which value each key reads. |
| MatchingSheet.MainRow | src/components/MatchingSheet.jsx:964-972 | The collapsed row has exactly six columns, none of them missing. Its RFQ status is "0/0", and it shows the request's match id whenever the request has one. |
| MatchingSheet.ParentFieldKeys | src/components/MatchingSheet.jsx:947-953 | Every vendor item receives the same seven parent keys. |
| MatchingSheet.GroupOf | src/components/MatchingSheet.jsx:945-980 | A request's group has one vendor per matched item, in order, each built from that item and the request. |
| MatchingSheet.Grouped | src/components/MatchingSheet.jsx:938-982 | One group per request, in request order. |
| MatchingSheet.GroupRowPlaceholder | src/components/MatchingSheet.jsx:964-972 | The collapsed row always reads "0/0" in its status column, and its displayed fields are never missing. |
| MatchingSheet.VendorFields | src/components/MatchingSheet.jsx:945-962 | A vendor item keeps every field of its own that the parent does not overwrite, and carries the parent's fields. |
| MatchingSheet.CapitalKeyNotParent | src/components/MatchingSheet.jsx:947-953 | The parent never overwrites a field whose name starts with a capital letter. |
| MatchingSheet.VendorOfGet | src/components/MatchingSheet.jsx:945-962 | A merged field is the parent's for a parent key and the item's otherwise. |
| MatchingSheet.MockOfMerged | src/components/MatchingSheet.jsx:906-915 | Working the placeholder out again from a vendor's merged fields gives the one stored in its group. |
| MatchingSheet.GroupWithoutProducts | src/components/MatchingSheet.jsx:945 | A request with no or `null` products gives a group without vendors. |
| MatchingSheet.CountResponded | src/components/MatchingSheet.jsx:996-998 | No more vendors have responded than there are vendors. |
| MatchingSheet.RfqStatusFor | src/components/MatchingSheet.jsx:994-1000 | The total is the number of vendors, and the responded count never exceeds it. |
| MatchingSheet.AllResponded | src/components/MatchingSheet.jsx:994-1000 | Responded equals total exactly when every vendor has a response. |
| MatchingSheet.NoneResponded | src/components/MatchingSheet.jsx:994-1000 | Responded is zero exactly when no vendor has a response. |
| MatchingSheet.CountsAgree | src/components/MatchingSheet.jsx:996-998 | When each vendor has responded exactly when its item is priced, the two counts are equal. |
| MatchingSheet.RespondedArePriced | src/components/MatchingSheet.jsx:994-1000 | In a group, the vendors counted as responded are exactly the priced items. |
| MatchingSheet.FiltersAgreeOnLowerIds | src/components/MatchingSheet.jsx:986-988 | The filter as written and the corrected one agree whenever the match id has no capitals. |
| MatchingSheet.GroupMatchesAsWritten | src/components/MatchingSheet.jsx:986-989 | Defines the filter of the code for a lower-cased term: the match id is not lower-cased. UpperCaseIdMissed and FiltersAgreeOnLowerIds are about it. |
| MatchingSheet.GroupMatches | src/components/MatchingSheet.jsx:986-989 | Defines the intended filter, which lower-cases every field, the match id included. CorrectedAcceptsMore relates it to the code's. |
| MatchingSheet.CorrectedAcceptsMore | src/components/MatchingSheet.jsx:986-989 | For a lower-cased term, the intended filter accepts every group the written one accepts. |
| MatchingSheet.CorrectedBoardShowsMore | src/components/MatchingSheet.jsx:984-992 | The corrected board shows every row the board as written shows. |
| MatchingSheet.ExampleGroupFields | src/components/MatchingSheet.jsx:964-979 | The example request's group shows id "M1", customer "acme" when lowered, the dash for the product, and no vendors. |
| MatchingSheet.UpperCaseIdMissed | src/components/MatchingSheet.jsx:988 | As written, searching "M1" misses the group with match id "M1"; the corrected filter finds it. |
| MatchingSheet.BoardHidesUpperCaseId | src/components/MatchingSheet.jsx:988 | On the example feed, searching "M1" shows nothing on the board as written, while the corrected board shows the group. |
| MatchingSheet.FilteredMatching | src/components/MatchingSheet.jsx:984-992 | The board as written keeps a group exactly when it is on the board and matches the lower-cased term. A match is the customer, the product or a vendor name containing the term, or the match id containing it without being lower-cased. |
| MatchingSheet.FilteredMatchingCorrected | src/components/MatchingSheet.jsx:984-992 | The intended board keeps a group exactly when it is on the board and matches the lower-cased term, the match id being lower-cased too. |
| MatchingSheet.FilterBy | src/components/MatchingSheet.jsx:984-992 | Under either match-id rule, every kept group is on the board and matches, every matching group is kept, and the result is no longer than the board. |
| MatchingSheet.FilteredIsSubsequence | src/components/MatchingSheet.jsx:984-992 | Under either match-id rule, the filtered board is the board with some groups left out, in the same order. |
| MatchingSheet.EmptySearchKeepsAll | src/components/MatchingSheet.jsx:984-992 | An empty search keeps the whole board, under either match-id rule. |
| MatchingSheet.EmptyTermMatches | src/components/MatchingSheet.jsx:986-989 | Every group matches the empty term. |
| MatchingSheet.SearchByIdFinds | src/components/MatchingSheet.jsx:988 | With the corrected filter, typing a group's match id as shown finds the group. |
| MatchingSheet.Without | src/components/MatchingSheet.jsx:273 | Removing an index drops it and keeps every other index. |
| MatchingSheet.Toggled | src/components/MatchingSheet.jsx:272-274 | A toggled index is selected exactly when it was not; other indices keep their state. |
| MatchingSheet.WithoutAbsent | src/components/MatchingSheet.jsx:273 | Removing an index that is not selected changes nothing. |
| MatchingSheet.ToggleTwice | src/components/MatchingSheet.jsx:269-276 | Ticking an unticked vendor and unticking it again restores the selection. |
| MatchingSheet.SelectedList | src/components/MatchingSheet.jsx:234-236 | The selected list is no longer than the vendors, and empty when nothing is ticked. |
| MatchingSheet.SelectedInOrder | src/components/MatchingSheet.jsx:234-236 | The selected vendors are exactly vendors at ticked positions, in board order. |
| MatchingSheet.DispatchCheck | src/components/MatchingSheet.jsx:768-779 | The contact is checked first. A vendor is ready exactly when it has a usable contact and item id. It lacks a contact exactly when its contact is the dash or "Null". |
| MatchingSheet.Dispatchable | src/components/MatchingSheet.jsx:848 | Defines the items the bulk loop sends to. DispatchCheck and DispatchableFields characterise it. |
| MatchingSheet.DispatchableFields | src/components/MatchingSheet.jsx:845-848 | On the raw fields: both contact and id are present, and neither is the dash or "Null". |
| MatchingSheet.RfqKey | src/components/MatchingSheet.jsx:853 | Defines the status-map key `${matchId}-${Id}`. GroupVendorDispatch states it for a group's vendor. |
| MatchingSheet.GroupVendorDispatch | src/components/MatchingSheet.jsx:853 | A vendor's key joins the request's match id and the item's id. Its contact and id checks depend on the item's own fields only. |
| MatchingSheet.Successes | src/components/MatchingSheet.jsx:881-882 | There are never more successes than vendors. |
| MatchingSheet.Unsendable | src/components/MatchingSheet.jsx:848-850 | There are never more skipped vendors than vendors. |
| MatchingSheet.BulkStatuses | src/components/MatchingSheet.jsx:844-892 | Defines the status map after the bulk loop. BulkKeepsOtherKeys and BulkSettlesKeys state what it holds. |
| MatchingSheet.FailuresCoverSkipped | src/components/MatchingSheet.jsx:844-892 | Failures are at least the skipped vendors. When every webhook call fails, there are no successes. |
| MatchingSheet.BulkKeepsOtherKeys | src/components/MatchingSheet.jsx:853-891 | A key that no sendable vendor maps to keeps its entry. |
| MatchingSheet.BulkSettlesKeys | src/components/MatchingSheet.jsx:853-891 | After the loop, every sendable vendor's key is sent or cleared, never left sending. |
| MatchingSheet.BulkPrefixStep | src/components/MatchingSheet.jsx:844-895 | One more iteration adds one vendor's entry and one success exactly when that vendor is sendable and accepted. |
| MatchingSheet.ViewOf | src/components/MatchingSheet.jsx:906-927 | The response view's WhatsApp number and match id are never missing. |
| MatchingSheet.ViewMatchesGroup | src/components/MatchingSheet.jsx:906-927 | For a vendor of a group, the view shows the response stored in the group, and the request's own customer number. |
| MatchingSheet.OfferCheck | src/components/MatchingSheet.jsx:322-331 | An empty price or one at most zero is refused. A missing or dash WhatsApp number is refused next. Only then is the confirmation asked. |
| MatchingSheet.OfferPriceDigits | src/components/MatchingSheet.jsx:323 | A digit price is refused exactly when it is zero. A negated digit price is always refused. |
| MatchingSheet.OfferNeedsCustomerNumber | src/components/MatchingSheet.jsx:328 | For a positive price, the offer reaches confirmation exactly when the request has a customer number other than the dash. |
| MatchingSheet.PositivePriceAccepted | src/components/MatchingSheet.jsx:323 | A positive price is non-empty and not at most zero. |
| MatchingSheet.MatchingBoard.constructor | src/components/MatchingSheet.jsx:692-701 | The board starts loading with no requests, no error, no highlights, no statuses, no selection, an empty search and no open view. |
| MatchingSheet.MatchingBoard.Groups | src/components/MatchingSheet.jsx:938-982 | The grouped board has one group per request, in order, the i-th being that request's group. |
| MatchingSheet.MatchingBoard.Shown | src/components/MatchingSheet.jsx:984-992 | A group is on screen exactly when it is on the grouped board and matches the term under the filter as written. |
| MatchingSheet.MatchingBoard.FetchMatchingData | src/components/MatchingSheet.jsx:704-752 | Loading always ends. A failure keeps the requests and shows its cause. A load replaces the requests newest first and clears the error. It marks the new leading rows when the list grew from a non-empty one. |
| MatchingSheet.MatchingBoard.ShowFeed | src/components/MatchingSheet.jsx:735-745 | The loaded requests replace the old ones. The first positions are highlighted exactly when the list grew from a non-empty one. |
| MatchingSheet.MatchingBoard.ClearNewEntries | src/components/MatchingSheet.jsx:742 | The highlight timer empties the set of new rows. |
| MatchingSheet.MatchingBoard.SetSearchTerm | src/components/MatchingSheet.jsx:1055 | Typing sets the term, and the rows shown become the groups of the requests under the filter as written. |
| MatchingSheet.MatchingBoard.ToggleVendor | src/components/MatchingSheet.jsx:269-276 | Only the row's own selection changes. The vendor is selected afterwards exactly when it was not before. |
| MatchingSheet.MatchingBoard.SendRfq | src/components/MatchingSheet.jsx:762-824 | Nothing changes, with the matching alert, unless the vendor has a contact and an item id. Otherwise the key ends sent or cleared, by the webhook's answer, with the matching alert. |
| MatchingSheet.MatchingBoard.ExpireRfq | src/components/MatchingSheet.jsx:813-815 | The timer clears one key and keeps the others. |
| MatchingSheet.MatchingBoard.ClearRfqStatuses | src/components/MatchingSheet.jsx:898 | The timer empties the status map. |
| MatchingSheet.MatchingBoard.SendAllRfq | src/components/MatchingSheet.jsx:826-899 | No vendors: an alert. Declined: nothing. Once confirmed, four things hold. The statuses follow the bulk loop. Successes and failures add up to the vendors, and failures cover the skipped ones. The completion alert carries both counts. Every sendable key is settled. |
| MatchingSheet.MatchingBoard.SendEach | src/components/MatchingSheet.jsx:844-895 | The loop leaves the bulk statuses and counts each vendor once, as a success or a failure. |
| MatchingSheet.MatchingBoard.SendSelectedRfq | src/components/MatchingSheet.jsx:901-904 | The bulk send runs over the row's ticked vendors in board order. Every selection is cleared afterwards, whatever the send did. |
| MatchingSheet.MatchingBoard.ViewVendorResponse | src/components/MatchingSheet.jsx:929-933 | Opens the response view of the vendor. |
| MatchingSheet.MatchingBoard.CloseResponseView | src/components/MatchingSheet.jsx:1097 | Closes the response view. |

## Left out

- Network I/O is left out. Every `fetch` is replaced by its outcome, passed as a parameter: a status with a decoded body, or a thrown error. Request URLs, headers and the JSON bodies posted to the webhooks are not modelled.
- Alert, confirm and console output are not modelled as text. A confirmation answer is a boolean parameter, and which alert a handler shows is an `Alert` value.
- Timers are event methods called when they fire: the 5 s new-row highlight, the 3 s RFQ resets, the 1 s refetch after an upload, and the 300 ms debounce. The 500 ms pause between bulk RFQs and the 30 s polling interval are left out, because they only delay.
- Interleaving of concurrent async handlers is left out. Each handler runs to completion as one step, so the progressive updates of the multi-term search are not shown.
- The "not configured" branches at the start of `fetchMatchingData`, `sendRFQ` and `sendAllRFQ` are left out. The URLs are constants in src/utils/config.jsx:2-25, so these branches never run.
- ProductSearchView calls an endpoint constant, `VENDOR_SEARCH_API_URL`, that the configuration does not define. Only the outcome of each request is modelled, so that URL is not.
- Record fields are strings, `null` or `undefined`. A numeric JSON field (a numeric 0, which is falsy) and nested objects inside records are not modelled.
- Numbers.NumberSign: only the sign of `Number(s)` is modelled, never its magnitude. An exponent that underflows to zero (`1e-400`) is taken as positive.
- Text.ToLower: only ASCII letters are lowered; the Unicode case mapping of other letters is left out.
- DOM rendering, downloads (`Blob`, object URLs, file names), the scroll listeners' pixel arithmetic, row expansion and details modals are left out. The scroll listener is the call of the load-more method.
- `exportAllToCsv` (src/components/crm/SearchProductsView.jsx:212-225) is left out. It only schedules `exportTermToCsv` once per group on timers, and that export is modelled.
- The Enter-key handler of the multi-term search is left out, since it only calls `performSearch`.
- The sending of the customer offer after its checks is left out, because it is a request and alerts only. So are the details modal with its bulk-send button, which calls the modelled `sendAllRFQ`.
- AllProductsView.ProductsScreen.HandleCsvUpload: the file's content is not modelled, only whether a file was chosen.
- AllProductsView.ProductsScreen.RefreshTimerFires: only one pending refetch is modelled. A second upload before the timer fires replaces the recorded term instead of scheduling a second fetch.
- MatchingSheet.CauseMessage: the message for an envelope that is not a list is the `TypeError` wording of the V8 engine (Chrome, Node.js). Other engines word that error differently.

## Findings

| source | as written | input that shows it | evidently intended | confidence | as-written member | corrected member |
|---|---|---|---|---|---|---|
| src/components/crm/ProductSearchView.jsx:130-139 | `getFieldValue(item, 'Potential_Buyer_1')` returns "N/A" for a hit without a vendor, and "N/A" is truthy, so `if (vendor)` never skips and "N/A" is counted as a vendor | one hit with no `Potential_Buyer_1` field: the code reports 1 vendor | count only hits that name a vendor | not executed | ProductSearchView.PlaceholderCountedAsVendor | ProductSearchView.VendorsMembers |
| src/components/MatchingSheet.jsx:988 | the match id is compared without `toLowerCase()` while the term is lower-cased | a group with match id "M1" and the search "M1": the term becomes "m1", which "M1" does not contain, so the group is hidden | compare the match id case-insensitively, like the other fields | not executed | MatchingSheet.BoardHidesUpperCaseId | MatchingSheet.SearchByIdFinds |
