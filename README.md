# Blockchain explorer front-end: search, validators, pagination and client state

This project models, in Dafny, the logic of a Vue front-end for a blockchain
explorer that can be stated without a browser or a network:

- **Search** (`useSearch`): a query is trimmed and stripped of commas, then
  classified as a block number (`^\d+$`), a hash (`^0x[a-fA-F0-9]{64}$`) or
  invalid. A blank query only sets "Please enter a search query". A block
  number is parsed and looked up. If the lookup finds the block, the search
  navigates to `/blocks/<n>`; otherwise it shows "Block not found". A hash is
  first looked up as a transaction, then as a block, and the search navigates
  to whichever is found. The transaction lookup and both navigation paths use
  the trimmed query with its commas, although the classifier removed them; the
  block lookup sends it without them. `searching` is
  raised before the first lookup and lowered again on every exit after it is raised.
- **Lookups** (`fetchBlockByIdentifier`, `fetchTransactionByHash`): each sends
  one variable (a number's decimal text, a string without its commas, a hash
  unchanged). Each returns none on a thrown call, a reported error or missing
  data, and never throws.
- **List and detail accessors** (`useBlocks`, `useTransactions` and the detail
  accessors): the variables sent, the override map a `refetch` builds from
  the arguments it is given, and the projections a view reads. Those are the
  items or `[]`, the total or 0, and the error message or the accessor's
  fallback text.
- **Validators** (address, transaction hash, block number). The regular
  expressions are written in a small anchored-pattern language (`Regex`) with
  a backtracking `Matches`, and each validator is proved equal to a plain
  description of the strings it accepts.
- **Pagination** (`calculatePaginationRange`): a loop collects the pages around
  the current one, and the list is built with page 1, the last page and `'...'`
  markers. It is proved equal to a specification function, and the shape of
  that function's result is proved as lemmas.
- **Formatters**: `truncateHash`, `shortenAddress` and the zero-total guard of
  `formatPercentage`.
- **Client state**: the app store, the shared new-block counter and the theme,
  which is kept in a module-level ref, the `data-theme` attribute and local
  storage.

The network is a function parameter that maps the variables sent to the
outcome of `execute()`: returned data and/or error, or a thrown exception. The
router is a `Router` object that records the paths pushed. The document
attribute, local storage and `matchMedia` are fields of `Theme.Environment`.

Facts about the code worth knowing when reading the model:

- the hash class accepts upper- and lower-case hex digits;
- the search has no address class;
- a block-number search checks that the block exists before it navigates;
- a hash search tries the transaction first and then the block.

Files: `wrappers.dfy` (Option), `text.dfy` (trim, comma removal, substring,
decimal conversion), `regex.dfy`, `helpers.dfy`, `formatters.dfy`, `query.dfy`
(the client outcome, variables, error fallback, list view), `blocks.dfy`,
`transactions.dfy`, `search.dfy`, `app_store.dfy`, `blockchain_events.dfy`,
`theme.dfy`.

## Model

| member | source | states |
|---|---|---|
| Text.Trim | src/composables/useSearch.ts:14 | `trim` never lengthens its input, and what it returns is empty or starts and ends with a non-whitespace character |
| Text.TrimIsSlice | src/composables/useSearch.ts:14 | `trim` keeps a contiguous slice of the query, removes only whitespace from both ends and leaves none at either end |
| Text.TrimStartShape | src/composables/useSearch.ts:14 | the leading part `trim` removes is whitespace, and the rest starts with a non-whitespace character |
| Text.TrimEndShape | src/composables/useSearch.ts:14 | the trailing part `trim` removes is whitespace, and the rest ends with a non-whitespace character |
| Text.TrimEmptyIff | src/composables/useSearch.ts:28 | `query.trim()` is empty exactly when the query is whitespace only |
| Text.TrimUnchanged | src/composables/useSearch.ts:14 | a string with no whitespace at either end is unchanged by `trim` |
| Text.RemoveCommas | src/composables/useSearch.ts:14 | `replace(/,/g, '')` leaves no comma, never lengthens, and leaves a comma-free string unchanged |
| Text.RemoveCommasAppend | src/composables/useBlocks.ts:60 | comma removal distributes over concatenation |
| Text.Substring | src/utils/formatters.ts:8 | `substring` with in-range indices is the slice between them and is never longer than the string |
| Text.DecimalRoundTrip | src/composables/useSearch.ts:40-43 | parsing the decimal text of a block number gives the number back |
| Text.CanonicalRoundTrip | src/composables/useSearch.ts:40-43 | rendering the parsed value of a digit string with no leading zero gives that string back |
| Regex.TimesMatches | src/utils/helpers.ts:26-32 | `class{n}` followed by a pattern matches exactly n class characters followed by a match of the pattern |
| Regex.PlusMatches | src/utils/helpers.ts:34-36 | `^class+$` matches exactly the non-empty strings of class characters |
| Regex.PrefixedMatches | src/utils/helpers.ts:26-32 | `^0x[class]{n}$` matches exactly `0x` followed by n class characters |
| Helpers.AddressShape | src/utils/helpers.ts:27 | the pattern `^0x[a-fA-F0-9]{40}$` matches exactly `0x` followed by 40 hex digits of either case |
| Helpers.TransactionHashShape | src/utils/helpers.ts:31 | the pattern `^0x[a-fA-F0-9]{64}$` matches exactly `0x` followed by 64 hex digits of either case |
| Helpers.BlockNumberShape | src/utils/helpers.ts:35 | the pattern `^\d+$` matches exactly the non-empty strings of ASCII digits |
| Helpers.IsValidEthereumAddress | src/utils/helpers.ts:26-28 | an address is valid iff it is `0x` followed by exactly 40 hex digits of either case (42 characters) |
| Helpers.IsValidTransactionHash | src/utils/helpers.ts:30-32 | a hash is valid iff it is `0x` followed by exactly 64 hex digits of either case (66 characters) |
| Helpers.IsValidBlockNumber | src/utils/helpers.ts:34-36 | a block number is valid iff it is a non-empty string of ASCII digits, with no sign, space or comma |
| Helpers.ValidatorsDisjoint | src/utils/helpers.ts:26-36 | no string is both a valid address and a valid hash, and a valid block number is neither |
| Helpers.CalculatePaginationRange | src/utils/helpers.ts:38-65 | the loop and the pushes produce exactly `PaginationRange(currentPage, totalPages, delta)`; delta defaults to 2 |
| Helpers.PaginationRange | src/utils/helpers.ts:38-65 | whatever the arguments, the page list is non-empty and starts with page 1 |
| Helpers.PaginationEnds | src/utils/helpers.ts:50-62 | for 1 ≤ current ≤ total and delta ≥ 0: the list starts with page 1, ends with the last page iff total > 1, is `[1]` when total is 1, and shows only pages within [1, total] |
| Helpers.PaginationGaps | src/utils/helpers.ts:42-62 | for 1 ≤ current ≤ total and delta ≥ 0: neighbouring pages are consecutive, and each `'...'` stands between two pages and hides at least one |
| Helpers.PaginationShape | src/utils/helpers.ts:42-62 | for 1 ≤ current ≤ total and delta ≥ 0: the list starts with page 1; it ends with the last page iff total > 1 (total 1 gives `[1]`); every page is within [1, total]; neighbouring pages are consecutive; and each `'...'` stands between two pages and hides at least one |
| Helpers.GapsGiveIncrease | src/utils/helpers.ts:42-62 | in a list whose neighbouring pages are consecutive and whose `'...'` entries each hide a page, page numbers increase from left to right |
| Helpers.PaginationIncreasing | src/utils/helpers.ts:42-62 | page numbers strictly increase along the list, so no page appears twice |
| Helpers.PaginationWindow | src/utils/helpers.ts:42-48 | every page within delta of the current one is shown; every page shown is 1, the last, or in the run from max(2, current − delta) to min(total − 1, current + delta) |
| Helpers.PaginationEllipses | src/utils/helpers.ts:50-60 | the current page is shown; a `'...'` precedes it iff current − delta > 2 and follows it iff current + delta < total − 1 |
| Helpers.PaginationWithoutPages | src/utils/helpers.ts:38-65 | with no pages at all (current 1, total 0) the list is still `[1]`, a page outside [1, total] |
| Helpers.PaginationBounded | src/utils/helpers.ts:42-62 | for delta ≥ 0 the list has at most 2·delta + 5 entries, however many pages there are |
| Formatters.TruncateHash | src/utils/formatters.ts:4-9 | an empty hash, or one no longer than startChars + endChars, is returned unchanged; the defaults are 6 and 4 |
| Formatters.TruncateShape | src/utils/formatters.ts:5-8 | otherwise the result is the first startChars characters, `"..."`, then the last endChars characters, and has length startChars + endChars + 3 |
| Formatters.TruncateLength | src/utils/formatters.ts:5-8 | truncation is at most 2 characters longer than its input; it is longer iff the input has start+end+1 or start+end+2 characters, and shorter iff the input is longer than start+end+3 |
| Formatters.ShortenAddress | src/utils/formatters.ts:40-42 | a shortened address keeps its first 6 and last 4 characters around `"..."` (13 characters for a 42-character address); up to 10 characters are kept unchanged |
| Formatters.FormatPercentage | src/utils/formatters.ts:35-38 | a zero total gives `'0%'` whatever the value; otherwise the shown percent times the total is 100 times the value |
| Query.ErrorMessage | src/composables/useBlocks.ts:19-22 | no message iff there is no error; otherwise the error's message, or the fallback when that message is empty |
| Query.ErrorMessageNeverEmpty | src/composables/useBlocks.ts:19-22 | with a non-empty fallback, an accessor never shows an empty error message |
| Query.ListViewOf | src/composables/useBlocks.ts:16-22 | without data the items are `[]` and the total 0; with data, its items and total; the error goes through the fallback rule |
| Query.OptionalEntry | src/composables/useTransactions.ts:21-27 | a variable key is present iff its argument is not `undefined`, and then holds that argument |
| Query.Settle | src/composables/useBlocks.ts:69-80 | a one-shot lookup gives none on a thrown call, on a reported error and on missing data; otherwise the selected field |
| Blocks.BlocksVariables | src/composables/useBlocks.ts:10-14 | the list query sends exactly `limit` and `offset`, defaulting to 20 and 0 |
| Blocks.BlocksOverrides | src/composables/useBlocks.ts:24-28 | the refetch map has `limit` iff a new limit is given and `offset` iff a new offset is given, and no other key |
| Blocks.BlocksRefetchVariables | src/composables/useBlocks.ts:24-29 | `refetch` builds that map by conditional assignment from `{}`, with the given values; a no-argument refetch sends `{}` |
| Blocks.BlocksRefetchReusesOmitted | src/composables/useBlocks.ts:10-28 | the overrides laid over the first variables equal the variables of a fresh query in which each omitted argument keeps its value |
| Blocks.BlocksView | src/composables/useBlocks.ts:16-22 | with data, `blocks` and `totalCount` are the returned items and total; without data, `[]` and 0; the error is shown iff there is one, as its own message when that is non-empty and as `'Failed to fetch blocks'` otherwise |
| Blocks.IdentifierString | src/composables/useBlocks.ts:60 | the identifier sent never contains a comma |
| Blocks.NumberAndTextAgree | src/composables/useBlocks.ts:60 | a block number and its decimal text send the same identifier, and that identifier parses back to the number |
| Blocks.CommasIgnored | src/composables/useBlocks.ts:60 | a comma anywhere in a string identifier does not change what is sent |
| Blocks.BlockLookupVariables | src/composables/useBlocks.ts:62-67 | the lookup sends exactly one variable, `identifier`, holding the normalised identifier |
| Blocks.FetchBlockByIdentifier | src/composables/useBlocks.ts:58-81 | none when `execute` throws or reports an error; with data and no error, the block field, which may be absent; a block is returned only from an error-free result holding it |
| Blocks.BlockDetailVariables | src/composables/useBlocks.ts:92-96 | the detail query sends exactly `number` |
| Blocks.BlockDetailView | src/composables/useBlocks.ts:98-103 | with data, the detail is the returned `blockDetail`; without data, none; the error is shown iff there is one, as its own message when non-empty and as `'Failed to fetch block details'` otherwise |
| Transactions.TransactionsVariables | src/composables/useTransactions.ts:16-27 | the list query always sends `limit` and `offset`; it sends `blockNumber` iff that argument is given, and likewise `address` |
| Transactions.UseTransactionsVariables | src/composables/useTransactions.ts:10-27 | the variables object is built by conditional assignment, with defaults 20 and 0, and holds the given filter values |
| Transactions.TransactionsOverrides | src/composables/useTransactions.ts:42-58 | the refetch map has exactly the keys of the arguments given |
| Transactions.TransactionsRefetchVariables | src/composables/useTransactions.ts:42-59 | `refetch` builds that map by conditional assignment from `{}`; with no arguments it is empty |
| Transactions.TransactionsRefetchReusesOmitted | src/composables/useTransactions.ts:16-58 | the overrides laid over the first variables equal the variables of a fresh query in which each omitted argument, filters included, keeps its value |
| Transactions.TransactionsView | src/composables/useTransactions.ts:34-40 | with data, `transactions` and `totalCount` are the returned items and total; without data, `[]` and 0; the error is shown iff there is one, as its own message when non-empty and as `'Failed to fetch transactions'` otherwise |
| Transactions.TransactionLookupVariables | src/composables/useTransactions.ts:90-95 | the lookup sends exactly `hash`, unmodified (no trimming, no comma removal) |
| Transactions.FetchTransactionByHash | src/composables/useTransactions.ts:88-109 | none when `execute` throws or reports an error; with data and no error, the transaction field, which may be absent |
| Transactions.TransactionDetailVariables | src/composables/useTransactions.ts:120-124 | the detail query sends exactly `hash` |
| Transactions.TransactionDetailView | src/composables/useTransactions.ts:126-131 | with data, the detail is the returned `transactionDetail`; without data, none; the error is shown iff there is one, as its own message when non-empty and as `'Failed to fetch transaction details'` otherwise |
| Search.DetectQueryType | src/composables/useSearch.ts:13-25 | the query is a block number iff its normalised form passes the block-number validator, and a hash iff it passes the hash validator |
| Search.ClassificationShape | src/composables/useSearch.ts:13-25 | after trimming and removing every comma, the query is a block number iff it is one or more ASCII digits; it is a hash iff it is `0x` followed by 64 hex digits of either case; otherwise it is invalid |
| Search.ThousandsSeparatorsIgnored | src/composables/useSearch.ts:14-18 | digits separated by a comma (`123,456`) classify as a block number, and the normalised query is the digits joined |
| Search.CommaInHashQuery | src/composables/useSearch.ts:14-24 | some query with a comma classifies as a hash although its trimmed form, which the lookup and the path receive, is not a valid hash |
| Search.SearchRun | src/composables/useSearch.ts:27-72 | a search ends blank iff the trimmed query is empty, and then makes no lookup; it makes at most two lookups, and navigates only after at least one |
| Search.BlankQueryRejected | src/composables/useSearch.ts:28-31 | a search ends at the empty-query rejection iff the query is whitespace only, and then makes no lookup |
| Search.BlockNumberSearch | src/composables/useSearch.ts:39-46 | a block-number query makes one lookup by the parsed number, sent as its decimal text; it navigates to `/blocks/<n>` iff the block is found, and fails with `'Block not found'` when it is not; for a query without leading zeros, `<n>` is the normalised query |
| Search.HashSearch | src/composables/useSearch.ts:47-62 | the transaction lookup comes first, with the trimmed query; the block lookup happens iff that finds nothing; the search navigates to `/transactions/<q>` iff a transaction is found, to `/blocks/<q>` iff only a block is found, and fails with the hash-not-found message iff neither is |
| Search.InvalidSearch | src/composables/useSearch.ts:63-64 | an invalid non-blank query fails with the invalid-query message and makes no lookup |
| Search.NavigationFollowsHit | src/composables/useSearch.ts:38-68 | a navigation always follows a lookup that found its target; every error is one of the three messages, never `'Search failed…'` |
| Search.Router.Push | src/composables/useSearch.ts:43-58 | `router.push` appends the path to the navigation history and changes nothing else |
| Search.SearchState.constructor | src/composables/useSearch.ts:10-11 | `searching` starts false and `searchError` null |
| Search.SearchState.Search | src/composables/useSearch.ts:27-72 | a blank query sets only the empty-query message; otherwise each lookup runs with `searching` true and no error, the lookups and outcome are those of `SearchRun`, a navigation leaves the error null, an error means no navigation, and `searching` is false afterwards |
| App.EmptyMessageIsAnError | src/stores/app.ts:33 | `hasError` is true after `setError('')` and false when the error is null, initially included |
| App.AppStore.constructor | src/stores/app.ts:4-10 | the store starts not loading, with no error and every counter 0 |
| App.AppStore.HasErrorNow | src/stores/app.ts:33 | `hasError` holds iff the error is not null |
| App.AppStore.SetLoading | src/stores/app.ts:13-15 | changes only `isLoading` |
| App.AppStore.SetError | src/stores/app.ts:17-19 | changes only `error`; afterwards `hasError` holds iff a message (possibly empty) was set |
| App.AppStore.UpdateStats | src/stores/app.ts:21-25 | copies the three counters and leaves `isLoading` and `error` unchanged |
| App.AppStore.ClearError | src/stores/app.ts:27-29 | sets only `error` to null; afterwards `hasError` is false; a second call changes nothing |
| BlockchainEvents.Counter.constructor | src/composables/useBlockchainEvents.ts:3 | the counter starts at 0 |
| BlockchainEvents.Handle.TriggerNewBlockEvent | src/composables/useBlockchainEvents.ts:6-8 | the counter increases by exactly 1 and stays equal to the number of triggers, so it never decreases |
| BlockchainEvents.EventsModule.UseBlockchainEvents | src/composables/useBlockchainEvents.ts:5-13 | every call returns a handle over the same module-level counter |
| BlockchainEvents.EventsModule.TriggerSeenByOthers | src/composables/useBlockchainEvents.ts:3-13 | a trigger through one caller's handle raises the shared counter by exactly 1, in step with the trigger count, and another caller's handle reads that new value |
| Theme.SystemTheme | src/composables/useTheme.ts:21-26 | dark iff `matchMedia` exists and reports a dark preference, light otherwise |
| Theme.Toggled | src/composables/useTheme.ts:16-19 | light from dark, dark from any other value |
| Theme.ToggleTwice | src/composables/useTheme.ts:16-19 | toggling twice restores dark or light; any other value ends at light |
| Theme.PreferredTheme | src/composables/useTheme.ts:28-32 | a non-empty stored value is applied as it is, unchecked; the system theme is used only when nothing non-empty is stored |
| Theme.PersistedThemeRestored | src/composables/useTheme.ts:10-32 | a non-empty theme that was set is the theme the next start-up applies (an empty one falls back to the system theme), and re-applying the preferred theme is idempotent |
| Theme.ThemeState.UseTheme | src/composables/useTheme.ts:42-47 | each `useTheme()` call returns a new handle whose `theme` is the same module-level ref |
| Theme.ThemeState.ToggleSeenByOthers | src/composables/useTheme.ts:7-19 | a toggle through one caller's handle is the theme another caller's `theme` shows; the ref, the `data-theme` attribute and the stored value all hold it |
| Theme.ThemeState.constructor | src/composables/useTheme.ts:7 | the module-level theme starts dark |
| Theme.ThemeState.SetTheme | src/composables/useTheme.ts:10-14 | the current theme, the `data-theme` attribute and the value stored under `intuition-theme` all become the theme |
| Theme.ThemeState.ToggleTheme | src/composables/useTheme.ts:16-19 | the theme becomes `Toggled` of the old one and is applied and stored |
| Theme.ThemeState.InitTheme | src/composables/useTheme.ts:28-32 | the theme becomes `PreferredTheme` of the stored values and the media query, and is applied and stored |

## Left out

- `debounce` and `throttle`: their behaviour is driven by `setTimeout` timers.
- `formatTimestamp`, `formatFullDate`, `formatWeiToEth`, `formatGwei`, `formatNumber` and `formatGas`: they depend on dates, locale formatting, floating point and the `ethers` and `date-fns` libraries.
- Formatters.FormatPercentage: the non-zero case is kept symbolic, as a real percentage; `toFixed(2)` rounding is floating-point text formatting.
- `copyToClipboard` and the copy-to-clipboard composable: they use the browser clipboard and a timer.
- The GraphQL client's own behaviour: caching, the `loading` flags, subscriptions (`useBlocksSubscription`, `useTransactionsSubscription`, stats), and how `execute` merges an override map.
- Blocks.BlocksRefetchReusesOmitted: proved for the override laid over the first variables by map union; that the client merges this way is an assumption.
- Transactions.TransactionsRefetchReusesOmitted: the same assumption about merging.
- The detail accessors' `refetch()`: it calls `execute()` with no arguments, so what is sent is up to the client. The model keeps only the initial detail variables and the view projections.
- Out-of-order responses, requests still in flight, and `console.error` logging: these are concurrency and diagnostics.
- `router.push` failures: the search never awaits the promise.
- The address, stats and user-growth composables: thin client wrappers that follow the same fallback and optional-key pattern as the blocks accessors.
- `parseInt` precision beyond 2^53: block numbers are unbounded naturals.
- Other number limits: JavaScript numbers are doubles, and page numbers, counts, offsets and `startChars`/`endChars` are integers here. Fractions, NaN (`totalCount || 0`) and counter precision loss are not modelled.
- String lengths: strings are sequences of Unicode characters. JavaScript counts UTF-16 code units, so characters outside the Basic Multilingual Plane count as 2 there and 1 here.
- Theme.ThemeState.InitTheme: `onMounted` decides when it runs and is not modelled. The `watch` on the theme sets the same attribute `setTheme` already set, so it adds nothing here.
- Theme values: the TypeScript type restricts themes to `'dark' | 'light'`, but `initTheme` passes an unchecked stored string, so themes are modelled as strings.
- Animations, keyboard shortcuts, application wiring, routes, build configuration and the GraphQL query strings: these are DOM and framework glue.
- Block and transaction detail records: `BlockDetail` is imported but never defined in the source, so the model gives it a `number` and an opaque field map. `TransactionDetail` keeps `hash` and `blockNumber`, and its other fields are only displayed, so they are an opaque field map too.
