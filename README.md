# Application Insights viewer — a verified model of its core

This project is a Dafny model of the deterministic core of `azure-appinsights-viewer`. The viewer is a
browser front end that lists a user's Azure directories (tenants), subscriptions and Application
Insights instances. It pages or searches through an instance's request invocations and shows the
trace, exception and dependency records of one invocation.

The modules follow the program's files:

| module | file | what it holds |
|---|---|---|
| `Wrappers` | — | `Option` and `Result` |
| `JsValues` | — | JSON values as parsed JavaScript sees them (`Value`), `??`, truthiness, `String(v)`, `.trim()`, ASCII case folding, decimal digits |
| `Queries` | `src/kql/queries.ts` | the time-range clause, the ranked paging window, quote escaping, the three query texts |
| `Logs` | `src/api/logs.ts` | `toObjects` and the `objectsByTable` loop, as methods with loops proved against functions |
| `Arm` | `src/api/arm.ts` | the resource-path segment parsers and the record mappers of the three listings |
| `InvocationDetails` | `src/components/invocations/InvocationDetails.tsx` | `toStringSafe`, `filteredRows`, `selectedRow`/`nextTs`, `approxDeltaMs` |
| `Portal` | `src/components/Portal.tsx` | the component's state as the class `PortalState`, its loads, effects and handlers |

Each asynchronous load of the portal is split in two methods:

- `Begin...` does what the load does before its first `await`. It returns a request that records the values the load's closure read.
- `Finish...` takes that request and the outcome of the remote calls. The outcome is a `Result` whose error is the caught exception's message. It applies the state updates that follow.

The outcomes of remote calls, the account's directory, the stored selections, timestamp parsing and
the `localeCompare` order are all parameters.

## Model

| member | source | states |
|---|---|---|
| Queries.TimeRangeToAgo | azure-appinsights-viewer/src/kql/queries.ts:1-12 | each of the three ranges maps to its own `ago(...)` clause, which reads back to the same range |
| Queries.PageWindow | azure-appinsights-viewer/src/kql/queries.ts:21-22 | the window keeps exactly the row numbers `offset < rn <= offset + limit`; for `limit >= 1`, `start <= end` and it spans `limit` rows |
| Queries.AdjacentPagesMeet | azure-appinsights-viewer/src/kql/queries.ts:21-22 | the page at `offset + limit` starts right after the page at `offset` ends; the two do not overlap and together are the window of `2 * limit` rows |
| Queries.EveryRowInExactlyOnePage | azure-appinsights-viewer/src/kql/queries.ts:21-22 | the pages at `0, limit, 2*limit, ...` tile the ranked rows: row `rn` is in page `k` iff `k == (rn - 1) / limit` |
| Queries.RankClauseRoundTrip | azure-appinsights-viewer/src/kql/queries.ts:29 | the clause `rn between (<start> .. <end>)` parses back to the window it was printed from |
| Queries.EscapeQuotes | azure-appinsights-viewer/src/kql/queries.ts:40 | the result is `|s|` plus the number of quotes long; it has as many quotes and that many more backslashes; every quote is preceded by a backslash; without quotes nothing changes |
| Queries.UnescapeEscapeQuotes | azure-appinsights-viewer/src/kql/queries.ts:62 | deleting the inserted backslashes gives back the original value |
| Queries.TrimFramed | azure-appinsights-viewer/src/kql/queries.ts:24-32 | `.trim()` of a template literal that opens and closes with a line break gives exactly its text, when that text neither starts nor ends with whitespace |
| Queries.TrimmedTemplate | azure-appinsights-viewer/src/kql/queries.ts:24-32 | every piece of a template is contained in its trimmed text, and the text ends with the last piece |
| Queries.InvocationsQuery | azure-appinsights-viewer/src/kql/queries.ts:14-33 | the list query contains `timestamp >= <ago clause>` and `| where rn between (<start> .. <end>)` for the page window |
| Queries.InvocationDetailsQuery | azure-appinsights-viewer/src/kql/queries.ts:35-54 | the details query contains the time filter and `operation_Id == "<escaped id>"` |
| Queries.SearchInvocationsByTraceKeywordQuery | azure-appinsights-viewer/src/kql/queries.ts:56-80 | the search query contains the time filter and `message has "<escaped keyword>"`, and ends with `| take <limit>` |
| Queries.DetailsFramed | azure-appinsights-viewer/src/kql/queries.ts:42-53 | the details template's text neither starts nor ends with whitespace |
| Queries.SearchFramed | azure-appinsights-viewer/src/kql/queries.ts:64-79 | the same for the search template, whatever the limit |
| Logs.AssignAllKeys | azure-appinsights-viewer/src/api/logs.ts:17 | after assigning keys one after another, the map's keys are exactly the assigned keys |
| Logs.AssignAllLastWins | azure-appinsights-viewer/src/api/logs.ts:17 | for a repeated key, the value assigned last is kept |
| Logs.RecordOfShape | azure-appinsights-viewer/src/api/logs.ts:14-17 | a record's keys are exactly the column names; a column maps to the row's cell at its last position, cells past the columns are dropped and missing cells are undefined |
| Logs.ToObject | azure-appinsights-viewer/src/api/logs.ts:16-18 | the loop over the columns builds exactly the record of the row, whose keys are exactly the column names (for any number of columns, none included) |
| Logs.ToObjects | azure-appinsights-viewer/src/api/logs.ts:13-20 | one record per row, in row order; absent `rows` give no records |
| Logs.ObjectsByNameShape | azure-appinsights-viewer/src/api/logs.ts:42-43 | the keys are the table names, and each name maps to `toObjects` of the last table with that name |
| Logs.ObjectsByTable | azure-appinsights-viewer/src/api/logs.ts:42-43 | the loop over the tables builds exactly that map, whose keys are exactly the table names (for any number of tables, none included); absent `tables` give the empty map |
| Arm.SegmentAt | azure-appinsights-viewer/src/api/arm.ts:62 | the pattern matches at a position exactly when a capture is returned, and the capture is the one the pattern defines |
| Arm.FindMatch | azure-appinsights-viewer/src/api/arm.ts:62 | the first position at or after `p` where the pattern matches, and no match before it; `None` when there is none |
| Arm.ParseResourceGroupFromId | azure-appinsights-viewer/src/api/arm.ts:61-64 | the capture of the leftmost case-insensitive `/resourceGroups/<segment>/`, non-empty and without `/`; `None` exactly when nothing matches |
| Arm.ParseSubscriptionFromId | azure-appinsights-viewer/src/api/arm.ts:66-69 | the same for `/subscriptions/` |
| Arm.ListTenants | azure-appinsights-viewer/src/api/arm.ts:41-49 | one record per entry, in order, each field copied; absent `value` gives none |
| Arm.ListSubscriptions | azure-appinsights-viewer/src/api/arm.ts:51-59 | one record per entry, in order, each field copied; absent `value` gives none |
| Arm.ListAppInsightsComponents | azure-appinsights-viewer/src/api/arm.ts:71-95 | one record per entry, in order: the id stringified, resource group and subscription parsed from it, and each of `appId`, `applicationId` and `ingestionMode` taken from the capitalised property when present, else the lower-case one |
| InvocationDetails.ToStringSafe | azure-appinsights-viewer/src/components/invocations/InvocationDetails.tsx:101-104 | null and undefined give `''`, anything else its string form; a string is itself |
| InvocationDetails.ToTimeMs | azure-appinsights-viewer/src/components/invocations/InvocationDetails.tsx:106-111 | no time for an empty string (so for null and undefined), otherwise the parser's result |
| InvocationDetails.IsRequestIgnoresCase | azure-appinsights-viewer/src/components/invocations/InvocationDetails.tsx:123 | lower-casing `itemType` and comparing with `request` is comparing without regard to case |
| InvocationDetails.FilteredRows | azure-appinsights-viewer/src/components/invocations/InvocationDetails.tsx:123 | no request row is kept, and no more rows than given |
| InvocationDetails.FilteredRowsCounts | azure-appinsights-viewer/src/components/invocations/InvocationDetails.tsx:123 | every row that is not a request row is kept as often as it occurs |
| InvocationDetails.FilteredRowsInOrder | azure-appinsights-viewer/src/components/invocations/InvocationDetails.tsx:123 | the kept rows are in their original order |
| InvocationDetails.SelectedRow | azure-appinsights-viewer/src/components/invocations/InvocationDetails.tsx:125 | the row at the index iff an index is selected and in range |
| InvocationDetails.SelectedTs | azure-appinsights-viewer/src/components/invocations/InvocationDetails.tsx:126 | a time only with a selected row, and then that row's parsed timestamp |
| InvocationDetails.NextTs | azure-appinsights-viewer/src/components/invocations/InvocationDetails.tsx:127-130 | none without a selection or when the selected index is at least `|filteredRows| - 1`, else the next row's parsed timestamp |
| InvocationDetails.ApproxDeltaMs | azure-appinsights-viewer/src/components/invocations/InvocationDetails.tsx:132-143 | never negative; none unless a row is selected and its time parses; `max(0, next - selected)` when the next time parses, otherwise `max(0, start + duration - selected)` when the invocation's end is known, otherwise none |
| Portal.StringOrEmpty | azure-appinsights-viewer/src/components/Portal.tsx:245-251 | `String(v ?? '')`: null and undefined give `''`, any other value its string form, a string itself |
| Portal.InvocationRowOf | azure-appinsights-viewer/src/components/Portal.tsx:244-253 | `success` iff the record's `success` is `true`; timestamp, name, result code and both ids stringified with `''` for missing; `matchCount` only when it is a number; the duration as given, `0` when missing |
| Portal.InvocationRowsOf | azure-appinsights-viewer/src/components/Portal.tsx:244-253 | one table row per record, in order |
| Portal.PrimaryResult | azure-appinsights-viewer/src/components/Portal.tsx:243 | the records of the table named `PrimaryResult`, none when there is no such table |
| Portal.CountsPartitionRows | azure-appinsights-viewer/src/components/Portal.tsx:151-152 | `successCount + errorCount` is the number of rows |
| Portal.CountsOfAppend | azure-appinsights-viewer/src/components/Portal.tsx:151-152 | appending a page adds its successes and its errors to the counts |
| Portal.PageQuery | azure-appinsights-viewer/src/components/Portal.tsx:238-241 | the keyword search for the trimmed keyword and 100 rows iff the mode is search and the trimmed keyword is not empty, otherwise the list page at the offset; both carry the time filter |
| Portal.KeywordIffTrimmed | azure-appinsights-viewer/src/components/Portal.tsx:513-514 | the keyword has a non-whitespace character iff its trimmed form is not empty |
| Portal.ModeForKeyword | azure-appinsights-viewer/src/components/Portal.tsx:513-514 | Enter chooses search mode iff the keyword is not blank |
| Portal.FindTenant | azure-appinsights-viewer/src/components/Portal.tsx:186 | the position of the first directory whose id is strictly equal to the wanted one, or the length when none is |
| Portal.PreferredTenant | azure-appinsights-viewer/src/components/Portal.tsx:186 | the account's directory when listed, otherwise the first listed directory's id if present, otherwise `''` |
| Portal.FirstSubscriptionId | azure-appinsights-viewer/src/components/Portal.tsx:204 | the first entry's id when it is present, `''` for an empty list or a first entry without an id |
| Portal.FindApp | azure-appinsights-viewer/src/components/Portal.tsx:148 | the position of the first instance with the chosen resource id, or the length when none has it |
| Portal.AppIdOf | azure-appinsights-viewer/src/components/Portal.tsx:148-149 | `null` when no instance has the chosen resource id, otherwise that instance's `appId ?? null` |
| Portal.InsertByName | azure-appinsights-viewer/src/components/Portal.tsx:219 | inserting into a list sorted by name keeps it sorted and adds exactly the one instance |
| Portal.BoundedAfterInsert | azure-appinsights-viewer/src/components/Portal.tsx:219 | a lower bound of a sorted list and of the inserted instance bounds the result |
| Portal.SortByName | azure-appinsights-viewer/src/components/Portal.tsx:219 | the sorted instances are in name order and a permutation of the listed ones |
| Portal.TenantSwitchClearsListedSubscription | azure-appinsights-viewer/src/components/Portal.tsx:203-204 | a directory change followed by its subscriptions load leaves no subscription chosen, even when the new listing has the one chosen before, because the effect cleared the selection first (Portal.tsx:299) |
| Portal.SameIdsAfterSort | azure-appinsights-viewer/src/components/Portal.tsx:221 | sorting does not change whether a resource id is listed |
| Portal.PortalState.constructor | azure-appinsights-viewer/src/components/Portal.tsx:125-146 | the initial state: nothing loading or listed, the stored selections with their fallbacks (the account's directory, `''`, the last 30 days), list mode, empty keyword and rows |
| Portal.PortalState.DefaultTenantEffect | azure-appinsights-viewer/src/components/Portal.tsx:154-157 | with no directory chosen, the account's directory is chosen; otherwise nothing changes |
| Portal.PortalState.BeginLoadTenants | azure-appinsights-viewer/src/components/Portal.tsx:178-180 | the error is cleared, the tenants load is in flight, and the request records the chosen directory |
| Portal.PortalState.FinishLoadTenants | azure-appinsights-viewer/src/components/Portal.tsx:181-193 | on success the directories are stored and, if none was chosen when the load began, the preferred one is chosen; on failure the error is set and nothing else changes; the load is over either way |
| Portal.PortalState.TenantEffect | azure-appinsights-viewer/src/components/Portal.tsx:290-303 | with a directory chosen: subscriptions, instances, rows, offset, selection, details and both ids below the directory are cleared, and the subscriptions load starts; without one nothing changes |
| Portal.PortalState.FinishLoadSubscriptions | azure-appinsights-viewer/src/components/Portal.tsx:196-211 | on success the subscriptions are stored; the current selection stays when the id the load began with is listed, otherwise the first listed id or `''` is chosen; on failure the error is set and nothing else changes |
| Portal.PortalState.SubscriptionEffect | azure-appinsights-viewer/src/components/Portal.tsx:305-314 | with both chosen: instances, rows, offset, selection and details are cleared, the directory and subscription stay, and the instances load starts; otherwise nothing changes |
| Portal.PortalState.FinishLoadApps | azure-appinsights-viewer/src/components/Portal.tsx:213-229 | on success the instances are stored sorted by name (a permutation); the current selection stays when the id the load began with is listed, otherwise the first id after sorting or `''` is chosen; on failure the error is set and nothing else changes |
| Portal.PortalState.BeginInvocationsPage | azure-appinsights-viewer/src/components/Portal.tsx:231-241 | without an instance id nothing changes; otherwise the request records offset 0 for a reset or the current offset, with the mode, keyword and time range |
| Portal.PortalState.FinishInvocationsPage | azure-appinsights-viewer/src/components/Portal.tsx:242-265 | on success the page replaces (reset) or extends the rows, the old rows staying a prefix; the offset moves by 100 in list mode and by the rows returned in search mode; a reset clears the selection and details; on failure only the error is set |
| Portal.PortalState.AppIdEffect | azure-appinsights-viewer/src/components/Portal.tsx:316-322 | with an instance id the rows and offset are cleared and the first page starts loading; otherwise nothing changes |
| Portal.PortalState.BeginInvocationDetails | azure-appinsights-viewer/src/components/Portal.tsx:268-274 | without an instance id nothing changes; otherwise the details load starts for the operation and time range |
| Portal.PortalState.FinishInvocationDetails | azure-appinsights-viewer/src/components/Portal.tsx:275-282 | on success the details are the primary result's records; on failure only the error is set |
| Portal.PortalState.SelectTenant | azure-appinsights-viewer/src/components/Portal.tsx:382 | the chosen option, or `''` |
| Portal.PortalState.SelectSubscription | azure-appinsights-viewer/src/components/Portal.tsx:403 | the chosen option, or `''` |
| Portal.PortalState.SelectApp | azure-appinsights-viewer/src/components/Portal.tsx:421 | the chosen option, or `''` |
| Portal.PortalState.SelectTimeRange | azure-appinsights-viewer/src/components/Portal.tsx:448 | the chosen range |
| Portal.PortalState.EditSearch | azure-appinsights-viewer/src/components/Portal.tsx:510 | the typed keyword |
| Portal.PortalState.PressEnter | azure-appinsights-viewer/src/components/Portal.tsx:511-518 | the mode becomes search iff the keyword is not blank; rows and offset are cleared; with an instance id the first page is requested with the mode the closure saw |
| Portal.PortalState.ClickSearch | azure-appinsights-viewer/src/components/Portal.tsx:524-530 | enabled with an instance id, no page load and a keyword: search mode, rows cleared, first page requested |
| Portal.PortalState.ClickReset | azure-appinsights-viewer/src/components/Portal.tsx:536-543 | list mode, empty keyword, rows cleared, first page requested with the closure's mode and keyword |
| Portal.PortalState.ClickRefresh | azure-appinsights-viewer/src/components/Portal.tsx:553-554 | the first page is requested again |
| Portal.PortalState.LoadMore | azure-appinsights-viewer/src/components/Portal.tsx:573-574 | enabled only in list mode with an instance id and no page load; the next page is requested from the current offset |
| Portal.PortalState.SelectInvocation | azure-appinsights-viewer/src/components/Portal.tsx:569-572 | the invocation becomes the selection and its details load, if there is an instance id |
| Portal.PortalState.RefreshDetails | azure-appinsights-viewer/src/components/Portal.tsx:581-583 | the chosen invocation's details load again; with none chosen nothing changes |

## Left out

- Authentication and the network: the token acquisition, `armGet` and the `fetch` of `queryAppInsights` are not modelled. Their outcomes enter the model as parameters, and a failure as the message of a `Result`.
- Evaluating the query language: only the construction of the query text is modelled.
- Queries.EscapeQuotes: backslashes are not doubled, so the model does not claim that every input yields a well-formed string literal.
- `Date.parse` is a parameter that yields whole milliseconds, or `None` where the source gets a value that is not finite.
- JavaScript numbers are modelled as integers. `Number(r.duration ?? 0)` is not modelled, so a row's `durationMs` holds the value before the conversion.
- Portal.SortByName: `localeCompare` is abstracted as a given total preorder on the names. The order of instances with equal names (sort stability) is not stated. A name that is not a string, where `localeCompare` would throw, is not modelled.
- Case folding is ASCII-only. That is exact for the comparisons here. The regular expressions' `i` flag never folds a non-ASCII character to an ASCII one. The only non-ASCII character that `toLowerCase` maps to ASCII is the Kelvin sign, which becomes `k`, and `request` has no `k`.
- React's scheduling is not modelled: when effects run, how state updates are batched, and races between overlapping loads. Each load, effect and handler is a sequential method.
- Portal.PortalState.FinishLoadSubscriptions: a subscription that is listed is not kept after a directory change, because the directory effect clears the selection before the load and the load then leaves the cleared `''` in place. The model keeps this behaviour of the source, and Portal.TenantSwitchClearsListedSubscription states it. A subscription restored from storage is lost the same way on the first directory effect.
- When the directory changes, the source also runs the subscription effect in the same render with the old subscription id. That extra instances load is not modelled.
- `localStorage`: the stored selections are constructor parameters, and writing them back is not modelled. The unchecked cast of the stored time range is replaced by a `TimeRange` parameter.
- The `setInterval` auto-refresh and its two settings are not modelled.
- The JSX, the styling and `InvocationsTable.tsx` are not modelled. Only the `InvocationRow` type and the button-enabling conditions, as handler preconditions, are kept.
- The portal never passes `invocation` to the details panel. It is a parameter of InvocationDetails.ApproxDeltaMs that may be `None`.
- Logs.ToObject and Logs.ObjectsByTable: records and `objectsByTable` are plain JavaScript objects in the source and maps here. A column or table named `__proto__` is not modelled: in the source the assignment goes to the prototype setter and adds no key, while the model adds the key `__proto__`. Nothing in the viewer reads such a key.
- Entries of the resource-management listings that are not JSON objects are not modelled.
- The selected index of the details panel is a natural number. A negative index cannot occur, because the panel only sets positions of listed rows.
