# Account data path of the CRM front end and its proxy

This project models, in Dafny, the part of a small customer-relationship app
that moves account records between a browser and an SAP-style CRM service:

- the field mapper between the CRM's wire records and the app's `Account`,
  with its two closed status-code tables (`Mapper`);
- the client's request logic: list-query assembly and search escaping, the
  concurrency-token read, the lock-retry loop with exponential backoff on
  HTTP 423, and the batched analytics paging loop (`ApiClient`);
- the column-filter composable: an insertion-ordered map of selected values,
  its OData `$filter` builder and the URL parser that restores it
  (`ColumnFilters`);
- the account store: the loaded list and what fetch, create, update and
  delete do to it (`AccountStores`);
- client-side pagination and the table-sort state machine (`Paginations`,
  `TableSorts`);
- the Express proxy: its startup check, the header and content-type choice
  and the error message of its CRM call, parameter forwarding for the list
  route, and the If-Match check and quoting for updates (`Proxy`).

Network traffic is not performed: every response the code awaits is an input
value (`Response`: an HTTP answer with status, status text and parsed body,
or a rejected fetch with its message), and every request is an output value
that the contracts describe. Loops that make several requests take a
sequence of responses, one per attempt or batch.

Four behaviours of the source worth knowing:

- the `$filter` clauses come in the order the keys were first added to the
  active filters, not in the order of the filter configuration;
- the update retry loop resends the same If-Match token on every attempt; it
  does not fetch a fresh one;
- reading back what the write mapper produces does not give the record
  back (the write side emits `firstLineName`, `lifeCycleStatus` and
  `hasContactPersons`, which the read side does not read), so only the two
  status tables are proved to round-trip;
- the read mapper takes the status from `lifeCycleStatusDescription` and
  upper-cases it, so a description written with a space ("In Preparation")
  reads as `Active` (`Mapper.SpacedDescriptionReadsAsActive`).

Files: `wrappers.dfy` (Option, Result), `strings.dfy` (JavaScript string
helpers), `types.dfy` (records), `mapper.dfy`, `api_client.dfy`,
`column_filter.dfy`, `account_store.dfy`, `pagination.dfy`,
`table_sort.dfy`, `proxy.dfy`.

## Model

| member | source | states |
|---|---|---|
| Mapper.MapStatusFromApi | src/services/api.ts:194-202 | the result is one of the four statuses; a non-Active result means the upper-cased input equals that status's code; an absent, empty or unknown input reads as Active |
| Mapper.MapStatusToApi | src/services/api.ts:204-210 | each of the four status labels maps to its code; anything else, absent included, maps to ACTIVE |
| Mapper.CodeIsUpperCase | src/services/api.ts:197-200 | every status code is already upper case |
| Mapper.StatusReadIsCaseInsensitive | src/services/api.ts:196 | reading a status gives the same result as reading its upper-cased form |
| Mapper.StatusRoundTrip | src/services/api.ts:194-210 | for every status, reading back the code written for it gives the status |
| Mapper.SpacedDescriptionReadsAsActive | src/services/api.ts:83 | a description containing a space never matches a code, so it reads as Active |
| Mapper.CodeHasNoSpace | src/services/api.ts:197-200 | no status code contains a space |
| Mapper.MapAccountFromApi | src/services/api.ts:67-87 | every string field is its source value when given and '' otherwise; website and country come from the nested objects; prospect holds only for an explicit true; status goes through the status table; updatedOn passes through, possibly absent |
| Mapper.MapSingleResponse | src/services/api.ts:92-94 | the result is the mapped `value` of the response |
| Mapper.MapListResponse | src/services/api.ts:99-101 | one account per wire record, in order, each one mapped |
| Mapper.MapList | src/services/api.ts:100 | the mapped list has the same length and maps each element at the same index |
| Mapper.MapAccountToApi | src/services/api.ts:106-191 | update mode yields the update payload and create mode the create payload of the input |
| Mapper.UpdatePayload | src/services/api.ts:113-153 | each field is present exactly when its input is set (strings also non-empty); companyName goes to both name fields; prospect brings customerRole; status brings its code; a contact brings a one-entry contact list |
| Mapper.PutNames | src/services/api.ts:115-122 | writes the name fields and isProspect/customerRole as the update rules say and leaves every other field alone |
| Mapper.PutClassification | src/services/api.ts:123-136 | writes the classification, status code and contact list as the update rules say and leaves every other field alone |
| Mapper.PutReferences | src/services/api.ts:137-150 | writes owner, website, industry and country as the update rules say and leaves every other field alone |
| Mapper.CreatePayload | src/services/api.ts:157-190 | the nine create fields are always present, even with absent values; the contact list and industrialSector appear only for non-empty inputs |
| Mapper.UpdatePayloadIsFilled | src/services/api.ts:107 | an update payload never carries an absent value or an empty string |
| Mapper.ContactListIsFilled | src/services/api.ts:129-136 | the contact list written for a non-empty contact id is itself filled |
| Mapper.EmptyUpdatePayload | src/services/api.ts:113-153 | an update with nothing set yields the empty object |
| Mapper.CustomerRoleAgrees | src/services/api.ts:119-122 | both modes derive the same customerRole, BUP002 for a prospect and CRM000 otherwise |
| ApiClient.LookupConcat | src/services/api.ts:226-237 | looking up a name in a concatenated query finds the first part's pair before the second's |
| ApiClient.EscapeSearch | src/services/api.ts:234 | every double quote in the result is preceded by a backslash, and the result is at least as long as the term |
| ApiClient.SearchEscapeRoundTrip | src/services/api.ts:234 | un-escaping the escaped term gives the term back |
| ApiClient.SearchValue | src/services/api.ts:232-236 | the value is wrapped in double quotes and its inside un-escapes to the term |
| ApiClient.BuildAccountsQuery | src/services/api.ts:226-237 | the appends produce exactly the list query of the parameters |
| ApiClient.LookupAppendIf | src/services/api.ts:228-231 | a conditional append makes its name visible only when present and the name was absent |
| ApiClient.ListQueryValues | src/services/api.ts:226-237 | $top and $skip appear only when truthy (zero is dropped), text options only when non-empty, $search as the quoted escaped term, $count always true |
| ApiClient.RankedAppend | src/services/api.ts:228-237 | appending an option ranked above the query keeps the query in rank order |
| ApiClient.AppendsRanked | src/services/api.ts:228-237 | any combination of the conditional appends in code order yields a rank-ordered query |
| ApiClient.ListQueryOrder | src/services/api.ts:226-237 | the pairs follow $top, $skip, $orderby, $filter, $search, and $count=true is always last |
| ApiClient.FetchAccounts | src/services/api.ts:219-258 | sends the list query; a rejected fetch passes its message, a non-ok answer fails with the status text, an ok answer gives the mapped accounts and the count, 0 when missing |
| ApiClient.FetchAccountByIdWithETag | src/services/api.ts:343-370 | fails on a rejected fetch, a non-ok answer or a missing or empty updatedOn; otherwise gives the mapped account and the token equal to its updatedOn |
| ApiClient.CreateAccount | src/services/api.ts:375-392 | posts the create payload; fails on a rejected fetch or non-ok answer; otherwise gives the mapped created record |
| ApiClient.DeleteAccount | src/services/api.ts:448-459 | succeeds exactly on an ok answer; a rejected fetch passes its message, a non-ok answer fails with the status text |
| ApiClient.Pow2 | src/services/api.ts:417 | a power of two is at least 1 |
| ApiClient.AttemptStep | src/services/api.ts:404-439 | a 423 with retries left waits the backoff; an ok answer finishes with the body; a rejected fetch or another non-ok answer is retried at once exactly when retries are left and its message mentions "locked"; a failure carries the network message, the locked message after a 423, or "Failed to update account: " and the status text |
| ApiClient.After | src/services/api.ts:403-440 | prefixing attempts and waits keeps the loop's result |
| ApiClient.AfterAfter | src/services/api.ts:403-440 | two prefixes of attempts and waits combine into one |
| ApiClient.RetryGoesOn | src/services/api.ts:415-438 | a retried attempt moves the loop to the next attempt with its wait recorded |
| ApiClient.RetryEnds | src/services/api.ts:424-436 | a finishing attempt ends the loop with its body or its error |
| ApiClient.SendWithRetry | src/services/api.ts:403-442 | sends the same request on every attempt; its result, waits and number of attempts are those of the retry loop's specification |
| ApiClient.MapUpdated | src/services/api.ts:431-432 | success exactly when the loop succeeded, with the body mapped; errors pass through |
| ApiClient.UpdateAccount | src/services/api.ts:397-443 | builds the update payload once and sends it with the same id and If-Match on every attempt; the result is the loop's result mapped |
| ApiClient.AtMostFourAttempts | src/services/api.ts:400-403 | the loop makes at least one and at most four attempts, so the final throw after the loop is never reached |
| ApiClient.BackoffFacts | src/services/api.ts:417 | each backoff doubles the one before, and the last one used is 2000 ms |
| ApiClient.GrowingPrepend | src/services/api.ts:417 | a shorter wait in front of growing waits keeps them growing |
| ApiClient.DelaysGrow | src/services/api.ts:415-421 | the waits are strictly growing, between 500 and 2000 ms, at most three |
| ApiClient.LockedMessageMentionsLocked | src/services/api.ts:424-435 | the exhausted-retries message contains "locked" |
| ApiClient.ContainsSuffix | src/services/api.ts:435 | a text found in a suffix is found in the whole |
| ApiClient.AlwaysLocked | src/services/api.ts:415-424 | four 423 answers: four attempts, waits 500, 1000 and 2000 ms, and the locked error |
| ApiClient.LockedTwiceThenAccepted | src/services/api.ts:415-432 | two 423 answers then an ok one: three attempts, waits 500 and 1000 ms, and the accepted body |
| ApiClient.NonLockFailureIsNotRetried | src/services/api.ts:427-436 | at any attempt, a non-ok answer other than 423 whose message lacks "locked" ends the loop there with the status-text error, after one request and no wait |
| ApiClient.NetworkErrorIsNotRetried | src/services/api.ts:433-436 | at any attempt, a rejected fetch whose message lacks "locked" ends the loop there with that message, after one request and no wait |
| ApiClient.LockedStatusTextIsRetriedWithoutWait | src/services/api.ts:427-438 | a non-ok answer whose status text mentions "locked" is retried with no wait |
| ApiClient.OrUnknown | src/services/api.ts:305-307 | a given text is kept and an absent or empty one becomes 'Unknown' |
| ApiClient.AnalyticsRows | src/services/api.ts:304-308 | one row per record, in order, each taking its three fields or 'Unknown' |
| ApiClient.BatchQueries | src/services/api.ts:275-283 | batch i asks for 999 records at skip 999·i with the chart fields and the count |
| ApiClient.Before | src/services/api.ts:274-316 | prefixing accepted batches adds their count and keeps success or failure |
| ApiClient.BeforeBefore | src/services/api.ts:274-316 | two prefixes of batches combine into one |
| ApiClient.AnalyticsGoesOn | src/services/api.ts:310-315 | an accepted batch that leaves records unread moves the loop to the next batch |
| ApiClient.AnalyticsEnds | src/services/api.ts:292-315 | any other batch ends the loop with its error or with every row gathered |
| ApiClient.FetchAccountsForAnalytics | src/services/api.ts:269-318 | requests exactly the batch queries in order; the rows or the first error and the number of batches are those of the paging specification |
| ApiClient.BatchCount | src/services/api.ts:270-315 | with every batch reporting the same count c, the loop requests one batch when c ≤ 0 and ⌈c/999⌉ batches otherwise |
| ApiClient.BatchesFrom | src/services/api.ts:313-315 | from batch j on, the number of remaining batches is the total less j |
| ApiClient.DivBounds | src/services/api.ts:314-315 | division by the batch size compares like multiplication by it |
| ColumnFilters.Assigned | src/composables/useColumnFilter.ts:102 | setting a key adds it to the key set |
| ColumnFilters.Deleted | src/composables/useColumnFilter.ts:98-113 | deleting a key removes it from the key set |
| ColumnFilters.GetKeys | src/composables/useColumnFilter.ts:12 | a key has values exactly when it is in the key set |
| ColumnFilters.GetAssigned | src/composables/useColumnFilter.ts:102 | after setting, the key reads its new values and every other key is unchanged |
| ColumnFilters.GetDeleted | src/composables/useColumnFilter.ts:98-113 | after deleting, the key reads as absent and every other key is unchanged |
| ColumnFilters.AssignedDistinct | src/composables/useColumnFilter.ts:102 | setting keeps every key at most once |
| ColumnFilters.DeletedDistinct | src/composables/useColumnFilter.ts:98-113 | deleting keeps every key at most once |
| ColumnFilters.KeyCount | src/composables/useColumnFilter.ts:127 | with distinct keys the number of entries is the number of keys |
| ColumnFilters.EscapeODataValue | src/composables/useColumnFilter.ts:91-93 | the result grows by one character per single quote, and a value with no quote is unchanged |
| ColumnFilters.ODataEscapeRoundTrip | src/composables/useColumnFilter.ts:91-93 | collapsing doubled quotes gives the value back |
| ColumnFilters.EscapeExample | src/composables/useColumnFilter.ts:92 | O'Brien is written O''Brien |
| ColumnFilters.FindConfig | src/composables/useColumnFilter.ts:65 | the found configuration is the first one with the key; none is found exactly when no configuration has it |
| ColumnFilters.NonEmpty | src/composables/useColumnFilter.ts:77 | keeps exactly the non-empty values, each as often as it occurs, dropping every empty one |
| ColumnFilters.NonEmptyConcat | src/composables/useColumnFilter.ts:77 | filtering keeps order: the non-empty values of two consecutive parts are those of the first part followed by those of the second |
| ColumnFilters.EqClauses | src/composables/useColumnFilter.ts:78 | one `field eq 'value'` clause per value, in order, each value escaped |
| ColumnFilters.ClauseWhen | src/composables/useColumnFilter.ts:63-82 | a key yields a clause exactly when it is configured and has a non-empty value (its one value when it has one) |
| ColumnFilters.SingleValueClause | src/composables/useColumnFilter.ts:68-73 | one non-empty value gives the unparenthesised `field eq 'value'` clause |
| ColumnFilters.MultiValueClause | src/composables/useColumnFilter.ts:74-82 | two or more values with a non-empty one give `(` , the `eq` tests of the non-empty values in order joined by ` or `, and `)` |
| ColumnFilters.ClausesConcat | src/composables/useColumnFilter.ts:62-83 | clauses follow the entry order of the active filters |
| ColumnFilters.NoFiltersNoClauses | src/composables/useColumnFilter.ts:85 | no active filters give the empty filter |
| ColumnFilters.LabelOf | src/composables/useColumnFilter.ts:136-137 | the configured label when a configuration has the key, else the key |
| ColumnFilters.ActiveFilterLabels | src/composables/useColumnFilter.ts:134-144 | one entry per active key, in order, with its values and the label `<label>: v1, v2…` |
| ColumnFilters.TrimAll | src/composables/useColumnFilter.ts:25 | each piece trimmed, in order |
| ColumnFilters.ParsedValuesClean | src/composables/useColumnFilter.ts:25 | every parsed value is non-empty, has no comma and no surrounding white space |
| ColumnFilters.UrlValuesNonEmpty | src/composables/useColumnFilter.ts:22-25 | every value read from the URL is non-empty |
| ColumnFilters.AssignedParsed | src/composables/useColumnFilter.ts:26-28 | setting a configured key to non-empty values keeps every entry well formed |
| ColumnFilters.RestoredWell | src/composables/useColumnFilter.ts:21-30 | the restored filters have distinct, configured keys with non-empty lists of non-empty values |
| ColumnFilters.ParsedWell | src/composables/useColumnFilter.ts:17-33 | filters restored from a URL are well formed |
| ColumnFilters.ConfiguredStep | src/composables/useColumnFilter.ts:21 | the keys seen after one more configuration are those seen before plus its key |
| ColumnFilters.RestoredGet | src/composables/useColumnFilter.ts:21-30 | a key is restored exactly when configured with at least one parsed value, and it holds those values |
| ColumnFilters.ParsedGet | src/composables/useColumnFilter.ts:17-33 | the same for the whole configuration read from a URL |
| ColumnFilters.RestoreParam | src/composables/useColumnFilter.ts:22-29 | one configuration's values are set when at least one survives parsing, else the filters are unchanged |
| ColumnFilters.FiltersFromUrl | src/composables/useColumnFilter.ts:18-30 | the loop builds exactly the restored filters of the specification |
| ColumnFilters.ColumnFilter.constructor | src/composables/useColumnFilter.ts:10-12 | starts with no active filters |
| ColumnFilters.ColumnFilter.SetFilter | src/composables/useColumnFilter.ts:98-105 | an empty list deletes the key, any other sets it; keys stay distinct |
| ColumnFilters.ColumnFilter.RemoveFilter | src/composables/useColumnFilter.ts:110-113 | deletes only the key |
| ColumnFilters.ColumnFilter.ClearFilters | src/composables/useColumnFilter.ts:118-121 | empties the active filters |
| ColumnFilters.ColumnFilter.GetActiveFilterCount | src/composables/useColumnFilter.ts:126-128 | the number of active keys |
| ColumnFilters.ColumnFilter.GetActiveFilterLabels | src/composables/useColumnFilter.ts:134-144 | one chip per active key in entry order, carrying its key and values, with text `<label>: v1, v2…` where the label is the configured one or the key |
| ColumnFilters.ColumnFilter.BuildODataFilter | src/composables/useColumnFilter.ts:59-86 | the clauses of the active filters, in entry order, joined with ' and '; the clause shapes are those of SingleValueClause, MultiValueClause and ClauseWhen |
| ColumnFilters.ColumnFilter.SyncFromUrl | src/composables/useColumnFilter.ts:17-33 | replaces the active filters by those restored from the URL |
| AccountStores.SubsequenceLength | src/stores/useAccountStore.ts:243 | a filtered list is no longer than the list |
| AccountStores.FirstIndex | src/stores/useAccountStore.ts:204 | the index of the first account with the id, none exactly when no account has it |
| AccountStores.FindAccount | src/stores/useAccountStore.ts:256-258 | the first account with the id, none exactly when no account has it |
| AccountStores.WithoutAccount | src/stores/useAccountStore.ts:243 | keeps, in order, every account without the id and each exactly as often as before; none with the id remains |
| AccountStores.ActiveOnly | src/stores/useAccountStore.ts:32-34 | keeps, in order, exactly the Active accounts with their multiplicities |
| AccountStores.PageQuery | src/stores/useAccountStore.ts:51-58 | the page fetch asks for the page size, orders by formattedName asc and passes the filter |
| AccountStores.PageOffset | src/stores/useAccountStore.ts:51 | the skip is (page-1)·size, dropped exactly on the first page |
| AccountStores.OffsetZero | src/stores/useAccountStore.ts:51 | the offset is zero exactly on the first page |
| AccountStores.ActiveWithinCount | src/stores/useAccountStore.ts:32-36 | there are no more active accounts than accounts |
| AccountStores.FindAfterAppend | src/stores/useAccountStore.ts:166 | after an append, a lookup finds the earlier match, else the appended account when its id matches |
| AccountStores.FindAfterDelete | src/stores/useAccountStore.ts:243 | after a delete the id is not found and every other lookup is unchanged |
| AccountStores.FindAfterReplace | src/stores/useAccountStore.ts:204-207 | after replacing the first match by an account with the same id, the lookup finds the new account at the same index |
| AccountStores.AccountStore.constructor | src/stores/useAccountStore.ts:8-9 | starts with no accounts and a zero count |
| AccountStores.AccountStore.ActiveAccounts | src/stores/useAccountStore.ts:32-34 | the loaded accounts whose status is Active, in order and with their multiplicities |
| AccountStores.AccountStore.AccountsCount | src/stores/useAccountStore.ts:36 | the number of loaded accounts, never fewer than the active ones |
| AccountStores.AccountStore.GetAccountById | src/stores/useAccountStore.ts:256-258 | the first loaded account with the display id; none exactly when no account has it |
| AccountStores.AccountStore.FetchAccounts | src/stores/useAccountStore.ts:47-67 | sends the page query; on success the list and count are the fetched ones, on failure both are unchanged |
| AccountStores.AccountStore.AddAccount | src/stores/useAccountStore.ts:161-174 | posts the create payload; on success the created account is appended, on failure the list is unchanged |
| AccountStores.AccountStore.UpdateAccount | src/stores/useAccountStore.ts:180-224 | fails with 'Account not found' before any request when no account has the id; otherwise fetches the token by the record's id and sends the update with it; on success replaces only the first match, keeping the length |
| AccountStores.AccountStore.DeleteAccount | src/stores/useAccountStore.ts:229-251 | fails with 'Account not found' without a request when no account has the id; on success removes every account with the id, keeping the order of the rest |
| Paginations.PageCount | src/composables/usePagination.ts:6-8 | the fewest pages of the given size that hold all items |
| Paginations.SliceIndex | src/composables/usePagination.ts:13 | an index within the list stays; a larger one is clipped to its length |
| Paginations.Slice | src/composables/usePagination.ts:13 | for non-negative bounds, the items between the bounds clipped to the list |
| Paginations.Offset | src/composables/usePagination.ts:11-12 | a page starts one page length before the next one begins, never before 0 |
| Paginations.PageItems | src/composables/usePagination.ts:10-14 | the items from (p-1)·k up to p·k clipped to the list, never more than k |
| Paginations.StartIndex | src/composables/usePagination.ts:24-26 | one past the page offset, so at least 1 on a real page |
| Paginations.EndIndex | src/composables/usePagination.ts:28-31 | the page's end or the list length, whichever is smaller |
| Paginations.NextPageShows | src/composables/usePagination.ts:16-18 | a page after the current one shows items exactly when the current page is not the last |
| Paginations.PageRange | src/composables/usePagination.ts:24-31 | on every existing page, 1 ≤ startIndex ≤ endIndex ≤ n and the range counts exactly the items shown |
| Paginations.MultiplyMonotone | src/composables/usePagination.ts:29 | multiplying by a page size keeps order |
| Paginations.PagesUpToPrefix | src/composables/usePagination.ts:10-14 | the first m pages together are the first m·k items |
| Paginations.PagesCoverItems | src/composables/usePagination.ts:6-14 | the pages from first to last, in order, are exactly the list |
| Paginations.Pagination.constructor | src/composables/usePagination.ts:3-4 | starts on page 1 |
| Paginations.Pagination.TotalPages | src/composables/usePagination.ts:6-8 | the fewest pages that hold all items; zero only for an empty list |
| Paginations.Pagination.PaginatedItems | src/composables/usePagination.ts:10-14 | the current page's slice of the items, at most a page of them |
| Paginations.Pagination.HasNextPage | src/composables/usePagination.ts:16-18 | from a real page, true exactly when the next page shows items |
| Paginations.Pagination.HasPrevPage | src/composables/usePagination.ts:20-22 | from a real page, true exactly when items come before the current page |
| Paginations.Pagination.NextPage | src/composables/usePagination.ts:33-37 | moves one page on only when a next page exists, keeping the page valid |
| Paginations.Pagination.PrevPage | src/composables/usePagination.ts:39-43 | moves one page back only when past the first, keeping the page valid |
| Paginations.Pagination.GoToPage | src/composables/usePagination.ts:45-49 | moves to an existing page, else stays |
| Paginations.Pagination.ResetPagination | src/composables/usePagination.ts:51-53 | goes back to page 1 |
| TableSorts.DescendingNegates | src/composables/useTableSort.ts:33-41 | the descending comparison is the negated ascending one |
| TableSorts.PrependOrdered | src/composables/useTableSort.ts:14 | a row that sorts before every row of an ordered list can go in front |
| TableSorts.BeforeHeadOrdered | src/composables/useTableSort.ts:14 | a row that sorts before the head can go in front |
| TableSorts.AfterHeadOrdered | src/composables/useTableSort.ts:14 | the head stays in front when a later row is inserted into the rest |
| TableSorts.Insert | src/composables/useTableSort.ts:14 | inserting adds the row to the multiset and keeps an ordered list ordered |
| TableSorts.InsertionSort | src/composables/useTableSort.ts:14-42 | the result is a permutation of the rows and ordered by the comparison |
| TableSorts.SortedItems | src/composables/useTableSort.ts:9-43 | without column or direction the rows unchanged; otherwise a permutation ordered by the column's key in the chosen direction |
| TableSorts.FlagOrder | src/composables/useTableSort.ts:33-37 | on a boolean column, ascending puts false before true and descending true before false |
| TableSorts.ClickedConsistent | src/composables/useTableSort.ts:45-59 | a click keeps the column set exactly when the direction is, and leaves the clicked column or nothing |
| TableSorts.Clicked | src/composables/useTableSort.ts:45-59 | a click on another column sorts by it ascending; on the current column the direction moves one step along asc, desc, none and the column clears exactly when the direction does |
| TableSorts.TableSort.constructor | src/composables/useTableSort.ts:6-7 | starts unsorted |
| TableSorts.TableSort.SortBy | src/composables/useTableSort.ts:45-59 | the rows are untouched and the state is the clicked state: the same column cycles asc, desc, none, clearing the column at none; another column sorts ascending |
| TableSorts.ThreeClicks | src/composables/useTableSort.ts:46-54 | three clicks on one column from unsorted go ascending, descending, unsorted |
| Proxy.Startup | server/index.js:22-39 | startup succeeds exactly when base URL, user name and password are all non-empty, with the Basic header of `user:password` |
| Proxy.Put | server/index.js:54-58 | the header gets the value and every other header is unchanged |
| Proxy.SpreadHeader | server/index.js:54-58 | a spread header overrides the base header of the same name |
| Proxy.FinalHeaderValues | server/index.js:50-58 | Authorization and Content-Type are set (merge-patch for PATCH, JSON otherwise) unless the caller's headers override them |
| Proxy.CrmRequest | server/index.js:46-63 | the request goes to the configured base URL followed by the endpoint, with the caller's method and body and the final headers |
| Proxy.CrmResult | server/index.js:65-73 | success exactly on an ok answer; otherwise the error is `CRM API Error: <status> - <body>` |
| Proxy.Answer | server/index.js:97-101 | success answers with the given status and data; failure with 500 and the error |
| Proxy.QueryString | server/index.js:93 | empty exactly when no parameter is forwarded, else starting with '?' |
| Proxy.Pairs | server/index.js:93 | one `name=value` text per pair, in order, made of the parameter name, `=` and the value |
| Proxy.ForwardQuery | server/index.js:84-91 | the appends produce exactly the forwarded query |
| Proxy.ListAccounts | server/index.js:79-102 | forwards the query to the accounts endpoint and answers with the CRM's data or 500 |
| Proxy.ForwardedValues | server/index.js:81-91 | each of the seven parameters is forwarded exactly when given, with its value |
| Proxy.ProxyRankedAppend | server/index.js:85-91 | appending a parameter ranked above the query keeps it in rank order |
| Proxy.ProxyAppendsRanked | server/index.js:85-91 | any combination of the conditional appends yields a rank-ordered query |
| Proxy.ForwardedOrder | server/index.js:85-91 | forwarded parameters follow $top, $skip, $orderby, $filter, $count, $select, $search |
| Proxy.ClientQueryForwarded | server/index.js:81-91 | every option the client's list query carries is forwarded with its value |
| Proxy.CreateAccount | server/index.js:125-138 | POSTs the body to the accounts endpoint; 201 with the data exactly on an ok answer, else 500 with the CRM error |
| Proxy.Quoted | server/index.js:156 | the token wrapped in one double quote on each side and otherwise unchanged |
| Proxy.UpdateAccount | server/index.js:141-172 | no request exactly when If-Match is missing or empty, then 400; otherwise a PATCH with the quoted token, 200 with the data on an ok answer, else 500 |
| Proxy.PatchHeaders | server/index.js:156-162 | a PATCH carries Authorization, merge-patch Content-Type and the quoted If-Match |
| Proxy.PlainHeaders | server/index.js:50-58 | other requests carry Authorization and JSON Content-Type |
| Proxy.DeleteAccount | server/index.js:175-186 | DELETEs the account; 204 with no content exactly on an ok answer, else 500 with the CRM error |

## Left out

- Network and HTTP plumbing: `fetch`, Express routing and its request and response objects, dotenv, static files and the health route are not modelled; responses are inputs and requests are outputs.
- `response.json()` failing on a malformed body is not modelled; every body is taken as already parsed.
- Console logging is left out everywhere.
- Real time: the backoff sleeps are recorded as the sequence of their delays, and the cache-busting timestamp of the token fetch is not modelled.
- The store's per-account update queue is left out: its point is interleaving of asynchronous updates, which this sequential model does not express. The store's update assumes the list does not change between its lookup and its replace.
- The store's loading, updating and error flags, and the error messages it records, are UI state and are left out; the thrown errors are the results.
- `fetchAccountById`, the single-account, industrial-sector, contact and employee fetches and their proxy routes are not part of this model.
- `syncToUrl` and the browser history are not modelled; the URL query is an input of `SyncFromUrl`.
- `URLSearchParams` percent-encoding is not modelled: queries are sequences of name/value pairs.
- The Basic-auth base64 encoding is a function parameter of `Proxy.Startup`.
- Proxy.UpdateAccount, Proxy.Put: HTTP header names are matched exactly, not case-insensitively.
- Strings.ToUpper: upper-cases ASCII letters only, not the whole of Unicode.
- TableSorts.SortedItems: the comparator is abstracted as an integer sort key per column and row; currency parsing, account-number parsing, `localeCompare` and NaN are not modelled, and the sort is a stable insertion sort whose stability is not proved.
- TableSorts.SortedItems: a sort column whose name is the empty string is not treated as falsy; the model sorts on it, where `sortedItems` returns the rows unsorted.
- Mapper.CreatePayload: the payload is a record of optional fields, so the order in which the create mode adds its keys (the contact list and industrialSector after the nine fixed fields) is not kept; the CRM reads the body by key.
- Proxy.Forwarded: a query key repeated in the incoming URL, which Express parses into an array and forwards comma-joined, is not modelled; each parameter holds at most one value, and the client never repeats a key.
- ColumnFilters: JavaScript places integer-like object keys first when enumerating; entries here always keep insertion order.
- ApiClient.FetchAccountsForAnalytics: requires that no batch reports more records than the given batches can hold (`CountsFit`), because the loop is otherwise unbounded.
- ApiClient.UpdateAccount, AccountStores.AccountStore.UpdateAccount: require at least four responses to be supplied; the loop never uses more.
- Paginations.Pagination: the page size is a positive whole number and pages are whole numbers; the default size of 30 and the store's default page arguments are not modelled.
- Paginations.Pagination: the item list is held fixed by the paginator's operations; changes to it from outside are not modelled.
