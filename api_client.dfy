/** The client side of the account API (src/services/api.ts): list-query
    assembly, the concurrency-token check, the lock-retry loop of the update
    and the batched analytics fetch. Every network exchange is a parameter:
    a function from the request (or the attempt number) to the response the
    server gives. */
module ApiClient {
  import opened Wrappers
  import opened Strings
  import opened Types
  import opened Mapper

  // ---------------------------------------------------------------------------
  // Responses and queries
  // ---------------------------------------------------------------------------

  /** What a `fetch` yields: an HTTP response with a parsed JSON body, or a
      rejected promise (the network error's message). */
  datatype Response<B> = Http(status: int, statusText: string, body: B) | NetworkError(message: string)

  /** `response.ok`: a 2xx status. */
  predicate IsOk(status: int)
  {
    200 <= status <= 299
  }

  /** The OData system query options the client and the proxy send. */
  datatype Param = Top | Skip | OrderBy | Filter | Search | Count | Select
  {
    /** The option's name on the wire. */
    function Name(): string
    {
      match this
      case Top => "$top"
      case Skip => "$skip"
      case OrderBy => "$orderby"
      case Filter => "$filter"
      case Search => "$search"
      case Count => "$count"
      case Select => "$select"
    }
  }

  /** A query string as the ordered list of its `name=value` pairs
      (`URLSearchParams` before percent-encoding). */
  type Query = seq<(Param, string)>

  /** The value of the first pair named `key`, if any. */
  function Lookup(q: Query, key: Param): Option<string>
  {
    if |q| == 0 then None
    else if q[0].0 == key then Some(q[0].1)
    else Lookup(q[1..], key)
  }

  /** Looking up in a concatenation looks in the first part, then in the second. */
  lemma {:induction false} LookupConcat(a: Query, b: Query, key: Param)
    ensures Lookup(a + b, key) == if Lookup(a, key).Some? then Lookup(a, key) else Lookup(b, key)
    decreases |a|
  {
    if |a| == 0 {
      assert a + b == b;
    } else {
      assert (a + b)[0] == a[0];
      assert (a + b)[1..] == a[1..] + b;
      LookupConcat(a[1..], b, key);
    }
  }

  /** `data.count || 0` */
  function CountOrZero(count: Option<int>): int
  {
    if count.Some? then count.value else 0
  }

  // ---------------------------------------------------------------------------
  // List query
  // ---------------------------------------------------------------------------

  /** The optional parameters of a list fetch. */
  datatype ListParams = ListParams(
    top: Option<int>,
    skip: Option<int>,
    orderby: Option<string>,
    filter: Option<string>,
    search: Option<string>)

  /** JavaScript truthiness of an optional number: set and not zero. */
  predicate TruthyNumber(o: Option<int>)
  {
    o.Some? && o.value != 0
  }

  /** `s.replace(/"/g, '\\"')`: a backslash before every double quote. */
  function EscapeSearch(s: string): (r: string)
    ensures |r| >= |s|
    ensures forall i :: 0 <= i < |r| && r[i] == '"' ==> 0 < i && r[i - 1] == '\\'
  {
    if |s| == 0 then ""
    else if s[0] == '"' then "\\\"" + EscapeSearch(s[1..])
    else [s[0]] + EscapeSearch(s[1..])
  }

  /** Reads a backslash-quote pair back as a quote; every other character stands for itself. */
  function UnescapeSearch(s: string): string
  {
    if |s| == 0 then ""
    else if |s| >= 2 && s[0] == '\\' && s[1] == '"' then "\"" + UnescapeSearch(s[2..])
    else [s[0]] + UnescapeSearch(s[1..])
  }

  /** The escaping loses nothing: un-escaping gives the search term back. */
  lemma {:induction false} SearchEscapeRoundTrip(s: string)
    ensures UnescapeSearch(EscapeSearch(s)) == s
  {
    if |s| > 0 {
      var rest := EscapeSearch(s[1..]);
      SearchEscapeRoundTrip(s[1..]);
      if s[0] == '"' {
        assert ("\\\"" + rest)[2..] == rest;
      } else {
        var r := [s[0]] + rest;
        assert |rest| > 0 ==> rest[0] != '"';
        assert r[1..] == rest;
      }
    }
  }

  /** The `$search` value: the escaped term in double quotes. */
  function SearchValue(term: string): (r: string)
    ensures |r| >= 2 && r[0] == '"' && r[|r| - 1] == '"'
    ensures UnescapeSearch(r[1..|r| - 1]) == term
  {
    var escaped := EscapeSearch(term);
    SearchEscapeRoundTrip(term);
    var r := "\"" + escaped + "\"";
    assert r[1..|r| - 1] == escaped;
    r
  }

  /** `if (present) q.append(key, value)` */
  function AppendIf(q: Query, present: bool, key: Param, value: string): Query
  {
    if present then q + [(key, value)] else q
  }

  /** The query a list fetch sends, pair by pair in the order the client appends them. */
  function ListQuery(p: ListParams): Query
  {
    AppendIf(AppendIf(AppendIf(AppendIf(AppendIf([],
      TruthyNumber(p.top), Top, IntToString(p.top.GetOr(0))),
      TruthyNumber(p.skip), Skip, IntToString(p.skip.GetOr(0))),
      Given(p.orderby), OrderBy, p.orderby.GetOr("")),
      Given(p.filter), Filter, p.filter.GetOr("")),
      Given(p.search), Search, SearchValue(p.search.GetOr("")))
    + [(Count, "true")]
  }

  /** Assembles the list query by appending, as the client does: each option only
      when its argument is truthy, the search term escaped and quoted, `$count` last. */
  method BuildAccountsQuery(p: ListParams) returns (q: Query)
    ensures q == ListQuery(p)
  {
    q := [];
    if TruthyNumber(p.top) {
      q := q + [(Top, IntToString(p.top.value))];
    }
    if TruthyNumber(p.skip) {
      q := q + [(Skip, IntToString(p.skip.value))];
    }
    if Given(p.orderby) {
      q := q + [(OrderBy, p.orderby.value)];
    }
    if Given(p.filter) {
      q := q + [(Filter, p.filter.value)];
    }
    if Given(p.search) {
      var escapedSearch := EscapeSearch(p.search.value);
      q := q + [(Search, "\"" + escapedSearch + "\"")];
    }
    q := q + [(Count, "true")];
  }

  /** What a list query holds under `key`: the argument when it is truthy (numbers
      in decimal, the search term escaped and quoted), `true` for `$count`. */
  function ListValue(p: ListParams, key: Param): Option<string>
  {
    match key
    case Top => if TruthyNumber(p.top) then Some(IntToString(p.top.value)) else None
    case Skip => if TruthyNumber(p.skip) then Some(IntToString(p.skip.value)) else None
    case OrderBy => if Given(p.orderby) then p.orderby else None
    case Filter => if Given(p.filter) then p.filter else None
    case Search => if Given(p.search) then Some(SearchValue(p.search.value)) else None
    case Count => Some("true")
    case Select => None
  }

  /** A conditional append adds `key` when the query did not have it yet. */
  lemma LookupAppendIf(q: Query, present: bool, key: Param, value: string, k: Param)
    ensures Lookup(AppendIf(q, present, key, value), k) ==
      if Lookup(q, k).Some? then Lookup(q, k)
      else if present && key == k then Some(value)
      else None
  {
    if present {
      LookupConcat(q, [(key, value)], k);
      assert [(key, value)][1..] == [];
    }
  }

  /** Every option is present exactly when its argument is truthy and carries that
      argument; `$count=true` is always there and `$select` never is. */
  lemma ListQueryValues(p: ListParams, key: Param)
    ensures Lookup(ListQuery(p), key) == ListValue(p, key)
  {
    var q1 := AppendIf([], TruthyNumber(p.top), Top, IntToString(p.top.GetOr(0)));
    var q2 := AppendIf(q1, TruthyNumber(p.skip), Skip, IntToString(p.skip.GetOr(0)));
    var q3 := AppendIf(q2, Given(p.orderby), OrderBy, p.orderby.GetOr(""));
    var q4 := AppendIf(q3, Given(p.filter), Filter, p.filter.GetOr(""));
    var q5 := AppendIf(q4, Given(p.search), Search, SearchValue(p.search.GetOr("")));
    LookupAppendIf([], TruthyNumber(p.top), Top, IntToString(p.top.GetOr(0)), key);
    LookupAppendIf(q1, TruthyNumber(p.skip), Skip, IntToString(p.skip.GetOr(0)), key);
    LookupAppendIf(q2, Given(p.orderby), OrderBy, p.orderby.GetOr(""), key);
    LookupAppendIf(q3, Given(p.filter), Filter, p.filter.GetOr(""), key);
    LookupAppendIf(q4, Given(p.search), Search, SearchValue(p.search.GetOr("")), key);
    LookupAppendIf(q5, true, Count, "true", key);
  }

  /** Position of an option in the client's append order. */
  function ListRank(key: Param): nat
  {
    match key
    case Top => 0
    case Skip => 1
    case OrderBy => 2
    case Filter => 3
    case Search => 4
    case Count => 5
    case Select => 6
  }

  /** The options strictly follow the append order along `q`, all ranked below `hi`. */
  predicate Ranked(q: Query, hi: nat)
  {
    && (forall i :: 0 <= i < |q| ==> ListRank(q[i].0) < hi)
    && (forall i, j :: 0 <= i < j < |q| ==> ListRank(q[i].0) < ListRank(q[j].0))
  }

  /** Appending an option ranked above everything in `q` keeps `q` ranked. */
  lemma RankedAppend(q: Query, present: bool, key: Param, value: string)
    requires Ranked(q, ListRank(key))
    ensures Ranked(AppendIf(q, present, key, value), ListRank(key) + 1)
  {
  }

  /** Conditional appends of the five options in the client's order, then `$count`,
      give a ranked query whatever the conditions and values. */
  lemma AppendsRanked(b1: bool, v1: string, b2: bool, v2: string, b3: bool, v3: string,
                      b4: bool, v4: string, b5: bool, v5: string)
    ensures Ranked(AppendIf(AppendIf(AppendIf(AppendIf(AppendIf([], b1, Top, v1), b2, Skip, v2),
      b3, OrderBy, v3), b4, Filter, v4), b5, Search, v5) + [(Count, "true")], ListRank(Count) + 1)
  {
    var q1 := AppendIf([], b1, Top, v1);
    var q2 := AppendIf(q1, b2, Skip, v2);
    var q3 := AppendIf(q2, b3, OrderBy, v3);
    var q4 := AppendIf(q3, b4, Filter, v4);
    var q5 := AppendIf(q4, b5, Search, v5);
    RankedAppend([], b1, Top, v1);
    RankedAppend(q1, b2, Skip, v2);
    RankedAppend(q2, b3, OrderBy, v3);
    RankedAppend(q3, b4, Filter, v4);
    RankedAppend(q4, b5, Search, v5);
    RankedAppend(q5, true, Count, "true");
  }

  /** The pairs come in the order `$top, $skip, $orderby, $filter, $search, $count`,
      each option at most once, and `$count=true` closes the query. */
  lemma ListQueryOrder(p: ListParams)
    ensures |ListQuery(p)| >= 1 && ListQuery(p)[|ListQuery(p)| - 1] == (Count, "true")
    ensures forall i, j :: 0 <= i < j < |ListQuery(p)| ==> ListRank(ListQuery(p)[i].0) < ListRank(ListQuery(p)[j].0)
  {
    AppendsRanked(TruthyNumber(p.top), IntToString(p.top.GetOr(0)),
                  TruthyNumber(p.skip), IntToString(p.skip.GetOr(0)),
                  Given(p.orderby), p.orderby.GetOr(""),
                  Given(p.filter), p.filter.GetOr(""),
                  Given(p.search), SearchValue(p.search.GetOr("")));
  }

  /** One page of accounts with the server's total count. */
  datatype AccountPage = AccountPage(accounts: seq<Account>, count: int)

  /** `fetchAccounts`: the query is assembled and sent; a rejected fetch or a non-ok
      response fails, an ok response gives the mapped accounts and `count || 0`. */
  method FetchAccounts(params: ListParams, server: Query -> Response<ListResponse>)
    returns (query: Query, r: Result<AccountPage, string>)
    ensures query == ListQuery(params)
    ensures server(query).NetworkError? ==> r == Failure(server(query).message)
    ensures server(query).Http? && !IsOk(server(query).status) ==>
      r == Failure("Failed to fetch accounts: " + server(query).statusText)
    ensures server(query).Http? && IsOk(server(query).status) ==>
      && r.Success?
      && r.value.accounts == MapListResponse(server(query).body)
      && r.value.count == CountOrZero(server(query).body.count)
  {
    query := BuildAccountsQuery(params);
    var response := server(query);
    if response.NetworkError? {
      return query, Failure(response.message);
    }
    if !IsOk(response.status) {
      return query, Failure("Failed to fetch accounts: " + response.statusText);
    }
    var data := response.body;
    r := Success(AccountPage(MapListResponse(data), CountOrZero(data.count)));
  }

  // ---------------------------------------------------------------------------
  // Concurrency token
  // ---------------------------------------------------------------------------

  /** An account with the token to send as `If-Match` when updating it. */
  datatype Tagged = Tagged(account: Account, etag: string)

  /** `fetchAccountByIdWithETag`: the token is the record's `updatedOn` timestamp,
      and a record without one (absent or empty) is refused. */
  function FetchAccountByIdWithETag(response: Response<SingleResponse>): (r: Result<Tagged, string>)
    ensures response.NetworkError? ==> r == Failure(response.message)
    ensures response.Http? && !IsOk(response.status) ==>
      r == Failure("Failed to fetch account: " + response.statusText)
    ensures response.Http? && IsOk(response.status) && !Given(MapSingleResponse(response.body).updatedOn) ==>
      r == Failure("No updatedOn timestamp found for If-Match header")
    ensures r.Success? <==>
      response.Http? && IsOk(response.status) && Given(MapSingleResponse(response.body).updatedOn)
    ensures r.Success? ==>
      && r.value.account == MapSingleResponse(response.body)
      && r.value.account.updatedOn == Some(r.value.etag)
      && r.value.etag != ""
  {
    match response
    case NetworkError(message) => Failure(message)
    case Http(status, statusText, data) =>
      if !IsOk(status) then Failure("Failed to fetch account: " + statusText)
      else
        var account := MapSingleResponse(data);
        if account.updatedOn.None? || account.updatedOn.value == "" then
          Failure("No updatedOn timestamp found for If-Match header")
        else Success(Tagged(account, account.updatedOn.value))
  }

  // ---------------------------------------------------------------------------
  // Create
  // ---------------------------------------------------------------------------

  /** `createAccount`: the create payload is posted; the created record comes back mapped. */
  method CreateAccount(account: AccountPatch, server: Payload -> Response<SingleResponse>)
    returns (payload: Payload, r: Result<Account, string>)
    ensures IsCreatePayload(account, payload)
    ensures server(payload).NetworkError? ==> r == Failure(server(payload).message)
    ensures server(payload).Http? && !IsOk(server(payload).status) ==>
      r == Failure("Failed to create account: " + server(payload).statusText)
    ensures server(payload).Http? && IsOk(server(payload).status) ==>
      r == Success(MapSingleResponse(server(payload).body))
  {
    payload := MapAccountToApi(account, false);
    var response := server(payload);
    if response.NetworkError? {
      return payload, Failure(response.message);
    }
    if !IsOk(response.status) {
      return payload, Failure("Failed to create account: " + response.statusText);
    }
    r := Success(MapSingleResponse(response.body));
  }

  /** `deleteAccount`: the DELETE answer is checked; only a rejected fetch or a
      non-ok status fails, and nothing is read from the body. */
  function DeleteAccount(response: Response<()>): (r: Result<(), string>)
    ensures r.Success? <==> response.Http? && IsOk(response.status)
    ensures response.NetworkError? ==> r == Failure(response.message)
    ensures response.Http? && !IsOk(response.status) ==>
      r == Failure("Failed to delete account: " + response.statusText)
  {
    match response
    case NetworkError(message) => Failure(message)
    case Http(status, statusText, _) =>
      if IsOk(status) then Success(()) else Failure("Failed to delete account: " + statusText)
  }

  // ---------------------------------------------------------------------------
  // Update with lock retry
  // ---------------------------------------------------------------------------

  const MaxRetries: nat := 3
  /** The prefix of the error a refused PATCH throws. */
  const UpdateFailure: string := "Failed to update account: "
  /** The error thrown when the account is still locked after the last retry. */
  const LockedMessage: string := "Account is locked by another process." + " Please try again in a moment."

  function Pow2(n: nat): (r: nat)
    ensures r >= 1
  {
    if n == 0 then 1 else 2 * Pow2(n - 1)
  }

  /** The wait before retry number `retryCount + 1`: 500 ms, 1 s, 2 s. */
  function Backoff(retryCount: nat): nat
  {
    Pow2(retryCount) * 500
  }

  /** What one PATCH attempt leads to; `B` is the response body. */
  datatype Step<B> =
    | Done(body: B)              // an ok response: its body is the updated record
    | Wait(delay: nat)           // 423 Locked with retries left: sleep, then retry
    | Again                      // an error mentioning "locked" was caught: retry at once
    | Fail(message: string)      // the error is thrown to the caller

  /** Whether the `catch` retries an error: retries are left and its message
      mentions "locked". */
  predicate Retried(message: string, retryCount: nat)
  {
    retryCount < MaxRetries && Contains(message, "locked")
  }

  /** One turn of the loop body, try and catch together. The `try` throws the network
      error, the 423 with no retries left, or the error for any other non-ok response;
      the `catch` rethrows it unless it is `Retried`. The 423 with no retries left is
      rethrown because no retries are left, whatever its message says. */
  function AttemptStep<B>(response: Response<B>, retryCount: nat): (s: Step<B>)
    ensures (s.Wait? || s.Again?) ==> retryCount < MaxRetries
    ensures s.Wait? <==> response.Http? && response.status == 423 && retryCount < MaxRetries
    ensures s.Wait? ==> s.delay == Backoff(retryCount)
    ensures s.Done? <==> response.Http? && response.status != 423 && IsOk(response.status)
    ensures s.Done? ==> s.body == response.body
    ensures s.Again? <==> (
      && retryCount < MaxRetries
      && ((response.NetworkError? && Contains(response.message, "locked")) ||
          (response.Http? && response.status != 423 && !IsOk(response.status) &&
           Contains(UpdateFailure + response.statusText, "locked"))))
    ensures s.Fail? && response.NetworkError? ==> s.message == response.message
    ensures s.Fail? && response.Http? && response.status == 423 ==> s.message == LockedMessage
    ensures s.Fail? && response.Http? && response.status != 423 ==>
      s.message == UpdateFailure + response.statusText
  {
    match response
    case NetworkError(message) =>
      if Retried(message, retryCount) then Again else Fail(message)
    case Http(status, statusText, body) =>
      if status == 423 then
        if retryCount < MaxRetries then Wait(Backoff(retryCount)) else Fail(LockedMessage)
      else if !IsOk(status) then
        if Retried(UpdateFailure + statusText, retryCount) then Again else Fail(UpdateFailure + statusText)
      else Done(body)
  }

  /** The outcome of the loop: the body of the accepted response or the error thrown,
      the waits it slept and how many PATCHes it sent. */
  datatype Outcome<B> = Outcome(result: Result<B, string>, delays: seq<nat>, attempts: nat)

  /** `rest`, preceded by `attempts` attempts that slept `delays`. */
  function After<B>(delays: seq<nat>, attempts: nat, rest: Outcome<B>): (r: Outcome<B>)
    ensures r.result == rest.result
  {
    Outcome(rest.result, delays + rest.delays, attempts + rest.attempts)
  }

  lemma AfterAfter<B>(d1: seq<nat>, n1: nat, d2: seq<nat>, n2: nat, rest: Outcome<B>)
    ensures After(d1, n1, After(d2, n2, rest)) == After(d1 + d2, n1 + n2, rest)
  {
    assert d1 + (d2 + rest.delays) == (d1 + d2) + rest.delays;
  }

  /** The loop from `retryCount` on, attempt `k` being answered by `responses[k]`. */
  function Retry<B>(responses: seq<Response<B>>, retryCount: nat): Outcome<B>
    requires retryCount <= MaxRetries < |responses|
    decreases MaxRetries - retryCount
  {
    match AttemptStep(responses[retryCount], retryCount)
    case Done(body) => Outcome(Success(body), [], 1)
    case Fail(message) => Outcome(Failure(message), [], 1)
    case Wait(delay) => After([delay], 1, Retry(responses, retryCount + 1))
    case Again => After([], 1, Retry(responses, retryCount + 1))
  }

  /** The waits a step sleeps before the next attempt. */
  function Slept<B>(s: Step<B>): seq<nat>
  {
    if s.Wait? then [s.delay] else []
  }

  /** A step that retries moves the loop to the next attempt. */
  lemma RetryGoesOn<B>(responses: seq<Response<B>>, k: nat, delays: seq<nat>)
    requires k <= MaxRetries < |responses|
    requires AttemptStep(responses[k], k).Wait? || AttemptStep(responses[k], k).Again?
    requires Retry(responses, 0) == After(delays, k, Retry(responses, k))
    ensures k + 1 <= MaxRetries
    ensures Retry(responses, 0) ==
      After(delays + Slept(AttemptStep(responses[k], k)), k + 1, Retry(responses, k + 1))
  {
    var s := AttemptStep(responses[k], k);
    AfterAfter(delays, k, Slept(s), 1, Retry(responses, k + 1));
  }

  /** A step that finishes ends the loop with its body or its error. */
  lemma RetryEnds<B>(responses: seq<Response<B>>, k: nat, delays: seq<nat>)
    requires k <= MaxRetries < |responses|
    requires AttemptStep(responses[k], k).Done? || AttemptStep(responses[k], k).Fail?
    requires Retry(responses, 0) == After(delays, k, Retry(responses, k))
    ensures AttemptStep(responses[k], k).Done? ==>
      Retry(responses, 0) == Outcome(Success(AttemptStep(responses[k], k).body), delays, k + 1)
    ensures AttemptStep(responses[k], k).Fail? ==>
      Retry(responses, 0) == Outcome(Failure(AttemptStep(responses[k], k).message), delays, k + 1)
  {
    assert delays + [] == delays;
  }

  /** One PATCH request: the path id, the `If-Match` token and the body. */
  datatype PatchRequest = PatchRequest(id: string, ifMatch: string, body: Payload)

  /** The retry loop of `updateAccount`: `request` is sent up to four times; 423 is
      retried after a growing wait, any other failure is thrown unless its message
      mentions "locked" and retries are left. Attempt `k` is answered by `responses[k]`. */
  method SendWithRetry<Q, B>(request: Q, responses: seq<Response<B>>)
    returns (r: Result<B, string>, delays: seq<nat>, requests: seq<Q>)
    requires MaxRetries < |responses|
    ensures Retry(responses, 0) == Outcome(r, delays, |requests|)
    ensures forall i :: 0 <= i < |requests| ==> requests[i] == request
  {
    var retryCount: nat := 0;
    delays := [];
    requests := [];
    assert After([], 0, Retry(responses, 0)) == Retry(responses, 0) by {
      assert [] + Retry(responses, 0).delays == Retry(responses, 0).delays;
    }
    while retryCount <= MaxRetries
      invariant retryCount <= MaxRetries && |requests| == retryCount
      invariant forall i :: 0 <= i < |requests| ==> requests[i] == request
      invariant Retry(responses, 0) == After(delays, retryCount, Retry(responses, retryCount))
      decreases MaxRetries - retryCount
    {
      requests := requests + [request];
      var response := responses[retryCount];
      var step := AttemptStep(response, retryCount);
      if step.Done? || step.Fail? {
        // the record is returned, or the error is thrown to the caller
        RetryEnds(responses, retryCount, delays);
        r := if step.Done? then Success(step.body) else Failure(step.message);
        return;
      }
      // 423 with retries left (sleep first), or a caught "locked" error
      RetryGoesOn(responses, retryCount, delays);
      delays := delays + Slept(step);
      retryCount := retryCount + 1;
    }
    assert false;
  }

  /** The accepted body read as an account; an error passes through. */
  function MapUpdated(result: Result<SingleResponse, string>): (r: Result<Account, string>)
    ensures r.Success? <==> result.Success?
    ensures r.Success? ==> r.value == MapSingleResponse(result.value)
    ensures r.Failure? ==> r.error == result.error
  {
    match result
    case Success(data) => Success(MapSingleResponse(data))
    case Failure(message) => Failure(message)
  }

  /** `updateAccount`: the update payload is built once and sent, with the same
      `If-Match` token every time, through the retry loop; the accepted record is
      read back with the read mapper. */
  method UpdateAccount(id: string, account: AccountPatch, ifMatch: string,
                       responses: seq<Response<SingleResponse>>)
    returns (r: Result<Account, string>, delays: seq<nat>, requests: seq<PatchRequest>, apiAccount: Payload)
    requires MaxRetries < |responses|
    ensures r == MapUpdated(Retry(responses, 0).result)
    ensures delays == Retry(responses, 0).delays && |requests| == Retry(responses, 0).attempts
    ensures IsUpdatePayload(account, apiAccount)
    ensures forall i :: 0 <= i < |requests| ==> requests[i] == PatchRequest(id, ifMatch, apiAccount)
  {
    apiAccount := MapAccountToApi(account, true);
    var data;
    data, delays, requests := SendWithRetry(PatchRequest(id, ifMatch, apiAccount), responses);
    r := MapUpdated(data);
  }

  /** At most four PATCH requests are sent, whatever the server answers. */
  lemma {:induction false} AtMostFourAttempts<B>(responses: seq<Response<B>>, retryCount: nat)
    requires retryCount <= MaxRetries < |responses|
    ensures 1 <= Retry(responses, retryCount).attempts <= MaxRetries + 1 - retryCount
    decreases MaxRetries - retryCount
  {
    var s := AttemptStep(responses[retryCount], retryCount);
    if s.Wait? || s.Again? {
      AtMostFourAttempts(responses, retryCount + 1);
    }
  }

  /** The waits strictly grow, each at least the backoff of the attempt the run
      starts from and at most 2000 ms. */
  predicate Growing(delays: seq<nat>, lo: nat)
  {
    && (forall i :: 0 <= i < |delays| ==> lo <= delays[i] <= Backoff(MaxRetries - 1))
    && (forall i, j :: 0 <= i < j < |delays| ==> delays[i] < delays[j])
  }

  /** Each backoff doubles the one before, and with retries left it is at most 2000 ms. */
  lemma BackoffFacts(k: nat)
    ensures Backoff(k + 1) == 2 * Backoff(k)
    ensures k < MaxRetries ==> Backoff(k) <= Backoff(MaxRetries - 1) == 2000
  {
    if k < MaxRetries {
      assert Backoff(0) == 500 && Backoff(1) == 1000 && Backoff(2) == 2000;
    }
  }

  /** A wait below every later one, within the bounds, keeps the waits growing. */
  lemma GrowingPrepend(d: nat, rest: seq<nat>, lo: nat, hi: nat)
    requires Growing(rest, hi) && lo <= d < hi && d <= Backoff(MaxRetries - 1)
    ensures Growing([d] + rest, lo)
  {
  }

  /** Every wait is between 500 and 2000 ms and each is longer than the one before. */
  lemma {:induction false} DelaysGrow<B>(responses: seq<Response<B>>, retryCount: nat)
    requires retryCount <= MaxRetries < |responses|
    ensures Growing(Retry(responses, retryCount).delays, Backoff(retryCount))
    ensures |Retry(responses, retryCount).delays| <= MaxRetries - retryCount
    decreases MaxRetries - retryCount
  {
    var s := AttemptStep(responses[retryCount], retryCount);
    if s.Wait? || s.Again? {
      DelaysGrow(responses, retryCount + 1);
      BackoffFacts(retryCount);
      var rest := Retry(responses, retryCount + 1).delays;
      if s.Wait? {
        GrowingPrepend(Backoff(retryCount), rest, Backoff(retryCount), Backoff(retryCount + 1));
      }
    }
  }

  /** The exhausted-retries message mentions "locked", but no retries are left then. */
  lemma LockedMessageMentionsLocked()
    ensures Contains(LockedMessage, "locked")
  {
    var tail := LockedMessage[11..];
    assert LockedMessage[11] == 'l' && LockedMessage[12] == 'o' && LockedMessage[13] == 'c';
    assert LockedMessage[14] == 'k' && LockedMessage[15] == 'e' && LockedMessage[16] == 'd';
    assert tail[..6] == "locked";
    assert IsPrefix("locked", tail);
    ContainsSuffix(LockedMessage, 11, "locked");
  }

  /** A substring of a suffix is a substring of the whole. */
  lemma {:induction false} ContainsSuffix(s: string, k: nat, sub: string)
    requires k <= |s|
    requires Contains(s[k..], sub)
    ensures Contains(s, sub)
    decreases k
  {
    if k > 0 {
      assert s[1..][k - 1..] == s[k..];
      ContainsSuffix(s[1..], k - 1, sub);
    }
  }

  /** A server that always answers 423: four attempts, waits of 500, 1000 and
      2000 ms, then the "locked by another process" error. */
  lemma AlwaysLocked<B>(responses: seq<Response<B>>)
    requires MaxRetries < |responses|
    requires forall k :: 0 <= k < |responses| ==> responses[k].Http? && responses[k].status == 423
    ensures Retry(responses, 0) == Outcome(Failure(LockedMessage), [500, 1000, 2000], 4)
  {
    assert Retry(responses, 3) == Outcome(Failure(LockedMessage), [], 1);
    assert Backoff(2) == 2000 && Backoff(1) == 1000 && Backoff(0) == 500;
  }

  /** Locked twice, then accepted: three attempts, waits of 500 and 1000 ms, the
      returned record. */
  lemma LockedTwiceThenAccepted<B>(responses: seq<Response<B>>)
    requires MaxRetries < |responses|
    requires responses[0].Http? && responses[0].status == 423
    requires responses[1].Http? && responses[1].status == 423
    requires responses[2].Http? && IsOk(responses[2].status)
    ensures Retry(responses, 0) == Outcome(Success(responses[2].body), [500, 1000], 3)
  {
    assert Backoff(1) == 1000 && Backoff(0) == 500;
  }

  /** A failure that is neither 423 nor mentions "locked" is thrown on the attempt
      that receives it, whichever attempt that is, with no wait. */
  lemma NonLockFailureIsNotRetried<B>(responses: seq<Response<B>>, k: nat)
    requires k <= MaxRetries < |responses|
    requires responses[k].Http? && responses[k].status != 423 && !IsOk(responses[k].status)
    requires !Contains(UpdateFailure + responses[k].statusText, "locked")
    ensures Retry(responses, k) == Outcome(Failure(UpdateFailure + responses[k].statusText), [], 1)
  {
  }

  /** A network error whose message does not mention "locked" is thrown on the
      attempt that receives it, whichever attempt that is. */
  lemma NetworkErrorIsNotRetried<B>(responses: seq<Response<B>>, k: nat)
    requires k <= MaxRetries < |responses|
    requires responses[k].NetworkError? && !Contains(responses[k].message, "locked")
    ensures Retry(responses, k) == Outcome(Failure(responses[k].message), [], 1)
  {
  }

  /** A non-ok response whose status text mentions "locked" is retried at once,
      without a wait: the error thrown in the `try` is caught by its own `catch`. */
  lemma LockedStatusTextIsRetriedWithoutWait<B>(responses: seq<Response<B>>)
    requires MaxRetries < |responses|
    requires responses[0].Http? && responses[0].status != 423 && !IsOk(responses[0].status)
    requires Contains(responses[0].statusText, "locked")
    ensures Retry(responses, 0).attempts >= 2
    ensures Retry(responses, 0).delays == Retry(responses, 1).delays
  {
    var message := UpdateFailure + responses[0].statusText;
    assert message[|UpdateFailure|..] == responses[0].statusText;
    ContainsSuffix(message, |UpdateFailure|, "locked");
    AtMostFourAttempts(responses, 1);
  }

  // ---------------------------------------------------------------------------
  // Analytics paging
  // ---------------------------------------------------------------------------

  /** The server's page limit. */
  const BatchSize: nat := 999

  /** The three fields the charts need. */
  datatype AnalyticsRow = AnalyticsRow(industry: string, priority: string, country: string)

  /** `v || 'Unknown'` */
  function OrUnknown(o: Option<string>): (r: string)
    ensures Given(o) ==> r == o.value
    ensures !Given(o) ==> r == "Unknown"
  {
    if o.Some? && o.value != "" then o.value else "Unknown"
  }

  function AnalyticsRowOf(w: ApiAccount): AnalyticsRow
  {
    AnalyticsRow(OrUnknown(w.industrialSectorDescription),
                 OrUnknown(w.customerABCClassificationDescription),
                 OrUnknown(Country(w)))
  }

  function AnalyticsRows(ws: seq<ApiAccount>): (r: seq<AnalyticsRow>)
    ensures |r| == |ws|
    ensures forall i :: 0 <= i < |ws| ==> r[i] == AnalyticsRowOf(ws[i])
  {
    if |ws| == 0 then [] else [AnalyticsRowOf(ws[0])] + AnalyticsRows(ws[1..])
  }

  /** The prefix of the error a refused batch throws. */
  const AnalyticsFailure: string := "Failed to fetch analytics data: "

  /** The fields the charts need, as the `$select` value. */
  const ChartFields: string := "customerABCClassificationDescription,industrialSectorDescription,defaultAddress"

  /** The batch size in decimal, the `$top` of every batch. */
  const BatchSizeText: string := IntToString(BatchSize)

  /** The query of the batch starting at `skip`. */
  function AnalyticsQuery(skip: nat): Query
  {
    [(Select, ChartFields),
     (Top, BatchSizeText),
     (Skip, IntToString(skip)),
     (Count, "true")]
  }

  /** The queries of the first `n` batches. */
  function BatchQueries(n: nat): (r: seq<Query>)
    ensures |r| == n
    ensures forall i :: 0 <= i < n ==> r[i] == AnalyticsQuery(BatchSize * i)
  {
    if n == 0 then [] else BatchQueries(n - 1) + [AnalyticsQuery(BatchSize * (n - 1))]
  }

  /** What the loop gathered: the rows, or the first error, and the number of batches requested. */
  datatype Gathered = Gathered(result: Result<seq<AnalyticsRow>, string>, batches: nat)

  /** `rest`, preceded by `batches` accepted batches that gave `rows`. */
  function Before(rows: seq<AnalyticsRow>, batches: nat, rest: Gathered): (r: Gathered)
    ensures r.batches == batches + rest.batches
    ensures r.result.Success? <==> rest.result.Success?
  {
    Gathered(if rest.result.Success? then Success(rows + rest.result.value) else rest.result,
             batches + rest.batches)
  }

  lemma BeforeBefore(rows1: seq<AnalyticsRow>, n1: nat, rows2: seq<AnalyticsRow>, n2: nat, rest: Gathered)
    ensures Before(rows1, n1, Before(rows2, n2, rest)) == Before(rows1 + rows2, n1 + n2, rest)
  {
    if rest.result.Success? {
      assert rows1 + (rows2 + rest.result.value) == (rows1 + rows2) + rest.result.value;
    }
  }

  /** No page reports more records than `|pages|` batches can hold, so the loop
      never asks past the last page. */
  predicate CountsFit(pages: seq<Response<ListResponse>>)
  {
    forall i :: 0 <= i < |pages| && pages[i].Http? ==> CountOrZero(pages[i].body.count) <= BatchSize * |pages|
  }

  /** The paging loop from batch `i` on, batch `k` being answered by `pages[k]`. */
  function Analytics(pages: seq<Response<ListResponse>>, i: nat): Gathered
    requires CountsFit(pages)
    requires i < |pages|
    decreases |pages| - i
  {
    match pages[i]
    case NetworkError(message) => Gathered(Failure(message), 1)
    case Http(status, statusText, data) =>
      if !IsOk(status) then Gathered(Failure(AnalyticsFailure + statusText), 1)
      else if MoreAfter(i, data) then
        Before(AnalyticsRows(data.value), 1, Analytics(pages, i + 1))
      else Gathered(Success(AnalyticsRows(data.value)), 1)
  }

  /** Whether the loop asks for another batch after batch `k` reported `data`. */
  predicate MoreAfter(k: nat, data: ListResponse)
  {
    BatchSize * k + BatchSize < CountOrZero(data.count)
  }

  /** An accepted batch that reports more records moves the loop to the next batch. */
  lemma AnalyticsGoesOn(pages: seq<Response<ListResponse>>, k: nat, rows: seq<AnalyticsRow>)
    requires CountsFit(pages) && k < |pages|
    requires pages[k].Http? && IsOk(pages[k].status) && MoreAfter(k, pages[k].body)
    requires Analytics(pages, 0) == Before(rows, k, Analytics(pages, k))
    ensures k + 1 < |pages|
    ensures Analytics(pages, 0) ==
      Before(rows + AnalyticsRows(pages[k].body.value), k + 1, Analytics(pages, k + 1))
  {
    BeforeBefore(rows, k, AnalyticsRows(pages[k].body.value), 1, Analytics(pages, k + 1));
  }

  /** Any other batch ends the loop: with its error, or with all rows gathered. */
  lemma AnalyticsEnds(pages: seq<Response<ListResponse>>, k: nat, rows: seq<AnalyticsRow>)
    requires CountsFit(pages) && k < |pages|
    requires !(pages[k].Http? && IsOk(pages[k].status) && MoreAfter(k, pages[k].body))
    requires Analytics(pages, 0) == Before(rows, k, Analytics(pages, k))
    ensures pages[k].NetworkError? ==> Analytics(pages, 0) == Gathered(Failure(pages[k].message), k + 1)
    ensures pages[k].Http? && !IsOk(pages[k].status) ==>
      Analytics(pages, 0) == Gathered(Failure(AnalyticsFailure + pages[k].statusText), k + 1)
    ensures pages[k].Http? && IsOk(pages[k].status) ==>
      Analytics(pages, 0) == Gathered(Success(rows + AnalyticsRows(pages[k].body.value)), k + 1)
  {
  }

  /** `fetchAccountsForAnalytics`: batches of 999 are requested at skip 0, 999, 1998, …
      while the skip stays below the count the last batch reported; the rows of
      all batches are concatenated in order. Batch `k` is answered by `pages[k]`. */
  method FetchAccountsForAnalytics(pages: seq<Response<ListResponse>>)
    returns (r: Result<seq<AnalyticsRow>, string>, requests: seq<Query>)
    requires |pages| >= 1 && CountsFit(pages)
    ensures Analytics(pages, 0) == Gathered(r, |requests|)
    ensures requests == BatchQueries(|requests|)
  {
    var allData: seq<AnalyticsRow> := [];
    var skip: nat := 0;
    var hasMore := true;
    requests := [];
    assert Before([], 0, Analytics(pages, 0)) == Analytics(pages, 0) by {
      if Analytics(pages, 0).result.Success? {
        assert [] + Analytics(pages, 0).result.value == Analytics(pages, 0).result.value;
      }
    }
    while hasMore
      invariant skip == BatchSize * |requests|
      invariant requests == BatchQueries(|requests|)
      invariant hasMore ==> |requests| < |pages|
      invariant hasMore ==> Analytics(pages, 0) == Before(allData, |requests|, Analytics(pages, |requests|))
      invariant !hasMore ==> Analytics(pages, 0) == Gathered(Success(allData), |requests|)
      decreases |pages| - |requests|, hasMore
    {
      var batch := |requests|;
      requests := requests + [AnalyticsQuery(skip)];
      var response := pages[batch];
      if response.Http? && IsOk(response.status) && MoreAfter(batch, response.body) {
        AnalyticsGoesOn(pages, batch, allData);
      } else {
        AnalyticsEnds(pages, batch, allData);
      }
      if response.NetworkError? {
        return Failure(response.message), requests;
      }
      if !IsOk(response.status) {
        return Failure(AnalyticsFailure + response.statusText), requests;
      }
      var data := response.body;
      var batchData := AnalyticsRows(data.value);
      allData := allData + batchData;
      var totalCount := CountOrZero(data.count);
      skip := skip + BatchSize;
      hasMore := skip < totalCount;
    }
    r := Success(allData);
  }

  /** With every batch accepted and reporting the same count `c`, the loop requests
      `max(1, ceil(c / 999))` batches. */
  lemma BatchCount(pages: seq<Response<ListResponse>>, c: int)
    requires |pages| >= 1 && CountsFit(pages)
    requires forall k :: 0 <= k < |pages| ==>
      pages[k].Http? && IsOk(pages[k].status) && CountOrZero(pages[k].body.count) == c
    ensures Analytics(pages, 0).batches == if c <= 0 then 1 else (c + BatchSize - 1) / BatchSize
  {
    var n := if c <= 0 then 1 else (c + BatchSize - 1) / BatchSize;
    BatchesFrom(pages, c, 0, n);
  }

  lemma {:induction false} BatchesFrom(pages: seq<Response<ListResponse>>, c: int, j: nat, n: nat)
    requires CountsFit(pages)
    requires forall k :: 0 <= k < |pages| ==>
      pages[k].Http? && IsOk(pages[k].status) && CountOrZero(pages[k].body.count) == c
    requires n == if c <= 0 then 1 else (c + BatchSize - 1) / BatchSize
    requires j < n && j < |pages|
    ensures Analytics(pages, j).batches == n - j
    decreases n - j
  {
    assert CountOrZero(pages[j].body.count) == c;
    if BatchSize * j + BatchSize < c {
      DivBounds(c + BatchSize - 1, j + 2);
      BatchesFrom(pages, c, j + 1, n);
    } else if c > 0 {
      DivBounds(c + BatchSize - 1, j + 2);
    }
  }

  /** Dividing by the batch size compares like multiplying by it. */
  lemma DivBounds(x: int, k: int)
    ensures x >= BatchSize * k ==> x / BatchSize >= k
    ensures x < BatchSize * k ==> x / BatchSize < k
  {
  }
}
