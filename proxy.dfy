// The proxy server between the browser and the CRM: it checks its configuration
// at startup, forwards the account requests with the CRM's credentials and
// content types, and turns the CRM's answers into replies.

module Proxy {
  import opened Wrappers
  import opened Strings
  import opened ApiClient

  // ---------------------------------------------------------------------------
  // Configuration
  // ---------------------------------------------------------------------------

  /** The three settings read from the environment. */
  datatype Env = Env(baseUrl: Option<string>, username: Option<string>, password: Option<string>)

  /** A configuration the server accepted, with its Basic authorization value. */
  datatype Config = Config(baseUrl: string, username: string, authHeader: string)

  /** The startup check: the server refuses to start unless all three settings are
      present and non-empty; `base64` is the encoder the authorization value uses. */
  function Startup(env: Env, base64: string -> string): (r: Option<Config>)
    ensures r.Some? <==> Given(env.baseUrl) && Given(env.username) && Given(env.password)
    ensures r.Some? ==>
      && r.value.baseUrl == env.baseUrl.value
      && r.value.authHeader == "Basic " + base64(env.username.value + ":" + env.password.value)
  {
    if !Given(env.baseUrl) || !Given(env.username) || !Given(env.password) then None
    else Some(Config(env.baseUrl.value, env.username.value,
                     "Basic " + base64(env.username.value + ":" + env.password.value)))
  }

  // ---------------------------------------------------------------------------
  // Headers
  // ---------------------------------------------------------------------------

  /** A headers object as its ordered `name: value` entries. */
  type Headers = seq<(string, string)>

  /** The value of the first entry named `name`, if any. */
  function Header(h: Headers, name: string): Option<string>
  {
    if |h| == 0 then None
    else if h[0].0 == name then Some(h[0].1)
    else Header(h[1..], name)
  }

  /** Setting a property: an existing entry gets the new value in its place, a new
      one goes at the end. */
  function Put(h: Headers, name: string, value: string): (r: Headers)
    ensures Header(r, name) == Some(value)
    ensures forall n :: n != name ==> Header(r, n) == Header(h, n)
  {
    if |h| == 0 then [(name, value)]
    else if h[0].0 == name then [(name, value)] + h[1..]
    else [h[0]] + Put(h[1..], name, value)
  }

  /** `{...base, ...extra}`: the entries of `extra` set one by one over `base`. */
  function Spread(base: Headers, extra: Headers): Headers
    decreases |extra|
  {
    if |extra| == 0 then base else Spread(Put(base, extra[0].0, extra[0].1), extra[1..])
  }

  /** The value the last entry named `name` gives, if any. */
  function LastHeader(h: Headers, name: string): Option<string>
  {
    if |h| == 0 then None
    else
      var later := LastHeader(h[1..], name);
      if later.Some? then later
      else if h[0].0 == name then Some(h[0].1)
      else None
  }

  /** After a spread, a header has the value `extra` gives it last, and the value
      from `base` only when `extra` does not name it. */
  lemma {:induction false} SpreadHeader(base: Headers, extra: Headers, name: string)
    ensures Header(Spread(base, extra), name) ==
      if LastHeader(extra, name).Some? then LastHeader(extra, name) else Header(base, name)
    decreases |extra|
  {
    if |extra| != 0 {
      SpreadHeader(Put(base, extra[0].0, extra[0].1), extra[1..], name);
    }
  }

  /** The body type the CRM is told to expect: a merge patch for PATCH, JSON otherwise. */
  function ContentType(verb: Option<string>): string
  {
    if verb == Some("PATCH") then "application/merge-patch+json" else "application/json"
  }

  /** The headers `crmRequest` sends: the authorization and the content type, with
      the caller's headers set over them. */
  function FinalHeaders(config: Config, verb: Option<string>, headers: Headers): Headers
  {
    Spread([("Authorization", config.authHeader), ("Content-Type", ContentType(verb))], headers)
  }

  /** The authorization and content type are always sent and come from the
      configuration and the method, unless the caller's headers set them. */
  lemma FinalHeaderValues(config: Config, verb: Option<string>, headers: Headers)
    ensures Header(FinalHeaders(config, verb, headers), "Authorization") ==
      if LastHeader(headers, "Authorization").Some? then LastHeader(headers, "Authorization")
      else Some(config.authHeader)
    ensures Header(FinalHeaders(config, verb, headers), "Content-Type") ==
      if LastHeader(headers, "Content-Type").Some? then LastHeader(headers, "Content-Type")
      else Some(ContentType(verb))
  {
    SpreadHeader([("Authorization", config.authHeader), ("Content-Type", ContentType(verb))],
                 headers, "Authorization");
    SpreadHeader([("Authorization", config.authHeader), ("Content-Type", ContentType(verb))],
                 headers, "Content-Type");
  }

  // ---------------------------------------------------------------------------
  // The CRM call
  // ---------------------------------------------------------------------------

  /** A request to the CRM as it is sent. */
  datatype Outgoing = Outgoing(url: string, verb: Option<string>, headers: Headers, body: Option<string>)

  /** `crmRequest`: the CRM's address before the endpoint, the final headers. */
  function CrmRequest(config: Config, endpoint: string, verb: Option<string>, headers: Headers,
                      body: Option<string>): (r: Outgoing)
    ensures IsPrefix(config.baseUrl, r.url)
    ensures r.url == config.baseUrl + endpoint
    ensures r.verb == verb && r.body == body
    ensures r.headers == FinalHeaders(config, verb, headers)
  {
    Outgoing(config.baseUrl + endpoint, verb, FinalHeaders(config, verb, headers), body)
  }

  const CrmError: string := "CRM API Error: "

  /** What `crmRequest` gives back for the CRM's answer: the body of a 2xx answer,
      else an error naming the status and the CRM's error text. */
  function CrmResult(response: Response<string>): (r: Result<string, string>)
    ensures r.Success? <==> response.Http? && IsOk(response.status)
    ensures r.Success? ==> r.value == response.body
    ensures response.NetworkError? ==> r.error == response.message
    ensures response.Http? && !IsOk(response.status) ==>
      && IsPrefix(CrmError + IntToString(response.status) + " - ", r.error)
      && r.error[|CrmError + IntToString(response.status) + " - "|..] == response.body
  {
    match response
    case NetworkError(message) => Failure(message)
    case Http(status, _, text) =>
      if IsOk(status) then Success(text)
      else
        var head := CrmError + IntToString(status) + " - ";
        assert (head + text)[..|head|] == head;
        assert (head + text)[|head|..] == text;
        Failure(head + text)
  }

  // ---------------------------------------------------------------------------
  // Replies
  // ---------------------------------------------------------------------------

  datatype ReplyBody = Data(json: string) | ErrorBody(error: string) | NoContent

  datatype Reply = Reply(status: int, body: ReplyBody)

  /** A handler's reply: `success` with the CRM's body on success, else 500 with the
      error message. */
  function Answer(result: Result<string, string>, success: int): (r: Reply)
    ensures result.Success? ==> r == Reply(success, Data(result.value))
    ensures result.Failure? ==> r == Reply(500, ErrorBody(result.error))
  {
    match result
    case Success(data) => Reply(success, Data(data))
    case Failure(message) => Reply(500, ErrorBody(message))
  }

  const AccountsPath: string := "/sap/c4c/api/v1/account-service/accounts"

  // ---------------------------------------------------------------------------
  // GET /api/accounts
  // ---------------------------------------------------------------------------

  /** Position of an option in the proxy's forwarding order. */
  function ProxyRank(key: Param): nat
  {
    match key
    case Top => 0
    case Skip => 1
    case OrderBy => 2
    case Filter => 3
    case Count => 4
    case Select => 5
    case Search => 6
  }

  /** The seven options the list endpoint reads from the incoming query. */
  datatype Incoming = Incoming(
    top: Option<string>, skip: Option<string>, orderby: Option<string>, filter: Option<string>,
    count: Option<string>, select: Option<string>, search: Option<string>)

  /** `const { $top, ... } = req.query`: each option's value in the incoming query. */
  function Destructured(q: Query): Incoming
  {
    Incoming(Lookup(q, Top), Lookup(q, Skip), Lookup(q, OrderBy), Lookup(q, Filter),
             Lookup(q, Count), Lookup(q, Select), Lookup(q, Search))
  }

  /** The value the incoming query gives an option. */
  function Option(incoming: Incoming, key: Param): Option<string>
  {
    match key
    case Top => incoming.top
    case Skip => incoming.skip
    case OrderBy => incoming.orderby
    case Filter => incoming.filter
    case Count => incoming.count
    case Select => incoming.select
    case Search => incoming.search
  }

  /** The query the proxy forwards: each of the seven options in its fixed order,
      when the incoming query gives it a non-empty value. */
  function Forwarded(incoming: Incoming): Query
  {
    AppendIf(AppendIf(AppendIf(AppendIf(AppendIf(AppendIf(AppendIf([],
      Given(incoming.top), Top, incoming.top.GetOr("")),
      Given(incoming.skip), Skip, incoming.skip.GetOr("")),
      Given(incoming.orderby), OrderBy, incoming.orderby.GetOr("")),
      Given(incoming.filter), Filter, incoming.filter.GetOr("")),
      Given(incoming.count), Count, incoming.count.GetOr("")),
      Given(incoming.select), Select, incoming.select.GetOr("")),
      Given(incoming.search), Search, incoming.search.GetOr(""))
  }

  /** The query string put after the endpoint: nothing at all when no option is
      forwarded, else `?` and the `name=value` pairs joined by `&`. */
  function QueryString(q: Query): (r: string)
    ensures r == "" <==> |q| == 0
    ensures |q| > 0 ==> r[0] == '?'
  {
    if |q| == 0 then "" else "?" + Join(Pairs(q), "&")
  }

  /** `name=value` for each pair, in order. */
  function Pairs(q: Query): (r: seq<string>)
    ensures |r| == |q|
    ensures forall i :: 0 <= i < |q| ==> r[i] == q[i].0.Name() + "=" + q[i].1
  {
    if |q| == 0 then [] else [q[0].0.Name() + "=" + q[0].1] + Pairs(q[1..])
  }

  /** The list endpoint's query building: `params.append` for each option with a
      non-empty value, in the forwarding order. */
  method ForwardQuery(incoming: Incoming) returns (params: Query)
    ensures params == Forwarded(incoming)
  {
    params := [];
    if Given(incoming.top) {
      params := params + [(Top, incoming.top.value)];
    }
    if Given(incoming.skip) {
      params := params + [(Skip, incoming.skip.value)];
    }
    if Given(incoming.orderby) {
      params := params + [(OrderBy, incoming.orderby.value)];
    }
    if Given(incoming.filter) {
      params := params + [(Filter, incoming.filter.value)];
    }
    if Given(incoming.count) {
      params := params + [(Count, incoming.count.value)];
    }
    if Given(incoming.select) {
      params := params + [(Select, incoming.select.value)];
    }
    if Given(incoming.search) {
      params := params + [(Search, incoming.search.value)];
    }
  }

  /** `GET /api/accounts`: the options are collected and sent on to the CRM
      (`response` is its answer); its body is passed back, an error becomes 500. */
  method ListAccounts(config: Config, incoming: Incoming, response: Response<string>)
    returns (params: Query, request: Outgoing, reply: Reply)
    ensures params == Forwarded(incoming)
    ensures request == CrmRequest(config, AccountsPath + QueryString(params), None, [], None)
    ensures reply == Answer(CrmResult(response), 200)
  {
    params := ForwardQuery(incoming);
    request := CrmRequest(config, AccountsPath + QueryString(params), None, [], None);
    reply := Answer(CrmResult(response), 200);
  }

  /** An option is forwarded exactly when it came with a non-empty value, and it
      keeps that value. */
  lemma ForwardedValues(incoming: Incoming, key: Param)
    ensures Lookup(Forwarded(incoming), key) ==
      if Given(Option(incoming, key)) then Option(incoming, key) else None
  {
    var q1 := AppendIf([], Given(incoming.top), Top, incoming.top.GetOr(""));
    var q2 := AppendIf(q1, Given(incoming.skip), Skip, incoming.skip.GetOr(""));
    var q3 := AppendIf(q2, Given(incoming.orderby), OrderBy, incoming.orderby.GetOr(""));
    var q4 := AppendIf(q3, Given(incoming.filter), Filter, incoming.filter.GetOr(""));
    var q5 := AppendIf(q4, Given(incoming.count), Count, incoming.count.GetOr(""));
    var q6 := AppendIf(q5, Given(incoming.select), Select, incoming.select.GetOr(""));
    LookupAppendIf([], Given(incoming.top), Top, incoming.top.GetOr(""), key);
    LookupAppendIf(q1, Given(incoming.skip), Skip, incoming.skip.GetOr(""), key);
    LookupAppendIf(q2, Given(incoming.orderby), OrderBy, incoming.orderby.GetOr(""), key);
    LookupAppendIf(q3, Given(incoming.filter), Filter, incoming.filter.GetOr(""), key);
    LookupAppendIf(q4, Given(incoming.count), Count, incoming.count.GetOr(""), key);
    LookupAppendIf(q5, Given(incoming.select), Select, incoming.select.GetOr(""), key);
    LookupAppendIf(q6, Given(incoming.search), Search, incoming.search.GetOr(""), key);
  }

  /** The options strictly follow the forwarding order along `q`, all ranked below `hi`. */
  predicate ProxyRanked(q: Query, hi: nat)
  {
    && (forall i :: 0 <= i < |q| ==> ProxyRank(q[i].0) < hi)
    && (forall i, j :: 0 <= i < j < |q| ==> ProxyRank(q[i].0) < ProxyRank(q[j].0))
  }

  lemma ProxyRankedAppend(q: Query, present: bool, key: Param, value: string)
    requires ProxyRanked(q, ProxyRank(key))
    ensures ProxyRanked(AppendIf(q, present, key, value), ProxyRank(key) + 1)
  {
  }

  /** Conditional appends of the seven options in the forwarding order give a
      ranked query whatever the conditions and values. */
  lemma ProxyAppendsRanked(b1: bool, v1: string, b2: bool, v2: string, b3: bool, v3: string,
                           b4: bool, v4: string, b5: bool, v5: string, b6: bool, v6: string,
                           b7: bool, v7: string)
    ensures ProxyRanked(AppendIf(AppendIf(AppendIf(AppendIf(AppendIf(AppendIf(AppendIf([],
      b1, Top, v1), b2, Skip, v2), b3, OrderBy, v3), b4, Filter, v4), b5, Count, v5),
      b6, Select, v6), b7, Search, v7), ProxyRank(Search) + 1)
  {
    var q1 := AppendIf([], b1, Top, v1);
    var q2 := AppendIf(q1, b2, Skip, v2);
    var q3 := AppendIf(q2, b3, OrderBy, v3);
    var q4 := AppendIf(q3, b4, Filter, v4);
    var q5 := AppendIf(q4, b5, Count, v5);
    var q6 := AppendIf(q5, b6, Select, v6);
    ProxyRankedAppend([], b1, Top, v1);
    ProxyRankedAppend(q1, b2, Skip, v2);
    ProxyRankedAppend(q2, b3, OrderBy, v3);
    ProxyRankedAppend(q3, b4, Filter, v4);
    ProxyRankedAppend(q4, b5, Count, v5);
    ProxyRankedAppend(q5, b6, Select, v6);
    ProxyRankedAppend(q6, b7, Search, v7);
  }

  /** The forwarded options come in the order `$top, $skip, $orderby, $filter,
      $count, $select, $search`, each at most once. */
  lemma ForwardedOrder(incoming: Incoming)
    ensures forall i, j :: 0 <= i < j < |Forwarded(incoming)| ==>
      ProxyRank(Forwarded(incoming)[i].0) < ProxyRank(Forwarded(incoming)[j].0)
  {
    ProxyAppendsRanked(Given(incoming.top), incoming.top.GetOr(""),
                       Given(incoming.skip), incoming.skip.GetOr(""),
                       Given(incoming.orderby), incoming.orderby.GetOr(""),
                       Given(incoming.filter), incoming.filter.GetOr(""),
                       Given(incoming.count), incoming.count.GetOr(""),
                       Given(incoming.select), incoming.select.GetOr(""),
                       Given(incoming.search), incoming.search.GetOr(""));
  }

  /** Every option of the client's list query reaches the CRM with its value:
      the client sends only non-empty values, so the proxy drops none of them. */
  lemma ClientQueryForwarded(p: ListParams, key: Param)
    ensures Lookup(Forwarded(Destructured(ListQuery(p))), key) == ListValue(p, key)
  {
    ListQueryValues(p, key);
    ForwardedValues(Destructured(ListQuery(p)), key);
    if key == Search && Given(p.search) {
      assert |SearchValue(p.search.value)| >= 2;
    }
  }

  // ---------------------------------------------------------------------------
  // POST, PATCH and DELETE /api/accounts
  // ---------------------------------------------------------------------------

  /** `POST /api/accounts`: the body is posted to the CRM as JSON, once; the reply is
      201 with the created record when the CRM accepts it, else 500 with the error. */
  function CreateAccount(config: Config, body: string, response: Response<string>): (r: (Outgoing, Reply))
    ensures r.0.url == config.baseUrl + AccountsPath
    ensures r.0.verb == Some("POST") && r.0.body == Some(body)
    ensures r.0.headers == FinalHeaders(config, Some("POST"), [])
    ensures r.1.status == 201 <==> response.Http? && IsOk(response.status)
    ensures r.1.status == 201 ==> r.1.body == Data(response.body)
    ensures r.1.status != 201 ==> r.1 == Reply(500, ErrorBody(CrmResult(response).error))
  {
    (CrmRequest(config, AccountsPath, Some("POST"), [], Some(body)), Answer(CrmResult(response), 201))
  }

  const IfMatchRequired: string := "If-Match header is required for updates"

  /** The `If-Match` value the CRM expects: the caller's token in double quotes,
      with nothing escaped. */
  function Quoted(token: string): (r: string)
    ensures |r| == |token| + 2 && r[0] == '"' && r[|r| - 1] == '"'
    ensures r[1..|r| - 1] == token
  {
    "\"" + token + "\""
  }

  /** `PATCH /api/accounts/:id`: without an `If-Match` token the request is refused
      with 400 and the CRM is not called; otherwise the body goes to the CRM once, as
      a merge patch carrying the quoted token, and the CRM's answer is passed back
      (200), or its error (500). */
  function UpdateAccount(config: Config, id: string, ifMatch: Option<string>, body: string,
                         response: Response<string>): (r: (Option<Outgoing>, Reply))
    ensures r.0.None? <==> !Given(ifMatch)
    ensures r.0.None? ==> r.1 == Reply(400, ErrorBody(IfMatchRequired))
    ensures r.0.Some? ==>
      && r.0.value.url == config.baseUrl + AccountsPath + "/" + id
      && r.0.value.verb == Some("PATCH") && r.0.value.body == Some(body)
      && r.0.value.headers == FinalHeaders(config, Some("PATCH"), [("If-Match", Quoted(ifMatch.value))])
      && (r.1.status == 200 <==> response.Http? && IsOk(response.status))
      && (r.1.status == 200 ==> r.1.body == Data(response.body))
      && (r.1.status != 200 ==> r.1 == Reply(500, ErrorBody(CrmResult(response).error)))
  {
    if !Given(ifMatch) then (None, Reply(400, ErrorBody(IfMatchRequired)))
    else
      var request := CrmRequest(config, AccountsPath + "/" + id, Some("PATCH"),
                                [("If-Match", Quoted(ifMatch.value))], Some(body));
      (Some(request), Answer(CrmResult(response), 200))
  }

  /** A forwarded PATCH carries the configured authorization, the merge-patch
      content type and the caller's token in quotes. */
  lemma PatchHeaders(config: Config, id: string, token: string, body: string, response: Response<string>)
    requires token != ""
    ensures UpdateAccount(config, id, Some(token), body, response).0.Some?
    ensures var h := UpdateAccount(config, id, Some(token), body, response).0.value.headers;
      && Header(h, "Authorization") == Some(config.authHeader)
      && Header(h, "Content-Type") == Some("application/merge-patch+json")
      && Header(h, "If-Match") == Some(Quoted(token))
  {
    var extra := [("If-Match", Quoted(token))];
    FinalHeaderValues(config, Some("PATCH"), extra);
    SpreadHeader([("Authorization", config.authHeader), ("Content-Type", ContentType(Some("PATCH")))],
                 extra, "If-Match");
  }

  /** Every other request carries the configured authorization and a JSON content type. */
  lemma PlainHeaders(config: Config, verb: Option<string>)
    requires verb != Some("PATCH")
    ensures Header(FinalHeaders(config, verb, []), "Authorization") == Some(config.authHeader)
    ensures Header(FinalHeaders(config, verb, []), "Content-Type") == Some("application/json")
  {
    FinalHeaderValues(config, verb, []);
  }

  /** `DELETE /api/accounts/:id`: the CRM is asked to delete, once; the reply is 204
      without a body when it accepts, else 500 with the error. */
  function DeleteAccount(config: Config, id: string, response: Response<string>): (r: (Outgoing, Reply))
    ensures r.0.url == config.baseUrl + AccountsPath + "/" + id
    ensures r.0.verb == Some("DELETE") && r.0.body == None
    ensures r.0.headers == FinalHeaders(config, Some("DELETE"), [])
    ensures r.1.status == 204 <==> response.Http? && IsOk(response.status)
    ensures r.1.status == 204 ==> r.1.body == NoContent
    ensures r.1.status != 204 ==> r.1 == Reply(500, ErrorBody(CrmResult(response).error))
  {
    var request := CrmRequest(config, AccountsPath + "/" + id, Some("DELETE"), [], None);
    match CrmResult(response)
    case Success(_) => (request, Reply(204, NoContent))
    case Failure(message) => (request, Reply(500, ErrorBody(message)))
  }
}
