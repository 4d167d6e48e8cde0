// The account store: the list of loaded accounts and the total the server
// reported, changed by the page fetch, create, update and delete actions.

module AccountStores {
  import opened Wrappers
  import opened Strings
  import opened Types
  import opened Mapper
  import opened ApiClient

  // ---------------------------------------------------------------------------
  // List operations the actions are specified by
  // ---------------------------------------------------------------------------

  /** `r` keeps some of the elements of `s`, in their relative order. */
  predicate Subsequence<T(==)>(r: seq<T>, s: seq<T>)
    decreases |s|
  {
    if |r| == 0 then true
    else if |s| == 0 then false
    else if r[0] == s[0] then Subsequence(r[1..], s[1..])
    else Subsequence(r, s[1..])
  }

  lemma {:induction false} SubsequenceLength<T>(r: seq<T>, s: seq<T>)
    requires Subsequence(r, s)
    ensures |r| <= |s|
    decreases |s|
  {
    if |r| != 0 {
      if r[0] == s[0] {
        SubsequenceLength(r[1..], s[1..]);
      } else {
        SubsequenceLength(r, s[1..]);
      }
    }
  }

  /** `findIndex(a => a.accountId === accountId)`: the position of the first account
      with that display id, or none when no account has it. */
  function FirstIndex(s: seq<Account>, accountId: string): (r: Option<nat>)
    ensures r.Some? ==> r.value < |s| && s[r.value].accountId == accountId
    ensures r.Some? ==> forall j :: 0 <= j < r.value ==> s[j].accountId != accountId
    ensures r.None? <==> forall j :: 0 <= j < |s| ==> s[j].accountId != accountId
    decreases |s|
  {
    if |s| == 0 then None
    else if s[0].accountId == accountId then Some(0)
    else
      var rest := FirstIndex(s[1..], accountId);
      if rest.None? then
        assert forall j :: 1 <= j < |s| ==> s[j] == s[1..][j - 1];
        None
      else Some(rest.value + 1)
  }

  /** `find(a => a.accountId === accountId)` (`getAccountById`): the first account
      with that display id, or none. */
  function FindAccount(s: seq<Account>, accountId: string): (r: Option<Account>)
    ensures r.None? <==> forall j :: 0 <= j < |s| ==> s[j].accountId != accountId
    ensures r.Some? ==> r.value.accountId == accountId
    ensures r.Some? ==> exists i :: 0 <= i < |s| && s[i] == r.value &&
                                 (forall j :: 0 <= j < i ==> s[j].accountId != accountId)
  {
    var i := FirstIndex(s, accountId);
    if i.Some? then Some(s[i.value]) else None
  }

  /** `filter(a => a.accountId !== accountId)`: every account with that display id
      removed, every other one kept, in order. */
  function WithoutAccount(s: seq<Account>, accountId: string): (r: seq<Account>)
    ensures Subsequence(r, s)
    ensures forall a :: a in r ==> a.accountId != accountId
    ensures forall a {:trigger multiset(r)[a]} ::
      multiset(r)[a] == if a.accountId == accountId then 0 else multiset(s)[a]
    decreases |s|
  {
    if |s| == 0 then []
    else
      var rest := WithoutAccount(s[1..], accountId);
      assert s == [s[0]] + s[1..];
      if s[0].accountId == accountId then rest
      else
        assert ([s[0]] + rest)[1..] == rest;
        [s[0]] + rest
  }

  /** `filter(a => a.status === 'Active')`: exactly the active accounts, in order. */
  function ActiveOnly(s: seq<Account>): (r: seq<Account>)
    ensures Subsequence(r, s)
    ensures forall a :: a in r ==> a.status == Active
    ensures forall a {:trigger multiset(r)[a]} ::
      multiset(r)[a] == if a.status == Active then multiset(s)[a] else 0
    decreases |s|
  {
    if |s| == 0 then []
    else
      var rest := ActiveOnly(s[1..]);
      assert s == [s[0]] + s[1..];
      if s[0].status != Active then rest
      else
        assert ([s[0]] + rest)[1..] == rest;
        [s[0]] + rest
  }

  // ---------------------------------------------------------------------------
  // The page fetch's parameters
  // ---------------------------------------------------------------------------

  /** The sort order every page fetch asks for. */
  const PageOrder: string := "formattedName asc"

  /** The options a page fetch passes to the client: `itemsPerPage` items starting
      at `(page - 1) * itemsPerPage`, sorted by name. */
  function PageParams(page: int, itemsPerPage: int, search: Option<string>, filter: Option<string>): ListParams
  {
    ListParams(Some(itemsPerPage), Some((page - 1) * itemsPerPage), Some(PageOrder), filter, search)
  }

  /** What the query of a page fetch holds: the page size, the offset of the page's
      first item (left out when it is zero, as on the first page), the name order,
      and the filter when one is given. */
  lemma PageQuery(page: int, itemsPerPage: int, search: Option<string>, filter: Option<string>)
    ensures Lookup(ListQuery(PageParams(page, itemsPerPage, search, filter)), Top) ==
      if itemsPerPage != 0 then Some(IntToString(itemsPerPage)) else None
    ensures Lookup(ListQuery(PageParams(page, itemsPerPage, search, filter)), Skip) ==
      if (page - 1) * itemsPerPage != 0 then Some(IntToString((page - 1) * itemsPerPage)) else None
    ensures Lookup(ListQuery(PageParams(page, itemsPerPage, search, filter)), OrderBy) == Some(PageOrder)
    ensures Lookup(ListQuery(PageParams(page, itemsPerPage, search, filter)), Filter) ==
      if Given(filter) then filter else None
  {
    var p := PageParams(page, itemsPerPage, search, filter);
    ListQueryValues(p, Top);
    ListQueryValues(p, Skip);
    ListQueryValues(p, OrderBy);
    ListQueryValues(p, Filter);
  }

  /** The first page sends no `$skip`; page `n > 1` of size `k > 0` skips `(n-1)*k`. */
  lemma PageOffset(page: int, itemsPerPage: int, search: Option<string>, filter: Option<string>)
    requires page >= 1 && itemsPerPage > 0
    ensures page == 1 <==> Lookup(ListQuery(PageParams(page, itemsPerPage, search, filter)), Skip).None?
    ensures page > 1 ==>
      Lookup(ListQuery(PageParams(page, itemsPerPage, search, filter)), Skip) ==
      Some(IntToString((page - 1) * itemsPerPage))
  {
    OffsetZero(page, itemsPerPage);
    PageQuery(page, itemsPerPage, search, filter);
  }

  lemma OffsetZero(page: int, itemsPerPage: int)
    requires page >= 1 && itemsPerPage > 0
    ensures (page - 1) * itemsPerPage == 0 <==> page == 1
  {
    if page > 1 {
      assert (page - 1) * itemsPerPage == (page - 2) * itemsPerPage + itemsPerPage;
      assert (page - 2) * itemsPerPage >= 0;
    }
  }

  // ---------------------------------------------------------------------------
  // How the list operations combine
  // ---------------------------------------------------------------------------

  /** The active accounts never outnumber the loaded accounts (`accountsCount`). */
  lemma ActiveWithinCount(s: seq<Account>)
    ensures |ActiveOnly(s)| <= |s|
  {
    SubsequenceLength(ActiveOnly(s), s);
  }

  /** After an append, a lookup finds what it found before, else the new account
      if it carries the display id. */
  lemma {:induction false} FindAfterAppend(s: seq<Account>, a: Account, accountId: string)
    ensures FindAccount(s + [a], accountId) ==
      if FindAccount(s, accountId).Some? then FindAccount(s, accountId)
      else if a.accountId == accountId then Some(a) else None
    decreases |s|
  {
    if |s| != 0 {
      assert (s + [a])[1..] == s[1..] + [a];
      if s[0].accountId != accountId {
        FindAfterAppend(s[1..], a, accountId);
      }
    }
  }

  /** After a delete, the removed display id is gone and a lookup of any other
      display id finds the same account as before. */
  lemma {:induction false} FindAfterDelete(s: seq<Account>, accountId: string, other: string)
    ensures FindAccount(WithoutAccount(s, accountId), accountId).None?
    ensures other != accountId ==>
      FindAccount(WithoutAccount(s, accountId), other) == FindAccount(s, other)
    decreases |s|
  {
    if |s| != 0 {
      FindAfterDelete(s[1..], accountId, other);
      var rest := WithoutAccount(s[1..], accountId);
      if s[0].accountId != accountId {
        assert WithoutAccount(s, accountId) == [s[0]] + rest;
        assert ([s[0]] + rest)[1..] == rest;
      }
    }
  }

  /** After a successful update that keeps the display id, a lookup of it finds the
      returned account, at the same position. */
  lemma FindAfterReplace(s: seq<Account>, accountId: string, updated: Account)
    requires FirstIndex(s, accountId).Some?
    requires updated.accountId == accountId
    ensures FirstIndex(s[FirstIndex(s, accountId).value := updated], accountId) == FirstIndex(s, accountId)
    ensures FindAccount(s[FirstIndex(s, accountId).value := updated], accountId) == Some(updated)
  {
    var i := FirstIndex(s, accountId).value;
    var t := s[i := updated];
    assert t[i].accountId == accountId;
    var k := FirstIndex(t, accountId);
    assert k.value <= i;
  }

  // ---------------------------------------------------------------------------
  // The store
  // ---------------------------------------------------------------------------

  class AccountStore {
    /** The loaded page of accounts, in server order. */
    var accounts: seq<Account>
    /** The total number of accounts the server reported for the last fetch. */
    var totalCount: int

    constructor ()
      ensures accounts == [] && totalCount == 0
    {
      accounts := [];
      totalCount := 0;
    }

    /** `activeAccounts`: the loaded accounts whose status is Active, in order. */
    function ActiveAccounts(): (r: seq<Account>)
      reads this
      ensures Subsequence(r, accounts)
      ensures forall a :: a in r ==> a.status == Active
      ensures forall a {:trigger multiset(r)[a]} ::
        multiset(r)[a] == if a.status == Active then multiset(accounts)[a] else 0
    {
      ActiveOnly(accounts)
    }

    /** `accountsCount`: the number of loaded accounts, of which the active ones
        are a part. */
    function AccountsCount(): (r: nat)
      reads this
      ensures r == |accounts|
      ensures |ActiveAccounts()| <= r
    {
      ActiveWithinCount(accounts);
      |accounts|
    }

    /** `getAccountById`: the first loaded account with that display id, or none. */
    function GetAccountById(accountId: string): (r: Option<Account>)
      reads this
      ensures r.None? <==> forall j :: 0 <= j < |accounts| ==> accounts[j].accountId != accountId
      ensures r.Some? ==> exists i :: (
        && 0 <= i < |accounts| && accounts[i] == r.value
        && r.value.accountId == accountId
        && forall j :: 0 <= j < i ==> accounts[j].accountId != accountId)
    {
      FindAccount(accounts, accountId)
    }

    /** `fetchAccounts`: fetches one page; on success the page and the reported total
        replace what was loaded, on failure both stay as they were. */
    method FetchAccounts(page: int, itemsPerPage: int, search: Option<string>, filter: Option<string>,
                         server: Query -> Response<ListResponse>)
      returns (query: Query, r: Result<AccountPage, string>)
      modifies this
      ensures query == ListQuery(PageParams(page, itemsPerPage, search, filter))
      ensures r.Success? <==> server(query).Http? && IsOk(server(query).status)
      ensures r.Success? ==>
        && accounts == MapListResponse(server(query).body)
        && totalCount == CountOrZero(server(query).body.count)
      ensures r.Failure? ==> accounts == old(accounts) && totalCount == old(totalCount)
    {
      var skip := (page - 1) * itemsPerPage;
      query, r := ApiClient.FetchAccounts(ListParams(Some(itemsPerPage), Some(skip), Some(PageOrder), filter, search), server);
      if r.Success? {
        accounts := r.value.accounts;
        totalCount := r.value.count;
      }
    }

    /** `addAccount`: creates the account; the created record is appended. */
    method AddAccount(account: AccountPatch, server: Payload -> Response<SingleResponse>)
      returns (payload: Payload, r: Result<Account, string>)
      modifies this
      ensures IsCreatePayload(account, payload)
      ensures r.Success? <==> server(payload).Http? && IsOk(server(payload).status)
      ensures r.Success? ==>
        r.value == MapSingleResponse(server(payload).body) && accounts == old(accounts) + [r.value]
      ensures r.Failure? ==> accounts == old(accounts)
      ensures totalCount == old(totalCount)
    {
      payload, r := ApiClient.CreateAccount(account, server);
      if r.Success? {
        accounts := accounts + [r.value];
      }
    }

    /** `updateAccount`: refuses an unknown display id before any request; otherwise
        reads the record's fresh token (`fetched` answers that read), sends the update
        through the retry loop with that token (`responses` answer the PATCH
        attempts), and puts the returned account where the first match was. */
    method UpdateAccount(accountId: string, updates: AccountPatch,
                         fetched: Response<SingleResponse>, responses: seq<Response<SingleResponse>>)
      returns (r: Result<Account, string>, fetchedId: Option<string>, requests: seq<PatchRequest>)
      requires MaxRetries < |responses|
      modifies this
      ensures FirstIndex(old(accounts), accountId).None? ==>
        r == Failure("Account not found") && fetchedId.None? && requests == []
      ensures FirstIndex(old(accounts), accountId).Some? ==>
        fetchedId == Some(old(accounts)[FirstIndex(old(accounts), accountId).value].id)
      ensures FirstIndex(old(accounts), accountId).Some? && FetchAccountByIdWithETag(fetched).Failure? ==>
        r == Failure(FetchAccountByIdWithETag(fetched).error) && requests == []
      ensures FirstIndex(old(accounts), accountId).Some? && FetchAccountByIdWithETag(fetched).Success? ==>
        && r == MapUpdated(Retry(responses, 0).result)
        && |requests| == Retry(responses, 0).attempts
        && forall q :: q in requests ==>
          q.id == fetchedId.value && q.ifMatch == FetchAccountByIdWithETag(fetched).value.etag &&
          IsUpdatePayload(updates, q.body)
      ensures r.Success? ==>
        && FirstIndex(old(accounts), accountId).Some?
        && accounts == old(accounts)[FirstIndex(old(accounts), accountId).value := r.value]
      ensures r.Failure? ==> accounts == old(accounts)
      ensures totalCount == old(totalCount)
    {
      var found := FirstIndex(accounts, accountId);
      if found.None? {
        return Failure("Account not found"), None, [];
      }
      var account := accounts[found.value];
      fetchedId := Some(account.id);
      var tagged := FetchAccountByIdWithETag(fetched);
      if tagged.Failure? {
        return Failure(tagged.error), fetchedId, [];
      }
      var delays, apiAccount;
      r, delays, requests, apiAccount := ApiClient.UpdateAccount(account.id, updates, tagged.value.etag, responses);
      if r.Success? {
        var index := FirstIndex(accounts, accountId);
        if index.Some? {
          accounts := accounts[index.value := r.value];
        }
      }
    }

    /** `deleteAccount`: refuses an unknown display id before any request; otherwise
        deletes the record by its key (`response` answers the DELETE) and then drops
        every loaded account with that display id. */
    method DeleteAccount(accountId: string, response: Response<()>)
      returns (r: Result<(), string>, deletedId: Option<string>)
      modifies this
      ensures FindAccount(old(accounts), accountId).None? ==>
        r == Failure("Account not found") && deletedId.None?
      ensures FindAccount(old(accounts), accountId).Some? ==>
        deletedId == Some(FindAccount(old(accounts), accountId).value.id) &&
        r == ApiClient.DeleteAccount(response)
      ensures r.Success? ==> accounts == WithoutAccount(old(accounts), accountId)
      ensures r.Failure? ==> accounts == old(accounts)
      ensures totalCount == old(totalCount)
    {
      var account := FindAccount(accounts, accountId);
      if account.None? {
        return Failure("Account not found"), None;
      }
      deletedId := Some(account.value.id);
      r := ApiClient.DeleteAccount(response);
      if r.Success? {
        accounts := WithoutAccount(accounts, accountId);
      }
    }
  }
}
