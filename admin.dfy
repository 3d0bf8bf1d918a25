/** The account service's client side (`AdminService`): each getter turns
    its optional filters into query parameters by successive `append`
    calls, one per known filter, skipping falsy values; the dashboard
    statistics and the member list are computed from fetched lists, which
    are parameters here. */
module Admin {
  import opened JsStrings
  import opened JsNumbers
  import opened AdminTypes
  import opened Sequences

  /** One `URLSearchParams` entry. */
  datatype Param = Param(key: string, value: string)

  /** A GET request: the path and its query parameters in order. */
  datatype Request = Request(path: string, query: seq<Param>)

  /** The value a filter key contributes, or `None` when it is falsy or is
      not a key any getter reads (`status` in particular). */
  function Wanted(f: AdminFilters, key: string): (v: Option<string>)
    ensures v.Some? ==> key in {"role", "symbol", "after", "before", "page", "page_size"}
  {
    if key == "role" && TruthyText(f.role) then Some(f.role.value)
    else if key == "symbol" && TruthyText(f.symbol) then Some(f.symbol.value)
    else if key == "after" && TruthyText(f.after) then Some(f.after.value)
    else if key == "before" && TruthyText(f.before) then Some(f.before.value)
    else if key == "page" && TruthyNumber(f.page) then Some(IntToString(f.page.value))
    else if key == "page_size" && TruthyNumber(f.pageSize) then Some(IntToString(f.pageSize.value))
    else None
  }

  /** The parameter emitted for one key, if any. */
  function Entry(f: AdminFilters, key: string): seq<Param> {
    match Wanted(f, key) case Some(v) => [Param(key, v)] case None => []
  }

  /** The parameters emitted for the keys a getter reads, in that order. */
  function QueryOf(keys: seq<string>, f: AdminFilters): seq<Param>
    decreases |keys|
  {
    if keys == [] then [] else Entry(f, keys[0]) + QueryOf(keys[1..], f)
  }

  lemma EntryRole(f: AdminFilters)
    ensures Entry(f, "role") == if TruthyText(f.role) then [Param("role", f.role.value)] else []
  {
  }

  lemma EntrySymbol(f: AdminFilters)
    ensures Entry(f, "symbol") == if TruthyText(f.symbol) then [Param("symbol", f.symbol.value)] else []
  {
  }

  lemma EntryAfter(f: AdminFilters)
    ensures Entry(f, "after") == if TruthyText(f.after) then [Param("after", f.after.value)] else []
  {
  }

  lemma EntryBefore(f: AdminFilters)
    ensures Entry(f, "before") == if TruthyText(f.before) then [Param("before", f.before.value)] else []
  {
  }

  lemma EntryPage(f: AdminFilters)
    ensures Entry(f, "page") == if TruthyNumber(f.page) then [Param("page", IntToString(f.page.value))] else []
  {
  }

  lemma EntryPageSize(f: AdminFilters)
    ensures Entry(f, "page_size")
      == if TruthyNumber(f.pageSize) then [Param("page_size", IntToString(f.pageSize.value))] else []
  {
  }

  /** The range query spelled out key by key, in the order of the appends. */
  lemma RangeQuery(f: AdminFilters)
    ensures QueryOf(RangeKeys, f)
      == [] + Entry(f, "symbol") + Entry(f, "after") + Entry(f, "before") + Entry(f, "page") + Entry(f, "page_size")
  {
    assert RangeKeys[1..][1..] == RangeKeys[2..];
    assert RangeKeys[2..][1..] == RangeKeys[3..];
    assert RangeKeys[3..][1..] == RangeKeys[4..];
    assert RangeKeys[4..][1..] == RangeKeys[5..];
    assert QueryOf(RangeKeys[5..], f) == [];
    Flatten5(Entry(f, "symbol"), Entry(f, "after"), Entry(f, "before"), Entry(f, "page"), Entry(f, "page_size"));
  }

  /** The account query spelled out key by key. */
  lemma AccountQuery(f: AdminFilters)
    ensures QueryOf(AccountKeys, f) == [] + Entry(f, "role") + Entry(f, "page") + Entry(f, "page_size")
  {
    assert AccountKeys[1..][1..] == AccountKeys[2..];
    assert AccountKeys[2..][1..] == AccountKeys[3..];
    assert QueryOf(AccountKeys[3..], f) == [];
    Flatten3(Entry(f, "role"), Entry(f, "page"), Entry(f, "page_size"));
  }

  lemma Flatten5(a: seq<Param>, b: seq<Param>, c: seq<Param>, d: seq<Param>, e: seq<Param>)
    ensures a + (b + (c + (d + (e + [])))) == [] + a + b + c + d + e
  {
  }

  lemma Flatten3(a: seq<Param>, b: seq<Param>, c: seq<Param>)
    ensures a + (b + (c + [])) == [] + a + b + c
  {
  }

  const AccountKeys: seq<string> := ["role", "page", "page_size"]
  const RangeKeys: seq<string> := ["symbol", "after", "before", "page", "page_size"]

  function KeysOf(q: seq<Param>): seq<string> {
    seq(|q|, i requires 0 <= i < |q| => q[i].key)
  }

  /** The value of the first parameter with the key, as `URLSearchParams.get`. */
  function Get(q: seq<Param>, key: string): Option<string>
    decreases |q|
  {
    if q == [] then None else if q[0].key == key then Some(q[0].value) else Get(q[1..], key)
  }

  function Filters(filters: Option<AdminFilters>): AdminFilters {
    if filters.Some? then filters.value else NoFilters
  }

  /** Each key a getter reads is present exactly when its filter is truthy,
      with the filter's value; every other key, `status` included, is absent. */
  lemma {:induction false} GetQueryOf(keys: seq<string>, f: AdminFilters, key: string)
    requires forall i, j :: 0 <= i < j < |keys| ==> keys[i] != keys[j]
    ensures Get(QueryOf(keys, f), key) == if key in keys then Wanted(f, key) else None
    decreases |keys|
  {
    if keys != [] {
      GetQueryOf(keys[1..], f, key);
      if Wanted(f, keys[0]).Some? {
        assert QueryOf(keys, f) == [Param(keys[0], Wanted(f, keys[0]).value)] + QueryOf(keys[1..], f);
      } else {
        assert QueryOf(keys, f) == QueryOf(keys[1..], f);
      }
      if key == keys[0] {
        assert key !in keys[1..] by {
          forall i | 0 <= i < |keys| - 1 ensures keys[1..][i] != key {
            assert keys[1..][i] == keys[i + 1];
          }
        }
      }
    }
  }

  /** The parameters come in the order the getter lists its keys. */
  lemma {:induction false} QueryOfInKeyOrder(keys: seq<string>, f: AdminFilters)
    ensures Subsequence(KeysOf(QueryOf(keys, f)), keys)
    decreases |keys|
  {
    if keys != [] {
      QueryOfInKeyOrder(keys[1..], f);
      var rest := QueryOf(keys[1..], f);
      if Wanted(f, keys[0]).Some? {
        var q := [Param(keys[0], Wanted(f, keys[0]).value)] + rest;
        assert QueryOf(keys, f) == q;
        assert KeysOf(q)[1..] == KeysOf(rest);
      } else {
        assert QueryOf(keys, f) == rest;
        SubsequenceOfTail(KeysOf(rest), keys);
      }
    }
  }

  /** A `status` filter never reaches the request: two filters differing
      only in `status` give the same parameters. */
  lemma {:induction false} StatusNeverSent(keys: seq<string>, f: AdminFilters, s: Option<StatusValue>)
    ensures QueryOf(keys, f.(status := s)) == QueryOf(keys, f)
    decreases |keys|
  {
    if keys != [] {
      StatusNeverSent(keys[1..], f, s);
      assert Wanted(f.(status := s), keys[0]) == Wanted(f, keys[0]);
    }
  }

  /** No filters at all give an empty query. */
  lemma {:induction false} NoFiltersNoQuery(keys: seq<string>)
    ensures QueryOf(keys, NoFilters) == []
    decreases |keys|
  {
    if keys != [] {
      NoFiltersNoQuery(keys[1..]);
    }
  }

  /** Appends the entry when the value is truthy. */
  method AppendText(params: seq<Param>, key: string, value: Option<string>) returns (r: seq<Param>)
    ensures r == params + (if TruthyText(value) then [Param(key, value.value)] else [])
  {
    r := params;
    if value.Some? && value.value != "" {
      r := r + [Param(key, value.value)];
    }
  }

  method AppendNumber(params: seq<Param>, key: string, value: Option<int>) returns (r: seq<Param>)
    ensures r == params + (if TruthyNumber(value) then [Param(key, IntToString(value.value))] else [])
  {
    r := params;
    if value.Some? && value.value != 0 {
      r := r + [Param(key, IntToString(value.value))];
    }
  }

  /** The symbol/after/before/page/page_size appends shared by four getters. */
  method RangeParams(filters: Option<AdminFilters>) returns (params: seq<Param>)
    ensures params == QueryOf(RangeKeys, Filters(filters))
  {
    var f := Filters(filters);
    params := [];
    params := AppendText(params, "symbol", f.symbol);
    params := AppendText(params, "after", f.after);
    params := AppendText(params, "before", f.before);
    params := AppendNumber(params, "page", f.page);
    params := AppendNumber(params, "page_size", f.pageSize);
    EntrySymbol(f);
    EntryAfter(f);
    EntryBefore(f);
    EntryPage(f);
    EntryPageSize(f);
    RangeQuery(f);
  }

  /** `getAllAccounts`. */
  method GetAllAccounts(filters: Option<AdminFilters>) returns (r: Request)
    ensures r == Request("/api/v1/accounts", QueryOf(AccountKeys, Filters(filters)))
  {
    var f := Filters(filters);
    var params := [];
    params := AppendText(params, "role", f.role);
    params := AppendNumber(params, "page", f.page);
    params := AppendNumber(params, "page_size", f.pageSize);
    EntryRole(f);
    EntryPage(f);
    EntryPageSize(f);
    AccountQuery(f);
    r := Request("/api/v1/accounts", params);
  }

  /** `getAllTrades`. */
  method GetAllTrades(filters: Option<AdminFilters>) returns (r: Request)
    ensures r == Request("/api/v1/trades", QueryOf(RangeKeys, Filters(filters)))
  {
    var params := RangeParams(filters);
    r := Request("/api/v1/trades", params);
  }

  function AccountPath(accountId: int, resource: string): string {
    "/api/v1/accounts/" + IntToString(accountId) + "/" + resource
  }

  /** `getAccount`: no query. */
  method GetAccount(accountId: int) returns (r: Request)
    ensures r == Request("/api/v1/accounts/" + IntToString(accountId), [])
  {
    r := Request("/api/v1/accounts/" + IntToString(accountId), []);
  }

  /** `getAccountTrades`. */
  method GetAccountTrades(accountId: int, filters: Option<AdminFilters>) returns (r: Request)
    ensures r == Request(AccountPath(accountId, "trades"), QueryOf(RangeKeys, Filters(filters)))
  {
    var params := RangeParams(filters);
    r := Request(AccountPath(accountId, "trades"), params);
  }

  /** `getAccountOrders`. */
  method GetAccountOrders(accountId: int, filters: Option<AdminFilters>) returns (r: Request)
    ensures r == Request(AccountPath(accountId, "orders"), QueryOf(RangeKeys, Filters(filters)))
  {
    var params := RangeParams(filters);
    r := Request(AccountPath(accountId, "orders"), params);
  }

  /** `getAccountPositions`. */
  method GetAccountPositions(accountId: int, filters: Option<AdminFilters>) returns (r: Request)
    ensures r == Request(AccountPath(accountId, "positions"), QueryOf(RangeKeys, Filters(filters)))
  {
    var params := RangeParams(filters);
    r := Request(AccountPath(accountId, "positions"), params);
  }

  /** 30 days in milliseconds. */
  const ThirtyDaysMs: int := 30 * 24 * 60 * 60 * 1000

  /** A login that is present, a valid date and later than 30 days ago. */
  predicate RecentLogin(d: DateField, now: int) {
    d.At? && d.ms > now - ThirtyDaysMs
  }

  /** `accounts.filter(...)` of the recent logins: each such account stays,
      as often as it occurs; every other account goes. */
  function ActiveAccounts(accounts: seq<AccountDTO>, now: int): (r: seq<AccountDTO>)
    ensures |r| <= |accounts|
    ensures forall a :: a in r <==> a in accounts && RecentLogin(a.lastLoginAt, now)
    ensures forall a :: multiset(r)[a] == if RecentLogin(a.lastLoginAt, now) then multiset(accounts)[a] else 0
    decreases |accounts|
  {
    if accounts == [] then []
    else
      assert accounts == [accounts[0]] + accounts[1..];
      (if RecentLogin(accounts[0].lastLoginAt, now) then [accounts[0]] else [])
      + ActiveAccounts(accounts[1..], now)
  }

  /** The `reduce` of the balances, from 0. */
  function TotalBalance(accounts: seq<AccountDTO>): real
    decreases |accounts|
  {
    if accounts == [] then 0.0 else accounts[0].balance + TotalBalance(accounts[1..])
  }

  /** `getAdminStats` on the fetched accounts and trades at time `now`. */
  function AdminStatsOf(accounts: seq<AccountDTO>, trades: seq<TradeDTO>, now: int): (s: AdminStats)
    ensures s.totalMembers == |accounts| && s.totalTrades == |trades|
    ensures s.activeTraders <= s.totalMembers
    ensures s.activeTraders == |ActiveAccounts(accounts, now)|
    ensures s.totalCreditsIssued == TotalBalance(accounts)
  {
    AdminStats(|accounts|, |trades|, |ActiveAccounts(accounts, now)|, TotalBalance(accounts))
  }

  /** The active-trader count over any account list: none for no
      accounts, and each further account adds one exactly when its login
      is inside the window.  An account without a valid login date is
      never active; one logged in just now always is. */
  lemma ActiveTradersCountsRecentLogins(accounts: seq<AccountDTO>, a: AccountDTO, trades: seq<TradeDTO>, now: int)
    ensures AdminStatsOf([], trades, now).activeTraders == 0
    ensures AdminStatsOf(accounts + [a], trades, now).activeTraders
      == AdminStatsOf(accounts, trades, now).activeTraders + (if RecentLogin(a.lastLoginAt, now) then 1 else 0)
    ensures a.lastLoginAt == At(now) ==> AdminStatsOf([a], trades, now).activeTraders == 1
    ensures !a.lastLoginAt.At? ==> AdminStatsOf([a], trades, now).activeTraders == 0
  {
    ActiveAccountsConcat(accounts, [a], now);
    assert ActiveAccounts([a], now) == (if RecentLogin(a.lastLoginAt, now) then [a] else []) + ActiveAccounts([], now);
  }

  /** Filtering a concatenation filters each part. */
  lemma {:induction false} ActiveAccountsConcat(s: seq<AccountDTO>, t: seq<AccountDTO>, now: int)
    ensures ActiveAccounts(s + t, now) == ActiveAccounts(s, now) + ActiveAccounts(t, now)
    decreases |s|
  {
    if s == [] {
      assert s + t == t;
    } else {
      assert (s + t)[0] == s[0];
      assert (s + t)[1..] == s[1..] + t;
      ActiveAccountsConcat(s[1..], t, now);
    }
  }

  /** `getMembersWithStats`: the accounts in order, each with zero trading
      figures and its balance as active cash. */
  function MembersWithStats(accounts: seq<AccountDTO>): (r: seq<MemberWithStats>)
    ensures |r| == |accounts|
    ensures forall i :: 0 <= i < |r| ==>
      r[i].account == accounts[i] && r[i].totalTrades == 0 && r[i].totalOrders == 0
      && r[i].totalPnL == 0.0 && r[i].activeCash == accounts[i].balance
    decreases |accounts|
  {
    if accounts == [] then []
    else [MemberWithStats(accounts[0], 0, 0, 0.0, accounts[0].balance)] + MembersWithStats(accounts[1..])
  }

  /** The active cash of the member list adds up to the credits issued. */
  lemma {:induction false} MembersCashIsCredits(accounts: seq<AccountDTO>, trades: seq<TradeDTO>, now: int)
    ensures TotalCash(MembersWithStats(accounts)) == AdminStatsOf(accounts, trades, now).totalCreditsIssued
    decreases |accounts|
  {
    if accounts != [] {
      MembersCashIsCredits(accounts[1..], trades, now);
    }
  }

  function TotalCash(m: seq<MemberWithStats>): real
    decreases |m|
  {
    if m == [] then 0.0 else m[0].activeCash + TotalCash(m[1..])
  }
}
