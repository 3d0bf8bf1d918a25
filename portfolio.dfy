/** The portfolio page (`Portfolio`): which orders offer a cancel button,
    the local rewrite of an order after a successful cancel, how a failed
    load is reported, the role badge, the 30-day activity check and the
    total P&L.  Service responses are parameters. */
module Portfolio {
  import opened JsStrings
  import opened JsNumbers
  import opened AdminTypes
  import opened Admin
  import Members

  /** `isOrderCancellable(order.status)`: the upper-cased status compared
      with `OrderStatus.PENDING` and with `OrderStatus.PARTIAL`, which is
      `undefined` and so never equal to a string.  `None` when the status
      itself is `undefined`: `toUpperCase` then throws. */
  function IsOrderCancellable(status: StatusValue): Option<bool> {
    match status
    case StatusUndefined => None
    case StatusText(s) =>
      var normalized := StatusText(Upper(s));
      Some(normalized == OrderStatusMember("PENDING") || normalized == OrderStatusMember("PARTIAL"))
  }

  /** A status is cancellable exactly when it spells PENDING in any mix of
      cases; PARTIALLY_FILLED and every other status are not. */
  lemma CancellableIffPending(s: string)
    ensures IsOrderCancellable(StatusText(s)) == Some(|s| == 7 && forall i :: 0 <= i < 7 ==> UpperChar(s[i]) == "PENDING"[i])
    ensures IsOrderCancellable(StatusText("pending")) == Some(true)
    ensures IsOrderCancellable(StatusText("PARTIALLY_FILLED")) == Some(false)
  {
    MissingStatusMembers();
    if |s| == 7 && forall i :: 0 <= i < 7 ==> UpperChar(s[i]) == "PENDING"[i] {
      assert Upper(s) == "PENDING";
    }
    assert Upper("pending") == "PENDING";
    assert |Upper("PARTIALLY_FILLED")| != 7;
  }

  /** `{ ...order, status: OrderStatus.CANCELED }` on the orders with the id. */
  function MarkCancelled(orders: seq<OrderDTO>, id: string): (r: seq<OrderDTO>)
    ensures |r| == |orders|
    ensures forall i :: 0 <= i < |r| ==>
      r[i] == if orders[i].id == id then orders[i].(status := StatusUndefined) else orders[i]
    decreases |orders|
  {
    if orders == [] then []
    else
      [if orders[0].id == id then orders[0].(status := OrderStatusMember("CANCELED")) else orders[0]]
      + MarkCancelled(orders[1..], id)
  }

  /** After the rewrite a cancelled order's status is `undefined`, so the
      next render's cancellability check on it throws. */
  lemma CancelledOrderBreaksRender(orders: seq<OrderDTO>, id: string, i: int)
    requires 0 <= i < |orders| && orders[i].id == id
    ensures IsOrderCancellable(MarkCancelled(orders, id)[i].status) == None
  {
  }

  /** Marking twice is marking once. */
  lemma MarkCancelledIdempotent(orders: seq<OrderDTO>, id: string)
    ensures MarkCancelled(MarkCancelled(orders, id), id) == MarkCancelled(orders, id)
  {
  }

  /** The outcome of `AdminService.cancelOrder`. */
  datatype CancelResponse = Answered(success: bool) | CancelThrew

  /** The outcome of the four concurrent loads. */
  datatype LoadOutcome =
    | Loaded(member: AccountDTO, trades: seq<TradeDTO>, orders: seq<OrderDTO>, positions: seq<PositionDTO>)
    | LoadFailed(httpStatus: Option<int>)

  const NotAuthenticated := "User not authenticated or missing database ID"
  const AccountNotFound := "Account not found"
  const LoadFailedMessage := "Failed to load portfolio data. Please try again."

  /** The message for a failed load, by the HTTP status of the error. */
  function LoadErrorMessage(httpStatus: Option<int>): (m: string)
    ensures m == AccountNotFound <==> httpStatus == Some(404)
    ensures m == AccountNotFound || m == LoadFailedMessage
  {
    if httpStatus == Some(404) then AccountNotFound else LoadFailedMessage
  }

  /** `{ page_size: 50 }`. */
  const PageOf50 := AdminFilters(None, Some(50), None, None, None, None, None)

  class PortfolioPage {
    var loading: bool
    var error: Option<string>
    var cancellingOrderId: Option<string>
    var member: Option<AccountDTO>
    var trades: seq<TradeDTO>
    var orders: seq<OrderDTO>
    var positions: seq<PositionDTO>

    constructor()
      ensures loading && error == None && cancellingOrderId == None
      ensures member == None && trades == [] && orders == [] && positions == []
    {
      loading := true;
      error := None;
      cancellingOrderId := None;
      member := None;
      trades := [];
      orders := [];
      positions := [];
    }

    /** `handleCancelOrder`: the orders change only on a successful answer. */
    method HandleCancelOrder(id: string, response: CancelResponse)
      modifies this`orders, this`cancellingOrderId
      ensures cancellingOrderId == None
      ensures response == Answered(true) ==> orders == MarkCancelled(old(orders), id)
      ensures response != Answered(true) ==> orders == old(orders)
    {
      cancellingOrderId := Some(id);
      match response {
        case Answered(success) =>
          if success {
            orders := MarkCancelled(orders, id);
          }
        case CancelThrew =>
      }
      cancellingOrderId := None;
    }

    /** `fetchPortfolioData` for the user's database id; returns the
        requests sent.  A missing id is reported before anything is sent. */
    method FetchPortfolioData(dbId: Option<int>, outcome: LoadOutcome) returns (requests: seq<Request>)
      modifies this`loading, this`error, this`member, this`trades, this`orders, this`positions
      ensures !loading
      ensures !TruthyNumber(dbId) ==>
        requests == [] && error == Some(NotAuthenticated)
        && member == old(member) && trades == old(trades) && orders == old(orders) && positions == old(positions)
      ensures TruthyNumber(dbId) ==> (
        |requests| == 4
        && requests[0] == Request("/api/v1/accounts/" + IntToString(dbId.value), [])
        && requests[1] == Request(AccountPath(dbId.value, "trades"), [Param("page_size", "50")])
        && requests[2] == Request(AccountPath(dbId.value, "orders"), [Param("page_size", "50")])
        && requests[3] == Request(AccountPath(dbId.value, "positions"), [Param("page_size", "50")]))
      ensures TruthyNumber(dbId) && outcome.Loaded? ==>
        error == None && member == Some(outcome.member) && trades == outcome.trades
        && orders == outcome.orders && positions == outcome.positions
      ensures TruthyNumber(dbId) && outcome.LoadFailed? ==>
        error == Some(LoadErrorMessage(outcome.httpStatus))
        && member == old(member) && trades == old(trades) && orders == old(orders) && positions == old(positions)
    {
      if !(dbId.Some? && dbId.value != 0) {
        error := Some(NotAuthenticated);
        loading := false;
        requests := [];
        return;
      }
      loading := true;
      error := None;
      requests := PortfolioRequests(dbId.value);
      match outcome {
        case Loaded(m, t, o, p) =>
          member := Some(m);
          trades := t;
          orders := o;
          positions := p;
        case LoadFailed(httpStatus) =>
          if httpStatus == Some(404) {
            error := Some(AccountNotFound);
          } else {
            error := Some(LoadFailedMessage);
          }
      }
      loading := false;
    }
  }

  /** The four requests of one load: the account, then its trades, orders
      and positions, 50 to a page. */
  method PortfolioRequests(accountId: int) returns (requests: seq<Request>)
    ensures |requests| == 4
    ensures requests[0] == Request("/api/v1/accounts/" + IntToString(accountId), [])
    ensures requests[1] == Request(AccountPath(accountId, "trades"), [Param("page_size", "50")])
    ensures requests[2] == Request(AccountPath(accountId, "orders"), [Param("page_size", "50")])
    ensures requests[3] == Request(AccountPath(accountId, "positions"), [Param("page_size", "50")])
  {
    var r0 := GetAccount(accountId);
    var r1 := GetAccountTrades(accountId, Some(PageOf50));
    var r2 := GetAccountOrders(accountId, Some(PageOf50));
    var r3 := GetAccountPositions(accountId, Some(PageOf50));
    PageOf50Query();
    requests := [r0, r1, r2, r3];
  }

  lemma PageOf50Query()
    ensures QueryOf(RangeKeys, PageOf50) == [Param("page_size", "50")]
  {
    assert IntToString(50) == "50" by {
      assert NatToString(5) == "5";
      assert NatToString(50) == NatToString(5) + [DigitChar(0)];
    }
    RangeQuery(PageOf50);
    EntrySymbol(PageOf50);
    EntryAfter(PageOf50);
    EntryBefore(PageOf50);
    EntryPage(PageOf50);
    EntryPageSize(PageOf50);
  }

  datatype Variant = Default | Secondary | Outline

  datatype BadgeConfig = BadgeConfig(variant: Variant, className: string)

  /** `roleConfig[key]`, `None` for a key the record does not have. */
  function RoleConfigEntry(key: string): Option<BadgeConfig> {
    if key == "PRESIDENT" then Some(BadgeConfig(Default, "bg-primary text-primary-foreground"))
    else if key == "VICE_PRESIDENT" || key == "TREASURER" then Some(BadgeConfig(Secondary, "bg-secondary text-secondary-foreground"))
    else if key == "admin" then Some(BadgeConfig(Outline, "border-primary text-primary"))
    else if key == "moderator" then Some(BadgeConfig(Outline, "border-orange-500 text-orange-600"))
    else if key == "owner" then Some(BadgeConfig(Default, "bg-red-600 text-white"))
    else if key == "MEMBER" || key == "user" then Some(BadgeConfig(Outline, ""))
    else None
  }

  const UserConfig := BadgeConfig(Outline, "")

  /** The badge style: the entry for the lower-cased role, or the `user`
      entry when there is none. */
  function RoleConfig(role: string): BadgeConfig {
    var entry := RoleConfigEntry(Lower(role));
    if entry.Some? then entry.value else UserConfig
  }

  /** A lower-cased role never equals a key that starts with a capital. */
  lemma LowerIsNotUpperKey(role: string, key: string)
    requires key != [] && IsUpperAscii(key[0])
    ensures Lower(role) != key
  {
    if |role| > 0 {
      assert Lower(role)[0] == LowerChar(role[0]);
    }
  }

  /** Lookup is by the lower-cased role, so the entries keyed in upper case
      are never used: those roles get the plain `user` style. */
  lemma UpperKeyedRolesUseUserConfig(role: string)
    requires Lower(role) !in {"admin", "moderator", "owner"}
    ensures RoleConfig(role) == UserConfig
    ensures RoleConfig("PRESIDENT") == UserConfig && RoleConfig("TREASURER") == UserConfig
  {
    UnkeyedRoleUsesUserConfig(role);
    LowerPresident();
    LowerTreasurer();
    assert "president"[0] == 'p' && "treasurer"[0] == 't';
    UnkeyedRoleUsesUserConfig("PRESIDENT");
    UnkeyedRoleUsesUserConfig("TREASURER");
  }

  lemma UnkeyedRoleUsesUserConfig(role: string)
    requires Lower(role) !in {"admin", "moderator", "owner"}
    ensures RoleConfig(role) == UserConfig
  {
    LowerIsNotUpperKey(role, "PRESIDENT");
    LowerIsNotUpperKey(role, "VICE_PRESIDENT");
    LowerIsNotUpperKey(role, "TREASURER");
    LowerIsNotUpperKey(role, "MEMBER");
  }

  lemma LowerPresident() ensures Lower("PRESIDENT") == "president" { }
  lemma LowerTreasurer() ensures Lower("TREASURER") == "treasurer" { }

  /** `displayNames[key]`, `None` for a key the record does not have. */
  function DisplayNameEntry(key: string): Option<string> {
    if key == "user" then Some("User")
    else if key == "admin" then Some("Admin")
    else if key == "moderator" then Some("Moderator")
    else if key == "owner" then Some("Owner")
    else if key == "MEMBER" then Some("Member")
    else if key == "TREASURER" then Some("Treasurer")
    else if key == "VICE_PRESIDENT" then Some("Vice President")
    else if key == "PRESIDENT" then Some("President")
    else None
  }

  /** The lower-cased role with its first `_` made a space and each word
      start capitalised. */
  function FallbackDisplayName(role: string): string {
    CapitaliseWordStarts(ReplaceFirst(Lower(role), '_', ' '))
  }

  /** The badge text. */
  function RoleDisplayName(role: string): string {
    var entry := DisplayNameEntry(Lower(role));
    if entry.Some? && entry.value != "" then entry.value else FallbackDisplayName(role)
  }

  /** Whatever the role, the badge text is the lower-cased role with its
      first underscore made a space, up to the case of its letters. */
  lemma DisplayNameIsRoleText(role: string)
    ensures Lower(RoleDisplayName(role)) == ReplaceFirst(Lower(role), '_', ' ')
  {
    var l := Lower(role);
    if DisplayNameEntry(l).Some? {
      LowerIsNotUpperKey(role, "PRESIDENT");
      LowerIsNotUpperKey(role, "VICE_PRESIDENT");
      LowerIsNotUpperKey(role, "TREASURER");
      LowerIsNotUpperKey(role, "MEMBER");
      ReplaceFirstAbsent(l, '_', ' ');
      if l == "user" { LowerUser(); }
      else if l == "admin" { LowerAdmin(); }
      else if l == "moderator" { LowerModerator(); }
      else { LowerOwner(); }
    } else {
      CapitaliseWordStartsSpec(ReplaceFirst(l, '_', ' '));
      LowerReplaceFirst(l, '_', ' ');
      LowerIdempotent(role);
    }
  }

  lemma LowerUser() ensures Lower("User") == "user" { }
  lemma LowerAdmin() ensures Lower("Admin") == "admin" { }
  lemma LowerModerator() ensures Lower("Moderator") == "moderator" { }
  lemma LowerOwner() ensures Lower("Owner") == "owner" { }

  lemma LowerVicePresident()
    ensures Lower("VICE_PRESIDENT") == "vice_president"
  {
  }

  lemma ReplaceVicePresident()
    ensures ReplaceFirst("vice_president", '_', ' ') == "vice president"
  {
    assert "vice_president" == "vice" + ['_'] + "president";
    ReplaceFirstSplit("vice", "president", '_', ' ');
    assert "vice" + [' '] + "president" == "vice president";
  }

  /** "VICE_PRESIDENT" is shown as "Vice President", because the lookup by
      the lower-cased role misses its entry and the fallback applies. */
  lemma VicePresidentDisplayName()
    ensures RoleDisplayName("VICE_PRESIDENT") == "Vice President"
  {
    LowerVicePresident();
    VicePresidentHasNoEntry();
    assert RoleDisplayName("VICE_PRESIDENT") == FallbackDisplayName("VICE_PRESIDENT");
    ReplaceVicePresident();
    Members.CapitaliseVicePresident();
  }

  /** The table is keyed by "VICE_PRESIDENT", which no lower-cased role equals. */
  lemma VicePresidentHasNoEntry()
    ensures DisplayNameEntry("vice_president") == None
  {
    var k := "vice_president";
    assert |k| == 14 && k[0] == 'v';
    assert k != "user" && k != "admin" && k != "moderator" && k != "owner";
    assert k != "MEMBER" && k != "TREASURER" && k != "PRESIDENT";
    assert "VICE_PRESIDENT"[0] == 'V';
  }

  /** `isActive(lastLogin)`: a present, valid login later than 30 days ago. */
  function IsActive(lastLogin: DateField, now: int): (b: bool)
    ensures lastLogin.NoDate? ==> !b
  {
    match lastLogin
    case NoDate => false
    case InvalidDate => false
    case At(ms) => ms > now - 30 * 24 * 60 * 60 * 1000
  }

  /** The page's check and the dashboard's active-trader rule agree. */
  lemma IsActiveIsRecentLogin(lastLogin: DateField, now: int)
    ensures IsActive(lastLogin, now) == RecentLogin(lastLogin, now)
  {
  }

  /** `p || 0` for a P&L figure. */
  function OrZero(x: Option<real>): real {
    if x.Some? then x.value else 0.0
  }

  function PositionPnL(p: PositionDTO): real {
    OrZero(p.realizedPnl) + OrZero(p.unrealizedPnl)
  }

  /** `calculateTotalPnL`: the `reduce` from 0 over the positions. */
  function TotalPnL(positions: seq<PositionDTO>): real
    decreases |positions|
  {
    if positions == [] then 0.0
    else TotalPnL(positions[..|positions| - 1])
         + OrZero(positions[|positions| - 1].realizedPnl)
         + OrZero(positions[|positions| - 1].unrealizedPnl)
  }

  /** The total splits over any cut of the position list. */
  lemma {:induction false} TotalPnLConcat(a: seq<PositionDTO>, b: seq<PositionDTO>)
    ensures TotalPnL(a + b) == TotalPnL(a) + TotalPnL(b)
    decreases |b|
  {
    if b == [] {
      assert a + b == a;
    } else {
      assert (a + b)[..|a + b| - 1] == a + b[..|b| - 1];
      TotalPnLConcat(a, b[..|b| - 1]);
    }
  }

  /** Each position adds its realized and unrealized figures, a missing one
      counting as 0. */
  lemma TotalPnLOne(p: PositionDTO)
    ensures TotalPnL([p]) == PositionPnL(p)
    ensures p.realizedPnl == None && p.unrealizedPnl == None ==> TotalPnL([p]) == 0.0
  {
    assert [p][..0] == [];
  }
}
