/** The records the client exchanges with the account service
    (`src/types/admin.ts`) and the API-key service (`src/types/apiKeys.ts`).
    Dates the client only displays stay strings; those it computes with are
    epoch milliseconds or a `DateField`. */
module AdminTypes {
  import opened JsStrings

  /** An order's `status` property: a string from the server, or `undefined`
      after a client-side rewrite with an enum member that does not exist. */
  datatype StatusValue = StatusText(text: string) | StatusUndefined

  /** `OrderStatus[name]`: the value of a member of the `OrderStatus` enum,
      or `undefined` for a name the enum does not declare (the enum has
      PENDING, FILLED, CANCELLED and PARTIALLY_FILLED only). */
  function OrderStatusMember(name: string): (v: StatusValue)
    ensures v.StatusText? ==> v.text == name
  {
    if name in {"PENDING", "FILLED", "CANCELLED", "PARTIALLY_FILLED"} then StatusText(name)
    else StatusUndefined
  }

  /** `OrderStatus.PARTIAL` and `OrderStatus.CANCELED`, as the client uses
      them, are both `undefined`; `OrderStatus.PENDING` is "PENDING". */
  lemma MissingStatusMembers()
    ensures OrderStatusMember("PARTIAL") == StatusUndefined
    ensures OrderStatusMember("CANCELED") == StatusUndefined
    ensures OrderStatusMember("PENDING") == StatusText("PENDING")
  {
    assert "PARTIAL" != "PARTIALLY_FILLED" && "PARTIAL" != "PENDING";
    assert "CANCELED" != "CANCELLED";
  }

  datatype OrderDTO = OrderDTO(
    id: string,
    symbol: string,
    side: string,
    orderType: string,
    quantity: real,
    price: real,
    status: StatusValue,
    remainingQuantity: real,
    createdAt: int,        // epoch milliseconds of `created_at`
    updatedAt: string)

  datatype AccountDTO = AccountDTO(
    id: int,
    username: string,
    balance: real,
    role: string,
    lastLoginAt: DateField)

  datatype TradeDTO = TradeDTO(id: string, symbol: string, quantity: real, price: real, value: real)

  /** A position; a P&L that is null, undefined or NaN is `None`. */
  datatype PositionDTO = PositionDTO(
    id: string,
    symbol: string,
    quantity: real,
    averagePrice: real,
    unrealizedPnl: Option<real>,
    realizedPnl: Option<real>)

  /** Optional query filters.  `status` is not declared by the interface but
      callers pass it; no service method reads it. */
  datatype AdminFilters = AdminFilters(
    page: Option<int>,
    pageSize: Option<int>,
    role: Option<string>,
    symbol: Option<string>,
    after: Option<string>,
    before: Option<string>,
    status: Option<StatusValue>)

  const NoFilters := AdminFilters(None, None, None, None, None, None, None)

  datatype AdminStats = AdminStats(
    totalMembers: nat,
    totalTrades: nat,
    activeTraders: nat,
    totalCreditsIssued: real)

  datatype MemberWithStats = MemberWithStats(
    account: AccountDTO,
    totalTrades: int,
    totalOrders: int,
    totalPnL: real,
    activeCash: real)
}

module ApiKeyTypes {
  import opened JsStrings

  /** A key as listed (never holds the secret). */
  datatype ApiKeyDTO = ApiKeyDTO(
    id: int,
    keyPrefix: string,
    name: string,
    isActive: bool,
    createdAt: string,
    lastUsedAt: DateField,
    expiresAt: Option<string>)

  /** The create response, the only place the full secret appears. */
  datatype CreateApiKeyResponse = CreateApiKeyResponse(
    id: int,
    keyPrefix: string,
    fullKey: string,
    name: string,
    createdAt: string,
    expiresAt: Option<string>)
}
