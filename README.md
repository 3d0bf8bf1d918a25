# ticker-haven-hub client core, modelled in Dafny

This project models the client-side logic of the ticker-haven-hub trading web
app, a React/TypeScript front end for a student investment club. The modelled
parts are:

- **Order feed.** The `OrderBookConnection` socket handler delivers a snapshot
  to the UI and then forwards updates, but only once a snapshot has arrived.
  The `OrderMock` demo page routes those updates into buy and sell lists.
- **Order-entry dialog** (`OrderForm`). It validates free-text price and
  quantity. Parsing follows JavaScript's `parseFloat`/`parseInt`. The dialog
  builds the order it hands to the caller and resets itself on close.
- **Active-orders card.** It fetches one ticker's orders twice, merges the two
  responses and sorts them newest first (stably). It adds and removes orders
  by id, and removes an order optimistically when it is cancelled.
- **Portfolio page.** The model covers:
  - which orders get a cancel button;
  - how a successful cancel rewrites the local list;
  - which requests a load sends and how a failed load is reported;
  - the role badge;
  - the 30-day activity check;
  - the total P&L.
- **API-key page and key-creation dialog.** The page prepends new keys and
  soft-revokes old ones. It splits the list into active and revoked keys and
  shows "last used" as a relative time. The dialog runs a create/display step
  machine and hands the new key back on close. `maskKey` masks the key.
- **Account service client** (`AdminService`). Each getter turns its filters
  into an ordered query in which falsy values are dropped. The dashboard
  statistics and the member list with placeholder statistics are computed
  from the fetched lists.
- **Admin members page.** The search filter and the role badge.
- **Authentication helpers.** Firebase errors become messages, a Firebase user
  becomes an app user, and a Google sign-in outside the Colorado domain is
  refused.
- **HTTP client.** The function that picks the bearer credential.

## Modelling choices

Server responses, Firebase results, the clock and browser storage do not run
inside the model. They are parameters, mostly outcome datatypes such as
`Fetched`/`FetchFailed` or `Answered`/`CancelThrew`.

Components whose React state changes are classes. Their handlers are methods
with `modifies` clauses and postconditions that state the whole new state.
Pure helpers are functions with lemmas.

Two modules cover the JavaScript built-ins the code relies on, with their edge
cases written out:

- `JsStrings`:
  - `trim` with the ECMAScript white-space set;
  - ASCII case mapping;
  - `includes` and `endsWith`;
  - `replace` of the first occurrence only;
  - the `\b\w` capitalisation idiom;
  - truthiness.
- `JsNumbers`:
  - `parseInt`, which stops at the first non-digit and reads a `0x` prefix;
  - `parseFloat`, which reads the longest decimal prefix or `Infinity`;
  - NaN and infinities;
  - integer `toString`.

Several behaviours of the code are modelled as written:

- `OrderStatus.PARTIAL` and `OrderStatus.CANCELED` are not members of the enum
  and evaluate to `undefined`. As a result:
  - the PARTIAL check never matches;
  - the active-orders card sends the same request twice;
  - a cancelled order's status becomes `undefined`, and checking whether it
    can be cancelled then throws.
- Role lookups lower-case the role first, so the upper-case keys of the
  Portfolio role tables are never hit.
- The feed's close listener never resets the feed flag.
- `OrderBookConnection` has no `cancelOrder` method, so a cancel from the
  active-orders card always throws.
- `maskKey` throws on keys shorter than 20 characters. Its result is an option.
- `OrderBookConnection.openConnection` throws: the class never defines the
  `getUrl` its base class's `connect` calls, so the socket stays null and the
  first `addEventListener` fails. No listener is ever attached.

## Model

| member | source | states |
|---|---|---|
| AdminTypes.MissingStatusMembers | src/types/admin.ts:14-19 | `OrderStatus.PARTIAL` and `OrderStatus.CANCELED` are `undefined`; `OrderStatus.PENDING` is "PENDING" |
| OrderSubscription.OrderBookConnection.constructor | src/services/sockets/orderSubscription.ts:50-62 | a new connection has `isLoaded` and `initialDataLoaded` false, keeps its ticker, and has a null socket with no connection under way |
| OrderSubscription.OrderBookConnection.Connect | src/services/sockets/socketSubscription.ts:46-56 | an open socket or a connection under way makes it a no-op; otherwise the socket is created for the address `getUrl` returns, and a throw from `getUrl` leaves the socket as it was |
| OrderSubscription.OrderBookConnection.OpenWith | src/services/sockets/orderSubscription.ts:64-87 | after `connect`, the listeners are registered iff the socket is non-null; on a null socket the call throws and changes nothing; from a null socket, it succeeds iff `getUrl` returns an address, and the socket is then for that address |
| OrderSubscription.OrderBookConnection.OpenConnection | src/services/sockets/orderSubscription.ts:64-87 | with no `getUrl` in the class the call to it throws inside `connect`, so the socket never changes and `openConnection` throws exactly when the socket is null, registering nothing |
| OrderSubscription.FreshConnectionCannotOpen | src/services/sockets/orderSubscription.ts:64-67 | on a new connection `openConnection` throws, the socket stays null and no listener is registered |
| OrderSubscription.DefinedUrlRegisters | src/services/sockets/socketSubscription.ts:46-56 | if `getUrl` returned an address, a new connection would get a socket for it and register its listeners |
| OrderSubscription.OrderBookConnection.MessageHandler | src/services/sockets/orderSubscription.ts:89-106 | a batch calls `setOrders` once with its orders and sets the flag; an update calls `addOrder` once with its order only when the flag is set, otherwise nothing changes; any other frame changes nothing |
| OrderSubscription.OrderBookConnection.OnEvent | src/services/sockets/orderSubscription.ts:67-85 | the listener bodies, which as written are never attached: `open` sets `isLoaded`; a parsed message goes to the handler; an unparsable message, `close` and `error` call nothing and leave the flag alone |
| OrderSubscription.OrderBookConnection.SnapshotPayload | src/services/sockets/orderSubscription.ts:109-116 | the snapshot request has type "orders", subscription "snapshot" and the connection's ticker |
| OrderSubscription.Step | src/services/sockets/orderSubscription.ts:89-106 | a frame causes at most one UI call |
| OrderSubscription.FromFirstBatch | src/services/sockets/orderSubscription.ts:92-100 | the frames from the first batch on are no longer than the input and, when there are any, start with a batch; no frame before them is a batch |
| OrderSubscription.FromFirstBatchIsSuffix | src/services/sockets/orderSubscription.ts:92-100 | the frames from the first batch on are a suffix of the input |
| OrderSubscription.UpdatesBeforeBatchDropped | src/services/sockets/orderSubscription.ts:97-101 | with no batch among the frames, nothing reaches the UI and the flag stays false |
| OrderSubscription.LoadedStaysLoaded | src/services/sockets/orderSubscription.ts:92-101 | once set, the flag stays set whatever frames follow |
| OrderSubscription.RunFromFirstBatch | src/services/sockets/orderSubscription.ts:89-106 | from a fresh connection, the flag ends true iff some batch arrived, and the UI sees exactly the reactions to the frames from the first batch on |
| OrderSubscription.ReadyCallsPerFrame | src/services/sockets/orderSubscription.ts:91-105 | once loaded, each batch and each update causes exactly one UI call and other frames cause none |
| OrderSubscription.CloseKeepsFeedLoaded | src/services/sockets/orderSubscription.ts:78-81 | after a close event, an update is still forwarded |
| OrderMock.OrderMockPage.constructor | src/pages/OrderMock.tsx:35-42 | the page starts with empty lists and a connection for "QNTX" that is never opened |
| OrderMock.OrderMockPage.AddOrder | src/pages/OrderMock.tsx:21-24 | an entry of type "buy" is appended to the buy list, any other entry to the sell list, and the other list is unchanged |
| OrderMock.OrderMockPage.SetOrders | src/pages/OrderMock.tsx:26-28 | the snapshot is ignored and neither list changes |
| OrderMock.OrderMockPage.Receive | src/pages/OrderMock.tsx:30-42 | a frame routed through the connection keeps the invariant that the lists hold the routed updates from the first batch on and the flag records whether a batch arrived; the connection's `isLoaded` and socket are untouched |
| OrderMock.PageStep | src/pages/OrderMock.tsx:21-28 | the connection's calls for one more frame take the lists from the view of the old frames to the view of the new ones, and the flag to whether a batch has now arrived |
| OrderMock.ReceiveShows | src/pages/OrderMock.tsx:21-28 | a page showing some frames, after the connection's step and the callback for its call, shows those frames plus the new one |
| OrderMock.RoutingPartitions | src/pages/OrderMock.tsx:21-24 | routing loses and invents no entry: the buy and sell lists together hold exactly the routed entries |
| OrderMock.FeedShowsUpdatesAfterFirstBatch | src/pages/OrderMock.tsx:21-28 | fed from a fresh connection, the page shows exactly the updates after the first batch, split by type, in receipt order |
| OrderMock.BookAfterFrame | src/pages/OrderMock.tsx:21-24 | one more frame grows exactly one list by its entry, and only when it is an update arriving after a batch |
| OrderMock.ApplyReadyCalls | src/pages/OrderMock.tsx:21-28 | once loaded, the lists grow by the routed updates in order |
| OrderForm.ValidateParsed | src/components/OrderForm.tsx:62-83 | each error key, when set, holds its fixed message |
| OrderForm.ValidFormMeaning | src/components/OrderForm.tsx:62-83 | a form passes iff the status is "connected", the quantity parses to a positive integer and, for LIMIT, the price parses to a number greater than 0; a MARKET order never gets a price error |
| OrderForm.CollectErrors | src/components/OrderForm.tsx:63-79 | the conditional assignments build exactly the specified error record |
| OrderForm.QuantityTruncates | src/components/OrderForm.tsx:66-73 | `parseInt` truncates, so "0.5" fails as 0 and "2.7" passes as 2 |
| OrderForm.PrintedPositiveIntegersPass | src/components/OrderForm.tsx:62-83 | any positive whole number typed as digits is a valid price and quantity and is read back unchanged |
| OrderForm.Total | src/components/OrderForm.tsx:136-142 | MARKET or a NaN parse gives 0; otherwise the product, with an infinite price times 0 giving NaN |
| OrderForm.InfinitePriceTotal | src/components/OrderForm.tsx:136-142 | "Infinity" passes price validation; its total is NaN with quantity "0" and Infinity with "3" |
| OrderForm.OrderFormState.constructor | src/components/OrderForm.tsx:44-57 | initial state: closed, Buy, LIMIT, empty texts, no errors |
| OrderForm.OrderFormState.ValidateForm | src/components/OrderForm.tsx:62-83 | stores the validation errors and returns true iff there are none |
| OrderForm.OrderFormState.HandleSubmit | src/components/OrderForm.tsx:85-116 | an invalid form sends nothing and keeps the inputs; a valid one sends the side, the price type, the parsed price (LIMIT only) and the positive parsed quantity; success clears and closes, failure keeps the inputs and reports the general error |
| OrderForm.OrderFormState.PlaceOrder | src/components/OrderForm.tsx:91-115 | the order is handed over; success clears the texts and closes, failure sets only the general error |
| OrderForm.OrderFormState.HandleOpenChange | src/components/OrderForm.tsx:144-153 | closing clears both texts, the price type and the errors but keeps the side; opening changes only `isOpen` |
| OrderForm.OrderFormState.CancelButton | src/components/OrderForm.tsx:385 | the Cancel button only closes, with no reset |
| OrderForm.ResetFormFailsValidation | src/components/OrderForm.tsx:144-153 | a form just reset by closing gets both the price and the quantity error |
| OrderForm.NotConnectedBlocks | src/components/OrderForm.tsx:77-79 | any status but "connected" blocks the submit with the general error |
| ActiveOrders.WithoutId | src/components/ActiveOrdersCard.tsx:84-86 | removal keeps exactly the orders with another id and never lengthens the list |
| ActiveOrders.WithoutIdKeepsOrder | src/components/ActiveOrdersCard.tsx:84-86 | survivors keep their relative order |
| ActiveOrders.WithoutIdCounts | src/components/ActiveOrdersCard.tsx:84-86 | each order with another id is kept as many times as it occurs; orders with the id occur zero times |
| ActiveOrders.WithoutIdIdempotent | src/components/ActiveOrdersCard.tsx:84-86 | removing twice is removing once |
| ActiveOrders.AddThenRemove | src/components/ActiveOrdersCard.tsx:81-86 | removing the id of an order just added undoes the add, as far as that id is concerned |
| ActiveOrders.SortNewestFirst | src/components/ActiveOrdersCard.tsx:65-67 | the sorted list is a permutation of the merged list |
| ActiveOrders.SortNewestFirstSorted | src/components/ActiveOrdersCard.tsx:65-67 | the result is ordered by `created_at`, newest first |
| ActiveOrders.SortNewestFirstStable | src/components/ActiveOrdersCard.tsx:65-67 | orders with equal timestamps keep their merged order |
| ActiveOrders.FetchedListIsSortedMerge | src/components/ActiveOrdersCard.tsx:51-69 | the stored list is sorted and holds each order of both responses as often as they do |
| ActiveOrders.ActiveOrdersCard.constructor | src/components/ActiveOrdersCard.tsx:32-35 | initial state: no orders, loading, no error |
| ActiveOrders.ActiveOrdersCard.FetchActiveOrders | src/components/ActiveOrdersCard.tsx:39-76 | without a user id, the list is cleared and nothing is sent; otherwise two identical requests are sent, because the status is never sent; success stores the sorted merge, failure keeps the list and sets the error |
| ActiveOrders.ActiveOrdersCard.AddOrder | src/components/ActiveOrdersCard.tsx:81-83 | the order goes first and the rest is unchanged |
| ActiveOrders.ActiveOrdersCard.RemoveOrder | src/components/ActiveOrdersCard.tsx:84-86 | the list loses exactly the orders with the id; every other order keeps its multiplicity and the order is kept |
| ActiveOrders.ActiveOrdersCard.HandleCancelOrder | src/components/ActiveOrdersCard.tsx:93-112 | without a socket nothing happens; otherwise the id is sent; on resolution the order is removed and the parent notified; on failure the list is kept; the cancelling marker ends cleared |
| ActiveOrders.CancelThroughFeed | src/components/ActiveOrdersCard.tsx:102 | with the feed connection, which has no `cancelOrder`, the cancel is attempted but throws: it never removes the order or notifies the parent |
| Portfolio.CancellableIffPending | src/pages/Portfolio.tsx:42-45 | a status is cancellable iff it upper-cases to "PENDING"; "PARTIALLY_FILLED" is not |
| Portfolio.MarkCancelled | src/pages/Portfolio.tsx:61-67 | the orders with the id get status `undefined`; all others are unchanged |
| Portfolio.CancelledOrderBreaksRender | src/pages/Portfolio.tsx:42-64 | after the rewrite, the cancellability check on that order throws |
| Portfolio.MarkCancelledIdempotent | src/pages/Portfolio.tsx:61-67 | marking twice is marking once |
| Portfolio.LoadErrorMessage | src/pages/Portfolio.tsx:116-120 | "Account not found" iff the HTTP status is 404, else the generic message |
| Portfolio.PortfolioPage.constructor | src/pages/Portfolio.tsx:29-37 | initial state: loading, nothing loaded |
| Portfolio.PortfolioPage.HandleCancelOrder | src/pages/Portfolio.tsx:48-85 | only a successful answer rewrites the orders; the cancelling marker ends cleared |
| Portfolio.PortfolioPage.FetchPortfolioData | src/pages/Portfolio.tsx:87-124 | without a user id, it reports that and sends nothing; otherwise it sends the account request and three requests with `page_size=50`; success stores all four results, failure keeps them and sets the message |
| Portfolio.PageOf50Query | src/pages/Portfolio.tsx:103-105 | `{ page_size: 50 }` gives the single query parameter `page_size=50` |
| Portfolio.UpperKeyedRolesUseUserConfig | src/pages/Portfolio.tsx:134-168 | since the lookup is by the lower-cased role, the upper-case keys are never used and those roles get the `user` style |
| Portfolio.DisplayNameIsRoleText | src/pages/Portfolio.tsx:171-188 | up to letter case, the badge text is the lower-cased role with its first `_` made a space |
| Portfolio.VicePresidentDisplayName | src/pages/Portfolio.tsx:182-188 | "VICE_PRESIDENT" is shown as "Vice President" |
| Portfolio.IsActiveIsRecentLogin | src/pages/Portfolio.tsx:197-201 | the activity check is the dashboard's 30-day rule; a missing login is inactive |
| Portfolio.TotalPnLConcat | src/pages/Portfolio.tsx:203-209 | the total P&L is additive over any split of the positions |
| Portfolio.TotalPnLOne | src/pages/Portfolio.tsx:203-209 | each position adds realized plus unrealized P&L, a missing figure counting as 0 |
| ApiKeys.Revoke | src/pages/ApiKeys.tsx:60-64 | same length; the keys with the id become inactive and all other keys are unchanged |
| ApiKeys.RevokeIdempotent | src/pages/ApiKeys.tsx:60-64 | revoking twice is revoking once |
| ApiKeys.ActiveRevokedPartition | src/pages/ApiKeys.tsx:161-162 | the active and revoked lists split the keys: each key is counted once, and both lists keep the list order |
| ApiKeys.RevokeLeavesNoActiveKey | src/pages/ApiKeys.tsx:59-66 | after a revoke no active key has that id, and the other active keys are unchanged |
| ApiKeys.AgoSingularIffOne | src/pages/ApiKeys.tsx:105-107 | the unit word is singular exactly when the count is 1 |
| ApiKeys.FormatLastUsedBuckets | src/pages/ApiKeys.tsx:94-110 | a missing timestamp gives "Never used"; under a minute (future included) gives "Just now"; then whole minutes, hours and days up to a week; then the formatted date |
| ApiKeys.ApiKeysPage.constructor | src/pages/ApiKeys.tsx:26-30 | initial state: loading, no keys |
| ApiKeys.ApiKeysPage.FetchApiKeys | src/pages/ApiKeys.tsx:35-47 | success stores the keys; failure keeps them and shows the server detail or the generic message |
| ApiKeys.ApiKeysPage.HandleKeyCreated | src/pages/ApiKeys.tsx:55-57 | the new key is prepended and the rest is unchanged |
| ApiKeys.ApiKeysPage.HandleKeyRevoked | src/pages/ApiKeys.tsx:59-66 | a soft revoke that keeps the length; the key to revoke is cleared |
| CreateApiKeyModal.MaskKey | src/components/api-keys/CreateApiKeyModal.tsx:126-131 | defined iff the key has at least 20 characters; same length, same first 20 characters, bullets after |
| CreateApiKeyModal.MaskHidesSecret | src/components/api-keys/CreateApiKeyModal.tsx:126-131 | the mask depends only on the first 20 characters and the length |
| CreateApiKeyModal.MaskKeyIdempotent | src/components/api-keys/CreateApiKeyModal.tsx:126-131 | masking a mask changes nothing |
| CreateApiKeyModal.ListedKey | src/components/api-keys/CreateApiKeyModal.tsx:58-68 | the key handed to the page copies id, prefix, name and dates, is active and never used, and has no secret |
| CreateApiKeyModal.ListedKeyIsActiveAndUnused | src/components/api-keys/CreateApiKeyModal.tsx:58-68 | a handed-over key joins the active list and reads "Never used" |
| CreateApiKeyModal.KeyModal.constructor | src/components/api-keys/CreateApiKeyModal.tsx:40-45 | initial state: create step, empty name, no key, key shown |
| CreateApiKeyModal.KeyModal.ResetModal | src/components/api-keys/CreateApiKeyModal.tsx:47-53 | back to the create step with an empty name, no key, not copied, key shown |
| CreateApiKeyModal.KeyModal.HandleClose | src/components/api-keys/CreateApiKeyModal.tsx:55-72 | the parent's `onOpenChange` always gets `open`, as the last call; closing first hands the listed form of the created key, if any, to `onKeyCreated` and resets; opening changes nothing |
| CreateApiKeyModal.KeyModal.HandleCreate | src/components/api-keys/CreateApiKeyModal.tsx:74-104 | a blank name sends nothing and changes nothing; otherwise the trimmed, non-empty name is sent; success stores the key and moves to the display step; failure stays put |
| CreateApiKeyModal.KeyModal.ToggleShowKey | src/components/api-keys/CreateApiKeyModal.tsx:45 | toggles whether the key is shown |
| CreateApiKeyModal.CreateAndClose | src/components/api-keys/CreateApiKeyModal.tsx:55-104 | create then close calls the parent's `onKeyCreated` with the listed response, then `onOpenChange(false)`, and returns to the create step |
| Admin.GetQueryOf | src/services/admin.ts:49-54 | each key a getter reads is present iff its filter is truthy, with its value; every other key, `status` included, is absent |
| Admin.QueryOfInKeyOrder | src/services/admin.ts:36-41 | parameters appear in the getter's key order |
| Admin.StatusNeverSent | src/services/admin.ts:62-67 | filters that differ only in `status` give the same query |
| Admin.NoFiltersNoQuery | src/services/admin.ts:19-22 | no filters give an empty query |
| Admin.AppendText | src/services/admin.ts:20 | appends the entry iff the value is truthy |
| Admin.AppendNumber | src/services/admin.ts:21-22 | appends the printed number iff it is truthy (not 0) |
| Admin.RangeParams | src/services/admin.ts:36-41 | the successive appends give the specified query |
| Admin.GetAllAccounts | src/services/admin.ts:18-26 | path `/api/v1/accounts` with role, page and page_size in that order |
| Admin.GetAccount | src/services/admin.ts:29-32 | path `/api/v1/accounts/<id>` with no query |
| Admin.GetAllTrades | src/services/admin.ts:35-45 | path `/api/v1/trades` with symbol, after, before, page and page_size |
| Admin.GetAccountTrades | src/services/admin.ts:48-58 | the account's trades path with the range query |
| Admin.GetAccountOrders | src/services/admin.ts:61-71 | the account's orders path with the range query |
| Admin.GetAccountPositions | src/services/admin.ts:74-84 | the account's positions path with the range query |
| Admin.ActiveAccounts | src/services/admin.ts:97-100 | exactly the accounts with a valid login later than 30 days ago, each as many times as it occurs in the input |
| Admin.ActiveAccountsConcat | src/services/admin.ts:97-100 | filtering a concatenation filters each part |
| Admin.AdminStatsOf | src/services/admin.ts:87-115 | the counts of accounts and trades; active traders at most the member count; credits equal the sum of balances |
| Admin.ActiveTradersCountsRecentLogins | src/services/admin.ts:97-100 | the active-trader count of any account list: 0 for none, and appending an account adds 1 iff its login is in the window; a missing or invalid login never counts |
| Admin.MembersWithStats | src/services/admin.ts:118-156 | same length and order; zero trading figures; active cash equals the balance |
| Admin.MembersCashIsCredits | src/services/admin.ts:103-145 | the member list's active cash adds up to the credits issued |
| Members.FilteredMembers | src/pages/admin/Members.tsx:117-120 | exactly the members whose lower-cased name or e-mail contains the lower-cased term, each as many times as it occurs |
| Members.EmptySearchKeepsAll | src/pages/admin/Members.tsx:117-120 | an empty term returns every member in order |
| Members.SearchKeepsOrder | src/pages/admin/Members.tsx:117 | the results keep the list order |
| Members.SearchIdempotent | src/pages/admin/Members.tsx:117-120 | searching twice with the same term is searching once |
| Members.RoleLabelIsRoleText | src/pages/admin/Members.tsx:112 | same length as the role; up to letter case, the label is the role with its first `-` made a space |
| Members.VicePresidentLabel | src/pages/admin/Members.tsx:112 | "vice-president" is labelled "Vice President" |
| Members.OnlyFirstHyphenReplaced | src/pages/admin/Members.tsx:112 | only the first hyphen becomes a space |
| Auth.FirebaseUserToAppUser | src/services/auth.ts:17-27 | all fields are copied; the username is the display name iff that is truthy |
| Auth.DefaultMessageIffUnknownCode | src/services/auth.ts:38-65 | the default message appears exactly for codes without their own; the two cancelled-popup codes share one text |
| Auth.ToAuthError | src/services/auth.ts:30-35 | a truthy code is kept and a falsy one becomes "unknown" with the default message; the message is always the code's message |
| Auth.GoogleSignInDomainRule | src/services/auth.ts:134-191 | the sign-in succeeds iff the address ends with "@colorado.edu"; any other address is signed out and refused with `auth/invalid-email`; a user without an address gets "unknown" |
| Auth.DomainRefusalHasOwnMessage | src/services/auth.ts:148-155 | the domain refusal does not use the mapped `auth/invalid-email` message |
| Api.GetAuthBearer | src/lib/api.ts:6-20 | a truthy access token wins; the API key is used only without one; with neither, the result is `{}` |
| Api.ApiKeyOnlyAsFallback | src/lib/api.ts:10-16 | with a usable token the key does not matter; an empty token is treated as no token |
| Api.BearerHasCredential | src/lib/api.ts:10-16 | a header string always starts with "Bearer " and carries a non-empty credential |
| JsStrings.TrimEmptyIffAllWhitespace | src/components/api-keys/CreateApiKeyModal.tsx:75 | a name trims to "" iff it is all white space |
| JsStrings.TrimIdempotent | src/components/api-keys/CreateApiKeyModal.tsx:87 | trimming a trimmed name changes nothing |
| JsStrings.LowerReplaceFirst | src/pages/Portfolio.tsx:184-188 | lower-casing commutes with replacing the first non-letter character |
| JsStrings.CapitaliseWordStartsSpec | src/pages/admin/Members.tsx:112 | capitalising changes only the letters at word starts |
| JsNumbers.NotPositive | src/components/OrderForm.tsx:69 | `isNaN(x) \|\| x <= 0` is exactly `!(x > 0)` |
| JsNumbers.ParseIntStopsAtNonDigit | src/components/OrderForm.tsx:66 | `parseInt` reads the leading digits and stops at the first other character |
| JsNumbers.ParseIntOfIntToString | src/components/OrderForm.tsx:66 | a printed integer parses back to itself |
| JsNumbers.ParseFloatOfIntToString | src/components/OrderForm.tsx:65 | a printed integer is read back exactly by `parseFloat` |

## Left out

- Network, Firebase and socket I/O are not modelled. Responses, error codes, the clock and `localStorage` values are parameters. The async ordering of `Promise.all` and of React renders is not modelled.
- Toast notifications, `console` logging, clipboard copying and its feedback timers are left out, as is the JSX rendering (skeletons, badges as markup, disabled buttons).
- Doubles are exact reals. There is no rounding or overflow; the only infinities modelled are those `parseFloat` reads. UTF-16 code units and code points are not distinguished.
- Case mapping is ASCII only, so non-ASCII letters such as dotless ı keep their case.
- Integer `toString` is modelled without exponent notation (so only for magnitudes below 10^21).
- URL encoding of query values and the `?` joining of the query string are not modelled. A request is a path plus an ordered list of key/value pairs.
- Record lookups on JavaScript object literals are modelled as finite tables. Prototype keys such as "constructor" are not modelled.
- ActiveOrders.SortNewestFirst: the comparator is modelled on the `created_at` instants. An invalid date (a NaN comparator result) is not modelled.
- ApiKeys.FormatLastUsed: `toLocaleDateString` is a parameter (`formatted`). An invalid date string yields that text, as in the code.
- OrderForm's available-cash effect (lines 155-186), the price, quantity and total formatting helpers, and the plain field setters are left out. They hold no logic beyond display.
- `signUpUser`, `signInUser`, `signOutUser`, `signInWithSSO`, `sendPasswordReset`, `updateUserProfile` and `getUser` are left out. Each only wraps a Firebase call and uses the modelled error conversion.
- `updateAccountBalance`, `updateAccountRole` and `cancelOrder` in `AdminService` are left out. Each is a single request with a body; their result is a parameter of the callers that use them.
- The `OrderMock` page constructs its connection but never calls `openConnection` (which would throw anyway), so in the app no frame ever arrives. `OrderMock.OrderMockPage.Receive` states what the page would show if frames were delivered. `unsubscribe` on unmount is not modelled.
- The websocket base class is modelled through its `ws` and `isConnecting` fields and `connect`. The browser's `readyState` changes are not modelled: a created socket stays not OPEN in the model. A `new WebSocket(url)` that throws on a malformed address is not modelled. `unsubscribe` and `subscribe` are not part of this model.
