# Merchant back-office client core, modelled in Dafny

This project models the three pieces of sequential logic in a food-delivery
merchant back-office front end:

- **The order workflow prototype** (`src/raw/merchant-order/order.js`): an
  in-memory list of orders, the order currently open in the detail view and
  the time of the last polling refresh. The pending list is re-derived from
  the orders by a filter. Opening an order selects the first order with that
  id. Accepting or rejecting sets the open order's status in place, closes
  the detail view and re-derives the list. The class `Orders.OrderBoard`
  holds the page state: `orders` as a sequence, `current` as the index of the
  open order (an index, because the page mutates the element of the array
  that `currentOrder` points to), and `lastRefresh` in milliseconds. Its
  invariant keeps the selection in range and the order ids distinct; the
  seed data has distinct ids and accepting or rejecting changes none.
- **The session token store** (`src/apis/auth.js`): `setToken`, `getToken`,
  `removeToken` and `isAuthenticated` over one `"token"` entry of the
  browser's key-value store, modelled as the class `Storage.LocalStorage`
  over a `map<string, string>`.
- **The request layer** (`src/utils/fetcher.js`): the header object
  (`Content-Type` always, `Authorization: Bearer <token>` only when asked
  for and a non-empty token is stored), the URL `BASE_URL + endpoint`, and
  how a call settles. The server's reply is a parameter of `ApiGet` and
  `ApiPost`. A reply whose `ok` flag is false rejects with the body's
  `message` if it is truthy and otherwise with `"API Error: " + status`. A
  body that does not parse counts as `{}`. The defaults of the JavaScript
  signatures are kept as Dafny default parameters: `includeAuth` is `true`
  and a POST without data sends `{}`.

Three behaviours of the code are kept on purpose:

- An unknown id passed to `showDetails` clears the selection. The result of
  the lookup is stored before it is tested (order.js:81-82), so the
  previous selection is not kept.
- `handleOrderAction` does not check that the open order is still pending.
  Only pending orders get a list card, and with unique ids a card click
  selects a pending order (`CardSelectsPending`). Nothing else enforces that
  a decision is final (`ActionDoesNotCheckStatus`).
- A failed reply whose body is the JSON literal `null` does not reach the
  message rule. Reading `.message` of `null` throws, so such a call rejects
  with that TypeError (`Fetcher.Outcome.NullBodyError`).

`handleOrderAction(action)` (order.js:116) takes no rejection reason.

Modules: `Wrappers` (Option), `Js` (string truthiness and the decimal
text of a status code), `Storage`, `Auth`, `Fetcher` and `Orders`.

## Model

| member | source | states |
|---|---|---|
| `Js.DecimalText` | src/utils/fetcher.js:43 | the text of a status code in a template literal is a non-empty run of decimal digits with no leading zero |
| `Js.DecimalRoundTrip` | src/utils/fetcher.js:43 | reading back the decimal text of a status code gives the code |
| `Js.DecimalTextInjective` | src/utils/fetcher.js:43 | two different status codes never produce the same fallback text |
| `Storage.LocalStorage.GetItem` | src/apis/auth.js:92 | `getItem` returns the stored string, or null when the key is absent |
| `Storage.LocalStorage.SetItem` | src/apis/auth.js:84 | `setItem` writes one key and leaves every other entry alone |
| `Storage.LocalStorage.RemoveItem` | src/apis/auth.js:99 | `removeItem` deletes one key and leaves every other entry alone |
| `Auth.SetToken` | src/apis/auth.js:83-85 | the store afterwards is the old store with `"token"` overwritten by the new token |
| `Auth.GetToken` | src/apis/auth.js:91-93 | returns the stored token exactly when one is stored, and null otherwise; changes nothing |
| `Auth.RemoveToken` | src/apis/auth.js:98-100 | the store afterwards is the old store without `"token"` |
| `Auth.IsAuthenticated` | src/apis/auth.js:106-108 | true iff a token is stored and it is non-empty (an empty token is not a session); changes nothing |
| `Auth.SetThenGet` | src/apis/auth.js:83-93 | after `setToken(t)` the token read back is `t`, and every other key reads as before |
| `Auth.LoggedInAfterSet` | src/apis/auth.js:83-108 | right after `setToken(t)` the user counts as logged in iff `t` is non-empty |
| `Auth.RemoveThenGet` | src/apis/auth.js:98-108 | after `removeToken()` no token is read and nobody is logged in; other keys are intact; removing twice equals removing once |
| `Auth.LoginThenLogout` | src/apis/auth.js:83-108 | a session is live between `setToken` and `removeToken` iff the token is non-empty, and gone afterwards |
| `Fetcher.RequestUrl` | src/utils/fetcher.js:36 | the request URL is the base origin followed by the endpoint, nothing between them |
| `Fetcher.HeadersFor` | src/utils/fetcher.js:14-27 | `Content-Type: application/json` is always present; `Authorization` is present iff auth is requested and the stored token is non-empty, and then it is `Bearer ` + token; there are no other keys |
| `Fetcher.GetToken` | src/utils/fetcher.js:7-9 | fetcher.js reads the same stored entry under its own `"token"` key |
| `Fetcher.CreateHeaders` | src/utils/fetcher.js:14-27 | the header object built step by step is the one `HeadersFor` describes; `includeAuth` defaults to true |
| `Fetcher.FailureMessage` | src/utils/fetcher.js:42-43 | the error message is the body's `message` when it is non-empty, otherwise `API Error: ` followed by the status |
| `Fetcher.Settle` | src/utils/fetcher.js:35-47 | a transport failure is passed on; a reply with `ok` set resolves with its body or rejects when the body does not parse; a reply with `ok` unset rejects with the message rule, with an unparseable body read as `{}` and a `null` body throwing |
| `Fetcher.ApiGet` | src/utils/fetcher.js:35-47 | a GET to base URL + endpoint with the headers for the store (authenticated unless the caller says otherwise), settled by the shared rule |
| `Fetcher.ApiPost` | src/utils/fetcher.js:56-69 | a POST to base URL + endpoint with the same headers and the serialised payload (`{}` by default), settled by the same rule as GET |
| `Fetcher.DefaultCallsAreAuthenticated` | src/utils/fetcher.js:35-65 | a GET or POST that leaves `includeAuth` at its default sends `HeadersFor` with auth requested, and a POST without data sends `{}` |
| `Fetcher.FallbackNamesStatus` | src/utils/fetcher.js:43 | when the body has no usable message, the text after `API Error: ` reads back as the status code |
| `Fetcher.NotFoundScenario` | src/utils/fetcher.js:41-44 | a 404 with body message "not found" rejects with exactly that; a 404 with an unparseable body rejects with "API Error: 404" |
| `Fetcher.EmptyMessageFallsBack` | src/utils/fetcher.js:43 | an empty `message` is treated exactly like a missing one |
| `Fetcher.HeadersFollowSession` | src/utils/fetcher.js:7-24 | after `setToken(t)` with non-empty `t` an authenticated request carries `Bearer t`; after `removeToken()` it carries no Authorization |
| `Fetcher.NoAuthWithoutIncludeAuth` | src/utils/fetcher.js:19 | without `includeAuth` the headers are only the content type, whatever is stored |
| `Orders.PendingOf` | src/raw/merchant-order/order.js:46 | the pending list is no longer than the orders and holds only pending orders |
| `Orders.PendingMembers` | src/raw/merchant-order/order.js:46 | an order is in the pending list iff it is one of the orders and its status is pending |
| `Orders.PendingOfConcat` | src/raw/merchant-order/order.js:46 | the filter keeps relative order: the pending list of a concatenation is the concatenation of the pending lists |
| `Orders.PendingOfSingle` | src/raw/merchant-order/order.js:46 | a single order is kept iff it is pending |
| `Orders.FindIndex` | src/raw/merchant-order/order.js:81 | the lookup finds the first order with the id, or nothing when no order has it |
| `Orders.CardSelectsPending` | src/raw/merchant-order/order.js:60-64 | with unique ids, clicking a card built from the pending list opens exactly that order, which is pending |
| `Orders.LineSubtotals` | src/raw/merchant-order/order.js:88-90 | the detail view shows one subtotal per line item, in item order, each `price * qty` |
| `Orders.SeedOrders` | src/raw/merchant-order/order.js:2-32 | the page's data is two orders, both pending, with distinct ids |
| `Orders.SeedWellFormed` | src/raw/merchant-order/order.js:2-32 | each seed order's amount equals the sum of its line subtotals |
| `Orders.ElapsedSeconds` | src/raw/merchant-order/order.js:158 | the indicator shows the floor of the elapsed milliseconds over 1000, which is non-negative iff `now >= lastRefreshTime` |
| `Orders.ApplyAction` | src/raw/merchant-order/order.js:119-134 | `accept` sets the order's status to accepted, `reject` to rejected, any other action changes nothing; no other order and no other field changes; the length stays |
| `Orders.ActionOnPendingIsAllowed` | src/raw/merchant-order/order.js:116-134 | acting on a pending order only moves that order from pending to a decided status |
| `Orders.ActionDoesNotCheckStatus` | src/raw/merchant-order/order.js:116-134 | the action itself does not check the status: an accepted order still open would be rejected |
| `Orders.PendingWithoutOne` | src/raw/merchant-order/order.js:46 | with unique ids, dropping a pending order's id from the pending list removes that one entry |
| `Orders.PendingAfterLeaving` | src/raw/merchant-order/order.js:46 | when one order leaves pending and nothing else changes, its entry alone leaves the pending list |
| `Orders.PendingAfterAction` | src/raw/merchant-order/order.js:119-138 | with unique ids, accepting or rejecting a pending order gives the previous pending list without that order, the rest in order |
| `Orders.ApplyActionKeepsIds` | src/raw/merchant-order/order.js:119-134 | accepting or rejecting changes no id, so distinct ids stay distinct |
| `Orders.SeedWalkthrough` | src/raw/merchant-order/order.js:2-32 | on the seed data both orders are pending; accepting the first leaves only the second; rejecting that leaves none |
| `Orders.OrderBoard.constructor` | src/raw/merchant-order/order.js:2-142 | the page starts with the two seed orders, nothing open and the refresh clock at load time; the board invariant (selection in range, distinct ids) holds from the start |
| `Orders.OrderBoard.FetchPendingOrders` | src/raw/merchant-order/order.js:44-49 | returns the pending projection and changes neither the orders nor the selection |
| `Orders.OrderBoard.ShowDetails` | src/raw/merchant-order/order.js:80-89 | the selection becomes the first order with the id, or none (an unknown id clears it); the orders are untouched; the subtotals shown are those of the selected order |
| `Orders.OrderBoard.CloseModal` | src/raw/merchant-order/order.js:110-113 | the selection is cleared |
| `Orders.OrderBoard.HandleOrderAction` | src/raw/merchant-order/order.js:116-139 | with nothing open, nothing changes; otherwise the open order is updated as `ApplyAction` says, the selection is cleared for any action, and the pending list is re-derived |
| `Orders.OrderBoard.AutoRefresh` | src/raw/merchant-order/order.js:144-154 | a polling tick re-derives the pending list and restarts the clock, so the indicator then shows 0 |
| `Orders.OrderBoard.RefreshIndicator` | src/raw/merchant-order/order.js:157-159 | the seconds shown are the elapsed-seconds formula on the stored refresh time |
| `Orders.PageWalkthrough` | src/raw/merchant-order/order.js:2-139 | on the page as loaded, both seed orders are listed; opening the first and accepting it leaves only the second listed; showing an id no order has leaves nothing selected |
| `Orders.ClickCardThenAct` | src/raw/merchant-order/order.js:60-139 | a card click followed by accept or reject changes only the clicked order's status (as `ApplyAction` says) and the selection, closes the view, and the page's pending list afterwards is the previous one without the clicked order |

## Left out

- Rendering in order.js (`renderOrderList`, the detail view's HTML, modal display, `alert`, `console.log`, `window.onload`, `window.onclick`): string templating with no contract beyond the subtotals, which are modelled.
- Timers: the `setTimeout` scheduling of `autoRefresh` and `updateRefreshIndicator` and the clock `new Date()`; the current time is a parameter in integer milliseconds, and each tick is one method call.
- `fetch`, `response.json()` and `JSON.stringify`: the exchange with the server is a parameter, a POST payload arrives already serialised, and a body is abstracted to "does not parse", `null`, or a value with its string-valued fields.
- Fetcher.FailureMessage: a `message` field that is not a string (a number, an object) is not modelled, so its conversion to text by `new Error(...)` is not covered.
- The API wrappers of auth.js (`getCaptcha`, `register`, `login`, `getProfile`, `changeUsername`, `changePassword`): each is one call of `apiGet`/`apiPost` with a fixed endpoint.
- src/apis/merchant.js, src/router.js and src/main.js: endpoint wrappers, route table and app bootstrap, not part of this model.
- Browser storage details: `localStorage` is a browser global with no declaration in these files; string coercion of non-string values and persistence between visits are not modelled (the `LocalStorage` constructor takes the persisted map).
- The detail view's visibility: `showDetails` with an unknown id returns before the modal's display is touched (order.js:82, 106), so a detail view already open stays on screen showing the earlier order while `currentOrder` is cleared and its buttons do nothing (order.js:117). The model tracks `currentOrder` only, so what is shown and what is selected can differ there.
- The `ok` flag of a reply is taken as given; that the browser sets it exactly for statuses 200-299 is not modelled.
- Numbers: JavaScript numbers are modelled as mathematical integers (prices, quantities, amounts, times) and an HTTP status as a natural number; floating-point rounding is not modelled.
- Aliasing of the pending list: `filter` returns the same order objects that `orders` holds; the model returns values.
