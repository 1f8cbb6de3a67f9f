# Spending goals and their automatic discounts

A merchant defines spending goals. Each goal has a cart-subtotal threshold and a
reward tier, chosen by a tab index: 0 for free shipping, 1 for a percentage off,
2 for a fixed amount off. Each goal should have a matching automatic discount in
the store's promotions service. This project models the layer that keeps the two
in step:

- `DiscountHelpers` (`discountHelpers.js`): the pure rules. These build a goal's
  title, pick its discount value and validate its fields, first failure first.
- `DiscountHandlers` (`discount-handlers.server.js`): the create, update and
  delete handlers. The class `GoalStore` holds the goal table (`rows`, a map
  from row id to goal, and the auto-increment `nextId`) and a ghost `trace` of
  every gateway call and table write, in order. No handler writes the table
  before its gateway call (delete makes no gateway call at all when the row has
  no discount id). `Valid()` keeps that order (`ExternalFirst`). It also keeps a
  second fact: every row the create handler writes carries a confirmed,
  non-empty discount id.
- `DiscountsJs` (`discounts.server.js`) and `DiscountsJsx` (the live second half
  of `discounts.server.jsx`): the discount gateways. Each builds the
  automatic-discount configuration from the tab and checks the service's error
  lists. The `.jsx` gateway checks top-level `errors` before `userErrors` and
  prefixes every failure with the name of the operation.
- `CartRoute` (the live half of `api.cart.jsx`): the older route. Its class
  `CartTable` runs the CREATE / UPDATE / DELETE dispatch, which writes locally
  first (`LocalFirst`). A failed post to the store leaves the written row in
  place. UPDATE posts a *new* price rule. DELETE never calls the store.
- `JsValues`, `Tiers` and `AdminApi` hold shared pieces:
  - JavaScript numbers as integers or NaN, with their decimal text and
    `parseFloat`/`parseInt`, proved to round-trip (`ParseFormat`);
  - the tab-to-tier reference classification;
  - the `errors`/`userErrors` lists.
- `Agreement` relates the four tab mappings to each other.

The promotions service, the HTTP request and the clock are parameters. Each
handler or gateway method receives the answer the service gives if it is
called. Each gateway method returns what it sends; each handler records its
calls in the trace, and its contract says what each store holds afterwards for
every possible answer.

## Model

| member | source | states |
|---|---|---|
| `DiscountHelpers.DiscountTitle` | app/routes/utils/discountHelpers.js:2-8 | Tab 0 gives "Spend {goal} to get free shipping". Tab 1 gives "Spend {goal} to get {percentage}% off". Every other tab, unexpected values included, gives "Spend {goal} to get ${fixed} off". |
| `DiscountHelpers.DiscountValue` | app/routes/utils/discountHelpers.js:10-13 | The value is the percentage on tab 1, the fixed amount on tab 2, and null on every other tab. |
| `DiscountHelpers.ValidateDiscountData` | app/routes/utils/discountHelpers.js:15-27 | A goal amount that is missing, NaN or ≤ 0 is rejected with "Invalid spending goal" before any tier check. If the goal passes: tab 1 is rejected iff its percentage is not positive, and tab 2 iff its fixed amount is not positive. Accepted iff all applicable amounts are positive. There is no upper bound on the percentage. |
| `DiscountHelpers.FreeShippingIgnoresAmounts` | app/routes/utils/discountHelpers.js:15-27 | Tab 0 with a positive goal is accepted whatever the percentage and fixed-amount fields hold. |
| `DiscountHelpers.AcceptedHasPositiveValue` | app/routes/utils/discountHelpers.js:10-27 | An accepted goal has a positive amount. Its discount value is null exactly off tabs 1 and 2, and positive on them. |
| `DiscountHelpers.TitleNamesValue` | app/routes/utils/discountHelpers.js:2-13 | On tabs 1 and 2 the title shows exactly the value that `DiscountValue` picks. |
| `DiscountHelpers.TitleExamples` | app/routes/utils/discountHelpers.js:2-8 | (50, tab 1, 10) gives "Spend 50 to get 10% off". (20, tab 0) gives "Spend 20 to get free shipping". (30, tab 2, 5) gives "Spend 30 to get $5 off". |
| `JsValues.ParseFormat` | app/routes/utils/discounts.server.js:12 | Parsing a number's decimal text gives the number back, NaN included. |
| `JsValues.ParseNumber` | app/routes/utils/discount-handlers.server.js:10 | Text that does not start with a digit or a sign reads as NaN. A negative result comes only from text starting with "-". |
| `JsValues.ParseStopsAtNonDigit` | app/routes/utils/discount-handlers.server.js:10 | Parsing stops at the first character that is not a digit: a number's text followed by such a character reads as that number, so "49.99" reads as 49 in this model (see Left out). |
| `JsValues.DigitRun` | app/routes/utils/discount-handlers.server.js:10 | The digit prefix `parseFloat` reads is all digits and maximal. |
| `DiscountHandlers.CreateData` | app/routes/utils/discount-handlers.server.js:7-16 | The title defaults to "Spending Goal Discount". An absent or empty percentage or fixed amount becomes 0. `freeShipping` is true iff the form value is the string "true". Shop and announcement are taken as given. |
| `DiscountHandlers.UpdateInput` | app/routes/utils/discount-handlers.server.js:48-55 | Update reads the same amounts as create, takes the title without a default, and takes no shop or free-shipping flag. |
| `DiscountHandlers.FormAmountsReadBack` | app/routes/utils/discount-handlers.server.js:10-12 | A goal amount or tab submitted as a number's text is read back as that number by both handlers. |
| `DiscountHandlers.ConfirmedId` | app/routes/utils/discount-handlers.server.js:26-28 | A create answer confirms an id iff it is an answer, not a throw, and its node id is present and non-empty. |
| `DiscountHandlers.ApplyUpdate` | app/routes/utils/discount-handlers.server.js:72-75 | The update writes the form's fields. The shop, the free-shipping flag and the discount id stay as they were. |
| `DiscountHandlers.InsertsFollowCreates` | app/routes/utils/discount-handlers.server.js:24-36 | Under external-first ordering there are never more row inserts than gateway creates. |
| `DiscountHandlers.GoalStore.HandleCreate` | app/routes/utils/discount-handlers.server.js:5-43 | A missing shop or a NaN or zero goal gives 400 "Missing required fields", with no gateway call and no row. The gateway is called before the table. With no confirmed id the reply is 400 (the thrown message, or "Failed to create Shopify discount") and the table is unchanged. On success exactly one row is added under the next id: the parsed fields plus the gateway's id. |
| `DiscountHandlers.GoalStore.HandleUpdate` | app/routes/utils/discount-handlers.server.js:45-82 | An unknown id gives 400 "Goal not found" with no gateway call. Otherwise the gateway gets the stored discount id. If the gateway throws, the reply is 400 with its message and the table is exactly as before. On success only that row changes, after the gateway call. |
| `DiscountHandlers.GoalStore.HandleDelete` | app/routes/utils/discount-handlers.server.js:84-110 | An unknown id gives 400 "Goal not found" with no gateway call. The gateway is called only when the row's discount id is non-empty, and a throw there keeps the row (400). Otherwise the row, and only that row, is removed after the gateway call. |
| `AdminApi.FirstMessage` | app/routes/utils/discounts.server.js:52-53 | Empty iff the list is empty; otherwise the first entry's message. |
| `DiscountsJs.CustomerGetsFor` | app/routes/utils/discounts.server.js:16-27 | Type 0 gives shipping with `onShipping` true. Type 1 gives the value unchanged as a percentage. Any other type gives exactly the value's `toString()` text (`Format`) as a fixed amount, and that text reads back as the value. |
| `DiscountsJs.BuildCreateConfig` | app/routes/utils/discounts.server.js:4-29 | All customers qualify. The title is passed through. The subtotal minimum is exactly the goal's `toString()` text (`Format`) and reads back as the goal. The reward follows `CustomerGetsFor`. |
| `DiscountsJs.BuildUpdateRequest` | app/routes/utils/discounts.server.js:72-93 | Targets the given discount id and carries create's subtotal minimum and reward. |
| `DiscountsJs.CheckUserErrors` | app/routes/utils/discounts.server.js:50-56 | Fails iff `userErrors` is non-empty, with the first message. Otherwise returns the result unchanged. |
| `DiscountsJs.CreateAutomaticDiscount` | app/routes/utils/discounts.server.js:1-57 | Sends exactly `BuildCreateConfig`'s configuration, then fails with the first user error or returns the answer. |
| `DiscountsJs.UpdateAutomaticDiscount` | app/routes/utils/discounts.server.js:59-105 | Sends exactly `BuildUpdateRequest`'s request for the discount id, with create's mapping, then applies the same user-error rule. |
| `DiscountsJs.DeleteAutomaticDiscount` | app/routes/utils/discounts.server.js:107-133 | Sends the given discount id. Fails with the first user error, or returns the answer. |
| `DiscountsJsx.CreateTitle` | app/routes/utils/discounts.server.jsx:199-203 | A non-empty title is kept. A missing or empty one becomes "Spend {goal to two decimals} to save". |
| `DiscountsJsx.CustomerGetsFor` | app/routes/utils/discounts.server.jsx:217-247 | Tab 0 gives a shipping-line fixed amount of 999999. Tab 1 gives the percentage on all items. Any other tab gives the fixed amount to two decimals on all items. |
| `DiscountsJsx.SetCustomerGets` | app/routes/utils/discounts.server.jsx:216-247 | The tab branch sets `customerGets` and changes no other field of the configuration. |
| `DiscountsJsx.BuildCreateConfig` | app/routes/utils/discounts.server.jsx:198-247 | Sets the defaulted title, a start and an end stamp, the goal to two decimals as subtotal minimum, all customers and the tab's reward. |
| `DiscountsJsx.BuildUpdateConfig` | app/routes/utils/discounts.server.jsx:334-381 | Builds the same configuration as create, except that the title is taken as given and there is no start or end stamp. |
| `DiscountsJsx.CreateAndUpdateShareReward` | app/routes/utils/discounts.server.jsx:338-381 | Create and update send the same reward and subtotal minimum. Only create carries a start and an end. |
| `DiscountsJsx.ResponseError` | app/routes/utils/discounts.server.jsx:304-316 | Top-level `errors` are checked before `userErrors`. Either non-empty list yields its first message. None iff both are empty. |
| `DiscountsJsx.CreateAutomaticDiscount` | app/routes/utils/discounts.server.jsx:195-329 | Every failure is "Failed to create discount: " plus the message. Success iff there is no error and the answer has a discount. The result's `discountId` is that discount's id. |
| `DiscountsJsx.UpdateAutomaticDiscount` | app/routes/utils/discounts.server.jsx:331-430 | Sends the discount id and the update configuration. Failures are prefixed "Failed to update discount: ". Success returns the answer's discount. |
| `DiscountsJsx.DeleteAutomaticDiscount` | app/routes/utils/discounts.server.jsx:432-477 | Sends the given discount id. Failures are prefixed "Failed to delete discount: ". Success returns `deletedId` from the answer. |
| `CartRoute.PriceRuleFor` | app/routes/api.cart.jsx:90-113 | Tabs 0, 1 and 2 map to free_shipping (value 0), percentage and fixed_amount, each with the goal as subtotal threshold. Any other tab gives no rule. |
| `CartRoute.OptionalAmount` | app/routes/api.cart.jsx:177-178 | An absent or empty amount is stored as null. Otherwise it is stored as its parsed number. |
| `CartRoute.NewRow` | app/routes/api.cart.jsx:170-180 | Defaults: shop "", goal 50, announcement "", tab 0. Absent amounts and an absent free-shipping flag are stored as null. |
| `CartRoute.ChangedRow` | app/routes/api.cart.jsx:189-200 | Every column is taken from the form without defaults. The amounts and flag follow the same null rule as CREATE. |
| `CartRoute.CartTable.Load` | app/routes/api.cart.jsx:142-160 | Returns every stored row. |
| `CartRoute.CartTable.Create` | app/routes/api.cart.jsx:168-185 | The row is written first, under the next id, and then the price rule is posted. A failed post gives 500 but the new row remains. |
| `CartRoute.CartTable.Update` | app/routes/api.cart.jsx:187-205 | The row is rewritten first, and then a create (not an update) is posted. A failed post keeps the rewrite. An id the table lacks gives 500 with nothing changed. |
| `CartRoute.CartTable.Delete` | app/routes/api.cart.jsx:207-212 | Removes only the given row and posts nothing. An id the table lacks gives 500 with nothing changed. |
| `CartRoute.CartTable.Action` | app/routes/api.cart.jsx:162-224 | Dispatches on `_action`. Any other value, or none, gives 400 "Invalid action" and touches neither store. |
| `Agreement.KnownTabsAgree` | app/routes/utils/discounts.server.jsx:217-247 | On tabs 0, 1 and 2 the helper's value, both gateways' reward and the cart route's rule pick the same tier and carry the same amount. |
| `Agreement.UnknownTabsDiverge` | app/routes/api.cart.jsx:93-113 | On any other tab both gateways fall back to a fixed amount. The helper reports null and the cart route builds no rule. |
| `Agreement.HandlerGuardAdmitsNegativeGoal` | app/routes/utils/discount-handlers.server.js:19-21 | The create guard admits a goal of -5, which `validateDiscountData` rejects. The handlers never call that validation. |

## What the code does not enforce

- The create handler accepts a goal of -5. Its guard asks only for a shop and a
  goal amount that is not NaN or zero, and it never calls
  `validateDiscountData` (`Agreement.HandlerGuardAdmitsNegativeGoal`).
- `validateDiscountData` rejects a goal amount of zero or less, and puts no
  upper bound on a percentage (`DiscountHelpers.ValidateDiscountData`).
- Nothing limits a shop to one free-shipping goal, and no goal query is
  scoped by shop.
- No server action handles the page's save-all request. The page posts every
  goal at once as JSON to `/api/cart` (`app._index.jsx`:47-59), while the
  `/api/cart` action reads the body as form data and dispatches on `_action`.
- Delete keeps the row on any gateway failure, including a discount the
  service no longer has (`DiscountHandlers.GoalStore.HandleDelete`).
- The `/api/cart` route writes the table before it posts to the store. Its
  UPDATE posts a new price rule rather than changing the existing one, and its
  DELETE posts nothing (`CartRoute.CartTable.Update`,
  `CartRoute.CartTable.Delete`). The newer handlers call the gateway before
  the table.

## Left out

- The promotions service, `authenticate.admin`, `client.query`, `fetch`, `json`,
  `console` and `process.env` are not modelled; the service's answer is a
  parameter. The GraphQL text and HTTP bodies are not modelled.
- Which of `discounts.server.js` and `discounts.server.jsx` the handlers import
  is ambiguous. The handler model therefore keeps the gateway abstract and does
  not compose with either gateway module. `GatewayReply` admits
  `Ok(Some(id))`, which is what makes `HandleCreate`'s success branch reachable,
  but neither module as shown can give the handlers that reply:
  - with `discounts.server.js`, the handlers pass `selectedTab` and the two
    amounts, not `discountType`/`discountValue`. The undefined
    `discountValue.toString()` then throws a TypeError on create and on update
    (`discounts.server.js`:25, :90). Both handlers answer 400 and write
    nothing;
  - with `discounts.server.jsx`, create returns `{success, discountId, data}`,
    which has no `automaticDiscountNode`. So the handler's check at
    `discount-handlers.server.js`:26 always throws "Failed to create Shopify
    discount". That happens after the service has created the discount, so no
    row is written and the discount is left orphaned.

  Either way, for the code as shown the conjunct of `GoalStore.Valid()` that
  says "every row the create handler writes carries a confirmed discount id"
  holds vacuously: the handlers create no rows.
- `GoalStore.rows` and `CartTable.rows` model one database table
  (`db.spendingGoal`) as two separate maps. The two routes' columns are not
  reconciled, and `CartGoal` has no discount id or title. So the model cannot
  state what happens when the routes share rows. For example, the cart route's
  DELETE of a row the handlers created removes the row while its automatic
  discount stays live in the service.
- The database client is a map in a class.
  - The handlers' table writes are taken to succeed. So a table failure after
    a successful gateway create, which would leave an orphaned discount, is not
    modelled.
  - In the cart route, an update or delete of an id the table lacks fails with
    500. Other database failures, including the loader's, are not modelled.
- `JsValues.ParseNumber`: numbers are unbounded integers or NaN, and text is
  read as an optional sign followed by the longest run of decimal digits. The
  program's `parseFloat`/`parseInt` read more, so this model gives other values
  for:
  - text with a fraction, which reads as its integer part: "49.99" is stored
    and sent as 49. A goal of "0.5" reads as 0, so in this model
    `HandleCreate` answers 400 "Missing required fields", where the program
    reads 0.5, passes its guard and calls the gateway;
  - leading whitespace, a leading ".", and "Infinity", which read as NaN.
    A goal id of " 5" is "Goal not found" here, where `parseInt` gives 5;
  - an exponent, which is ignored ("1e3" reads as 1);
  - a hexadecimal goal id: `parseInt("0x1A")` is 26, and this model reads 0.
- `JsValues.Format` and `JsValues.Fixed2` write integers exactly. The
  program's numbers lose precision above 2^53 and print in exponent form from
  1e21 upward; neither is modelled.
- `DiscountHelpers`: fields are numbers, undefined or null; string fields are
  not modelled. The helpers compare and test whatever they are given, so with
  strings the program behaves differently: a tab of "1" fails the strict `=== 1`
  test and gets the fixed-amount title, and a goal of "abc" is truthy and not
  `<= 0`, so `validateDiscountData` accepts it.
- The `.jsx` create stamps `startsAt`/`endsAt` from the clock; these are
  parameters, and the date arithmetic is not modelled. The `.js` create's
  `startsAt` is not modelled.
- A goal id that parses to NaN is treated as an id no row has.
- `DiscountsJs`: the inputs are always numbers. The TypeError that
  `toString()` on an undefined goal or value would throw is not modelled.
- A response body whose `data` is null is not modelled: `Payload` and
  `Response` always carry the mutation's payload. In the program, reading the
  payload from a null `data` throws a TypeError:
  - in the `.jsx` create, update and delete, the read sits inside the `try`,
    so the TypeError is rethrown with the operation's prefix
    ("Failed to create discount: ..." and so on);
  - in the three `.js` functions it escapes unprefixed.
- Error entries keep only their `message`; `field` and `code` are not read.
- The `.jsx` configuration object is built and then has `customerGets` set. The
  model does this as a datatype update, since the object is local and never
  aliased.
- Concurrency and races (no locking exists) are not modelled. The React UI,
  the storefront progress-bar script and the commented-out earlier versions are
  not part of this model.
