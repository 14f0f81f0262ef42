# Role- and country-scoped authorization of the food-ordering service

This project is a Dafny model of the authorization core of a food-ordering web
application, with proofs about it. In the application's terms, the model covers:

- **The permission table** (`lib/permissions.ts`). Six named actions are predicates over an
  actor `{id, role, country}`: `viewRestaurants`, `createOrder`, `placeOrder`,
  `cancelOrder`, `updatePaymentMethod` and `accessCountryData`. The last one also takes a
  target country. `hasPermission` dispatches on the action name. Validators accept the
  closed role, country and order-status enumerations. The model states every entry against
  an independent policy: a privilege rank on roles (`Member < Manager < Admin`) and the
  least role each action admits.
- **The listing scopes of the API routes.** `GET /api/orders` returns everything to
  admins, the actor's country to managers, and the actor's own orders to members.
  `GET /api/restaurants` returns everything to admins and the actor's country to everyone
  else. `GET /api/users` is for admins only and returns six columns per user.
  `POST /api/orders` stamps the new order with the creator's id and country and the
  `PENDING` status.
- **Client-side rules.** The orders page gates its Confirm and Cancel buttons. The
  restaurants page keeps a cart with add and remove. It builds the order's item lines and
  total, and shows the Create Order button only when the cart holds something.

Each database table is a `seq` of rows in the order the database returns them. A
`findMany({ where })` query is `Seqs.Filter` with the `where` clause as a datatype
(`OrderWhere`, `RestaurantWhere`) and its matching predicate. The session is an
`Option<Actor>`: `None` stands for "no session". A route's answer is
`Unauthorized401 | Forbidden403 | Ok(payload)`. The identifier the database gives a new
order is a parameter of `PostOrder`. Prices are integers in minor currency units.

The cart is a JavaScript object from menu-item id to quantity. It is modelled as a list of
`(key, quantity)` entries with distinct keys, in the object's key order, because
`Object.entries` reports entries in that order and the posted item lines follow it.
`Cart.Get` is the map view (`cart[k] || 0`). Every property is stated through `Get`.

Modules: `Wrappers` (Option), `Seqs` (the store filter and the subsequence relation),
`Permissions`, `Records` (rows and responses), `OrdersRoute`, `RestaurantsRoute`,
`UsersRoute`, `OrdersPage`, `Cart`, and `EndToEnd`. `EndToEnd` holds properties that
connect the pages to the routes.

Facts about the code that shape the model:

- `hasPermission` types its action as `keyof typeof permissions` (`lib/permissions.ts:24`),
  so no unknown action can be named. `Action` is a datatype with exactly the six entries.
- `GET /api/users` checks `role !== 'ADMIN'` directly and does not consult the permission
  table. `GetUsers` does the same.
- `hasPermission` passes any extra arguments through. `accessCountryData` called without a
  country compares against `undefined`, which only an admin passes. The model's argument is
  an `Option<Country>`, and `AccessCountryDataWithoutCountry` states this case.

## Model

| member | source | states |
|---|---|---|
| Permissions.CanViewRestaurants | lib/permissions.ts:11 | every actor may view restaurants |
| Permissions.CanCreateOrder | lib/permissions.ts:12 | every actor may create an order |
| Permissions.CanPlaceOrder | lib/permissions.ts:13 | true iff the role ranks at least Manager |
| Permissions.CanCancelOrder | lib/permissions.ts:14 | true iff the role ranks at least Manager |
| Permissions.CanUpdatePaymentMethod | lib/permissions.ts:15 | true iff the role ranks at least Admin |
| Permissions.CanAccessCountryData | lib/permissions.ts:18-21 | true iff the actor is an admin or the given country is the actor's own; false for a non-admin when no country is given |
| Permissions.HasPermission | lib/permissions.ts:24-27 | the dispatch agrees with the reference policy: the role reaches the action's least role, or the action is the country check and the argument is the actor's own country |
| Permissions.EveryoneViewsAndCreates | lib/permissions.ts:11-12 | `viewRestaurants` and `createOrder` hold for every actor and argument |
| Permissions.PlaceAndCancelForStaff | lib/permissions.ts:13-14 | `placeOrder` and `cancelOrder` hold iff the role is ADMIN or MANAGER |
| Permissions.PaymentForAdminOnly | lib/permissions.ts:15 | `updatePaymentMethod` holds iff the role is ADMIN |
| Permissions.AccessCountryDataIff | lib/permissions.ts:18-21 | `accessCountryData(u, c)` holds iff the role is ADMIN or `u.country = c`, for every role and country pair; the actor's own country always passes |
| Permissions.AccessCountryDataWithoutCountry | lib/permissions.ts:24-26 | called without a country, the country check admits exactly the admins |
| Permissions.ArgumentIgnoredByRoleActions | lib/permissions.ts:24-27 | every action other than the country check gives the same answer whatever argument is passed |
| Permissions.MonotoneInRole | lib/permissions.ts:10-22 | raising an actor's role, with id and country kept, never withdraws a permission, for any action and argument |
| Permissions.ValidRoleIsRoleName | lib/permissions.ts:34-36 | `isValidRole` (`Permissions.IsValidRole`) accepts a string iff it is the name of one of the three roles |
| Permissions.ValidCountryIsCountryName | lib/permissions.ts:38-40 | `isValidCountry` (`Permissions.IsValidCountry`) accepts a string iff it is the name of one of the two countries |
| Permissions.ValidStatusIsStatusName | lib/permissions.ts:42-44 | `isValidOrderStatus` (`Permissions.IsValidOrderStatus`) accepts a string iff it is the name of one of the five statuses |
| Permissions.ParseRole | lib/permissions.ts:34-36 | a role is recovered exactly when the validator accepts, and it prints back to the input |
| Permissions.ParseCountry | lib/permissions.ts:38-40 | a country is recovered exactly when the validator accepts, and it prints back to the input |
| Permissions.ParseOrderStatus | lib/permissions.ts:42-44 | a status is recovered exactly when the validator accepts, and it prints back to the input |
| Permissions.NamesRoundTrip | lib/permissions.ts:30-32 | printing a role, country or status and parsing the name gives back the same value |
| Seqs.Filter | app/api/orders/route.ts:23-28 | a `where` query returns the matching rows of the table, each kept, none invented, in table order |
| OrdersRoute.OrderWhereFor | app/api/orders/route.ts:24-28 | the order filter is unfiltered exactly for admins, by the actor's country exactly for managers, and by the actor's id for members |
| OrdersRoute.GetOrders | app/api/orders/route.ts:9-39 | no session gives 401 and never 403; an admin gets every order in table order; a manager gets exactly the orders of their country, other users' included; a member gets exactly their own orders, any country; the result is always a subsequence of the table |
| OrdersRoute.ListingWithoutSession | app/api/orders/route.ts:12-14 | without a session the answer is 401 whatever the table holds |
| OrdersRoute.ToOrderItems | app/api/orders/route.ts:72-78 | stored order lines correspond one for one, in order, to the posted items, keeping menu item, quantity and price |
| OrdersRoute.PostOrder | app/api/orders/route.ts:45-82 | no session gives 401 and leaves the table alone; the 403 branch is unreachable; otherwise the table gains one order with the fresh id, the creator's id and country, status PENDING, no payment method, the posted lines, and the posted total taken verbatim |
| OrdersRoute.CreatedOrderIsListed | app/api/orders/route.ts:66-71 | the order just created appears in its creator's next listing, whatever the creator's role |
| RestaurantsRoute.RestaurantWhereFor | app/api/restaurants/route.ts:28-30 | the fallback branch is dead: the filter is unfiltered exactly for admins and otherwise by the actor's country |
| RestaurantsRoute.GetRestaurants | app/api/restaurants/route.ts:9-36 | no session gives 401; the 403 branch is unreachable; an admin gets every restaurant; everyone else gets exactly the restaurants of their country; the result is a subsequence of the table |
| RestaurantsRoute.ListingWithoutSession | app/api/restaurants/route.ts:12-14 | without a session the answer is 401 whatever the table holds |
| UsersRoute.GetUsers | app/api/users/route.ts:8-31 | no session gives 401 before any role check; a non-admin gets 403 and no data; an admin gets one record per user, in order, carrying that user's id, name, email, role, country and payment method |
| UsersRoute.DirectoryHidesOtherColumns | app/api/users/route.ts:20-29 | tables that agree on the six selected columns give the same directory, so no other column reaches the caller |
| OrdersPage.OfferedActions | app/orders/page.tsx:157-176 | no buttons without a user; Confirm iff the role ranks at least Manager and the status is PENDING; Cancel iff the role ranks at least Manager and the status is neither CANCELLED nor DELIVERED; Confirm comes before Cancel |
| OrdersPage.RequestedStatus | app/orders/page.tsx:53-78 | the Confirm button (line 161) asks for `CONFIRMED` and the Cancel button (line 166) for `CANCELLED` |
| OrdersPage.MemberOfferedNothing | app/orders/page.tsx:159-168 | a member is offered neither button, for any status |
| OrdersPage.OfferedActionsChangeStatus | app/orders/page.tsx:157-176 | an offered button (Confirm asks for CONFIRMED, Cancel for CANCELLED) always asks for a status other than the current one, and that status passes the status validator |
| Cart.Get | app/restaurants/page.tsx:43 | a key absent from the cart reads as quantity 0 |
| Cart.Put | app/restaurants/page.tsx:41-44 | the written key reads back the written quantity, every other key is unchanged, and the key set grows by that key only |
| Cart.AddToCart | app/restaurants/page.tsx:40-45 | the item's quantity rises by exactly 1, an absent item counting as 0; every other quantity is unchanged |
| Cart.RemoveFromCart | app/restaurants/page.tsx:47-52 | the item's quantity falls by 1 and stops at 0; every other quantity is unchanged; an absent item is written with quantity 0 |
| Cart.AddThenRemove | app/restaurants/page.tsx:40-52 | adding an item and then removing it restores every quantity in the cart |
| Cart.AllMenuItems | app/restaurants/page.tsx:58-59 | the flattened menu holds exactly the menu items of the loaded restaurants |
| Cart.FindPrice | app/restaurants/page.tsx:60-64 | the price of the first menu item with the id, or 0 when none has it |
| Cart.UnknownItemPricedZero | app/restaurants/page.tsx:58-64 | an item no loaded restaurant lists is priced at 0 |
| Cart.CartItems | app/restaurants/page.tsx:55-66 | one item line per key with a positive quantity and no other, in the cart's key order, each with its cart quantity and its menu price |
| Cart.PositiveLinesInKeyOrder | app/restaurants/page.tsx:55-58 | filtering the cart's entries keeps them in the order `Object.entries` reports them |
| Cart.Total | app/restaurants/page.tsx:73 | the `reduce` over item lines is non-negative when every price and quantity is |
| Cart.ShowCreateOrder | app/restaurants/page.tsx:119 | the Create Order button shows iff some entry has a positive quantity |
| Cart.PrepareOrder | app/restaurants/page.tsx:54-79 | no request is sent iff every quantity is 0; otherwise the body carries the cart's item lines and their price-times-quantity total |
| Cart.ButtonShownIffOrderSent | app/restaurants/page.tsx:68-71 | the Create Order button (line 119) shows exactly when pressing it would send a request |
| Cart.DisplayedTotal | app/restaurants/page.tsx:124-127 | a cart whose every quantity is 0 shows the amount 0 |
| Cart.DisplayedTotalIsOrderTotal | app/restaurants/page.tsx:124-127 | the amount on the button, summed over every entry, equals the total of the positive item lines |
| EndToEnd.ButtonAmountIsPostedTotal | app/restaurants/page.tsx:73 | when an order is sent, the amount on the button is the posted `totalAmount` |
| EndToEnd.StoredLinesKeepTotal | app/api/orders/route.ts:72-78 | copying posted items into order lines keeps the sum of price times quantity |
| EndToEnd.PageCreatedOrderIsConsistent | app/api/orders/route.ts:64-78 | an order created from what the restaurants page posts belongs to the poster and their country, is PENDING, has only positive quantities, and its total equals the sum over its lines |
| EndToEnd.PostedTotalIsNotRecomputed | app/api/orders/route.ts:64-69 | the route stores the posted total even when it disagrees with the posted lines |
| EndToEnd.ButtonsStayInScope | app/orders/page.tsx:157-168 | every listed order the page offers a button on passes the actor's country check: admins anywhere, managers in their own country, members never |

## Left out

- Persistence: the Prisma client, `include` joins and `select` mechanics are replaced by a
  `seq` table and a filter. Database failures, which the routes turn into
  `500 Internal Server Error`, are not modelled.
- Authentication: NextAuth sessions, JWT callbacks (`lib/auth.ts`) and the sign-in page.
  The routes take an `Option<Actor>` instead.
- The per-record update routes `PUT /api/orders/{id}` and `PUT /api/users/{id}/payment`.
  The pages call them, but their gates, ownership checks and denial messages are not part
  of this model. The pages' calls are modelled only as the status each button requests.
- Any order-status transition graph. The code enforces none.
- Floating-point prices and `toFixed(2)`. Prices are integers in minor units.
- `fetch`, `alert`, routing, loading state, React hooks, and clearing the cart after a
  successful post.
- Seed data (`prisma/seed.ts`) and the presentational pages (`app/page.tsx`,
  `app/layout.tsx`, `app/payment/page.tsx`).
- The users table's full schema is not part of this model. Columns beyond the six the
  directory selects are one `otherColumns` map.
- JSON bodies are taken as well-typed: `items` is a list of `{menuItemId, quantity, price}`
  and `totalAmount` is a number. A malformed body, which the code turns into a 500, is not
  modelled.
- Determinism and freedom from side effects of `hasPermission` hold by construction. Every
  member here is a pure function, so no separate lemma states them.
- Array-index keys. `Object.entries` lists keys that are canonical array indices (such as
  `"42"`) first, in numeric order, and other keys in insertion order. The model keeps
  insertion order for every key (`Put` appends a new key), so it assumes menu-item ids are
  never array-index strings. The database schema, which decides the id format, is not part
  of this model.
- OrdersRoute.PostOrder: its `Ok` payload is the stored order with its `items`. The route
  answers with the created row without `include`, so the real response carries no order
  lines (`app/api/orders/route.ts:66-82`).
- OrdersRoute.GetOrders: the listing's `include` of `user: true`
  (`app/api/orders/route.ts:29-36`) attaches each order's full owner row, for managers and
  members too. This join is not modelled, so `UsersRoute.DirectoryHidesOtherColumns` bounds
  only what the user directory reveals, not what the order listing reveals about other users.
