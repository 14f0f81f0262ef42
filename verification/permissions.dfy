/**
 * The permission table of the food-ordering service (lib/permissions.ts): the closed
 * role, country and order-status enumerations, the named actions, the `hasPermission`
 * dispatch, and the string validators for the three enumerations.
 */
module Permissions {
  import opened Wrappers

  datatype Role = Admin | Manager | Member
  datatype Country = India | America
  datatype OrderStatus = Pending | Confirmed | Preparing | Delivered | Cancelled

  /** The acting user as the permission table sees it. */
  datatype Actor = Actor(id: string, role: Role, country: Country)

  /** The keys of the permission table. A name outside the table cannot be written. */
  datatype Action =
    | ViewRestaurants
    | CreateOrder
    | PlaceOrder
    | CancelOrder
    | UpdatePaymentMethod
    | AccessCountryData

  // ---------------------------------------------------------------------------
  // Reference policy: roles ordered by privilege, and the least role each action
  // admits. The table below is stated against it.
  // ---------------------------------------------------------------------------

  function Rank(r: Role): nat {
    match r
    case Member => 0
    case Manager => 1
    case Admin => 2
  }

  /** `r` is at least as privileged as `min`. */
  predicate AtLeast(r: Role, min: Role) {
    Rank(r) >= Rank(min)
  }

  /** The least role that may perform `a` regardless of any country argument. */
  function MinRole(a: Action): Role {
    match a
    case ViewRestaurants => Member
    case CreateOrder => Member
    case PlaceOrder => Manager
    case CancelOrder => Manager
    case UpdatePaymentMethod => Admin
    case AccessCountryData => Admin
  }

  // ---------------------------------------------------------------------------
  // The table entries
  // ---------------------------------------------------------------------------

  function CanViewRestaurants(u: Actor): (r: bool)
    ensures r
  {
    true
  }

  function CanCreateOrder(u: Actor): (r: bool)
    ensures r
  {
    true
  }

  function CanPlaceOrder(u: Actor): (r: bool)
    ensures r <==> AtLeast(u.role, Manager)
  {
    u.role == Admin || u.role == Manager
  }

  function CanCancelOrder(u: Actor): (r: bool)
    ensures r <==> AtLeast(u.role, Manager)
  {
    u.role == Admin || u.role == Manager
  }

  function CanUpdatePaymentMethod(u: Actor): (r: bool)
    ensures r <==> AtLeast(u.role, Admin)
  {
    u.role == Admin
  }

  /**
   * Location-based access. `dataCountry` is `None` when the caller passes no country:
   * the comparison with an absent value then fails for everyone but an admin.
   */
  function CanAccessCountryData(u: Actor, dataCountry: Option<Country>): (r: bool)
    ensures r <==> AtLeast(u.role, Admin) || dataCountry == Some(u.country)
  {
    if u.role == Admin then true
    else dataCountry == Some(u.country)
  }

  /**
   * `hasPermission(user, action, ...args)`: looks the action up in the table and applies
   * its predicate to the user and the extra argument, if any. Only `AccessCountryData`
   * reads the argument.
   */
  function HasPermission(u: Actor, a: Action, arg: Option<Country>): (r: bool)
    ensures r <==> AtLeast(u.role, MinRole(a)) || (a == AccessCountryData && arg == Some(u.country))
  {
    match a
    case ViewRestaurants => CanViewRestaurants(u)
    case CreateOrder => CanCreateOrder(u)
    case PlaceOrder => CanPlaceOrder(u)
    case CancelOrder => CanCancelOrder(u)
    case UpdatePaymentMethod => CanUpdatePaymentMethod(u)
    case AccessCountryData => CanAccessCountryData(u, arg)
  }

  // ---------------------------------------------------------------------------
  // Properties of the table
  // ---------------------------------------------------------------------------

  /** Every actor may view restaurants and create orders, whatever the argument. */
  lemma EveryoneViewsAndCreates(u: Actor, arg: Option<Country>)
    ensures HasPermission(u, ViewRestaurants, arg)
    ensures HasPermission(u, CreateOrder, arg)
  {
  }

  /** Placing and cancelling orders is for admins and managers only. */
  lemma PlaceAndCancelForStaff(u: Actor, arg: Option<Country>)
    ensures HasPermission(u, PlaceOrder, arg) <==> u.role == Admin || u.role == Manager
    ensures HasPermission(u, CancelOrder, arg) <==> u.role == Admin || u.role == Manager
  {
  }

  /** Only an admin may update a payment method. */
  lemma PaymentForAdminOnly(u: Actor, arg: Option<Country>)
    ensures HasPermission(u, UpdatePaymentMethod, arg) <==> u.role == Admin
  {
  }

  /** Country access: admins everywhere, everyone else only in their own country. */
  lemma AccessCountryDataIff(u: Actor, c: Country)
    ensures HasPermission(u, AccessCountryData, Some(c)) <==> u.role == Admin || u.country == c
    ensures HasPermission(u, AccessCountryData, Some(u.country))
  {
  }

  /** Called without a country, the location check admits admins only. */
  lemma AccessCountryDataWithoutCountry(u: Actor)
    ensures HasPermission(u, AccessCountryData, None) <==> u.role == Admin
  {
  }

  /** Only `AccessCountryData` looks at the extra argument. */
  lemma ArgumentIgnoredByRoleActions(u: Actor, a: Action, arg1: Option<Country>, arg2: Option<Country>)
    requires a != AccessCountryData
    ensures HasPermission(u, a, arg1) == HasPermission(u, a, arg2)
  {
  }

  /**
   * Monotonicity in role: raising the role of an actor (same id, same country) never
   * withdraws a permission, for any action and argument.
   */
  lemma MonotoneInRole(id: string, c: Country, low: Role, high: Role, a: Action, arg: Option<Country>)
    requires AtLeast(high, low)
    requires HasPermission(Actor(id, low, c), a, arg)
    ensures HasPermission(Actor(id, high, c), a, arg)
  {
  }

  // ---------------------------------------------------------------------------
  // Validators for the closed enumerations
  // ---------------------------------------------------------------------------

  function RoleName(r: Role): string {
    match r
    case Admin => "ADMIN"
    case Manager => "MANAGER"
    case Member => "MEMBER"
  }

  function CountryName(c: Country): string {
    match c
    case India => "INDIA"
    case America => "AMERICA"
  }

  function StatusName(s: OrderStatus): string {
    match s
    case Pending => "PENDING"
    case Confirmed => "CONFIRMED"
    case Preparing => "PREPARING"
    case Delivered => "DELIVERED"
    case Cancelled => "CANCELLED"
  }

  const ValidRoles: seq<string> := ["ADMIN", "MANAGER", "MEMBER"]
  const ValidCountries: seq<string> := ["INDIA", "AMERICA"]
  const ValidOrderStatuses: seq<string> := ["PENDING", "CONFIRMED", "PREPARING", "DELIVERED", "CANCELLED"]

  /** Accepts exactly the names of the three roles. */
  function IsValidRole(s: string): bool {
    s in ValidRoles
  }

  /** Accepts exactly the names of the two countries. */
  function IsValidCountry(s: string): bool {
    s in ValidCountries
  }

  /** Accepts exactly the names of the five order statuses. */
  function IsValidOrderStatus(s: string): bool {
    s in ValidOrderStatuses
  }

  /** The narrowing a successful `isValidRole` check performs on its argument. */
  function ParseRole(s: string): (r: Option<Role>)
    ensures r.Some? <==> IsValidRole(s)
    ensures r.Some? ==> RoleName(r.value) == s
  {
    if s == "ADMIN" then Some(Admin)
    else if s == "MANAGER" then Some(Manager)
    else if s == "MEMBER" then Some(Member)
    else None
  }

  function ParseCountry(s: string): (r: Option<Country>)
    ensures r.Some? <==> IsValidCountry(s)
    ensures r.Some? ==> CountryName(r.value) == s
  {
    if s == "INDIA" then Some(India)
    else if s == "AMERICA" then Some(America)
    else None
  }

  function ParseOrderStatus(s: string): (r: Option<OrderStatus>)
    ensures r.Some? <==> IsValidOrderStatus(s)
    ensures r.Some? ==> StatusName(r.value) == s
  {
    if s == "PENDING" then Some(Pending)
    else if s == "CONFIRMED" then Some(Confirmed)
    else if s == "PREPARING" then Some(Preparing)
    else if s == "DELIVERED" then Some(Delivered)
    else if s == "CANCELLED" then Some(Cancelled)
    else None
  }

  /** `isValidRole` accepts a string iff it is the name of some role. */
  lemma ValidRoleIsRoleName(s: string)
    ensures IsValidRole(s) <==> exists r: Role :: RoleName(r) == s
  {
    if s == "ADMIN" { assert RoleName(Admin) == s; }
    else if s == "MANAGER" { assert RoleName(Manager) == s; }
    else if s == "MEMBER" { assert RoleName(Member) == s; }
  }

  /** `isValidCountry` accepts a string iff it is the name of some country. */
  lemma ValidCountryIsCountryName(s: string)
    ensures IsValidCountry(s) <==> exists c: Country :: CountryName(c) == s
  {
    if s == "INDIA" { assert CountryName(India) == s; }
    else if s == "AMERICA" { assert CountryName(America) == s; }
  }

  /** `isValidOrderStatus` accepts a string iff it is the name of some order status. */
  lemma ValidStatusIsStatusName(s: string)
    ensures IsValidOrderStatus(s) <==> exists st: OrderStatus :: StatusName(st) == s
  {
    if s == "PENDING" { assert StatusName(Pending) == s; }
    else if s == "CONFIRMED" { assert StatusName(Confirmed) == s; }
    else if s == "PREPARING" { assert StatusName(Preparing) == s; }
    else if s == "DELIVERED" { assert StatusName(Delivered) == s; }
    else if s == "CANCELLED" { assert StatusName(Cancelled) == s; }
  }

  /** Printing an enumeration value and parsing it back is the identity. */
  lemma NamesRoundTrip(r: Role, c: Country, st: OrderStatus)
    ensures ParseRole(RoleName(r)) == Some(r)
    ensures ParseCountry(CountryName(c)) == Some(c)
    ensures ParseOrderStatus(StatusName(st)) == Some(st)
  {
  }
}
