/**
 * The orders collection endpoint (app/api/orders/route.ts): listing scoped by role, and
 * order creation stamped with the creator's identity and country.
 */
module OrdersRoute {
  import opened Wrappers
  import opened Seqs
  import opened Permissions
  import opened Records

  /** The `where` clause of the listing query. */
  datatype OrderWhere = AllOrders | OrdersInCountry(country: Country) | OrdersOfUser(userId: string)

  predicate OrderMatches(w: OrderWhere, o: Order) {
    match w
    case AllOrders => true
    case OrdersInCountry(c) => o.country == c
    case OrdersOfUser(id) => o.userId == id
  }

  /** The listing filter: admins unfiltered, managers by country, members by owner. */
  function OrderWhereFor(u: Actor): (w: OrderWhere)
    ensures w.AllOrders? <==> u.role == Admin
    ensures w.OrdersInCountry? <==> u.role == Manager
    ensures w.OrdersInCountry? ==> w.country == u.country
    ensures w.OrdersOfUser? ==> w.userId == u.id
  {
    if u.role == Admin then AllOrders
    else if u.role == Manager then OrdersInCountry(u.country)
    else OrdersOfUser(u.id)
  }

  /** `GET /api/orders`. */
  function GetOrders(session: Option<Actor>, store: seq<Order>): (r: Response<seq<Order>>)
    ensures session.None? <==> r == Unauthorized401
    ensures !r.Forbidden403?
    ensures r.Ok? ==> Subseq(r.payload, store)
    ensures session.Some? && session.value.role == Admin ==> r == Ok(store)
    ensures session.Some? && session.value.role == Manager ==>
      r.Ok? && Selects(r.payload, store, (o: Order) => o.country == session.value.country)
    ensures session.Some? && session.value.role == Member ==>
      r.Ok? && Selects(r.payload, store, (o: Order) => o.userId == session.value.id)
  {
    match session
    case None => Unauthorized401
    case Some(u) =>
      var w := OrderWhereFor(u);
      var p := (o: Order) => OrderMatches(w, o);
      if u.role == Admin then
        FilterAll(store, p);
        Ok(Filter(store, p))
      else if u.role == Manager then
        FilterAgree(store, p, (o: Order) => o.country == u.country);
        Ok(Filter(store, p))
      else
        FilterAgree(store, p, (o: Order) => o.userId == u.id);
        Ok(Filter(store, p))
  }

  /** Stored order lines copy the posted items one for one, in order. */
  function ToOrderItems(items: seq<ItemInput>): (r: seq<OrderItem>)
    ensures |r| == |items|
    ensures forall i :: 0 <= i < |r| ==>
      && r[i].menuItemId == items[i].menuItemId
      && r[i].quantity == items[i].quantity
      && r[i].price == items[i].price
  {
    seq(|items|, i requires 0 <= i < |items| =>
      OrderItem(items[i].menuItemId, items[i].quantity, items[i].price))
  }

  /**
   * `POST /api/orders`. `freshId` is the identifier the database assigns to the new row;
   * the first component of the result is the orders table afterwards.
   */
  function PostOrder(session: Option<Actor>, body: OrderBody, freshId: string, store: seq<Order>)
    : (r: (seq<Order>, Response<Order>))
    ensures session.None? ==> r == (store, Unauthorized401)
    ensures !r.1.Forbidden403?
    ensures session.Some? ==> r.1.Ok? && r.0 == store + [r.1.payload]
    ensures session.Some? ==>
      var o := r.1.payload;
      && o.id == freshId
      && o.userId == session.value.id
      && o.country == session.value.country
      && o.status == Pending
      && o.paymentMethod == None
      && o.totalAmount == body.totalAmount
      && |o.items| == |body.items|
      && forall i :: 0 <= i < |o.items| ==>
           o.items[i] == OrderItem(body.items[i].menuItemId, body.items[i].quantity, body.items[i].price)
  {
    match session
    case None => (store, Unauthorized401)
    case Some(u) =>
      if !HasPermission(u, CreateOrder, None) then (store, Forbidden403)
      else
        var o := Order(freshId, u.id, u.country, Pending, None, ToOrderItems(body.items), body.totalAmount);
        (store + [o], Ok(o))
  }

  /** Without a session the listing answers 401 whatever the table holds. */
  lemma ListingWithoutSession(s1: seq<Order>, s2: seq<Order>)
    ensures GetOrders(None, s1) == GetOrders(None, s2) == Unauthorized401
  {
  }

  /** A created order is visible to its creator in the next listing, whatever the creator's role. */
  lemma {:induction false} CreatedOrderIsListed(u: Actor, body: OrderBody, freshId: string, store: seq<Order>)
    ensures var (store', resp) := PostOrder(Some(u), body, freshId, store);
      resp.Ok? && GetOrders(Some(u), store').Ok? && resp.payload in GetOrders(Some(u), store').payload
  {
    var (store', resp) := PostOrder(Some(u), body, freshId, store);
    var o := resp.payload;
    assert store' == store + [o];
    var p := (x: Order) => OrderMatches(OrderWhereFor(u), x);
    FilterAppend(store, o, p);
  }
}
