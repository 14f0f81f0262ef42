/**
 * Properties that span the page and the routes: what the restaurants page posts, what the
 * orders route stores, and which orders the orders page offers buttons on.
 */
module EndToEnd {
  import opened Wrappers
  import opened Permissions
  import opened Records
  import opened OrdersRoute
  import opened OrdersPage
  import opened Cart

  /** The amount on the Create Order button is the `totalAmount` the page posts. */
  lemma ButtonAmountIsPostedTotal(c: CartState, rs: seq<Restaurant>)
    requires PrepareOrder(c, rs).Some?
    ensures DisplayedTotal(c, rs) == PrepareOrder(c, rs).value.totalAmount
  {
    DisplayedTotalIsOrderTotal(c, rs);
  }

  /** Copying posted items into order lines keeps the sum of price times quantity. */
  lemma {:induction false} StoredLinesKeepTotal(items: seq<ItemInput>)
    ensures LinesTotal(ToOrderItems(items)) == Total(items)
  {
    if |items| > 0 {
      var front := items[..|items| - 1];
      assert ToOrderItems(items)[..|items| - 1] == ToOrderItems(front);
      StoredLinesKeepTotal(front);
    }
  }

  /**
   * An order created from what the restaurants page posts belongs to the poster, is stamped
   * with the poster's country, has only positive quantities, and carries a `totalAmount`
   * equal to the sum over its own lines.
   */
  lemma PageCreatedOrderIsConsistent(
    u: Actor, c: CartState, rs: seq<Restaurant>, freshId: string, store: seq<Order>)
    requires PrepareOrder(c, rs).Some?
    ensures var o := PostOrder(Some(u), PrepareOrder(c, rs).value, freshId, store).1.payload;
      && o.userId == u.id
      && o.country == u.country
      && o.status == Pending
      && |o.items| > 0
      && (forall i :: 0 <= i < |o.items| ==> o.items[i].quantity > 0)
      && o.totalAmount == LinesTotal(o.items)
  {
    var body := PrepareOrder(c, rs).value;
    StoredLinesKeepTotal(body.items);
  }

  /**
   * The orders route stores `totalAmount` as posted: a body whose total disagrees with its
   * lines is stored with that disagreeing total.
   */
  lemma PostedTotalIsNotRecomputed(u: Actor, freshId: string, store: seq<Order>)
    ensures var body := OrderBody([ItemInput("item", 1, 100)], 5);
      var o := PostOrder(Some(u), body, freshId, store).1.payload;
      o.totalAmount == 5 && LinesTotal(o.items) == 100
  {
    var body := OrderBody([ItemInput("item", 1, 100)], 5);
    var items := PostOrder(Some(u), body, freshId, store).1.payload.items;
    assert items[..0] == [];
  }

  /**
   * Every order the orders page shows a button on is one the actor passes the location
   * check for: admins anywhere, managers only in their own country, members never.
   */
  lemma ButtonsStayInScope(u: Actor, store: seq<Order>, i: nat)
    requires i < |GetOrders(Some(u), store).payload|
    requires OfferedActions(Some(u), GetOrders(Some(u), store).payload[i].status) != []
    ensures HasPermission(u, AccessCountryData, Some(GetOrders(Some(u), store).payload[i].country))
  {
    var o := GetOrders(Some(u), store).payload[i];
    if u.role == Member {
      MemberOfferedNothing(u, o.status);
    }
  }
}
