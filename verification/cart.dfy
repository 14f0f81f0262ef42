/**
 * The cart of the restaurants page (app/restaurants/page.tsx). The cart is a JavaScript
 * object from menu-item id to quantity; its entries are kept here as a list in the
 * object's key order (insertion order), which is the order `Object.entries` reports.
 */
module Cart {
  import opened Seqs
  import opened Wrappers
  import opened Records

  datatype Line = Line(key: string, qty: nat)

  function Keys(c: seq<Line>): set<string> {
    if |c| == 0 then {} else {c[0].key} + Keys(c[1..])
  }

  /** No key occurs twice, as in any JavaScript object. */
  predicate Distinct(c: seq<Line>) {
    |c| == 0 || (c[0].key !in Keys(c[1..]) && Distinct(c[1..]))
  }

  type CartState = c: seq<Line> | Distinct(c)

  /** `cart[k] || 0`: the quantity held for `k`, zero when the key is absent. */
  function Get(c: seq<Line>, k: string): (q: nat)
    ensures k !in Keys(c) ==> q == 0
  {
    if |c| == 0 then 0
    else if c[0].key == k then c[0].qty
    else Get(c[1..], k)
  }

  /** `{ ...cart, [k]: v }`: overwrite in place when present, append when new. */
  function Put(c: CartState, k: string, v: nat): (r: CartState)
    ensures Keys(r) == Keys(c) + {k}
    ensures Get(r, k) == v
    ensures forall j :: j != k ==> Get(r, j) == Get(c, j)
  {
    if |c| == 0 then
      assert [Line(k, v)][1..] == [];
      [Line(k, v)]
    else if c[0].key == k then
      assert ([Line(k, v)] + c[1..])[1..] == c[1..];
      [Line(k, v)] + c[1..]
    else
      var rest := Put(c[1..], k, v);
      assert ([c[0]] + rest)[1..] == rest;
      [c[0]] + rest
  }

  /** `addToCart(k)`: one more of `k`. */
  function AddToCart(c: CartState, k: string): (r: CartState)
    ensures Get(r, k) == Get(c, k) + 1
    ensures forall j :: j != k ==> Get(r, j) == Get(c, j)
    ensures Keys(r) == Keys(c) + {k}
  {
    Put(c, k, Get(c, k) + 1)
  }

  /**
   * `removeFromCart(k)`: one fewer of `k`, never below zero. An absent key is written
   * with quantity zero.
   */
  function RemoveFromCart(c: CartState, k: string): (r: CartState)
    ensures Get(c, k) > 0 ==> Get(r, k) == Get(c, k) - 1
    ensures Get(c, k) == 0 ==> Get(r, k) == 0
    ensures forall j :: j != k ==> Get(r, j) == Get(c, j)
    ensures Keys(r) == Keys(c) + {k}
  {
    var q := Get(c, k);
    Put(c, k, if q - 1 < 0 then 0 else q - 1)
  }

  /** Adding and then removing the same item restores every quantity. */
  lemma AddThenRemove(c: CartState, k: string, j: string)
    ensures Get(RemoveFromCart(AddToCart(c, k), k), j) == Get(c, j)
  {
  }

  // ---------------------------------------------------------------------------
  // Building the order body
  // ---------------------------------------------------------------------------

  /** `restaurants.flatMap(r => r.menuItems)`. */
  function AllMenuItems(rs: seq<Restaurant>): (ms: seq<MenuItem>)
    ensures forall m :: m in ms <==> exists i :: 0 <= i < |rs| && m in rs[i].menuItems
  {
    if |rs| == 0 then []
    else
      var rest := AllMenuItems(rs[1..]);
      assert forall i :: 1 <= i < |rs| ==> rs[i] == rs[1..][i - 1];
      rs[0].menuItems + rest
  }

  /** `find(item => item.id === id)?.price || 0`: the first matching item's price, else 0. */
  function FindPrice(ms: seq<MenuItem>, id: string): (p: int)
    ensures (forall i :: 0 <= i < |ms| ==> ms[i].id != id) ==> p == 0
    ensures forall i :: (0 <= i < |ms| && ms[i].id == id && forall j :: 0 <= j < i ==> ms[j].id != id) ==>
      p == ms[i].price
  {
    if |ms| == 0 then 0
    else if ms[0].id == id then ms[0].price
    else
      assert forall i :: 1 <= i < |ms| ==> ms[i] == ms[1..][i - 1];
      FindPrice(ms[1..], id)
  }

  function PriceOf(rs: seq<Restaurant>, id: string): int {
    FindPrice(AllMenuItems(rs), id)
  }

  /** A menu item no loaded restaurant lists is priced at zero. */
  lemma UnknownItemPricedZero(rs: seq<Restaurant>, id: string)
    requires forall i, m :: 0 <= i < |rs| && m in rs[i].menuItems ==> m.id != id
    ensures PriceOf(rs, id) == 0
  {
    var ms := AllMenuItems(rs);
    forall i | 0 <= i < |ms|
      ensures ms[i].id != id
    {
      assert ms[i] in ms;
    }
  }

  predicate Positive(l: Line) {
    l.qty > 0
  }

  function ToItem(rs: seq<Restaurant>, l: Line): ItemInput {
    ItemInput(l.key, l.qty, PriceOf(rs, l.key))
  }

  function PriceLines(lines: seq<Line>, rs: seq<Restaurant>): seq<ItemInput> {
    seq(|lines|, i requires 0 <= i < |lines| => ToItem(rs, lines[i]))
  }

  /** `Object.entries(cart).filter(([_, q]) => q > 0).map(...)`, on any list of entries. */
  function Items(c: seq<Line>, rs: seq<Restaurant>): seq<ItemInput> {
    PriceLines(Filter(c, Positive), rs)
  }

  lemma {:induction false} KeyOfMember(c: seq<Line>, i: nat)
    requires i < |c|
    ensures c[i].key in Keys(c)
  {
    if i > 0 {
      KeyOfMember(c[1..], i - 1);
    }
  }

  /** In a cart, the quantity looked up for an entry's key is that entry's quantity. */
  lemma {:induction false} GetOfMember(c: CartState, i: nat)
    requires i < |c|
    ensures Get(c, c[i].key) == c[i].qty
  {
    if i > 0 {
      KeyOfMember(c[1..], i - 1);
      GetOfMember(c[1..], i - 1);
    }
  }

  /** A positive lookup comes from an entry holding that key and quantity. */
  lemma {:induction false} GetWitness(c: seq<Line>, k: string)
    requires Get(c, k) > 0
    ensures exists i :: 0 <= i < |c| && c[i].key == k && c[i].qty == Get(c, k)
  {
    if c[0].key != k {
      GetWitness(c[1..], k);
      var i :| 0 <= i < |c[1..]| && c[1..][i].key == k && c[1..][i].qty == Get(c, k);
      assert c[i + 1] == c[1..][i];
    }
  }

  /** Each positive entry kept by the filter holds the cart quantity of its key. */
  lemma PositiveLinesHoldQuantities(c: CartState)
    ensures forall i :: 0 <= i < |Filter(c, Positive)| ==>
      Get(c, Filter(c, Positive)[i].key) == Filter(c, Positive)[i].qty
  {
    var lines := Filter(c, Positive);
    forall i | 0 <= i < |lines|
      ensures Get(c, lines[i].key) == lines[i].qty
    {
      var j :| 0 <= j < |c| && c[j] == lines[i];
      GetOfMember(c, j);
    }
  }

  /** A key with a positive quantity is kept by the filter, at some position `i`. */
  lemma PositiveKeyListed(c: CartState, k: string) returns (i: nat)
    requires Get(c, k) > 0
    ensures i < |Filter(c, Positive)| && Filter(c, Positive)[i].key == k
  {
    GetWitness(c, k);
    var j :| 0 <= j < |c| && c[j].key == k && c[j].qty == Get(c, k);
    assert Positive(c[j]);
    var lines := Filter(c, Positive);
    i :| 0 <= i < |lines| && lines[i] == c[j];
  }

  /** Position of the first entry with key `k`; `|c|` when there is none. */
  function IndexOf(c: seq<Line>, k: string): (n: nat)
    ensures n <= |c|
    ensures n < |c| ==> c[n].key == k
  {
    if |c| == 0 then 0
    else if c[0].key == k then 0
    else 1 + IndexOf(c[1..], k)
  }

  /** Keys kept from the tail of a cart sit one position further along in the whole cart. */
  lemma TailKeysShift(c: CartState)
    requires |c| > 0
    ensures forall i :: 0 <= i < |Filter(c[1..], Positive)| ==>
      IndexOf(c, Filter(c[1..], Positive)[i].key) == 1 + IndexOf(c[1..], Filter(c[1..], Positive)[i].key)
  {
    var rest := c[1..];
    var fr := Filter(rest, Positive);
    forall i | 0 <= i < |fr|
      ensures IndexOf(c, fr[i].key) == 1 + IndexOf(rest, fr[i].key)
    {
      var j :| 0 <= j < |rest| && rest[j] == fr[i];
      KeyOfMember(rest, j);
    }
  }

  /** Putting an entry at index 0 in front of keys that all sit further along keeps the order. */
  lemma ConsKeepsOrder(c: seq<Line>, x: Line, fr: seq<Line>)
    requires IndexOf(c, x.key) == 0
    requires forall i :: 0 <= i < |fr| ==> IndexOf(c, fr[i].key) > 0
    requires forall i, j :: 0 <= i < j < |fr| ==> IndexOf(c, fr[i].key) < IndexOf(c, fr[j].key)
    ensures forall i, j :: 0 <= i < j < |[x] + fr| ==>
      IndexOf(c, ([x] + fr)[i].key) < IndexOf(c, ([x] + fr)[j].key)
  {
    var f := [x] + fr;
    forall i, j | 0 <= i < j < |f|
      ensures IndexOf(c, f[i].key) < IndexOf(c, f[j].key)
    {
      assert f[j] == fr[j - 1];
      if i > 0 {
        assert f[i] == fr[i - 1];
      }
    }
  }

  /** The positive entries kept by the filter appear in the cart's key order. */
  lemma {:induction false} PositiveLinesInKeyOrder(c: CartState)
    ensures forall i, j :: 0 <= i < j < |Filter(c, Positive)| ==>
      IndexOf(c, Filter(c, Positive)[i].key) < IndexOf(c, Filter(c, Positive)[j].key)
  {
    if |c| > 0 {
      var rest: CartState := c[1..];
      var fr := Filter(rest, Positive);
      PositiveLinesInKeyOrder(rest);
      TailKeysShift(c);
      if Positive(c[0]) {
        assert Filter(c, Positive) == [c[0]] + fr;
        ConsKeepsOrder(c, c[0], fr);
      } else {
        assert Filter(c, Positive) == fr;
      }
    }
  }

  /**
   * The item lines `createOrder` builds: exactly the keys with a positive quantity, each
   * with its cart quantity and its menu price, in key order.
   */
  function CartItems(c: CartState, rs: seq<Restaurant>): (items: seq<ItemInput>)
    ensures |items| == Count(c, Positive)
    ensures forall i :: 0 <= i < |items| ==>
      && items[i].quantity > 0
      && items[i].quantity == Get(c, items[i].menuItemId)
      && items[i].price == PriceOf(rs, items[i].menuItemId)
    ensures forall k :: Get(c, k) > 0 <==> exists i :: 0 <= i < |items| && items[i].menuItemId == k
    ensures forall i, j :: 0 <= i < j < |items| ==>
      IndexOf(c, items[i].menuItemId) < IndexOf(c, items[j].menuItemId)
  {
    var lines := Filter(c, Positive);
    var items := Items(c, rs);
    assert forall i :: 0 <= i < |items| ==> items[i].menuItemId == lines[i].key;
    PositiveLinesHoldQuantities(c);
    PositiveLinesInKeyOrder(c);
    forall k | Get(c, k) > 0
      ensures exists i :: 0 <= i < |items| && items[i].menuItemId == k
    {
      var i := PositiveKeyListed(c, k);
      assert items[i].menuItemId == k;
    }
    items
  }

  /** `items.reduce((sum, item) => sum + item.price * item.quantity, 0)`. */
  function Total(items: seq<ItemInput>): (t: int)
    ensures (forall i :: 0 <= i < |items| ==> items[i].price >= 0 && items[i].quantity >= 0) ==> t >= 0
  {
    if |items| == 0 then 0
    else
      var last := items[|items| - 1];
      assert last.price >= 0 && last.quantity >= 0 ==> last.price * last.quantity >= 0;
      Total(items[..|items| - 1]) + last.price * last.quantity
  }

  /** `Object.values(cart).some(qty => qty > 0)`: whether the Create Order button shows. */
  function ShowCreateOrder(c: seq<Line>): (b: bool)
    ensures b <==> exists i :: 0 <= i < |c| && c[i].qty > 0
  {
    if |c| == 0 then false
    else if c[0].qty > 0 then true
    else
      assert forall i :: 1 <= i < |c| ==> c[i] == c[1..][i - 1];
      ShowCreateOrder(c[1..])
  }

  /**
   * The body `createOrder` posts, or `None` when no quantity is positive, in which case
   * no request is sent.
   */
  function PrepareOrder(c: CartState, rs: seq<Restaurant>): (r: Option<OrderBody>)
    ensures r.None? <==> forall k :: Get(c, k) == 0
    ensures r.Some? ==> r.value.items == CartItems(c, rs) && r.value.totalAmount == Total(r.value.items)
  {
    var items := CartItems(c, rs);
    if |items| == 0 then None
    else
      assert Get(c, items[0].menuItemId) > 0;
      Some(OrderBody(items, Total(items)))
  }

  /** The Create Order button shows exactly when pressing it would send a request. */
  lemma ButtonShownIffOrderSent(c: CartState, rs: seq<Restaurant>)
    ensures ShowCreateOrder(c) <==> PrepareOrder(c, rs).Some?
  {
    if ShowCreateOrder(c) {
      var i :| 0 <= i < |c| && c[i].qty > 0;
      GetOfMember(c, i);
    }
  }

  /** The amount on the Create Order button: every entry priced and summed, zeros included. */
  function DisplayedTotal(c: seq<Line>, rs: seq<Restaurant>): (r: int)
    ensures (forall i :: 0 <= i < |c| ==> c[i].qty == 0) ==> r == 0
  {
    if |c| == 0 then 0
    else
      var front, last := c[..|c| - 1], c[|c| - 1];
      var price := PriceOf(rs, last.key);
      assert last.qty == 0 ==> price * last.qty == 0;
      assert forall i :: 0 <= i < |front| ==> front[i] == c[i];
      DisplayedTotal(front, rs) + price * last.qty
  }

  lemma TotalSnoc(items: seq<ItemInput>, x: ItemInput)
    ensures Total(items + [x]) == Total(items) + x.price * x.quantity
  {
    assert (items + [x])[..|items|] == items;
  }

  lemma PriceLinesSnoc(lines: seq<Line>, x: Line, rs: seq<Restaurant>)
    ensures PriceLines(lines + [x], rs) == PriceLines(lines, rs) + [ToItem(rs, x)]
  {
  }

  /**
   * The item lines built one entry at a time from the front of the cart; the same lines
   * as `Items`, in a shape that follows the running sums below.
   */
  function ItemsFold(c: seq<Line>, rs: seq<Restaurant>): seq<ItemInput> {
    if |c| == 0 then []
    else ItemsFold(c[..|c| - 1], rs) + (if Positive(c[|c| - 1]) then [ToItem(rs, c[|c| - 1])] else [])
  }

  /** Filtering and then pricing the entries is the same as the entry-by-entry fold. */
  lemma {:induction false} ItemsFoldIsItems(c: seq<Line>, rs: seq<Restaurant>)
    ensures ItemsFold(c, rs) == Items(c, rs)
  {
    if |c| > 0 {
      var front, last := c[..|c| - 1], c[|c| - 1];
      assert c == front + [last];
      ItemsFoldIsItems(front, rs);
      FilterAppend(front, last, Positive);
      if Positive(last) {
        PriceLinesSnoc(Filter(front, Positive), last, rs);
      } else {
        assert ItemsFold(front, rs) + [] == ItemsFold(front, rs);
      }
    }
  }

  lemma {:induction false} DisplayedTotalIsFoldTotal(c: seq<Line>, rs: seq<Restaurant>)
    ensures DisplayedTotal(c, rs) == Total(ItemsFold(c, rs))
  {
    if |c| > 0 {
      var front, last := c[..|c| - 1], c[|c| - 1];
      DisplayedTotalIsFoldTotal(front, rs);
      if Positive(last) {
        TotalSnoc(ItemsFold(front, rs), ToItem(rs, last));
      } else {
        assert ItemsFold(front, rs) + [] == ItemsFold(front, rs);
      }
    }
  }

  /** The amount shown on the button equals the total the order body carries. */
  lemma DisplayedTotalIsOrderTotal(c: seq<Line>, rs: seq<Restaurant>)
    ensures DisplayedTotal(c, rs) == Total(Items(c, rs))
  {
    DisplayedTotalIsFoldTotal(c, rs);
    ItemsFoldIsItems(c, rs);
  }
}
