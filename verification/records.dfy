/**
 * The stored rows the routes read and write, and the HTTP outcomes they answer with.
 * A table is a `seq` of rows in the order the database returns them.
 */
module Records {
  import opened Wrappers
  import opened Permissions

  /** One line of a stored order. Prices are integers in minor currency units. */
  datatype OrderItem = OrderItem(menuItemId: string, quantity: int, price: int)

  datatype Order = Order(
    id: string,
    userId: string,
    country: Country,
    status: OrderStatus,
    paymentMethod: Option<string>,
    items: seq<OrderItem>,
    totalAmount: int)

  datatype MenuItem = MenuItem(id: string, name: string, price: int)

  datatype Restaurant = Restaurant(id: string, name: string, country: Country, menuItems: seq<MenuItem>)

  /** A user row: the six columns the directory exposes, plus whatever else the row holds. */
  datatype UserRecord = UserRecord(
    id: string,
    name: string,
    email: string,
    role: Role,
    country: Country,
    paymentMethod: Option<string>,
    otherColumns: map<string, string>)

  /** One item line of the JSON body posted to create an order. */
  datatype ItemInput = ItemInput(menuItemId: string, quantity: int, price: int)

  /** The JSON body posted to create an order. */
  datatype OrderBody = OrderBody(items: seq<ItemInput>, totalAmount: int)

  /** The sum of price times quantity over an order's lines. */
  function LinesTotal(items: seq<OrderItem>): int {
    if |items| == 0 then 0
    else LinesTotal(items[..|items| - 1]) + items[|items| - 1].price * items[|items| - 1].quantity
  }

  /** What a route answers. */
  datatype Response<T> = Unauthorized401 | Forbidden403 | Ok(payload: T)
}
