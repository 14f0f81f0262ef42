/** The per-order action buttons of the orders page (app/orders/page.tsx). */
module OrdersPage {
  import opened Wrappers
  import opened Permissions

  datatype OrderAction = ConfirmAction | CancelAction

  /** The status each button asks the order-update endpoint to set. */
  function RequestedStatus(a: OrderAction): (st: OrderStatus)
    ensures StatusName(st) == (if a == ConfirmAction then "CONFIRMED" else "CANCELLED")
  {
    match a
    case ConfirmAction => Confirmed
    case CancelAction => Cancelled
  }

  /**
   * The buttons shown under one order, in display order: nothing without a signed-in
   * user; Confirm for staff on a pending order; Cancel for staff unless the order is
   * already cancelled or delivered.
   */
  function OfferedActions(user: Option<Actor>, status: OrderStatus): (r: seq<OrderAction>)
    ensures user.None? ==> r == []
    ensures ConfirmAction in r <==> user.Some? && AtLeast(user.value.role, Manager) && status == Pending
    ensures CancelAction in r <==>
      user.Some? && AtLeast(user.value.role, Manager) && status !in {Cancelled, Delivered}
    ensures forall i, j :: 0 <= i < j < |r| ==> r[i] == ConfirmAction && r[j] == CancelAction
  {
    match user
    case None => []
    case Some(u) =>
      (if HasPermission(u, PlaceOrder, None) && status == Pending then [ConfirmAction] else [])
      + (if HasPermission(u, CancelOrder, None) && status != Cancelled && status != Delivered
         then [CancelAction] else [])
  }

  /** A member is never offered either button, whatever the order's status. */
  lemma MemberOfferedNothing(u: Actor, status: OrderStatus)
    requires u.role == Member
    ensures OfferedActions(Some(u), status) == []
  {
  }

  /**
   * Every offered button asks for a status different from the current one and names a
   * status the order-status validator accepts.
   */
  lemma OfferedActionsChangeStatus(user: Option<Actor>, status: OrderStatus, a: OrderAction)
    requires a in OfferedActions(user, status)
    ensures RequestedStatus(a) != status
    ensures IsValidOrderStatus(StatusName(RequestedStatus(a)))
  {
  }
}
