/**
 * The admin order screen (app/admin/orders/page.tsx): the orders are
 * listed with a status selector each; a choice is staged per order and
 * sent only when that order's update button is pressed.
 */
module AdminOrders {
  import opened Wrappers
  import opened Records
  import opened Remote

  /** The statuses the selector offers, in display order. */
  const Statuses: seq<string> := ["pending", "paid", "issued", "canceled"]

  /** The arguments of `updateOrderStatus(orderId, status)`. */
  datatype StatusUpdate = StatusUpdate(orderId: nat, status: string)

  /** The selector's value, `statusUpdate[order.id] ?? order.status`: the
      staged choice when there is one, else the order's stored status. */
  function SelectorValue(staged: map<nat, string>, o: Order): string {
    if o.id in staged then staged[o.id] else o.status
  }

  /** Choosing a status shows it in that order's selector and in no other. */
  lemma SelectorAfterChoice(staged: map<nat, string>, id: nat, s: string, o: Order)
    ensures SelectorValue(staged[id := s], o) == if o.id == id then s else SelectorValue(staged, o)
  {
  }

  /** There is no transition rule: every offered status can be chosen for
      every order, whatever its stored status, and the selector then shows
      it. */
  lemma AnyStatusFromAnyStatus(staged: map<nat, string>, o: Order)
    ensures forall s :: s in Statuses ==> SelectorValue(staged[o.id := s], o) == s
  {
    forall s | s in Statuses
      ensures SelectorValue(staged[o.id := s], o) == s
    {
      SelectorAfterChoice(staged, o.id, s, o);
    }
  }

  const Fallback := "bg-gray-100 text-gray-500"

  /** The colour classes of `statusBadge`: one per known status, grey for
      any other string. */
  function BadgeStyle(status: string): (style: string)
    ensures style != Fallback <==> status in Statuses
  {
    match status
    case "paid" => "bg-green-100 text-green-700"
    case "issued" => "bg-blue-100 text-blue-700"
    case "pending" => "bg-yellow-100 text-yellow-700"
    case "canceled" => "bg-red-100 text-red-700"
    case _ => Fallback
  }

  /** The four known statuses get four different styles. */
  lemma BadgeStylesDistinct(s: string, t: string)
    requires s in Statuses && t in Statuses && s != t
    ensures BadgeStyle(s) != BadgeStyle(t)
  {
  }

  /** The page's state. */
  class OrdersAdmin {
    var orders: seq<Order>
    var error: string
    /** The staged choices, by order id. */
    var statusUpdate: map<nat, string>

    constructor ()
      ensures orders == [] && error == "" && statusUpdate == map[]
    {
      orders := [];
      error := "";
      statusUpdate := map[];
    }

    /** `refresh`: `data || []` replaces the list unless the read failed. */
    method Refresh(fetched: Fetch<Order>)
      modifies this`orders, this`error
      ensures fetched.Rows? ==> orders == fetched.data && error == old(error)
      ensures fetched.FetchFailed? ==> orders == old(orders) && error == fetched.message
    {
      match fetched
      case Rows(data) =>
        orders := data;
      case FetchFailed(m) =>
        error := m;
    }

    /** `handleChangeStatus`: stage a choice of the selector for one order;
        every other staged choice stays as it was. */
    method ChangeStatus(orderId: nat, s: string)
      requires s in Statuses
      modifies this`statusUpdate
      ensures statusUpdate == old(statusUpdate)[orderId := s]
    {
      statusUpdate := statusUpdate[orderId := s];
    }

    /** `handleUpdateStatus`: without a staged choice nothing happens.
        Otherwise the choice is sent; an error is shown and the list kept,
        or the list is refreshed. The staged choice is not cleared. */
    method UpdateStatus(orderId: nat, result: Outcome, refreshed: Fetch<Order>) returns (sent: Option<StatusUpdate>)
      modifies this`orders, this`error
      ensures statusUpdate == old(statusUpdate)
      ensures sent.Some? <==> orderId in statusUpdate && statusUpdate[orderId] != ""
      ensures sent.Some? ==> sent.value == StatusUpdate(orderId, statusUpdate[orderId])
      ensures sent.None? || result.Failed? ==> orders == old(orders)
      ensures sent.None? ==> error == old(error)
      ensures sent.Some? && result.Failed? ==> error == result.message
      ensures sent.Some? && result.Ok? && refreshed.Rows? ==>
                orders == refreshed.data && error == old(error)
      ensures sent.Some? && result.Ok? && refreshed.FetchFailed? ==>
                orders == old(orders) && error == refreshed.message
    {
      if orderId !in statusUpdate || statusUpdate[orderId] == "" {
        return None;
      }
      var status := statusUpdate[orderId];
      sent := Some(StatusUpdate(orderId, status));
      match result
      case Failed(m) =>
        error := m;
      case Ok =>
        Refresh(refreshed);
    }
  }
}
