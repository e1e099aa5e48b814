/** The order history page (src/pages/Orders.jsx): the status badge, the
    Reorder button, and the loading flag around fetching the user's orders.
    The fetch itself is a parameter: the store's list or the error it threw. */
module OrdersPage {
  import opened Common
  import opened Text
  import OrdersService

  const KnownStatuses: seq<string> := ["pending", "processing", "shipped", "delivered", "cancelled"]

  /** `getStatusColor`: one badge class per known status, gray otherwise. */
  function StatusColor(status: string): (r: string)
    ensures status !in KnownStatuses <==> r == "bg-gray-100 text-gray-800"
    ensures status == "pending" ==> r == "bg-yellow-100 text-yellow-800"
    ensures status == "processing" ==> r == "bg-blue-100 text-blue-800"
    ensures status == "shipped" ==> r == "bg-purple-100 text-purple-800"
    ensures status == "delivered" ==> r == "bg-green-100 text-green-800"
    ensures status == "cancelled" ==> r == "bg-red-100 text-red-800"
  {
    match status
    case "pending" => "bg-yellow-100 text-yellow-800"
    case "processing" => "bg-blue-100 text-blue-800"
    case "shipped" => "bg-purple-100 text-purple-800"
    case "delivered" => "bg-green-100 text-green-800"
    case "cancelled" => "bg-red-100 text-red-800"
    case _ => "bg-gray-100 text-gray-800"
  }

  /** Different known statuses get different badges. */
  lemma StatusColorsDistinct(a: string, b: string)
    requires a in KnownStatuses && b in KnownStatuses && a != b
    ensures StatusColor(a) != StatusColor(b)
  {
  }

  /** The badge text: the status with its first letter upper-cased. */
  function StatusLabel(status: string): (r: string)
    ensures |r| == |status|
    ensures status != "" ==> r[0] == UpperChar(status[0]) && r[1..] == status[1..]
  {
    Capitalize(status)
  }

  /** The Reorder button shows only for delivered orders. */
  function ShowReorder(status: string): (r: bool)
    ensures r <==> status == "delivered"
  {
    status == "delivered"
  }

  /** The page's state. */
  class OrdersPageState {
    var orders: seq<OrdersService.Value>
    var loading: bool

    constructor ()
      ensures orders == [] && loading
    {
      orders := [];
      loading := true;
    }

    /** `fetchOrders` for the signed-in user's id, if any: without a user
        nothing happens and the page keeps loading; otherwise the fetched
        list, or `[]` after a failure, is shown and loading ends. */
    method FetchOrders(uid: Option<string>, fetched: Result<seq<OrdersService.Value>>)
      modifies this
      ensures uid.None? ==> orders == old(orders) && loading == old(loading)
      ensures uid.Some? ==> !loading
      ensures uid.Some? && fetched.Ok? ==> orders == fetched.value
      ensures uid.Some? && fetched.Err? ==> orders == []
    {
      if uid.None? {
        return;
      }
      loading := true;
      match fetched {
        case Ok(ordersData) =>
          orders := ordersData;
        case Err(_) =>
          orders := [];
      }
      loading := false;
    }
  }
}
