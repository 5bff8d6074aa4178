/**
 * The seller's order list: the forward progression of an order's status and
 * the handler that asks the server for the next status.
 */
module SellerOrders {
  import opened Common
  import OrderModel

  /** The statuses in display order; the last two are side branches. */
  const StatusOptions: seq<string> :=
    ["order confirmed", "processing", "shipped", "out for delivery", "delivered", "cancelled", "returned"]

  const Delivered: string := "delivered"
  const Cancelled: string := "cancelled"
  const Returned: string := "returned"

  /** JavaScript's `indexOf`: the first position of x in xs, or -1. */
  function IndexOf(xs: seq<string>, x: string): (r: int)
    ensures -1 <= r < |xs|
    ensures r == -1 <==> x !in xs
    ensures r >= 0 ==> xs[r] == x && forall j :: 0 <= j < r ==> xs[j] != x
  {
    if xs == [] then -1
    else if xs[0] == x then 0
    else
      var k := IndexOf(xs[1..], x);
      if k == -1 then -1 else k + 1
  }

  function Min(a: int, b: int): int
  {
    if a <= b then a else b
  }

  /** `getNextStatus`: one step forward, stopping at delivered; the side branches and unknown values stay put. */
  function GetNextStatus(current: string): (r: string)
    ensures r != current ==> var i := IndexOf(StatusOptions, current); 0 <= i < 4 && r == StatusOptions[i + 1]
  {
    var currentIndex := IndexOf(StatusOptions, current);
    if currentIndex == -1 || current == Cancelled || current == Returned then current
    else StatusOptions[Min(currentIndex + 1, |StatusOptions| - 3)]
  }

  /** No status appears twice in the list. */
  lemma StatusesDistinct()
    ensures forall a, b :: 0 <= a < b < |StatusOptions| ==> StatusOptions[a] != StatusOptions[b]
  {
    forall a, b | 0 <= a < b < |StatusOptions|
      ensures StatusOptions[a] != StatusOptions[b]
    {
      if |StatusOptions[a]| == |StatusOptions[b]| {
        assert a == 4 && b == 5;
        assert StatusOptions[a][0] != StatusOptions[b][0];
      }
    }
  }

  /** Each status's index is its position. */
  lemma StatusIndex(i: int)
    requires 0 <= i < |StatusOptions|
    ensures IndexOf(StatusOptions, StatusOptions[i]) == i
  {
    StatusesDistinct();
  }

  /** The side branches sit at indexes 5 and 6 and delivered at 4. */
  lemma NamedStatuses()
    ensures StatusOptions[4] == Delivered && StatusOptions[5] == Cancelled && StatusOptions[6] == Returned
  {
  }

  /** The step in terms of the position: unknown values and the side branches stay, the rest move to min(i + 1, 4). */
  lemma NextStatusByIndex(s: string)
    ensures var i := IndexOf(StatusOptions, s);
            GetNextStatus(s) == if i == -1 || i >= 5 then s else StatusOptions[Min(i + 1, 4)]
  {
    var i := IndexOf(StatusOptions, s);
    if i != -1 {
      StatusesDistinct();
      NamedStatuses();
      assert s == StatusOptions[i];
      assert s == Cancelled <==> i == 5;
      assert s == Returned <==> i == 6;
    }
  }

  /** The screen's options are the order schema's status enum, so a press never leaves the enum. */
  lemma NextStatusStaysInEnum(s: string)
    requires s in OrderModel.OrderStatuses
    ensures StatusOptions == OrderModel.OrderStatuses
    ensures GetNextStatus(s) in OrderModel.OrderStatuses
  {
    NextStatusByIndex(s);
  }

  /** Cancelled, returned and any value outside the list are fixed points. */
  lemma NextStatusFixedPoints(s: string)
    requires s !in StatusOptions || s == Cancelled || s == Returned
    ensures GetNextStatus(s) == s
  {
  }

  /** A known status at index i <= 4 goes to the status at index min(i + 1, 4). */
  lemma NextStatusStep(i: int)
    requires 0 <= i <= 4
    ensures GetNextStatus(StatusOptions[i]) == StatusOptions[Min(i + 1, 4)]
  {
    StatusIndex(i);
    NextStatusByIndex(StatusOptions[i]);
  }

  /** The progression never enters a side branch. */
  lemma NextStatusNeverBranches(s: string)
    requires s != Cancelled && s != Returned
    ensures GetNextStatus(s) != Cancelled && GetNextStatus(s) != Returned
  {
    NextStatusByIndex(s);
    var i := IndexOf(StatusOptions, s);
    if i != -1 {
      StatusesDistinct();
      NamedStatuses();
      if i < 5 {
        var j := Min(i + 1, 4);
        assert StatusOptions[j] != StatusOptions[5] && StatusOptions[j] != StatusOptions[6];
      }
    }
  }

  /** The index never decreases, and strictly increases for the first four statuses. */
  lemma NextStatusMonotone(s: string)
    requires s in StatusOptions
    ensures IndexOf(StatusOptions, GetNextStatus(s)) >= IndexOf(StatusOptions, s)
    ensures IndexOf(StatusOptions, s) < 4 ==> IndexOf(StatusOptions, GetNextStatus(s)) == IndexOf(StatusOptions, s) + 1
  {
    NextStatusByIndex(s);
    var i := IndexOf(StatusOptions, s);
    if i <= 4 {
      StatusIndex(Min(i + 1, 4));
    }
  }

  lemma NextStatusExamples()
    ensures GetNextStatus("shipped") == "out for delivery"
    ensures GetNextStatus("delivered") == "delivered"
    ensures GetNextStatus("cancelled") == "cancelled"
  {
    NextStatusStep(2);
    NextStatusStep(4);
  }

  /** The status after n presses of the update button, each taking the step. */
  function Advance(s: string, n: nat): string
  {
    Iterate(GetNextStatus, s, n)
  }

  /** n applications of step to s. */
  function Iterate(step: string -> string, s: string, n: nat): string
    decreases n
  {
    if n == 0 then s else Iterate(step, step(s), n - 1)
  }

  /** From order confirmed, four steps reach delivered. */
  lemma FourStepsToDelivered()
    ensures Advance("order confirmed", 4) == Delivered
  {
    NextStatusStep(0);
    NextStatusStep(1);
    NextStatusStep(2);
    NextStatusStep(3);
  }

  /** A fixed point of a step stays put however often the step is taken. */
  lemma {:induction false} FixedPointStays(step: string -> string, s: string, n: nat)
    requires step(s) == s
    ensures Iterate(step, s, n) == s
    decreases n
  {
    if n > 0 {
      FixedPointStays(step, s, n - 1);
    }
  }

  /** Delivered, the side branches and unknown values never move. */
  lemma FixedPointsStay(s: string, n: nat)
    requires GetNextStatus(s) == s
    ensures Advance(s, n) == s
  {
    FixedPointStays(GetNextStatus, s, n);
  }

  /** The step moves a status exactly when its index is below 4. */
  lemma FixedPointIndex(s: string)
    ensures GetNextStatus(s) == s <==> !(0 <= IndexOf(StatusOptions, s) < 4)
  {
    NextStatusByIndex(s);
    var i := IndexOf(StatusOptions, s);
    if 0 <= i < 4 {
      StatusesDistinct();
      assert StatusOptions[i + 1] != StatusOptions[i];
    }
  }

  /** The step is a fixed point exactly at delivered, at the side branches and outside the list. */
  lemma FixedPointsAre(s: string)
    ensures GetNextStatus(s) == s <==> s == Delivered || s == Cancelled || s == Returned || s !in StatusOptions
  {
    FixedPointIndex(s);
    var i := IndexOf(StatusOptions, s);
    if i != -1 {
      StatusIndex(4);
      StatusIndex(5);
      StatusIndex(6);
      NamedStatuses();
    }
  }

  /** The guard of `handleUpdateOrderStatus`: the status to send, or None when it would not change. */
  function StatusUpdateRequest(current: string): (r: Option<string>)
    ensures r == None <==> GetNextStatus(current) == current
    ensures r.Some? ==> r.value == GetNextStatus(current) && r.value != current
  {
    var newStatus := GetNextStatus(current);
    if newStatus == current then None else Some(newStatus)
  }

  /** A status is among the first four exactly when its index is below 4. */
  lemma InFirstFour(s: string)
    ensures s in StatusOptions[..4] <==> 0 <= IndexOf(StatusOptions, s) < 4
  {
    var i := IndexOf(StatusOptions, s);
    if s in StatusOptions[..4] {
      var k :| 0 <= k < 4 && StatusOptions[..4][k] == s;
      StatusIndex(k);
    }
    if 0 <= i < 4 {
      assert StatusOptions[..4][i] == s;
    }
  }

  /** An update is sent only from the first four statuses, and always for the next one. */
  lemma UpdateOnlyMovesForward(current: string)
    ensures StatusUpdateRequest(current).Some? <==> current in StatusOptions[..4]
    ensures StatusUpdateRequest(current).Some? ==>
              IndexOf(StatusOptions, StatusUpdateRequest(current).value) == IndexOf(StatusOptions, current) + 1
  {
    FixedPointIndex(current);
    InFirstFour(current);
    var i := IndexOf(StatusOptions, current);
    if 0 <= i < 4 {
      NextStatusMonotone(current);
    }
  }

  datatype OrderRow = OrderRow(id: string, status: string)

  /** The key `orders.map(o => o._id === id ? updated : o)` compares. */
  function OrderId(o: OrderRow): string
  {
    o.id
  }

  /** The order list the seller screen shows. */
  class OrdersView {
    var orders: seq<OrderRow>

    constructor (orders: seq<OrderRow>)
      ensures this.orders == orders
    {
      this.orders := orders;
    }

    /**
     * `handleUpdateOrderStatus`. response is the order the server returns,
     * None when the request fails; request is what was sent, None when nothing was.
     */
    method HandleUpdateOrderStatus(id: string, currentStatus: string, response: Option<OrderRow>)
      returns (request: Option<string>)
      modifies this
      ensures request == StatusUpdateRequest(currentStatus)
      ensures request.Some? ==> request.value != currentStatus
      ensures orders == (if request.Some? && response.Some? then ReplaceById(old(orders), OrderId, id, response.value) else old(orders))
    {
      var newStatus := GetNextStatus(currentStatus);
      if newStatus == currentStatus {
        return None;
      }
      request := Some(newStatus);
      if response.Some? {
        orders := ReplaceById(orders, OrderId, id, response.value);
      }
    }
  }
}
