/**
 * The order document: its line items with their online / cash-on-delivery
 * split, the aggregate amounts, the status with its history, the save hook
 * that maintains them, and the `calculatedTotal` virtual.
 * Amounts are integers (paise).
 */
module OrderModel {
  import opened Common

  /** A `Date.now()` value. It is stored and never inspected. */
  type Timestamp = int

  /** The values of the schema's status enum, in order. */
  const OrderStatuses: seq<string> :=
    ["order confirmed", "processing", "shipped", "out for delivery", "delivered", "cancelled", "returned"]

  /** The schema's default status. */
  const DefaultStatus: string := "order confirmed"

  /** A line item. A split that is missing (null or undefined) in the document is None. */
  datatype OrderItem = OrderItem(productId: string, price: int, quantity: int, onlineAmount: Option<int>, codAmount: Option<int>)

  datatype HistoryEntry = HistoryEntry(status: string, timestamp: Timestamp)

  /** JavaScript's `x || 0` on a possibly missing amount. */
  function OrZero(x: Option<int>): int
  {
    if x.Some? then x.value else 0
  }

  /*
   * The hook's `reduce` folds from the left; integer addition is associative,
   * so these folds are written from the right.
   */

  /** The sum of the items' online amounts. */
  function OnlineSum(items: seq<OrderItem>): (r: int)
    ensures (forall i :: 0 <= i < |items| ==> OrZero(items[i].onlineAmount) >= 0) ==> r >= 0
  {
    if items == [] then 0 else OrZero(items[0].onlineAmount) + OnlineSum(items[1..])
  }

  /** The sum of the items' cash-on-delivery amounts. */
  function CodSum(items: seq<OrderItem>): (r: int)
    ensures (forall i :: 0 <= i < |items| ==> OrZero(items[i].codAmount) >= 0) ==> r >= 0
  {
    if items == [] then 0 else OrZero(items[0].codAmount) + CodSum(items[1..])
  }

  /** The hook's item total: every item's online plus COD amount. */
  function SplitSum(items: seq<OrderItem>): (r: int)
    ensures (forall i :: 0 <= i < |items| ==> OrZero(items[i].onlineAmount) >= 0 && OrZero(items[i].codAmount) >= 0) ==> r >= 0
  {
    if items == [] then 0
    else OrZero(items[0].onlineAmount) + OrZero(items[0].codAmount) + SplitSum(items[1..])
  }

  /** The virtual's item total: every item's price times quantity. */
  function PriceSum(items: seq<OrderItem>): (r: int)
    ensures (forall i :: 0 <= i < |items| ==> items[i].price >= 0 && items[i].quantity >= 0) ==> r >= 0
  {
    if items == [] then 0 else items[0].price * items[0].quantity + PriceSum(items[1..])
  }

  /** The item total splits into the online part and the COD part. */
  lemma {:induction false} SplitSumIsOnlinePlusCod(items: seq<OrderItem>)
    ensures SplitSum(items) == OnlineSum(items) + CodSum(items)
  {
    if items != [] {
      SplitSumIsOnlinePlusCod(items[1..]);
    }
  }

  /** When every item's splits add up to its price times quantity, the two totals agree. */
  lemma {:induction false} SplitsMatchingPricesAgree(items: seq<OrderItem>)
    requires forall i :: 0 <= i < |items| ==>
               OrZero(items[i].onlineAmount) + OrZero(items[i].codAmount) == items[i].price * items[i].quantity
    ensures PriceSum(items) == SplitSum(items)
  {
    if items != [] {
      SplitsMatchingPricesAgree(items[1..]);
    }
  }

  /** Whether the hook appends an entry: the history is empty or its last status differs. */
  predicate NeedsHistoryEntry(history: seq<HistoryEntry>, status: string)
  {
    history == [] || history[|history| - 1].status != status
  }

  /** The status history after the save hook. */
  function RecordStatus(history: seq<HistoryEntry>, status: string, now: Timestamp): (r: seq<HistoryEntry>)
    ensures |r| > 0 && r[|r| - 1].status == status
    ensures |r| == |history| + (if NeedsHistoryEntry(history, status) then 1 else 0)
    ensures r[..|history|] == history
  {
    if NeedsHistoryEntry(history, status) then history + [HistoryEntry(status, now)] else history
  }

  /** A second save with no status change adds nothing to the history. */
  lemma RecordStatusIdempotent(history: seq<HistoryEntry>, status: string, t1: Timestamp, t2: Timestamp)
    ensures RecordStatus(RecordStatus(history, status, t1), status, t2) == RecordStatus(history, status, t1)
  {
  }

  /** Successive saves only ever extend the history: every earlier entry stays as it was. */
  lemma {:induction false} HistoryOnlyGrows(history: seq<HistoryEntry>, statuses: seq<string>, times: seq<Timestamp>)
    requires |times| == |statuses|
    ensures |history| <= |RecordAll(history, statuses, times)|
    ensures RecordAll(history, statuses, times)[..|history|] == history
    decreases |statuses|
  {
    if statuses != [] {
      var next := RecordStatus(history, statuses[0], times[0]);
      HistoryOnlyGrows(next, statuses[1..], times[1..]);
      var r := RecordAll(next, statuses[1..], times[1..]);
      assert r[..|next|][..|history|] == r[..|history|];
    }
  }

  /** The history after one save per element of statuses, each with its status set first. */
  function RecordAll(history: seq<HistoryEntry>, statuses: seq<string>, times: seq<Timestamp>): (r: seq<HistoryEntry>)
    requires |times| == |statuses|
    ensures |history| <= |r| <= |history| + |statuses|
    ensures statuses != [] ==> |r| > 0 && r[|r| - 1].status == statuses[|statuses| - 1]
    decreases |statuses|
  {
    if statuses == [] then history
    else RecordAll(RecordStatus(history, statuses[0], times[0]), statuses[1..], times[1..])
  }

  class Order {
    var items: seq<OrderItem>
    var total: int
    var onlineAmount: int
    var codAmount: int
    var shipping: Option<int>
    var status: string
    var statusHistory: seq<HistoryEntry>
    var updatedAt: Timestamp

    /** The aggregates agree with the items and the shipping, as the hook leaves them. */
    predicate AmountsConsistent()
      reads this
    {
      && total == SplitSum(items) + OrZero(shipping)
      && onlineAmount == OnlineSum(items)
      && codAmount == CodSum(items)
    }

    /** The history ends with the current status. */
    predicate HistoryCurrent()
      reads this
    {
      statusHistory != [] && statusHistory[|statusHistory| - 1].status == status
    }

    /** A new order document; `status` is None when the creator gives none, and then the default applies. */
    constructor (items: seq<OrderItem>, total: int, shipping: Option<int>, status: Option<string>, createdAt: Timestamp)
      ensures this.items == items && this.total == total && this.shipping == shipping
      ensures this.status == (if status.Some? then status.value else DefaultStatus)
      ensures status.None? || status.value in OrderStatuses ==> this.status in OrderStatuses
      ensures onlineAmount == 0 && codAmount == 0 && statusHistory == [] && updatedAt == createdAt
    {
      this.items := items;
      this.total := total;
      this.shipping := shipping;
      this.status := if status.Some? then status.value else DefaultStatus;
      onlineAmount, codAmount := 0, 0;
      statusHistory := [];
      updatedAt := createdAt;
    }

    /**
     * The `pre('save')` hook. A stored total that disagrees with the items is
     * overwritten, never reported; a second run with nothing changed leaves
     * the history and the three amounts as they are.
     */
    method PreSave(now: Timestamp)
      modifies this
      ensures items == old(items) && shipping == old(shipping) && status == old(status) && updatedAt == now
      ensures statusHistory == RecordStatus(old(statusHistory), status, now)
      ensures AmountsConsistent() && HistoryCurrent()
      ensures total == onlineAmount + codAmount + OrZero(shipping)
      ensures old(HistoryCurrent()) ==> statusHistory == old(statusHistory)
      ensures old(AmountsConsistent()) ==> total == old(total) && onlineAmount == old(onlineAmount) && codAmount == old(codAmount)
    {
      updatedAt := now;
      if statusHistory == [] || statusHistory[|statusHistory| - 1].status != status {
        statusHistory := statusHistory + [HistoryEntry(status, now)];
      }
      var calculatedTotal := SplitSum(items) + OrZero(shipping);
      if total != calculatedTotal {
        total := calculatedTotal;
      }
      onlineAmount := OnlineSum(items);
      codAmount := CodSum(items);
      SplitSumIsOnlinePlusCod(items);
    }

    /** The `calculatedTotal` virtual: prices times quantities plus shipping, whatever `total` holds. */
    function CalculatedTotal(): (r: int)
      reads this
      ensures (forall i :: 0 <= i < |items| ==> items[i].price >= 0 && items[i].quantity >= 0) && OrZero(shipping) >= 0 ==> r >= 0
    {
      PriceSum(items) + OrZero(shipping)
    }

    /** After a save the virtual equals the stored total when every item's split covers its price. */
    lemma CalculatedTotalAfterSave()
      requires AmountsConsistent()
      requires forall i :: 0 <= i < |items| ==>
                 OrZero(items[i].onlineAmount) + OrZero(items[i].codAmount) == items[i].price * items[i].quantity
      ensures CalculatedTotal() == total
    {
      SplitsMatchingPricesAgree(items);
    }
  }

  /**
   * The virtual need not equal the stored total: one item of price 500 paid
   * 200 online and nothing on delivery gives a calculated total of 500 and a
   * saved total of 200.
   */
  lemma CalculatedTotalMayDiffer()
    ensures var items := [OrderItem("p", 500, 1, Some(200), None)];
            PriceSum(items) == 500 && SplitSum(items) + OrZero(None) == 200
  {
    var items := [OrderItem("p", 500, 1, Some(200), None)];
    assert items[1..] == [];
  }

  /**
   * Two saves in a row, with nothing changed in between, end in the state of
   * the first: the history gains at most the one entry stamped `t1`, the
   * amounts are those the first save computed, and only `updatedAt` moves on.
   */
  method SaveTwice(o: Order, t1: Timestamp, t2: Timestamp)
    modifies o
    ensures o.items == old(o.items) && o.status == old(o.status) && o.shipping == old(o.shipping) && o.updatedAt == t2
    ensures o.statusHistory == RecordStatus(old(o.statusHistory), o.status, t1)
    ensures o.total == SplitSum(old(o.items)) + OrZero(old(o.shipping))
    ensures o.onlineAmount == OnlineSum(old(o.items)) && o.codAmount == CodSum(old(o.items))
    ensures o.AmountsConsistent() && o.HistoryCurrent()
  {
    o.PreSave(t1);
    ghost var history, total := o.statusHistory, o.total;
    o.PreSave(t2);
    assert o.statusHistory == history && o.total == total;
  }
}
