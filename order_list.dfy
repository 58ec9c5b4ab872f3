/** The order board: the full order list fetched from the backend, shown in
    one section per lifecycle status, with a status selector on the orders
    that are still open. */
module OrderList {
  import opened JsValues

  /** The backend sends the status as a free string; nothing on the client
      restricts it to the four values the board knows. */
  type Status = string

  const PENDING: Status := "PENDING"
  const DELIVERING: Status := "DELIVERING"
  const DONE: Status := "DONE"
  const CANCELLED: Status := "CANCELLED"

  /** The order in which sections appear, and the options of the selector. */
  const DisplayStatuses: seq<Status> := [PENDING, DELIVERING, DONE, CANCELLED]

  /** Amounts are display-only here and are kept as integers. */
  datatype ProductRef = ProductRef(id: int, name: string, code: string, salePrice: int, originalPrice: int)
  datatype OrderItem = OrderItem(id: int, quantity: int, price: int, product: ProductRef)
  datatype UserRef = UserRef(id: int, username: string, email: string)
  datatype Order = Order(
    id: int,
    userId: int,
    totalAmount: int,
    status: Status,
    createdAt: string,
    items: seq<OrderItem>,
    user: UserRef)

  // ---------------------------------------------------------------------
  // Grouping

  /** The orders whose status is exactly `status`, in list order. */
  function GroupOrders(orders: seq<Order>, status: Status): (r: seq<Order>)
    ensures |r| <= |orders|
    ensures forall o :: o in r ==> o in orders && o.status == status
    ensures forall o :: o in orders && o.status == status ==> o in r
  {
    if orders == [] then []
    else
      var last := orders[|orders| - 1];
      var front := orders[..|orders| - 1];
      assert orders == front + [last];
      GroupOrders(front, status) + (if last.status == status then [last] else [])
  }

  /** The positions of the orders with status `status`, in increasing order:
      an independent description of which orders a bucket holds. */
  function Positions(orders: seq<Order>, status: Status): (p: seq<nat>)
    ensures forall k :: 0 <= k < |p| ==> p[k] < |orders| && orders[p[k]].status == status
    ensures forall k, l :: 0 <= k < l < |p| ==> p[k] < p[l]
    ensures forall i :: 0 <= i < |orders| && orders[i].status == status ==> i in p
  {
    if orders == [] then []
    else
      var n := |orders| - 1;
      var p' := Positions(orders[..n], status);
      if orders[n].status == status then p' + [n] else p'
  }

  /** A bucket is the subsequence of the list picked out by the matching
      positions: same orders, same relative order. */
  lemma {:induction false} GroupIsSubsequence(orders: seq<Order>, status: Status)
    ensures |GroupOrders(orders, status)| == |Positions(orders, status)|
    ensures forall k :: 0 <= k < |Positions(orders, status)| ==>
              GroupOrders(orders, status)[k] == orders[Positions(orders, status)[k]]
  {
    if orders != [] {
      var n := |orders| - 1;
      var front := orders[..n];
      GroupIsSubsequence(front, status);
      var g', p' := GroupOrders(front, status), Positions(front, status);
      var g, p := GroupOrders(orders, status), Positions(orders, status);
      assert g == g' + (if orders[n].status == status then [orders[n]] else []);
      assert p == if orders[n].status == status then p' + [n] else p';
      forall k | 0 <= k < |p| ensures g[k] == orders[p[k]] {
        if k < |p'| {
          assert p[k] == p'[k] && g[k] == g'[k];
          assert g'[k] == front[p'[k]];
        } else {
          assert p[k] == n && g[k] == orders[n];
        }
      }
    }
  }

  /** Grouping distributes over concatenation: the bucket of a list is the
      bucket of its front followed by the bucket of its back. */
  lemma {:induction false} GroupAppend(a: seq<Order>, b: seq<Order>, status: Status)
    ensures GroupOrders(a + b, status) == GroupOrders(a, status) + GroupOrders(b, status)
  {
    if b != [] {
      var n := |b| - 1;
      assert (a + b)[..|a + b| - 1] == a + b[..n];
      GroupAppend(a, b[..n], status);
    } else {
      assert a + b == a;
    }
  }

  /** How many times each order occurs in a bucket: as often as in the list
      when its status matches, never otherwise. */
  lemma {:induction false} GroupCount(orders: seq<Order>, status: Status, o: Order)
    ensures multiset(GroupOrders(orders, status))[o] ==
              if o.status == status then multiset(orders)[o] else 0
  {
    if orders != [] {
      var n := |orders| - 1;
      GroupCount(orders[..n], status, o);
      assert orders == orders[..n] + [orders[n]];
    }
  }

  // ---------------------------------------------------------------------
  // Sections of the board

  datatype Section = Section(status: Status, orders: seq<Order>)

  /** One section per status of `statuses` in that order, leaving out the
      statuses whose bucket is empty. */
  function SectionsFor(statuses: seq<Status>, orders: seq<Order>): seq<Section> {
    if statuses == [] then []
    else
      var bucket := GroupOrders(orders, statuses[0]);
      var rest := SectionsFor(statuses[1..], orders);
      if bucket == [] then rest else [Section(statuses[0], bucket)] + rest
  }

  /** Every section holds the non-empty bucket of one of the statuses, and
      every status with a non-empty bucket has its section. */
  lemma {:induction false} SectionsForContents(statuses: seq<Status>, orders: seq<Order>)
    ensures forall sec :: sec in SectionsFor(statuses, orders) ==>
              sec.status in statuses && sec.orders == GroupOrders(orders, sec.status) && sec.orders != []
    ensures forall s :: s in statuses && GroupOrders(orders, s) != [] ==>
              Section(s, GroupOrders(orders, s)) in SectionsFor(statuses, orders)
  {
    if statuses != [] {
      SectionsForContents(statuses[1..], orders);
    }
  }

  /** The sections of the board, in the fixed display order. */
  function Sections(orders: seq<Order>): seq<Section> {
    SectionsFor(DisplayStatuses, orders)
  }

  /** Position of a display status in the display order. */
  function Rank(s: Status): nat {
    if s == PENDING then 0 else if s == DELIVERING then 1 else if s == DONE then 2 else 3
  }

  lemma {:induction false} SectionsForOrdered(statuses: seq<Status>, orders: seq<Order>)
    requires forall i, j :: 0 <= i < j < |statuses| ==> Rank(statuses[i]) < Rank(statuses[j])
    ensures forall k, l :: 0 <= k < l < |SectionsFor(statuses, orders)| ==>
              Rank(SectionsFor(statuses, orders)[k].status) < Rank(SectionsFor(statuses, orders)[l].status)
  {
    if statuses != [] {
      SectionsForOrdered(statuses[1..], orders);
      SectionsForContents(statuses[1..], orders);
      var r := SectionsFor(statuses, orders);
      var rest := SectionsFor(statuses[1..], orders);
      forall l | 0 <= l < |rest| ensures Rank(statuses[0]) < Rank(rest[l].status) {
        assert rest[l] in rest;
        var j :| 0 <= j < |statuses[1..]| && statuses[1..][j] == rest[l].status;
        assert statuses[j + 1] == rest[l].status;
      }
    }
  }

  /** Sections come in the order PENDING, DELIVERING, DONE, CANCELLED (so no
      status has two sections), each holds exactly its status's bucket, no
      section is empty, and every non-empty bucket has a section. */
  lemma SectionsInDisplayOrder(orders: seq<Order>)
    ensures var secs := Sections(orders);
      forall k :: 0 <= k < |secs| ==>
        secs[k].status in DisplayStatuses && secs[k].orders == GroupOrders(orders, secs[k].status) &&
        secs[k].orders != []
    ensures var secs := Sections(orders);
      forall k, l :: 0 <= k < l < |secs| ==> Rank(secs[k].status) < Rank(secs[l].status)
    ensures forall s :: s in DisplayStatuses && GroupOrders(orders, s) != [] ==>
              Section(s, GroupOrders(orders, s)) in Sections(orders)
  {
    SectionsForOrdered(DisplayStatuses, orders);
    SectionsForContents(DisplayStatuses, orders);
    var secs := Sections(orders);
    forall k | 0 <= k < |secs|
      ensures secs[k].status in DisplayStatuses && secs[k].orders == GroupOrders(orders, secs[k].status)
      ensures secs[k].orders != []
    {
      assert secs[k] in secs;
    }
  }

  /** An order with one of the four display statuses is shown in exactly one
      section, the one of its own status; an order with any other status is
      shown in none. */
  lemma ExactlyOneSection(orders: seq<Order>, o: Order)
    requires o in orders
    ensures var secs := Sections(orders);
      o.status in DisplayStatuses ==> exists k :: 0 <= k < |secs| && o in secs[k].orders
    ensures var secs := Sections(orders);
      forall k :: 0 <= k < |secs| && o in secs[k].orders ==> secs[k].status == o.status
    ensures var secs := Sections(orders);
      forall k, l :: (0 <= k < |secs| && 0 <= l < |secs| && o in secs[k].orders && o in secs[l].orders) ==> k == l
    ensures var secs := Sections(orders);
      o.status !in DisplayStatuses ==> forall k :: 0 <= k < |secs| ==> o !in secs[k].orders
  {
    SectionsInDisplayOrder(orders);
    var secs := Sections(orders);
    if o.status in DisplayStatuses {
      var g := GroupOrders(orders, o.status);
      assert o in g;
      assert Section(o.status, g) in secs;
      var k :| 0 <= k < |secs| && secs[k] == Section(o.status, g);
      assert o in secs[k].orders;
    }
    forall k, l | 0 <= k < |secs| && 0 <= l < |secs| && o in secs[k].orders && o in secs[l].orders
      ensures k == l
    {
      assert secs[k].status == o.status == secs[l].status;
    }
  }

  /** All orders of a list of sections, section after section. */
  function Flatten(secs: seq<Section>): seq<Order> {
    if secs == [] then [] else secs[0].orders + Flatten(secs[1..])
  }

  /** The orders whose status is one of the four display statuses, in list
      order: the reference for what the board shows. */
  function Displayable(orders: seq<Order>): seq<Order> {
    if orders == [] then []
    else
      var n := |orders| - 1;
      Displayable(orders[..n]) + (if orders[n].status in DisplayStatuses then [orders[n]] else [])
  }

  lemma {:induction false} DisplayableCount(orders: seq<Order>, o: Order)
    ensures multiset(Displayable(orders))[o] == if o.status in DisplayStatuses then multiset(orders)[o] else 0
  {
    if orders != [] {
      var n := |orders| - 1;
      DisplayableCount(orders[..n], o);
      assert orders == orders[..n] + [orders[n]];
    }
  }

  lemma {:induction false} SectionsForCount(statuses: seq<Status>, orders: seq<Order>, o: Order)
    requires forall i, j :: 0 <= i < j < |statuses| ==> statuses[i] != statuses[j]
    ensures multiset(Flatten(SectionsFor(statuses, orders)))[o] ==
              if o.status in statuses then multiset(orders)[o] else 0
  {
    if statuses != [] {
      var rest := statuses[1..];
      SectionsForCount(rest, orders, o);
      GroupCount(orders, statuses[0], o);
      var bucket := GroupOrders(orders, statuses[0]);
      if bucket != [] {
        var secs := SectionsFor(statuses, orders);
        assert secs[1..] == SectionsFor(rest, orders);
        assert Flatten(secs) == bucket + Flatten(SectionsFor(rest, orders));
      }
    }
  }

  /** Over the whole board, each order is shown exactly as many times as it
      occurs in the list when its status is a display status, and never
      otherwise: the sections partition the displayable orders. */
  lemma SectionsPartition(orders: seq<Order>)
    ensures multiset(Flatten(Sections(orders))) == multiset(Displayable(orders))
  {
    var shown, reference := Flatten(Sections(orders)), Displayable(orders);
    assert forall i, j :: 0 <= i < j < |DisplayStatuses| ==> DisplayStatuses[i] != DisplayStatuses[j];
    forall o ensures multiset(shown)[o] == multiset(reference)[o] {
      SectionsForCount(DisplayStatuses, orders, o);
      DisplayableCount(orders, o);
    }
    assert multiset(shown) == multiset(reference);
  }

  // ---------------------------------------------------------------------
  // What the board shows

  datatype BoardView =
    | LoadingMessage   // "Loading orders..."
    | NoOrdersMessage  // "There are no orders yet."
    | Board(sections: seq<Section>)

  function RenderBoard(loading: bool, orders: seq<Order>): BoardView {
    if loading then LoadingMessage
    else if |orders| == 0 then NoOrdersMessage
    else Board(Sections(orders))
  }

  /** Only the loading message while loading; only the "no orders" message
      once loaded with an empty list; otherwise the sections. */
  lemma RenderBoardCases(loading: bool, orders: seq<Order>)
    ensures loading ==> RenderBoard(loading, orders) == LoadingMessage
    ensures !loading && orders == [] ==> RenderBoard(loading, orders) == NoOrdersMessage
    ensures RenderBoard(loading, orders).Board? <==> !loading && orders != []
    ensures RenderBoard(loading, orders).Board? ==> RenderBoard(loading, orders).sections == Sections(orders)
  {
  }

  /** A loaded, non-empty list whose statuses are all outside the four display
      statuses shows neither the "no orders" message nor any section. */
  lemma BlankBoard(orders: seq<Order>)
    ensures RenderBoard(false, orders) == Board([]) <==>
              orders != [] && forall o :: o in orders ==> o.status !in DisplayStatuses
  {
    var secs := Sections(orders);
    if orders != [] && forall o :: o in orders ==> o.status !in DisplayStatuses {
      SectionsInDisplayOrder(orders);
      if secs != [] {
        var o := secs[0].orders[0];
        assert o in GroupOrders(orders, secs[0].status);
      }
    }
    if RenderBoard(false, orders) == Board([]) {
      forall o | o in orders ensures o.status !in DisplayStatuses {
        ExactlyOneSection(orders, o);
      }
    }
  }

  /** Grouping a two-order list keeps each order whose status matches, in
      list order. */
  lemma GroupTwo(p: Order, d: Order, s: Status)
    ensures GroupOrders([p, d], s) == (if p.status == s then [p] else []) + (if d.status == s then [d] else [])
  {
    assert [p, d][..1] == [p];
    assert [p][..0] == [];
  }

  lemma SkipEmptyBucket(statuses: seq<Status>, orders: seq<Order>)
    requires statuses != [] && GroupOrders(orders, statuses[0]) == []
    ensures SectionsFor(statuses, orders) == SectionsFor(statuses[1..], orders)
  {
  }

  lemma TakeBucket(statuses: seq<Status>, orders: seq<Order>, bucket: seq<Order>)
    requires statuses != [] && GroupOrders(orders, statuses[0]) == bucket != []
    ensures SectionsFor(statuses, orders) == [Section(statuses[0], bucket)] + SectionsFor(statuses[1..], orders)
  {
  }

  /** A loaded list of one pending and one done order shows a PENDING
      section and then a DONE section, each with its one order, and no
      section for DELIVERING or CANCELLED. */
  lemma PendingAndDoneBoard(p: Order, d: Order)
    requires p.status == PENDING && d.status == DONE
    ensures RenderBoard(false, [p, d]) == Board([Section(PENDING, [p]), Section(DONE, [d])])
  {
    var orders := [p, d];
    assert |PENDING| == 7 && |DELIVERING| == 10 && |DONE| == 4 && |CANCELLED| == 9;
    var t3 := [CANCELLED];
    var t2 := [DONE] + t3;
    var t1 := [DELIVERING] + t2;
    assert DisplayStatuses == [PENDING] + t1;
    assert t3[1..] == [] && t2[1..] == t3 && t1[1..] == t2 && ([PENDING] + t1)[1..] == t1;
    GroupTwo(p, d, CANCELLED);
    SkipEmptyBucket(t3, orders);
    GroupTwo(p, d, DONE);
    TakeBucket(t2, orders, [d]);
    GroupTwo(p, d, DELIVERING);
    SkipEmptyBucket(t1, orders);
    GroupTwo(p, d, PENDING);
    TakeBucket(DisplayStatuses, orders, [p]);
    assert SectionsFor(t3[1..], orders) == [];
    assert Sections(orders) == [Section(PENDING, [p]), Section(DONE, [d])];
  }

  // ---------------------------------------------------------------------
  // Per-order controls and colours

  datatype StatusControl =
    | Select(value: Status, options: seq<Status>)  // a selector wired to the status change
    | PlainText(text: Status)                      // the status as text, no control

  /** The status cell of an order card. */
  function ControlFor(o: Order): (c: StatusControl)
    ensures c.Select? <==> o.status == PENDING || o.status == DELIVERING
    ensures c.Select? ==> c.value == o.status && c.options == DisplayStatuses
    ensures c.PlainText? ==> c.text == o.status
  {
    if o.status == PENDING || o.status == DELIVERING then Select(o.status, DisplayStatuses)
    else PlainText(o.status)
  }

  /** The selector does not enforce forward-only moves: from DELIVERING it
      offers PENDING, and from PENDING it offers both terminal statuses. Done
      and cancelled orders (and unknown statuses) get no selector. */
  lemma ControlAllowsAnyMove(o: Order)
    ensures o.status == DELIVERING ==> PENDING in ControlFor(o).options
    ensures o.status == PENDING ==> DONE in ControlFor(o).options && CANCELLED in ControlFor(o).options
    ensures o.status == DONE || o.status == CANCELLED ==> ControlFor(o) == PlainText(o.status)
    ensures ControlFor(o).Select? ==> |ControlFor(o).options| == 4 && o.status in ControlFor(o).options
  {
  }

  const White := "white"

  /** Background of an order card. */
  function CardBackground(status: Status): string {
    if status == PENDING then "#FFF8E1"
    else if status == DELIVERING then "#E1F5FE"
    else White
  }

  /** The header colour table; a status outside it has no colour. */
  function HeaderColor(status: Status): Option<string> {
    if status == PENDING then Some("#FFB300")
    else if status == DELIVERING then Some("#03A9F4")
    else if status == DONE then Some("#4CAF50")
    else if status == CANCELLED then Some("#f44336")
    else None
  }

  /** A card is tinted exactly when it carries a status selector, the two
      open statuses get different tints, and every other status is white. */
  lemma TintMarksOpenOrders(o: Order)
    ensures CardBackground(o.status) != White <==> ControlFor(o).Select?
    ensures CardBackground(PENDING) != CardBackground(DELIVERING)
  {
  }

  /** Every section header has a colour, the four colours differ, and a
      status outside the four has none. */
  lemma HeaderColorsDistinct(s: Status, t: Status)
    ensures HeaderColor(s).Some? <==> s in DisplayStatuses
    ensures s in DisplayStatuses && t in DisplayStatuses && s != t ==> HeaderColor(s) != HeaderColor(t)
  {
  }

  // ---------------------------------------------------------------------
  // The component's state and its two handlers

  /** What the backend answered to `GET /admin/orders`. */
  datatype FetchOutcome = Fetched(orders: seq<Order>) | FetchFailed
  /** What the backend answered to a status change. */
  datatype PatchOutcome = Patched | PatchFailed

  datatype Request =
    | GetOrders                                       // GET /admin/orders
    | PatchOrderStatus(orderId: int, status: Status)  // PATCH /admin/orders/{orderId}/status {status}

  class OrderBoard {
    var orders: seq<Order>
    var loading: bool

    /** Mounting the board: no orders yet, loading. */
    constructor ()
      ensures orders == [] && loading
      ensures View() == LoadingMessage
    {
      orders := [];
      loading := true;
    }

    /** What the board shows in its present state: the loading message
        from mounting until the first load ends, and never again. */
    function View(): BoardView
      reads this
    {
      RenderBoard(loading, orders)
    }

    /** Loads the list: replaces it on success, keeps it on failure, and
        clears `loading` either way. */
    method FetchOrders(response: FetchOutcome) returns (sent: seq<Request>)
      modifies this
      ensures sent == [GetOrders]
      ensures orders == if response.Fetched? then response.orders else old(orders)
      ensures !loading
      ensures View() != LoadingMessage
    {
      sent := [GetOrders];
      match response {
        case Fetched(list) =>
          orders := list;
        case FetchFailed =>
      }
      loading := false;
    }

    /** Asks the backend to move an order to `newStatus`, and reloads the
        list only when that request succeeded; a failed request leaves the
        state as it was. */
    method HandleStatusChange(orderId: int, newStatus: Status, patch: PatchOutcome, reload: FetchOutcome)
      returns (sent: seq<Request>)
      modifies this
      ensures sent == [PatchOrderStatus(orderId, newStatus)] + (if patch.Patched? then [GetOrders] else [])
      ensures patch.Patched? ==>
                !loading && orders == if reload.Fetched? then reload.orders else old(orders)
      ensures patch.PatchFailed? ==> orders == old(orders) && loading == old(loading)
      ensures loading ==> old(loading)
      ensures old(View()) != LoadingMessage ==> View() != LoadingMessage
    {
      sent := [PatchOrderStatus(orderId, newStatus)];
      if patch.Patched? {
        var again := FetchOrders(reload);
        sent := sent + again;
      }
    }
  }
}
