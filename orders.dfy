/** The merchant order prototype: an in-memory list of orders, the order
    currently open in the detail view, and the time of the last polling
    refresh. The pending list is always re-derived from the orders, an
    open order can be accepted or rejected, and either action closes the
    detail view. */
module Orders {
  import opened Wrappers

  datatype Status = Pending | Accepted | Rejected

  datatype LineItem = LineItem(name: string, qty: int, price: int)

  datatype Order = Order(
    id: string,
    customer: string,
    phone: string,
    address: string,
    time: string,
    amount: int,
    status: Status,
    items: seq<LineItem>,
    note: string)

  /** The orders the page starts with: two pending orders with distinct
      ids. */
  function SeedOrders(): (seed: seq<Order>)
    ensures |seed| == 2
    ensures forall k :: 0 <= k < |seed| ==> seed[k].status == Pending
    ensures UniqueIds(seed)
  {
    [ Order("20231027001", "王小明", "0912-345-678", "台北市信義區信義路一段1號", "12:30 PM", 180, Pending,
            [LineItem("炸雞腿便當", 1, 120), LineItem("珍珠奶茶 (去冰半糖)", 1, 60)],
            "炸雞腿飯不要辣，珍珠奶茶請用環保杯。"),
      Order("20231027002", "林大華", "0987-654-321", "新北市板橋區縣民大道二段10號", "01:00 PM", 520, Pending,
            [LineItem("義式肉醬麵", 2, 150), LineItem("凱撒沙拉", 1, 90), LineItem("濃湯", 2, 65)],
            "請將沙拉醬分開包裝，謝謝。") ]
  }

  // ---------------------------------------------------------------------
  // The pending projection

  /** `orders.filter(order => order.status === 'pending')`. */
  function PendingOf(os: seq<Order>): (r: seq<Order>)
    ensures |r| <= |os|
    ensures forall k :: 0 <= k < |r| ==> r[k].status == Pending
  {
    if os == [] then []
    else (if os[0].status == Pending then [os[0]] else []) + PendingOf(os[1..])
  }

  /** The projection holds exactly the pending orders. */
  lemma {:induction false} PendingMembers(os: seq<Order>, o: Order)
    ensures o in PendingOf(os) <==> o in os && o.status == Pending
  {
    if os != [] {
      PendingMembers(os[1..], o);
      assert os == [os[0]] + os[1..];
    }
  }

  /** The projection keeps relative order: filtering a concatenation is
      concatenating the filtered parts. With the one-element case (an order
      is kept iff it is pending) this determines the projection entirely. */
  lemma {:induction false} PendingOfConcat(a: seq<Order>, b: seq<Order>)
    ensures PendingOf(a + b) == PendingOf(a) + PendingOf(b)
  {
    if a == [] {
      assert a + b == b;
    } else {
      assert (a + b)[1..] == a[1..] + b;
      PendingOfConcat(a[1..], b);
    }
  }

  lemma PendingOfSingle(o: Order)
    ensures PendingOf([o]) == if o.status == Pending then [o] else []
  {
    assert [o][1..] == [];
  }

  // ---------------------------------------------------------------------
  // Selection by id

  /** `orders.find(o => o.id === orderId)`, as the index of the order found. */
  function FindIndex(os: seq<Order>, id: string): (r: Option<nat>)
    ensures r.Some? ==> r.value < |os| && os[r.value].id == id
    ensures r.Some? ==> forall j :: 0 <= j < r.value ==> os[j].id != id
    ensures r.None? ==> forall j :: 0 <= j < |os| ==> os[j].id != id
  {
    if os == [] then None
    else if os[0].id == id then Some(0)
    else match FindIndex(os[1..], id)
      case None => None
      case Some(j) => Some(j + 1)
  }

  ghost predicate UniqueIds(os: seq<Order>) {
    forall i, j :: 0 <= i < j < |os| ==> os[i].id != os[j].id
  }

  /** No order of `s` carries `id`. */
  ghost predicate LacksId(s: seq<Order>, id: string) {
    forall k :: 0 <= k < |s| ==> s[k].id != id
  }

  /** Accepting or rejecting changes no id, so ids that were distinct stay
      distinct. */
  lemma ApplyActionKeepsIds(os: seq<Order>, i: nat, action: string)
    requires i < |os|
    ensures forall j :: 0 <= j < |os| ==> ApplyAction(os, i, action)[j].id == os[j].id
    ensures UniqueIds(os) ==> UniqueIds(ApplyAction(os, i, action))
  {
  }

  /** Each card of the list is built from the pending projection and opens
      the order with the card's id. With unique ids, what such a click
      selects is a pending order: this is the only thing that keeps
      accept/reject from reaching an order already decided. */
  lemma CardSelectsPending(os: seq<Order>, card: Order)
    requires UniqueIds(os)
    requires card in PendingOf(os)
    ensures FindIndex(os, card.id).Some?
    ensures os[FindIndex(os, card.id).value] == card
    ensures os[FindIndex(os, card.id).value].status == Pending
  {
    PendingMembers(os, card);
    var k :| 0 <= k < |os| && os[k] == card;
    var r := FindIndex(os, card.id);
    assert r.Some?;
    assert r.value == k;
  }

  // ---------------------------------------------------------------------
  // Detail lines and elapsed time

  /** The subtotal printed for one detail line: `item.price * item.qty`. */
  function Subtotal(item: LineItem): int {
    item.price * item.qty
  }

  /** One subtotal per detail line, in the order of the items. */
  function LineSubtotals(items: seq<LineItem>): (r: seq<int>)
    ensures |r| == |items|
    ensures forall k :: 0 <= k < |items| ==> r[k] == items[k].price * items[k].qty
  {
    if items == [] then [] else [Subtotal(items[0])] + LineSubtotals(items[1..])
  }

  function Sum(xs: seq<int>): int {
    if xs == [] then 0 else xs[0] + Sum(xs[1..])
  }

  /** A record whose total equals the sum of its lines; the page never
      checks this. */
  ghost predicate WellFormed(o: Order) {
    o.amount == Sum(LineSubtotals(o.items))
  }

  lemma SeedWellFormed()
    ensures forall k :: 0 <= k < |SeedOrders()| ==> WellFormed(SeedOrders()[k])
  {
    var s := SeedOrders();
    assert LineSubtotals(s[0].items) == [120, 60];
    assert LineSubtotals(s[1].items) == [300, 90, 130];
  }

  /** `Math.floor((now - lastRefreshTime) / 1000)`, times in milliseconds. */
  function ElapsedSeconds(now: int, last: int): (secs: int)
    ensures secs * 1000 <= now - last < secs * 1000 + 1000
    ensures now >= last ==> secs >= 0
    ensures now < last ==> secs < 0
  {
    (now - last) / 1000
  }

  // ---------------------------------------------------------------------
  // Accept and reject

  function StatusFor(action: string): Option<Status> {
    if action == "accept" then Some(Accepted)
    else if action == "reject" then Some(Rejected)
    else None
  }

  /** The orders after the action on the order at index `i`: only that
      order's status may change. */
  function ApplyAction(os: seq<Order>, i: nat, action: string): (r: seq<Order>)
    requires i < |os|
    ensures |r| == |os|
    ensures forall j :: 0 <= j < |os| && j != i ==> r[j] == os[j]
    ensures r[i] == os[i].(status := r[i].status)
    ensures action == "accept" ==> r[i].status == Accepted
    ensures action == "reject" ==> r[i].status == Rejected
    ensures action != "accept" && action != "reject" ==> r == os
  {
    match StatusFor(action)
    case None => os
    case Some(s) => os[i := os[i].(status := s)]
  }

  /** A status may only stay, or leave Pending. */
  predicate AllowedStep(before: Status, after: Status) {
    before == after || (before == Pending && after != Pending)
  }

  /** Acting on a pending order moves it to a terminal status and leaves
      all others as they were. */
  lemma ActionOnPendingIsAllowed(os: seq<Order>, i: nat, action: string)
    requires i < |os| && os[i].status == Pending
    ensures forall j :: 0 <= j < |os| ==> AllowedStep(os[j].status, ApplyAction(os, i, action)[j].status)
  {
  }

  /** Nothing in the action itself checks the status: a decided order that
      is somehow still selected can be decided again. */
  lemma ActionDoesNotCheckStatus(o: Order)
    requires o.status == Accepted
    ensures ApplyAction([o], 0, "reject")[0].status == Rejected
    ensures !AllowedStep(o.status, ApplyAction([o], 0, "reject")[0].status)
  {
  }

  /** `s` without the orders carrying `id`. */
  function WithoutId(s: seq<Order>, id: string): seq<Order> {
    if s == [] then []
    else (if s[0].id == id then [] else [s[0]]) + WithoutId(s[1..], id)
  }

  lemma {:induction false} WithoutIdConcat(a: seq<Order>, b: seq<Order>, id: string)
    ensures WithoutId(a + b, id) == WithoutId(a, id) + WithoutId(b, id)
  {
    if a == [] {
      assert a + b == b;
    } else {
      assert (a + b)[1..] == a[1..] + b;
      WithoutIdConcat(a[1..], b, id);
    }
  }

  lemma {:induction false} WithoutAbsentId(s: seq<Order>, id: string)
    requires LacksId(s, id)
    ensures WithoutId(s, id) == s
  {
    if s != [] {
      WithoutAbsentId(s[1..], id);
    }
  }

  /** Sequence facts stated generically: over `seq<Order>` the solver would
      also unfold the equality of every order's strings. */
  lemma SplitAt<X>(s: seq<X>, i: nat)
    requires i < |s|
    ensures s == s[..i] + [s[i]] + s[i + 1..]
  {
  }

  lemma UpdateKeepsSlices<X>(s: seq<X>, s': seq<X>, i: nat)
    requires i < |s| == |s'|
    requires forall j :: 0 <= j < |s| && j != i ==> s'[j] == s[j]
    ensures s'[..i] == s[..i] && s'[i + 1..] == s[i + 1..]
  {
  }

  lemma DropIndexes<X>(s: seq<X>, lo: nat)
    requires lo <= |s|
    ensures forall j :: 0 <= j < |s| - lo ==> s[lo..][j] == s[lo + j]
  {
  }

  lemma PendingOfConcat3(a: seq<Order>, b: seq<Order>, c: seq<Order>)
    ensures PendingOf(a + b + c) == PendingOf(a) + PendingOf(b) + PendingOf(c)
  {
    PendingOfConcat(a + b, c);
    PendingOfConcat(a, b);
  }

  /** The pending list of `os` split around position `i`. */
  lemma PendingAround(os: seq<Order>, i: nat)
    requires i < |os|
    ensures PendingOf(os) == PendingOf(os[..i]) + PendingOf([os[i]]) + PendingOf(os[i + 1..])
  {
    SplitAt(os, i);
    PendingOfConcat3(os[..i], [os[i]], os[i + 1..]);
  }

  /** No order of a stretch `part` of `os` that does not cover position `i`
      has the id of `os[i]`, and so none of its pending orders does. */
  lemma PendingElsewhereLacksId(os: seq<Order>, i: nat, part: seq<Order>, lo: nat)
    requires UniqueIds(os)
    requires i < |os| && lo + |part| <= |os| && (lo + |part| <= i || i < lo)
    requires forall j :: 0 <= j < |part| ==> part[j] == os[lo + j]
    ensures LacksId(PendingOf(part), os[i].id)
  {
    forall k | 0 <= k < |PendingOf(part)| ensures PendingOf(part)[k].id != os[i].id {
      var o := PendingOf(part)[k];
      PendingMembers(part, o);
      var j :| 0 <= j < |part| && part[j] == o;
      assert os[lo + j] == o;
    }
  }

  lemma WithoutOnlyCarrier(front: seq<Order>, x: Order, back: seq<Order>, id: string)
    requires x.id == id
    requires LacksId(front, id) && LacksId(back, id)
    ensures WithoutId(front + [x] + back, id) == front + back
  {
    WithoutIdConcat(front + [x], back, id);
    WithoutIdConcat(front, [x], id);
    WithoutAbsentId(front, id);
    WithoutAbsentId(back, id);
    assert [x][1..] == [];
  }

  /** With unique ids, no pending order before or after position `i` has
      the id of `os[i]`. */
  lemma NeighboursLackId(os: seq<Order>, i: nat)
    requires UniqueIds(os)
    requires i < |os|
    ensures LacksId(PendingOf(os[..i]), os[i].id)
    ensures LacksId(PendingOf(os[i + 1..]), os[i].id)
  {
    PendingElsewhereLacksId(os, i, os[..i], 0);
    DropIndexes(os, i + 1);
    PendingElsewhereLacksId(os, i, os[i + 1..], i + 1);
  }

  /** With unique ids, dropping the id of a pending `os[i]` from the pending
      list removes that one entry and nothing else. */
  lemma PendingWithoutOne(os: seq<Order>, i: nat)
    requires UniqueIds(os)
    requires i < |os| && os[i].status == Pending
    ensures PendingOf(os) == PendingOf(os[..i]) + [os[i]] + PendingOf(os[i + 1..])
    ensures WithoutId(PendingOf(os), os[i].id) == PendingOf(os[..i]) + PendingOf(os[i + 1..])
  {
    PendingAround(os, i);
    PendingOfSingle(os[i]);
    NeighboursLackId(os, i);
    WithoutOnlyCarrier(PendingOf(os[..i]), os[i], PendingOf(os[i + 1..]), os[i].id);
  }

  /** Moving the order at `i` out of Pending, and changing nothing else,
      takes exactly that order out of the pending list. */
  lemma PendingAfterLeaving(os: seq<Order>, r: seq<Order>, i: nat)
    requires i < |os| == |r|
    requires forall j :: 0 <= j < |os| && j != i ==> r[j] == os[j]
    requires r[i].status != Pending
    ensures PendingOf(r) == PendingOf(os[..i]) + PendingOf(os[i + 1..])
  {
    PendingAround(r, i);
    PendingOfSingle(r[i]);
    UpdateKeepsSlices(os, r, i);
  }

  /** With unique ids, deciding a pending order removes exactly that order
      from the pending list and keeps the rest in their order. */
  lemma PendingAfterAction(os: seq<Order>, i: nat, action: string)
    requires UniqueIds(os)
    requires i < |os| && os[i].status == Pending
    requires action == "accept" || action == "reject"
    ensures PendingOf(ApplyAction(os, i, action)) == PendingOf(os[..i]) + PendingOf(os[i + 1..])
    ensures PendingOf(os) == PendingOf(os[..i]) + [os[i]] + PendingOf(os[i + 1..])
    ensures PendingOf(ApplyAction(os, i, action)) == WithoutId(PendingOf(os), os[i].id)
  {
    PendingAfterLeaving(os, ApplyAction(os, i, action), i);
    PendingWithoutOne(os, i);
  }

  /** The two-order walkthrough on the seed data: both orders are pending;
      opening the first and accepting it leaves only the second pending;
      then opening the second and rejecting it leaves none. */
  lemma SeedWalkthrough()
    ensures PendingOf(SeedOrders()) == SeedOrders()
    ensures FindIndex(SeedOrders(), "20231027001") == Some(0)
    ensures var afterAccept := ApplyAction(SeedOrders(), 0, "accept");
            && afterAccept[0].status == Accepted
            && PendingOf(afterAccept) == [SeedOrders()[1]]
            && FindIndex(afterAccept, "20231027002") == Some(1)
            && var afterReject := ApplyAction(afterAccept, 1, "reject");
               afterReject[1].status == Rejected && PendingOf(afterReject) == []
  {
    var s := SeedOrders();
    assert s[1..][1..] == [];
    var a := ApplyAction(s, 0, "accept");
    assert a[1..] == [s[1]] && a[1..][1..] == [];
    var b := ApplyAction(a, 1, "reject");
    assert b[1..][1..] == [];
  }

  // ---------------------------------------------------------------------
  // The page state

  class OrderBoard {
    var orders: seq<Order>
    /** The order open in the detail view, as its index in `orders`;
        `undefined` and `null` are both None. */
    var current: Option<nat>
    /** `lastRefreshTime`, in milliseconds. */
    var lastRefresh: int

    ghost predicate Valid()
      reads this
    {
      && (current.Some? ==> current.value < |orders|)
      && UniqueIds(orders)
    }

    /** The page as loaded: the seed orders, nothing open, the refresh
        clock started at `loadTime`. */
    constructor (loadTime: int)
      ensures Valid()
      ensures orders == SeedOrders() && current == None && lastRefresh == loadTime
    {
      orders := SeedOrders();
      current := None;
      lastRefresh := loadTime;
    }

    /** The pending list; it changes no state. */
    method FetchPendingOrders() returns (pending: seq<Order>)
      ensures pending == PendingOf(orders)
    {
      pending := PendingOf(orders);
    }

    /** Selects the first order with this id. The lookup result is stored
        before it is tested, so an unknown id clears the selection.
        Returns the detail lines' subtotals of the order shown, if any. */
    method ShowDetails(orderId: string) returns (subtotals: Option<seq<int>>)
      requires Valid()
      modifies this`current
      ensures Valid()
      ensures current == FindIndex(orders, orderId)
      ensures current.None? ==> subtotals == None
      ensures current.Some? ==> subtotals == Some(LineSubtotals(orders[current.value].items))
    {
      current := FindIndex(orders, orderId);
      if current.None? {
        return None;
      }
      subtotals := Some(LineSubtotals(orders[current.value].items));
    }

    method CloseModal()
      requires Valid()
      modifies this`current
      ensures Valid()
      ensures current == None
    {
      current := None;
    }

    /** Accepts or rejects the open order, closes the detail view and
        re-derives the pending list. With nothing open it does nothing. */
    method HandleOrderAction(action: string) returns (refreshed: Option<seq<Order>>)
      requires Valid()
      modifies this`orders, this`current
      ensures Valid()
      ensures old(current).None? ==> orders == old(orders) && current == old(current) && refreshed == None
      ensures old(current).Some? ==>
                && orders == ApplyAction(old(orders), old(current).value, action)
                && current == None
                && refreshed == Some(PendingOf(orders))
    {
      if current.None? {
        return None;
      }
      var i := current.value;
      ApplyActionKeepsIds(orders, i, action);
      if action == "accept" {
        orders := orders[i := orders[i].(status := Accepted)];
      } else if action == "reject" {
        orders := orders[i := orders[i].(status := Rejected)];
      }
      CloseModal();
      var pending := FetchPendingOrders();
      refreshed := Some(pending);
    }

    /** One polling tick: re-derive the pending list, then restart the
        refresh clock at `now`. */
    method AutoRefresh(now: int) returns (pending: seq<Order>)
      requires Valid()
      modifies this`lastRefresh
      ensures Valid()
      ensures pending == PendingOf(orders)
      ensures lastRefresh == now
      ensures ElapsedSeconds(now, lastRefresh) == 0
    {
      pending := FetchPendingOrders();
      lastRefresh := now;
    }

    /** The seconds the refresh indicator shows at time `now`. */
    method RefreshIndicator(now: int) returns (secs: int)
      ensures secs == ElapsedSeconds(now, lastRefresh)
    {
      secs := (now - lastRefresh) / 1000;
    }
  }

  /** Drives the page through a card click and an action: the order opened
      from the pending list leaves it, and the detail view is closed. */
  method ClickCardThenAct(board: OrderBoard, card: Order, action: string)
    returns (refreshed: Option<seq<Order>>)
    requires board.Valid()
    requires card in PendingOf(board.orders)
    requires action == "accept" || action == "reject"
    modifies board`orders, board`current
    ensures board.Valid() && board.current == None
    ensures FindIndex(old(board.orders), card.id).Some?
    ensures board.orders == ApplyAction(old(board.orders), FindIndex(old(board.orders), card.id).value, action)
    ensures refreshed == Some(PendingOf(board.orders))
    ensures refreshed == Some(WithoutId(PendingOf(old(board.orders)), card.id))
  {
    CardSelectsPending(board.orders, card);
    ghost var i := FindIndex(board.orders, card.id).value;
    ghost var before := board.orders;
    var _ := board.ShowDetails(card.id);
    refreshed := board.HandleOrderAction(action);
    PendingAfterAction(before, i, action);
  }

  /** The page from load through one accept: both seed orders are listed;
      opening the first and accepting it leaves the second listed; an id
      no order has then leaves nothing selected. */
  method PageWalkthrough(loadTime: int)
    returns (initial: seq<Order>, refreshed: Option<seq<Order>>, selected: Option<nat>)
    ensures initial == SeedOrders()
    ensures refreshed == Some([SeedOrders()[1]])
    ensures selected == None
  {
    var board := new OrderBoard(loadTime);
    SeedWalkthrough();
    initial := board.FetchPendingOrders();
    var lines := board.ShowDetails("20231027001");
    refreshed := board.HandleOrderAction("accept");
    lines := board.ShowDetails("20231027003");
    selected := board.current;
  }
}
