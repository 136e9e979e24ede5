/**
 Orders and outbox agree: what every run of CreateOrder calls keeps in the order database, whatever calls and statements
 fail, and also when COMMIT is ambiguous.
 */
module OrderConsistency {
  import opened Prelude
  import opened OrderDomain
  import opened OrderEvent
  import opened OrderService
  import opened Postgres
  import Utf8
  import Uuid

  /** One CreateOrder call with everything the environment contributes to it. */
  datatype Call = Call(input: Input, answers: Answers, finish: seq<Task>, gen: Generated, faults: nat -> Fault)

  /** The call respects Go's types, and the generator supplies enough ids and an RFC 3339 time. */
  ghost predicate TypedCall(c: Call)
  {
    && AllTasks(c.finish) && |c.gen.itemIds| >= |c.input.lines|
    && Utf8.Valid(c.gen.now)
    && (forall i :: 0 <= i < |c.input.lines| ==> Int32(c.input.lines[i].quantity))
    && (c.answers.catalog.Some? ==> TypedCatalog(c.answers.catalog.value))
  }

  ghost predicate TypedCatalog(catalog: seq<Product>)
  {
    forall i :: 0 <= i < |catalog| ==> Int64(catalog[i].price)
  }

  /** The order database after one call. */
  function After(db: OrderDb, c: Call): OrderDb
    requires AllTasks(c.finish) && |c.gen.itemIds| >= |c.input.lines|
  {
    match Plan(c.input, c.answers, c.finish, c.gen)
    case Err(_) => db
    case Ok(p) => Root(WithinTx(WriteOrder(p.order, p.event)), db, 0, 0, Apply, c.faults).db
  }

  ghost predicate TypedCalls(calls: seq<Call>)
  {
    forall i :: 0 <= i < |calls| ==> TypedCall(calls[i])
  }

  ghost function AfterAll(db: OrderDb, calls: seq<Call>): OrderDb
    requires TypedCalls(calls)
    decreases |calls|
  {
    if calls == [] then db else AfterAll(After(db, calls[0]), calls[1..])
  }

  const EMPTY := OrderDb([], [], [])

  /* ---------- the invariant ---------- */

  /** The item rows of an order, in insertion order. */
  function ItemsOf(items: seq<OrderItem>, orderId: bytes): seq<OrderItem>
  {
    if items == [] then []
    else (if items[0].orderId == orderId then [items[0]] else []) + ItemsOf(items[1..], orderId)
  }

  /** A payload with the spelling that UUID columns keep. */
  function Normalized(p: Payload): Payload
  {
    p.(userId := Uuid.Normal(p.userId),
       items := seq(|p.items|, i requires 0 <= i < |p.items| =>
                    p.items[i].(productId := Uuid.Normal(p.items[i].productId))))
  }

  /** An order row, its item rows and its outbox row tell the same story, and the event can be read back. */
  ghost predicate Agrees(o: OrderRow, items: seq<OrderItem>, e: OutboxRow)
  {
    && e.aggregateType == AGGREGATE_TYPE_ORDER && e.eventType == EVENT_TYPE_ORDER_CREATED && e.aggregateId == o.id
    && items != []
    && Decode(e.payload).Some?
    && Normalized(Decode(e.payload).value) ==
       Payload(e.id, o.id, o.userId, EventItems(items), o.totalAmount, o.deliveryAddress, o.createdAt)
    && o.totalAmount == Wrap64(Sum(items, |items|)) && o.totalAmount >= 0
    && Uuid.CanonicalId(o.userId) && '\0' !in o.deliveryAddress && '\0' !in o.createdAt
    && (forall i :: 0 <= i < |items| ==>
          && items[i].quantity > 0 && items[i].unitPrice >= 0
          && Uuid.CanonicalId(items[i].productId) && '\0' !in items[i].productName)
  }

  ghost predicate Paired(db: OrderDb)
  {
    && |db.orders| == |db.outbox|
    && forall i :: 0 <= i < |db.orders| ==> Agrees(db.orders[i], ItemsOf(db.items, db.orders[i].id), db.outbox[i])
  }

  ghost predicate DistinctKeys(db: OrderDb)
  {
    && (forall i, j :: 0 <= i < j < |db.orders| ==> db.orders[i].id != db.orders[j].id)
    && (forall i, j :: 0 <= i < j < |db.outbox| ==> db.outbox[i].id != db.outbox[j].id)
    && (forall i, j :: 0 <= i < j < |db.items| ==> db.items[i].id != db.items[j].id)
  }

  ghost predicate ItemsHaveOrders(db: OrderDb)
  {
    forall i :: 0 <= i < |db.items| ==> HasOrder(db.orders, db.items[i].orderId)
  }

  ghost predicate Consistent(db: OrderDb)
  {
    Paired(db) && DistinctKeys(db) && ItemsHaveOrders(db)
  }

  /* ---------- one call ---------- */

  function Stored(db: OrderDb, order: Order, event: OutboxRow): OrderDb
  {
    OrderDb(db.orders + [KeptOrder(RowOf(order))], db.items + KeptItems(order.items), db.outbox + [event])
  }

  /** The constraints a stored order has passed. */
  ghost predicate Accepted(db: OrderDb, order: Order, event: OutboxRow)
  {
    && OrderAccepted(db, RowOf(order))
    && ItemsAccepted(db.(orders := db.orders + [KeptOrder(RowOf(order))]), order.items)
    && !HasEvent(db.outbox, event.id)
  }

  /** Whatever fails, the transaction stores the whole order or nothing. */
  lemma WriteOrderAllOrNothing(db: OrderDb, order: Order, event: OutboxRow, calls: nat, commits: nat,
                               faults: nat -> Fault)
    ensures var r := Root(WithinTx(WriteOrder(order, event)), db, calls, commits, Apply, faults);
            && (r.db == db || (r.db == Stored(db, order, event) && Accepted(db, order, event)))
            && (r.ok ==> r.db == Stored(db, order, event) && Accepted(db, order, event))
  {
    var s1, s2, s3 := InsertOrder(RowOf(order)), CopyItems(order.items), InsertOutbox(event);
    var one := db.(orders := db.orders + [KeptOrder(RowOf(order))]);
    var two := one.(items := db.items + KeptItems(order.items));
    var a := InTx(Exec(s1), db, false, calls + 1, Apply, faults);
    assert a.ok ==> !a.aborted && Apply(db, s1) == Some(a.pending) && a.pending == one;
    var b := InTx(Exec(s2), one, false, a.calls, Apply, faults);
    assert b.ok ==> !b.aborted && Apply(one, s2) == Some(b.pending) && b.pending == two;
    var c := InTx(Exec(s3), two, false, b.calls, Apply, faults);
    assert c.ok ==> !c.aborted && Apply(two, s3) == Some(c.pending) && c.pending == Stored(db, order, event);
    var create := InTx(Then(Exec(s1), Exec(s2)), db, false, calls + 1, Apply, faults);
    assert create == if a.ok then b else a;
    var all := InTx(WriteOrder(order, event), db, false, calls + 1, Apply, faults);
    assert all == if create.ok then c else create;
  }

  lemma {:induction false} ItemsOfConcat(a: seq<OrderItem>, b: seq<OrderItem>, id: bytes)
    ensures ItemsOf(a + b, id) == ItemsOf(a, id) + ItemsOf(b, id)
  {
    if a == [] {
      assert a + b == b;
    } else {
      assert (a + b)[0] == a[0] && (a + b)[1..] == a[1..] + b;
      ItemsOfConcat(a[1..], b, id);
      Regroup(if a[0].orderId == id then [a[0]] else [], ItemsOf(a[1..], id), ItemsOf(b, id));
    }
  }

  lemma {:induction false} ItemsOfAll(items: seq<OrderItem>, id: bytes)
    ensures (forall i :: 0 <= i < |items| ==> items[i].orderId == id) ==> ItemsOf(items, id) == items
    ensures (forall i :: 0 <= i < |items| ==> items[i].orderId != id) ==> ItemsOf(items, id) == []
  {
    if items != [] {
      ItemsOfAll(items[1..], id);
    }
  }

  /** What a planned order looks like, and that its event reads back as its payload. */
  lemma PlannedAgrees(c: Call, p: Planned)
    requires TypedCall(c) && Plan(c.input, c.answers, c.finish, c.gen) == Ok(p)
    ensures p.order.items != []
    ensures forall i :: 0 <= i < |p.order.items| ==> p.order.items[i].orderId == p.order.id
    ensures p.order.totalAmount == Wrap64(Sum(p.order.items, |p.order.items|))
    ensures p.event == EventOf(p.order, c.gen.eventId)
    ensures Decode(p.event.payload) == Some(PayloadOf(p.order, c.gen.eventId))
  {
    assert !Fails(c.answers, GetProducts);
    var catalog := c.answers.catalog.value;
    var items := Join(c.input.lines, catalog).value;
    TotalIsWrappedSum(p.order.items, |p.order.items|);
    forall i | 0 <= i < |p.order.items|
      ensures Int32(p.order.items[i].quantity) && Int64(p.order.items[i].unitPrice)
    {
      assert items[i] == Joined(c.input.lines[i], ById(catalog, c.input.lines[i].productId).value);
      ByIdIsListed(catalog, c.input.lines[i].productId);
    }
    SurvivesIffValid(PayloadOf(p.order, c.gen.eventId));
  }

  lemma {:induction false} ByIdIsListed(catalog: seq<Product>, id: bytes)
    ensures ById(catalog, id).Some? ==> ById(catalog, id).value in catalog && ById(catalog, id).value.id == id
  {
    if catalog != [] && catalog[|catalog| - 1].id != id {
      ByIdIsListed(catalog[..|catalog| - 1], id);
    }
  }

  /** An order and event that agree with each other. */
  ghost predicate Matched(order: Order, event: OutboxRow)
  {
    && (forall i :: 0 <= i < |order.items| ==> order.items[i].orderId == order.id)
    && Agrees(KeptOrder(RowOf(order)), KeptItems(order.items), event)
  }

  lemma {:induction false} KeptItemsSum(items: seq<OrderItem>, n: nat)
    requires n <= |items|
    ensures Sum(KeptItems(items), n) == Sum(items, n)
  {
    if n > 0 {
      KeptItemsSum(items, n - 1);
    }
  }

  lemma NormalizedIsKept(order: Order, eventId: bytes)
    ensures var o := KeptOrder(RowOf(order));
            Normalized(PayloadOf(order, eventId)) ==
            Payload(eventId, o.id, o.userId, EventItems(KeptItems(order.items)), o.totalAmount, o.deliveryAddress,
                    o.createdAt)
  {
    assert Normalized(PayloadOf(order, eventId)).items == EventItems(KeptItems(order.items));
  }

  lemma PlannedMatches(db: OrderDb, c: Call, p: Planned)
    requires TypedCall(c) && Plan(c.input, c.answers, c.finish, c.gen) == Ok(p)
    requires Accepted(db, p.order, p.event)
    ensures Matched(p.order, p.event)
  {
    PlannedAgrees(c, p);
    NormalizedIsKept(p.order, c.gen.eventId);
    KeptItemsSum(p.order.items, |p.order.items|);
  }

  lemma StoredItems(db: OrderDb, order: Order, event: OutboxRow, id: bytes)
    requires Consistent(db) && Accepted(db, order, event) && Matched(order, event)
    ensures ItemsOf(Stored(db, order, event).items, id) ==
            if id == order.id then KeptItems(order.items) else ItemsOf(db.items, id)
  {
    ItemsOfConcat(db.items, KeptItems(order.items), id);
    ItemsOfAll(KeptItems(order.items), id);
    if id == order.id {
      forall i | 0 <= i < |db.items| ensures db.items[i].orderId != id {
        assert HasOrder(db.orders, db.items[i].orderId);
      }
      ItemsOfAll(db.items, id);
    } else {
      assert ItemsOf(KeptItems(order.items), id) == [];
    }
  }

  lemma HasOrderStill(orders: seq<OrderRow>, row: OrderRow, id: bytes)
    ensures HasOrder(orders + [row], id) <==> HasOrder(orders, id) || row.id == id
  {
    var next := orders + [row];
    if HasOrder(orders, id) {
      var j :| 0 <= j < |orders| && orders[j].id == id;
      assert next[j].id == id;
    }
    assert next[|orders|] == row;
  }

  lemma StoredItemsHaveOrders(db: OrderDb, order: Order, event: OutboxRow)
    requires Consistent(db) && Matched(order, event)
    ensures ItemsHaveOrders(Stored(db, order, event))
  {
    var next := Stored(db, order, event);
    forall i | 0 <= i < |next.items| ensures HasOrder(next.orders, next.items[i].orderId) {
      HasOrderStill(db.orders, KeptOrder(RowOf(order)), next.items[i].orderId);
      assert i < |db.items| ==> next.items[i] == db.items[i];
    }
  }

  /** Storing an accepted order keeps the invariant. */
  lemma StoredIsConsistent(db: OrderDb, order: Order, event: OutboxRow)
    requires Consistent(db) && Accepted(db, order, event) && Matched(order, event)
    ensures Consistent(Stored(db, order, event))
  {
    StoredIsPaired(db, order, event);
    StoredKeysDiffer(db, order, event);
    StoredItemsHaveOrders(db, order, event);
  }

  lemma StoredKeysDiffer(db: OrderDb, order: Order, event: OutboxRow)
    requires DistinctKeys(db) && Accepted(db, order, event)
    ensures DistinctKeys(Stored(db, order, event))
  {
  }

  lemma StoredIsPaired(db: OrderDb, order: Order, event: OutboxRow)
    requires Consistent(db) && Accepted(db, order, event) && Matched(order, event)
    ensures Paired(Stored(db, order, event))
  {
    var next, n := Stored(db, order, event), |db.orders|;
    forall i | 0 <= i < n + 1 ensures Agrees(next.orders[i], ItemsOf(next.items, next.orders[i].id), next.outbox[i]) {
      StoredItems(db, order, event, next.orders[i].id);
      if i < n {
        assert next.orders[i] == db.orders[i] && db.orders[i].id != order.id;
        assert next.outbox[i] == db.outbox[i];
      }
    }
  }

  /** Every CreateOrder call keeps orders and outbox in agreement. */
  lemma CallKeepsConsistent(db: OrderDb, c: Call)
    requires Consistent(db) && TypedCall(c)
    ensures Consistent(After(db, c))
  {
    match Plan(c.input, c.answers, c.finish, c.gen)
    case Err(_) =>
    case Ok(p) =>
      WriteOrderAllOrNothing(db, p.order, p.event, 0, 0, c.faults);
      if After(db, c) != db {
        PlannedMatches(db, c, p);
        StoredIsConsistent(db, p.order, p.event);
      }
  }

  /** Orders and outbox agree after any run of calls. */
  lemma {:induction false} RunKeepsConsistent(db: OrderDb, calls: seq<Call>)
    requires Consistent(db) && TypedCalls(calls)
    ensures Consistent(AfterAll(db, calls))
    decreases |calls|
  {
    if calls != [] {
      CallKeepsConsistent(db, calls[0]);
      RunKeepsConsistent(After(db, calls[0]), calls[1..]);
    }
  }

  /* ---------- what the invariant says ---------- */

  /** Outbox rows with a given aggregate id. */
  function EventsFor(outbox: seq<OutboxRow>, id: bytes): nat
  {
    if outbox == [] then 0 else (if outbox[0].aggregateId == id then 1 else 0) + EventsFor(outbox[1..], id)
  }

  lemma {:induction false} EventsForDistinct(outbox: seq<OutboxRow>, id: bytes)
    requires forall i, j :: 0 <= i < j < |outbox| ==> outbox[i].aggregateId != outbox[j].aggregateId
    ensures EventsFor(outbox, id) == if exists i :: 0 <= i < |outbox| && outbox[i].aggregateId == id then 1 else 0
  {
    if outbox != [] {
      EventsForDistinct(outbox[1..], id);
      if i :| 0 <= i < |outbox[1..]| && outbox[1..][i].aggregateId == id {
        assert outbox[i + 1].aggregateId == id;
      }
      if i :| 0 <= i < |outbox| && outbox[i].aggregateId == id && i > 0 {
        assert outbox[1..][i - 1].aggregateId == id;
      }
    }
  }

  /** After any run from the empty database: an order row exists iff exactly one outbox row carries its id (otherwise
      none does), and the stored event holds the order's items and total. */
  lemma OrderIffOneEvent(calls: seq<Call>, id: bytes)
    requires TypedCalls(calls)
    ensures var db := AfterAll(EMPTY, calls);
            && |db.orders| == |db.outbox|
            && (HasOrder(db.orders, id) <==> EventsFor(db.outbox, id) == 1)
            && (!HasOrder(db.orders, id) <==> EventsFor(db.outbox, id) == 0)
            && (!HasOrder(db.orders, id) ==> ItemsOf(db.items, id) == [])
            && forall i :: 0 <= i < |db.orders| ==>
               Agrees(db.orders[i], ItemsOf(db.items, db.orders[i].id), db.outbox[i])
  {
    RunKeepsConsistent(EMPTY, calls);
    var db := AfterAll(EMPTY, calls);
    assert forall i :: 0 <= i < |db.outbox| ==> db.outbox[i].aggregateId == db.orders[i].id;
    EventsForDistinct(db.outbox, id);
    if i :| 0 <= i < |db.outbox| && db.outbox[i].aggregateId == id {
      assert db.orders[i].id == id;
    }
    if i :| 0 <= i < |db.orders| && db.orders[i].id == id {
      assert db.outbox[i].aggregateId == id;
    }
    ItemsOfAll(db.items, id);
  }

  /* ---------- the stored total ---------- */

  lemma {:induction false} SumNonNegative(items: seq<OrderItem>, n: nat)
    requires n <= |items| && forall i :: 0 <= i < |items| ==> items[i].quantity > 0 && items[i].unitPrice >= 0
    ensures Sum(items, n) >= 0
  {
    if n > 0 {
      SumNonNegative(items, n - 1);
      MulMonotone(0, items[n - 1].unitPrice, 0, items[n - 1].quantity);
    }
  }

  /** For every stored order, the stored total is the price x quantity sum of its item rows exactly when that sum is at
      most 2^63 - 1. */
  lemma StoredTotalExactIff(calls: seq<Call>, k: nat)
    requires TypedCalls(calls) && k < |AfterAll(EMPTY, calls).orders|
    ensures var db := AfterAll(EMPTY, calls);
            var items := ItemsOf(db.items, db.orders[k].id);
            db.orders[k].totalAmount == Sum(items, |items|) <==> Sum(items, |items|) <= 0x7FFF_FFFF_FFFF_FFFF
  {
    RunKeepsConsistent(EMPTY, calls);
    var db := AfterAll(EMPTY, calls);
    var items := ItemsOf(db.items, db.orders[k].id);
    assert Agrees(db.orders[k], items, db.outbox[k]);
    SumNonNegative(items, |items|);
    TotalIsWrappedSum(items, |items|);
    TotalExactIffFits(items);
  }

  /** What a buyer, the services and the generators contribute to a one-line order. */
  datatype Sale = Sale(orderId: bytes, itemId: bytes, eventId: bytes, userId: bytes, productId: bytes,
                       productName: bytes, address: bytes, now: bytes)

  /** The schemas accept it: UUIDs for ids, valid text without U+0000 for the rest. */
  ghost predicate Sellable(s: Sale)
  {
    && Uuid.CanonicalId(s.orderId) && Uuid.CanonicalId(s.itemId) && Uuid.CanonicalId(s.eventId)
    && Uuid.CanonicalId(s.userId) && Uuid.CanonicalId(s.productId)
    && Utf8.Valid(s.productName) && Utf8.Valid(s.address) && Utf8.Valid(s.now)
    && Storable(s.productName) && Storable(s.address) && Storable(s.now)
  }

  lemma SellableExists() returns (s: Sale)
    ensures Sellable(s)
  {
    var id := Uuid.Format(seq(32, _ => 0));
    AsciiIsPlain("Tea");
    AsciiIsPlain("2026-01-01T00:00:00Z");
    s := Sale(id, id, id, id, id, "Tea", "Tea", "2026-01-01T00:00:00Z");
  }

  lemma AsciiIsPlain(text: bytes)
    requires forall i :: 0 <= i < |text| ==> 0 < (text[i] as int) < 0x80
    ensures Utf8.Valid(text) && Storable(text)
  {
    Utf8.AsciiIsValid(text);
  }

  const BULK_PRICE := 0x4000_0000_0000_0000

  function BulkLine(s: Sale): Line { Line(s.productId, 4) }

  function BulkProduct(s: Sale): Product { Product(s.productId, s.productName, BULK_PRICE) }

  function BulkAnswers(s: Sale): Answers { Answers(true, Some(s.address), Some([BulkProduct(s)])) }

  /** A call for four pieces of a product of price 2^62, which every service answers and no statement fails. */
  function BulkCall(s: Sale): Call
  {
    Call(Input(s.userId, [BulkLine(s)]), BulkAnswers(s), [GetUser, GetAddress, GetProducts],
         Generated(s.orderId, [s.itemId], s.eventId, s.now), NO_FAULTS)
  }

  function BulkItem(s: Sale): OrderItem
  {
    OrderItem(s.itemId, s.orderId, s.productId, s.productName, 4, BULK_PRICE)
  }

  function BulkOrder(s: Sale): Order
  {
    Order(s.orderId, s.userId, [BulkItem(s)], 0, s.address, s.now)
  }

  lemma OneLineJoins(line: Line, product: Product)
    requires product.id == line.productId
    ensures Join([line], [product]) == Some([Joined(line, product)])
  {
    assert [line][..0] == [];
    assert ById([product], line.productId) == Some(product);
    assert Join([line], [product]).value == [Joined(line, product)];
  }

  lemma BulkOrderIsBuilt(s: Sale)
    ensures Built(s.orderId, [s.itemId], s.now, s.userId, s.address, [Joined(BulkLine(s), BulkProduct(s))]) ==
            Some(BulkOrder(s))
  {
    assert Stamp([Joined(BulkLine(s), BulkProduct(s))], [s.itemId], s.orderId) == [BulkItem(s)];
    TotalWraps(BulkItem(s));
  }

  lemma SaleIsValid(s: Sale)
    requires Sellable(s)
    ensures Utf8.Valid(s.orderId) && Utf8.Valid(s.itemId) && Utf8.Valid(s.eventId)
    ensures Utf8.Valid(s.userId) && Utf8.Valid(s.productId)
  {
    Uuid.CanonicalIsNormal(s.orderId);
    Uuid.CanonicalIsNormal(s.itemId);
    Uuid.CanonicalIsNormal(s.eventId);
    Uuid.CanonicalIsNormal(s.userId);
    Uuid.CanonicalIsNormal(s.productId);
  }

  lemma BulkStringsValid(s: Sale, p: Payload)
    requires Sellable(s) && p == PayloadOf(BulkOrder(s), s.eventId)
    ensures StringsValid(p)
  {
    SaleIsValid(s);
    assert p.items[0] == EventItem(BulkItem(s)) && |p.items| == 1;
    OneItemIsValid(p);
  }

  lemma OneItemIsValid(p: Payload)
    requires Utf8.Valid(p.eventId) && Utf8.Valid(p.orderId) && Utf8.Valid(p.userId) && Utf8.Valid(p.deliveryAddress)
    requires |p.items| == 1 && ItemValid(p.items[0])
    ensures StringsValid(p)
  {
    var fields := TopFields(p);
    assert fields[0].1 == p.eventId && fields[1].1 == p.orderId && fields[2].1 == p.userId &&
           fields[3].1 == p.deliveryAddress;
  }

  lemma BulkCallIsTyped(s: Sale)
    requires Sellable(s)
    ensures TypedCall(BulkCall(s))
  {
    assert AllTasks([GetUser, GetAddress, GetProducts]);
  }

  lemma NothingFails(a: Answers, finish: seq<Task>)
    requires a.user && a.address.Some? && a.catalog.Some?
    ensures FirstFailure(a, finish).None?
  {
    assert forall t :: !Fails(a, t);
  }

  /** The plan of a call whose services all answered. */
  lemma AnsweredPlan(input: Input, a: Answers, finish: seq<Task>, gen: Generated, items: seq<OrderItem>, order: Order)
    requires AllTasks(finish) && |gen.itemIds| >= |input.lines|
    requires a.user && a.address.Some? && a.catalog.Some? && Join(input.lines, a.catalog.value) == Some(items)
    requires Built(gen.orderId, gen.itemIds, gen.now, input.userId, a.address.value, items) == Some(order)
    requires StringsValid(PayloadOf(order, gen.eventId))
    ensures Plan(input, a, finish, gen) == Ok(Planned(order, EventOf(order, gen.eventId)))
  {
    NothingFails(a, finish);
  }

  lemma BulkCallIsPlanned(s: Sale)
    requires Sellable(s)
    ensures var c := BulkCall(s);
            && TypedCall(c)
            && Plan(c.input, c.answers, c.finish, c.gen) == Ok(Planned(BulkOrder(s), EventOf(BulkOrder(s), s.eventId)))
  {
    var c := BulkCall(s);
    BulkCallIsTyped(s);
    OneLineJoins(BulkLine(s), BulkProduct(s));
    BulkOrderIsBuilt(s);
    BulkStringsValid(s, PayloadOf(BulkOrder(s), s.eventId));
    AnsweredPlan(c.input, c.answers, c.finish, c.gen, [Joined(BulkLine(s), BulkProduct(s))], BulkOrder(s));
  }

  /** The overflow reaches the database, with ids and texts that every schema accepts: the call stores an order of
      total 0 whose single item row sums to 2^64, with its event in the outbox. */
  lemma OverflowingOrderIsStored(s: Sale)
    requires Sellable(s)
    ensures var order := BulkOrder(s);
            && TypedCall(BulkCall(s))
            && After(EMPTY, BulkCall(s)) == OrderDb([RowOf(order)], order.items, [EventOf(order, s.eventId)])
            && RowOf(order).totalAmount == 0 && Sum(order.items, 1) == 0x1_0000_0000_0000_0000
  {
    BulkCallIsPlanned(s);
    TotalWraps(BulkItem(s));
    Uuid.CanonicalIsNormal(s.userId);
    Uuid.CanonicalIsNormal(s.productId);
    BulkOrderIsWritten(BulkOrder(s), EventOf(BulkOrder(s), s.eventId));
  }

  /** Without faults the transaction leaves what the three statements leave. */
  lemma UnfaultedWrite(order: Order, event: OutboxRow, db: OrderDb, one: OrderDb, two: OrderDb, three: OrderDb)
    requires Apply(db, InsertOrder(RowOf(order))) == Some(one)
    requires Apply(one, CopyItems(order.items)) == Some(two)
    requires Apply(two, InsertOutbox(event)) == Some(three)
    ensures Root(WithinTx(WriteOrder(order, event)), db, 0, 0, Apply, NO_FAULTS).db == three
  {
    var s1, s2, s3 := InsertOrder(RowOf(order)), CopyItems(order.items), InsertOutbox(event);
    assert InTx(Exec(s1), db, false, 1, Apply, NO_FAULTS) == TxOutcome(one, false, 2, true);
    assert InTx(Exec(s2), one, false, 2, Apply, NO_FAULTS) == TxOutcome(two, false, 3, true);
    assert InTx(Exec(s3), two, false, 3, Apply, NO_FAULTS) == TxOutcome(three, false, 4, true);
    assert InTx(Then(Exec(s1), Exec(s2)), db, false, 1, Apply, NO_FAULTS) == TxOutcome(two, false, 3, true);
  }

  lemma BulkOrderIsWritten(order: Order, event: OutboxRow)
    requires |order.items| == 1 && order.items[0].orderId == order.id && OrderAccepted(EMPTY, RowOf(order))
    requires order.items[0].quantity > 0 && order.items[0].unitPrice >= 0 && Storable(order.items[0].productName)
    requires KeptItem(order.items[0]) == order.items[0] && Uuid.Parse(order.items[0].productId).Some?
    requires KeptOrder(RowOf(order)) == RowOf(order)
    ensures Root(WithinTx(WriteOrder(order, event)), EMPTY, 0, 0, Apply, NO_FAULTS).db ==
            OrderDb([RowOf(order)], order.items, [event])
  {
    var one := OrderDb([RowOf(order)], [], []);
    var two := OrderDb([RowOf(order)], order.items, []);
    assert [] + [RowOf(order)] == [RowOf(order)] && [] + [event] == [event];
    assert KeptItems(order.items) == order.items && [] + order.items == order.items;
    assert one.orders[0].id == order.id && HasOrder(one.orders, order.id);
    UnfaultedWrite(order, event, EMPTY, one, two, OrderDb([RowOf(order)], order.items, [event]));
  }
}
