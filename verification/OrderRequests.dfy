/**
 What a CreateOrder call of services/order/internal/service/order.go stores and answers, read off the request, the
 answers of the other services and the generated ids alone.
 */
module OrderRequests {
  import opened Prelude
  import opened OrderDomain
  import opened OrderEvent
  import opened OrderService
  import opened OrderConsistency
  import opened Postgres
  import Utf8
  import Uuid

  /* ---------- what the catalog says ---------- */

  /** The k-th catalog entry is the last one with an id. */
  ghost predicate LastWith(catalog: seq<Product>, id: bytes, k: int)
  {
    0 <= k < |catalog| && catalog[k].id == id && forall j :: k < j < |catalog| ==> catalog[j].id != id
  }

  ghost predicate Missing(catalog: seq<Product>, id: bytes)
  {
    forall j :: 0 <= j < |catalog| ==> catalog[j].id != id
  }

  lemma {:induction false} ByIdIsLast(catalog: seq<Product>, id: bytes)
    ensures ById(catalog, id).Some? ==> exists k :: LastWith(catalog, id, k) && catalog[k] == ById(catalog, id).value
    ensures ById(catalog, id).None? <==> Missing(catalog, id)
  {
    if catalog != [] {
      var n := |catalog| - 1;
      if catalog[n].id == id {
        assert LastWith(catalog, id, n);
      } else {
        ByIdIsLast(catalog[..n], id);
        if ById(catalog[..n], id).Some? {
          var k :| LastWith(catalog[..n], id, k) && catalog[..n][k] == ById(catalog[..n], id).value;
          assert LastWith(catalog, id, k);
        }
      }
    }
  }

  /* ---------- what is stored ---------- */

  /** The item row of a line, whose product is the k-th of the catalog. */
  ghost predicate ItemFor(it: OrderItem, id: bytes, orderId: bytes, line: Line, product: Product)
  {
    && it.id == id && it.orderId == orderId && it.quantity == line.quantity
    && it.productId == Uuid.Normal(line.productId)
    && it.productName == product.name && it.unitPrice == product.price
  }

  /** The item of the event for a line. */
  ghost predicate ToldItemFor(it: Item, id: bytes, line: Line, product: Product)
  {
    && it.id == id && it.quantity == line.quantity && it.productId == line.productId
    && it.productName == product.name && it.unitPrice == product.price
  }

  ghost predicate OrderFor(o: OrderRow, c: Call, address: bytes)
  {
    && o.id == c.gen.orderId && o.userId == Uuid.Normal(c.input.userId)
    && o.deliveryAddress == address && o.createdAt == c.gen.now
  }

  ghost predicate EventFor(e: OutboxRow, c: Call, address: bytes, total: int)
  {
    && e.id == c.gen.eventId && e.aggregateId == c.gen.orderId
    && e.aggregateType == AGGREGATE_TYPE_ORDER && e.eventType == EVENT_TYPE_ORDER_CREATED
    && Decode(e.payload).Some?
    && var p := Decode(e.payload).value;
       && p.eventId == c.gen.eventId && p.orderId == c.gen.orderId && p.userId == c.input.userId
       && p.totalAmount == total && p.deliveryAddress == address && p.createdAt == c.gen.now
       && |p.items| == |c.input.lines|
  }

  /** The i-th line's item row and event item, from the catalog entry the map holds for its product. */
  ghost predicate LineStored(it: OrderItem, told: Item, c: Call, i: nat, catalog: seq<Product>)
    requires i < |c.input.lines| && i < |c.gen.itemIds|
  {
    var line := c.input.lines[i];
    exists k :: LastWith(catalog, line.productId, k) &&
      ItemFor(it, c.gen.itemIds[i], c.gen.orderId, line, catalog[k]) &&
      ToldItemFor(told, c.gen.itemIds[i], line, catalog[k])
  }

  /** The order item of the i-th line, before it is stored. */
  function ItemOf(c: Call, i: nat, product: Product): OrderItem
    requires i < |c.input.lines| && i < |c.gen.itemIds|
  {
    Joined(c.input.lines[i], product).(id := c.gen.itemIds[i], orderId := c.gen.orderId)
  }

  /** `next` has one more order row, one more item row per line in order, and one more outbox row, with the ids of the
      generator, the user, lines and quantities of the request, the answered address, and the names and prices of the
      catalog. */
  ghost predicate Adds(db: OrderDb, next: OrderDb, c: Call)
    requires |c.gen.itemIds| >= |c.input.lines|
  {
    var n, lines := |db.items|, c.input.lines;
    && c.answers.user && c.answers.address.Some? && c.answers.catalog.Some?
    && |next.orders| == |db.orders| + 1 && next.orders[..|db.orders|] == db.orders
    && |next.items| == n + |lines| && next.items[..n] == db.items
    && |next.outbox| == |db.outbox| + 1 && next.outbox[..|db.outbox|] == db.outbox
    && var o, e := next.orders[|db.orders|], next.outbox[|db.outbox|];
       && OrderFor(o, c, c.answers.address.value) && o.totalAmount == Wrap64(Sum(next.items[n..], |lines|))
       && EventFor(e, c, c.answers.address.value, o.totalAmount)
       && forall i :: 0 <= i < |lines| ==>
            LineStored(next.items[n + i], Decode(e.payload).value.items[i], c, i, c.answers.catalog.value)
  }

  /** A call that changes the database stores what was requested. */
  lemma StoredIsRequested(db: OrderDb, c: Call)
    requires TypedCall(c) && After(db, c) != db
    ensures Adds(db, After(db, c), c)
  {
    assert Plan(c.input, c.answers, c.finish, c.gen).Ok?;
    var p := Plan(c.input, c.answers, c.finish, c.gen).value;
    WriteOrderAllOrNothing(db, p.order, p.event, 0, 0, c.faults);
    PlannedIsAdded(db, c, p);
  }

  lemma PlannedIsAdded(db: OrderDb, c: Call, p: Planned)
    requires TypedCall(c) && Plan(c.input, c.answers, c.finish, c.gen) == Ok(p)
    ensures Adds(db, Stored(db, p.order, p.event), c)
  {
    var next := Stored(db, p.order, p.event);
    Answered(c);
    PlannedAgrees(c, p);
    PlannedItems(c, p);
    ItemsAdded(db, c, p.order, next, PayloadOf(p.order, c.gen.eventId));
  }

  lemma ItemsAdded(db: OrderDb, c: Call, order: Order, next: OrderDb, told: Payload)
    requires c.answers.catalog.Some? && |order.items| == |c.input.lines| <= |c.gen.itemIds|
    requires next.items == db.items + KeptItems(order.items) && told.items == EventItems(order.items)
    requires forall i :: 0 <= i < |c.input.lines| ==>
               var found := ById(c.answers.catalog.value, c.input.lines[i].productId);
               found.Some? &&
               order.items[i] == ItemOf(c, i, found.value)
    ensures Sum(next.items[|db.items|..], |c.input.lines|) == Sum(order.items, |order.items|)
    ensures forall i :: 0 <= i < |c.input.lines| ==>
              LineStored(next.items[|db.items| + i], told.items[i], c, i, c.answers.catalog.value)
  {
    KeptItemsSum(order.items, |order.items|);
    assert next.items[|db.items|..] == KeptItems(order.items);
    forall i | 0 <= i < |c.input.lines|
      ensures LineStored(next.items[|db.items| + i], told.items[i], c, i, c.answers.catalog.value)
    {
      assert next.items[|db.items| + i] == KeptItem(order.items[i]);
      LineIsStored(c, order.items[i], i);
    }
  }

  lemma Answered(c: Call)
    requires AllTasks(c.finish) && FirstFailure(c.answers, c.finish).None?
    ensures c.answers.user && c.answers.address.Some? && c.answers.catalog.Some?
  {
    assert !Fails(c.answers, GetUser) && !Fails(c.answers, GetAddress) && !Fails(c.answers, GetProducts);
  }

  lemma PlannedItems(c: Call, p: Planned)
    requires TypedCall(c) && Plan(c.input, c.answers, c.finish, c.gen) == Ok(p)
    requires c.answers.address.Some? && c.answers.catalog.Some?
    ensures p.order.id == c.gen.orderId && p.order.userId == c.input.userId && p.order.createdAt == c.gen.now
    ensures p.order.deliveryAddress == c.answers.address.value && |p.order.items| == |c.input.lines|
    ensures forall i :: 0 <= i < |c.input.lines| ==>
              var found := ById(c.answers.catalog.value, c.input.lines[i].productId);
              found.Some? &&
              p.order.items[i] == ItemOf(c, i, found.value)
  {
  }

  lemma LineIsStored(c: Call, it: OrderItem, i: nat)
    requires c.answers.catalog.Some? && i < |c.input.lines| && i < |c.gen.itemIds|
    requires var found := ById(c.answers.catalog.value, c.input.lines[i].productId);
             found.Some? &&
             it == ItemOf(c, i, found.value)
    ensures LineStored(KeptItem(it), EventItem(it), c, i, c.answers.catalog.value)
  {
    var catalog, id := c.answers.catalog.value, c.input.lines[i].productId;
    ByIdIsLast(catalog, id);
    var k :| LastWith(catalog, id, k) && catalog[k] == ById(catalog, id).value;
    assert ItemFor(KeptItem(it), c.gen.itemIds[i], c.gen.orderId, c.input.lines[i], catalog[k]);
  }

  /** Without faults a call stores its order exactly when the planned rows meet the constraints of the tables. */
  lemma UnfaultedCallStoresIff(db: OrderDb, c: Call, p: Planned)
    requires TypedCall(c) && c.faults == NO_FAULTS && Plan(c.input, c.answers, c.finish, c.gen) == Ok(p)
    ensures After(db, c) == if Accepted(db, p.order, p.event) then Stored(db, p.order, p.event) else db
  {
    WriteOrderAllOrNothing(db, p.order, p.event, 0, 0, c.faults);
    if Accepted(db, p.order, p.event) {
      var one := db.(orders := db.orders + [KeptOrder(RowOf(p.order))]);
      var two := one.(items := db.items + KeptItems(p.order.items));
      UnfaultedWrite(p.order, p.event, db, one, two, Stored(db, p.order, p.event));
    }
  }

  /* ---------- what is answered ---------- */

  ghost predicate TaskFails(a: Answers, t: Task)
  {
    (t == GetUser && !a.user) || (t == GetAddress && a.address == None) || (t == GetProducts && a.catalog == None)
  }

  /** The task that ends j-th fails, and none that ended before it did. */
  ghost predicate FailsFirst(a: Answers, finish: seq<Task>, j: int)
  {
    0 <= j < |finish| && TaskFails(a, finish[j]) && forall i :: 0 <= i < j ==> !TaskFails(a, finish[i])
  }

  lemma {:induction false} FirstFailureIsFirst(a: Answers, finish: seq<Task>)
    ensures match FirstFailure(a, finish)
            case Some(t) => exists j :: FailsFirst(a, finish, j) && finish[j] == t
            case None => forall j :: !FailsFirst(a, finish, j)
  {
    if finish != [] {
      if TaskFails(a, finish[0]) {
        assert FailsFirst(a, finish, 0);
      } else {
        FirstFailureIsFirst(a, finish[1..]);
        match FirstFailure(a, finish[1..])
        case Some(t) =>
          var j :| FailsFirst(a, finish[1..], j) && finish[1..][j] == t;
          assert FailsFirst(a, finish, j + 1);
        case None =>
          forall j ensures !FailsFirst(a, finish, j) {
            if FailsFirst(a, finish, j) {
              assert FailsFirst(a, finish[1..], j - 1);
            }
          }
      }
    }
  }

  ghost predicate AllAnswered(a: Answers)
  {
    a.user && a.address.Some? && a.catalog.Some?
  }

  /** Some line's product is not in the catalog. */
  ghost predicate SomeMissing(lines: seq<Line>, catalog: seq<Product>)
  {
    exists i :: 0 <= i < |lines| && Missing(catalog, lines[i].productId)
  }

  /** A text of the event is not valid UTF-8. */
  ghost predicate SomeTextInvalid(c: Call)
    requires AllAnswered(c.answers) && |c.gen.itemIds| >= |c.input.lines|
  {
    || !Utf8.Valid(c.gen.eventId) || !Utf8.Valid(c.gen.orderId) || !Utf8.Valid(c.input.userId)
    || !Utf8.Valid(c.answers.address.value)
    || exists i :: 0 <= i < |c.input.lines| && LineInvalid(c, i, c.answers.catalog.value)
  }

  ghost predicate LineInvalid(c: Call, i: nat, catalog: seq<Product>)
    requires i < |c.input.lines| && i < |c.gen.itemIds|
  {
    || !Utf8.Valid(c.gen.itemIds[i]) || !Utf8.Valid(c.input.lines[i].productId)
    || exists k :: LastWith(catalog, c.input.lines[i].productId, k) && !Utf8.Valid(catalog[k].name)
  }

  /** A call fails before it writes: with the first dependency that failed, else with a missing product, else because it
      has no lines, else because some text of the event is not valid UTF-8; and in no other case. */
  lemma CallFails(c: Call, t: Task)
    requires AllTasks(c.finish) && |c.gen.itemIds| >= |c.input.lines|
    ensures var r, a := Plan(c.input, c.answers, c.finish, c.gen), c.answers;
            && (r == Err(Dependency(t)) <==> exists j :: FailsFirst(a, c.finish, j) && c.finish[j] == t)
            && (r == Err(ProductNotFound) <==> AllAnswered(a) && SomeMissing(c.input.lines, a.catalog.value))
            && (r == Err(NoItems) <==> AllAnswered(a) && c.input.lines == [])
            && (r == Err(InvalidEvent) <==>
                  AllAnswered(a) && !SomeMissing(c.input.lines, a.catalog.value) && c.input.lines != [] &&
                  SomeTextInvalid(c))
            && r != Err(NotStored)
  {
    FirstFailureIsFirst(c.answers, c.finish);
    match FirstFailure(c.answers, c.finish)
    case Some(u) =>
      SomeFailureIsFirst(c, u, t);
    case None =>
      Answered(c);
      MissingIff(c.input.lines, c.answers.catalog.value);
      if !SomeMissing(c.input.lines, c.answers.catalog.value) && c.input.lines != [] {
        var items := Join(c.input.lines, c.answers.catalog.value).value;
        var g, address := c.gen, c.answers.address.value;
        TextsOfOrder(c, Built(g.orderId, g.itemIds, g.now, c.input.userId, address, items).value);
      }
  }

  lemma TextsOfOrder(c: Call, order: Order)
    requires AllAnswered(c.answers) && |order.items| == |c.input.lines| <= |c.gen.itemIds|
    requires order.id == c.gen.orderId && order.userId == c.input.userId
    requires order.deliveryAddress == c.answers.address.value
    requires forall i :: 0 <= i < |c.input.lines| ==>
               var found := ById(c.answers.catalog.value, c.input.lines[i].productId);
               found.Some? &&
               order.items[i] == ItemOf(c, i, found.value)
    ensures StringsValid(PayloadOf(order, c.gen.eventId)) <==> !SomeTextInvalid(c)
  {
    var p, catalog := PayloadOf(order, c.gen.eventId), c.answers.catalog.value;
    forall i | 0 <= i < |c.input.lines| ensures ItemValid(p.items[i]) <==> !LineInvalid(c, i, catalog) {
      TextsOfLine(c, i, catalog, p.items[i]);
    }
    TopTexts(p);
  }

  lemma TopTexts(p: Payload)
    ensures TopValid(p) <==>
            Utf8.Valid(p.eventId) && Utf8.Valid(p.orderId) && Utf8.Valid(p.userId) && Utf8.Valid(p.deliveryAddress)
  {
    var fields := TopFields(p);
    assert fields[0].1 == p.eventId && fields[1].1 == p.orderId && fields[2].1 == p.userId &&
           fields[3].1 == p.deliveryAddress;
  }

  lemma TextsOfLine(c: Call, i: nat, catalog: seq<Product>, it: Item)
    requires i < |c.input.lines| && i < |c.gen.itemIds|
    requires var found := ById(catalog, c.input.lines[i].productId);
             found.Some? && it.id == c.gen.itemIds[i] && it.productId == found.value.id &&
             it.productName == found.value.name
    ensures ItemValid(it) <==> !LineInvalid(c, i, catalog)
  {
    var id := c.input.lines[i].productId;
    ByIdIsLast(catalog, id);
    var k :| LastWith(catalog, id, k) && catalog[k] == ById(catalog, id).value;
    assert forall j :: LastWith(catalog, id, j) ==> j == k;
  }

  lemma SomeFailureIsFirst(c: Call, u: Task, t: Task)
    requires AllTasks(c.finish) && FirstFailure(c.answers, c.finish) == Some(u)
    ensures !AllAnswered(c.answers)
    ensures u == t <==> exists j :: FailsFirst(c.answers, c.finish, j) && c.finish[j] == t
  {
    FirstFailureIsFirst(c.answers, c.finish);
    var j :| FailsFirst(c.answers, c.finish, j) && c.finish[j] == u;
    forall i | FailsFirst(c.answers, c.finish, i) ensures i == j {
    }
  }

  lemma MissingIff(lines: seq<Line>, catalog: seq<Product>)
    ensures Join(lines, catalog).None? <==> SomeMissing(lines, catalog)
  {
    forall i | 0 <= i < |lines|
      ensures ById(catalog, lines[i].productId).None? <==> Missing(catalog, lines[i].productId)
    {
      ByIdIsLast(catalog, lines[i].productId);
    }
  }
}
