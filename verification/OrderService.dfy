/**
 Creating an order: services/order/internal/service/order.go, with the event builder and the repositories it calls.
 The order, its items and the outbox row are written by one closure passed to WithinTx.
 */
module OrderService {
  import opened Prelude
  import opened OrderDomain
  import opened OrderEvent
  import opened Postgres
  import Uuid

  /* ---------- tables ---------- */

  datatype OrderRow = OrderRow(id: bytes, userId: bytes, totalAmount: int, deliveryAddress: bytes, createdAt: bytes)

  datatype OutboxRow = OutboxRow(id: bytes, aggregateType: string, aggregateId: bytes, eventType: string,
    payload: bytes)

  datatype OrderDb = OrderDb(orders: seq<OrderRow>, items: seq<OrderItem>, outbox: seq<OutboxRow>)

  datatype Stmt = InsertOrder(order: OrderRow) | CopyItems(items: seq<OrderItem>) | InsertOutbox(event: OutboxRow)

  predicate HasOrder(orders: seq<OrderRow>, id: bytes)
  {
    exists i :: 0 <= i < |orders| && orders[i].id == id
  }

  predicate HasEvent(outbox: seq<OutboxRow>, id: bytes)
  {
    exists i :: 0 <= i < |outbox| && outbox[i].id == id
  }

  /** Postgres refuses U+0000 in its text types. */
  predicate Storable(s: bytes)
  {
    '\0' !in s
  }

  /** The row an insert leaves in orders: a UUID column keeps the UUID, not its spelling. */
  function KeptOrder(o: OrderRow): OrderRow
  {
    o.(userId := Uuid.Normal(o.userId))
  }

  function KeptItem(i: OrderItem): OrderItem
  {
    i.(productId := Uuid.Normal(i.productId))
  }

  function KeptItems(items: seq<OrderItem>): (r: seq<OrderItem>)
    ensures |r| == |items| && forall i :: 0 <= i < |items| ==> r[i] == KeptItem(items[i])
  {
    seq(|items|, i requires 0 <= i < |items| => KeptItem(items[i]))
  }

  /** Types, primary key and CHECK constraint of orders; the creation time is a timestamp. */
  predicate OrderAccepted(db: OrderDb, o: OrderRow)
  {
    && !HasOrder(db.orders, o.id) && o.totalAmount >= 0
    && Uuid.Parse(o.userId).Some? && Storable(o.deliveryAddress) && Storable(o.createdAt)
  }

  /** Types, primary key, foreign key and CHECK constraints of order_items. */
  predicate ItemsAccepted(db: OrderDb, items: seq<OrderItem>)
  {
    forall i :: 0 <= i < |items| ==>
      && HasOrder(db.orders, items[i].orderId) && items[i].quantity > 0 && items[i].unitPrice >= 0
      && Uuid.Parse(items[i].productId).Some? && Storable(items[i].productName)
      && (forall j :: 0 <= j < |db.items| ==> db.items[j].id != items[i].id)
      && (forall j :: 0 <= j < i ==> items[j].id != items[i].id)
  }

  /** The other UUID columns hold generated ids, which are canonical.  A document with U+0000, which JSONB refuses, does
      not get this far: its address, time and products have been refused before it. */
  function Apply(db: OrderDb, s: Stmt): Option<OrderDb>
  {
    match s
    case InsertOrder(o) =>
      if OrderAccepted(db, o) then Some(db.(orders := db.orders + [KeptOrder(o)])) else None
    case CopyItems(items) =>
      if ItemsAccepted(db, items) then Some(db.(items := db.items + KeptItems(items))) else None
    case InsertOutbox(e) =>
      if HasEvent(db.outbox, e.id) then None else Some(db.(outbox := db.outbox + [e]))
  }

  /* ---------- the event builder ---------- */

  const AGGREGATE_TYPE_ORDER := "order"
  const EVENT_TYPE_ORDER_CREATED := "order.created"

  function EventItem(i: OrderItem): Item
  {
    Item(i.id, i.productId, i.productName, i.quantity, i.unitPrice)
  }

  function EventItems(items: seq<OrderItem>): (r: seq<Item>)
    ensures |r| == |items| && forall i :: 0 <= i < |items| ==> r[i] == EventItem(items[i])
  {
    seq(|items|, i requires 0 <= i < |items| => EventItem(items[i]))
  }

  function PayloadOf(order: Order, eventId: bytes): Payload
  {
    Payload(eventId, order.id, order.userId, EventItems(order.items), order.totalAmount, order.deliveryAddress,
            order.createdAt)
  }

  function EventOf(order: Order, eventId: bytes): OutboxRow
  {
    OutboxRow(eventId, AGGREGATE_TYPE_ORDER, order.id, EVENT_TYPE_ORDER_CREATED, Encode(PayloadOf(order, eventId)))
  }

  /** OrderCreated: an error exactly when some string of the event is not valid UTF-8. */
  method OrderCreated(order: Order, eventId: bytes) returns (event: Option<OutboxRow>)
    ensures event == if StringsValid(PayloadOf(order, eventId)) then Some(EventOf(order, eventId)) else None
  {
    var items: seq<Item> := [];
    for i := 0 to |order.items|
      invariant items == EventItems(order.items)[..i]
    {
      var it := order.items[i];
      items := items + [Item(it.id, it.productId, it.productName, it.quantity, it.unitPrice)];
    }
    assert items == EventItems(order.items);
    var body := Payload(eventId, order.id, order.userId, items, order.totalAmount, order.deliveryAddress,
      order.createdAt);
    var err := Validate(body);
    if err.Some? {
      return None;
    }
    return Some(OutboxRow(eventId, AGGREGATE_TYPE_ORDER, order.id, EVENT_TYPE_ORDER_CREATED, Encode(body)));
  }

  /* ---------- what CreateOrder decides before it writes ---------- */

  datatype Line = Line(productId: bytes, quantity: int)

  datatype Input = Input(userId: bytes, lines: seq<Line>)

  datatype Product = Product(id: bytes, name: bytes, price: int)

  /** The three calls resolve runs in parallel. */
  datatype Task = GetUser | GetAddress | GetProducts

  /** What the user and product services answer: None is an error. */
  datatype Answers = Answers(user: bool, address: Option<bytes>, catalog: Option<seq<Product>>)

  datatype CreateError = Dependency(task: Task) | ProductNotFound | NoItems | InvalidEvent | NotStored

  predicate Fails(a: Answers, t: Task)
  {
    match t
    case GetUser => !a.user
    case GetAddress => a.address.None?
    case GetProducts => a.catalog.None?
  }

  function FirstFailure(a: Answers, finish: seq<Task>): (r: Option<Task>)
    ensures r.Some? ==> Fails(a, r.value) && r.value in finish
    ensures r.None? <==> forall t :: t in finish ==> !Fails(a, t)
  {
    if finish == [] then None
    else if Fails(a, finish[0]) then Some(finish[0])
    else FirstFailure(a, finish[1..])
  }

  predicate AllTasks(finish: seq<Task>)
  {
    GetUser in finish && GetAddress in finish && GetProducts in finish
  }

  /** The tasks end in the order `finish`; the first error wins, and the captured variables keep what the others set. */
  method Resolve(a: Answers, finish: seq<Task>) returns (r: Result<(bytes, seq<Product>), Task>)
    requires AllTasks(finish)
    ensures FirstFailure(a, finish).Some? ==> r == Err(FirstFailure(a, finish).value)
    ensures FirstFailure(a, finish).None? ==>
              a.address.Some? && a.catalog.Some? && r == Ok((a.address.value, a.catalog.value))
  {
    var address, catalog: seq<Product> := [], [];
    var failure: Option<Task> := None;
    for i := 0 to |finish|
      invariant FirstFailure(a, finish) ==
                if failure.Some? then failure else FirstFailure(a, finish[i..])
      invariant GetAddress in finish[..i] && a.address.Some? ==> address == a.address.value
      invariant GetProducts in finish[..i] && a.catalog.Some? ==> catalog == a.catalog.value
    {
      assert finish[..i + 1] == finish[..i] + [finish[i]];
      assert finish[i..][0] == finish[i] && finish[i..][1..] == finish[i + 1..];
      match finish[i] {
        case GetUser =>
        case GetAddress => if a.address.Some? { address := a.address.value; }
        case GetProducts => if a.catalog.Some? { catalog := a.catalog.value; }
      }
      if failure.None? && Fails(a, finish[i]) {
        failure := Some(finish[i]);
      }
    }
    assert finish[..|finish|] == finish;
    if failure.Some? {
      return Err(failure.value);
    }
    assert !Fails(a, GetAddress) && !Fails(a, GetProducts);
    return Ok((address, catalog));
  }

  /** The product a map filled from the catalog holds for an id: the last one with that id. */
  function ById(catalog: seq<Product>, id: bytes): Option<Product>
  {
    if catalog == [] then None
    else if catalog[|catalog| - 1].id == id then Some(catalog[|catalog| - 1])
    else ById(catalog[..|catalog| - 1], id)
  }

  function Joined(line: Line, product: Product): OrderItem
  {
    OrderItem([], [], product.id, product.name, line.quantity, product.price)
  }

  /** The catalog join: one item per line, in order; None when a product is missing. */
  function Join(lines: seq<Line>, catalog: seq<Product>): (r: Option<seq<OrderItem>>)
    ensures r.Some? ==> |r.value| == |lines| && forall i :: 0 <= i < |lines| ==>
              ById(catalog, lines[i].productId).Some? &&
              r.value[i] == Joined(lines[i], ById(catalog, lines[i].productId).value)
    ensures r.None? <==> exists i :: 0 <= i < |lines| && ById(catalog, lines[i].productId).None?
  {
    if lines == [] then Some([])
    else
      var front := Join(lines[..|lines| - 1], catalog);
      var last := lines[|lines| - 1];
      if front.None? || ById(catalog, last.productId).None? then None
      else Some(front.value + [Joined(last, ById(catalog, last.productId).value)])
  }

  method BuildItems(lines: seq<Line>, catalog: seq<Product>) returns (r: Option<seq<OrderItem>>)
    ensures r == Join(lines, catalog)
  {
    var byId: map<bytes, Product> := map[];
    for i := 0 to |catalog|
      invariant forall id :: (if id in byId then Some(byId[id]) else None) == ById(catalog[..i], id)
    {
      assert catalog[..i + 1][..i] == catalog[..i];
      byId := byId[catalog[i].id := catalog[i]];
    }
    assert catalog[..|catalog|] == catalog;
    var items: seq<OrderItem> := [];
    for i := 0 to |lines|
      invariant Join(lines[..i], catalog) == Some(items)
    {
      var line := lines[i];
      assert lines[..i + 1][..i] == lines[..i];
      assert (if line.productId in byId then Some(byId[line.productId]) else None) == ById(catalog, line.productId);
      if line.productId !in byId {
        assert Join(lines, catalog).None?;
        return None;
      }
      items := items + [Joined(line, byId[line.productId])];
    }
    assert lines[..|lines|] == lines;
    return Some(items);
  }

  /** What the UUID generator and the clock return during one call. */
  datatype Generated = Generated(orderId: bytes, itemIds: seq<bytes>, eventId: bytes, now: bytes)

  datatype Planned = Planned(order: Order, event: OutboxRow)

  /** The order and event a call would store, or the error it returns without touching the database. */
  function Plan(input: Input, a: Answers, finish: seq<Task>, gen: Generated): Result<Planned, CreateError>
    requires AllTasks(finish) && |gen.itemIds| >= |input.lines|
  {
    match FirstFailure(a, finish)
    case Some(t) => Err(Dependency(t))
    case None =>
      assert !Fails(a, GetAddress) && !Fails(a, GetProducts);
      match Join(input.lines, a.catalog.value)
      case None => Err(ProductNotFound)
      case Some(items) =>
        match Built(gen.orderId, gen.itemIds, gen.now, input.userId, a.address.value, items)
        case None => Err(NoItems)
        case Some(order) =>
          if StringsValid(PayloadOf(order, gen.eventId)) then Ok(Planned(order, EventOf(order, gen.eventId)))
          else Err(InvalidEvent)
  }

  function RowOf(order: Order): OrderRow
  {
    OrderRow(order.id, order.userId, order.totalAmount, order.deliveryAddress, order.createdAt)
  }

  /** The closure CreateOrder passes to WithinTx: OrderRepo.Create, then OutboxRepo.Save. */
  function WriteOrder(order: Order, event: OutboxRow): Prog<Stmt>
  {
    Then(Then(Exec(InsertOrder(RowOf(order))), Exec(CopyItems(order.items))), Exec(InsertOutbox(event)))
  }

  class Service {
    const tx: TxManager<OrderDb, Stmt>

    constructor (tx: TxManager<OrderDb, Stmt>)
      ensures this.tx == tx
    {
      this.tx := tx;
    }

    method CreateOrder(input: Input, a: Answers, finish: seq<Task>, gen: Generated)
      returns (r: Result<Order, CreateError>)
      requires AllTasks(finish) && |gen.itemIds| >= |input.lines|
      modifies tx.pool`committed, tx.pool`calls, tx.pool`commits
      ensures match Plan(input, a, finish, gen)
              case Err(e) =>
                r == Err(e) && tx.pool.committed == old(tx.pool.committed) && tx.pool.calls == old(tx.pool.calls)
              case Ok(p) =>
                && Outcome(tx.pool.committed, tx.pool.calls, tx.pool.commits, r.Ok?) ==
                   Root(WithinTx(WriteOrder(p.order, p.event)), old(tx.pool.committed), old(tx.pool.calls),
                        old(tx.pool.commits), tx.pool.apply, tx.pool.faults)
                && (r == Ok(p.order) || r == Err(NotStored))
    {
      var resolved := Resolve(a, finish);
      if resolved.Err? {
        return Err(Dependency(resolved.error));
      }
      assert FirstFailure(a, finish).None?;
      var joined := BuildItems(input.lines, resolved.value.1);
      if joined.None? {
        return Err(ProductNotFound);
      }
      var items := new OrderItem[|joined.value|](i requires 0 <= i < |joined.value| => joined.value[i]);
      assert items[..] == joined.value;
      var order := NewOrder(gen.orderId, gen.itemIds, gen.now, input.userId, resolved.value.0, items);
      if order.None? {
        return Err(NoItems);
      }
      var event := OrderCreated(order.value, gen.eventId);
      if event.None? {
        return Err(InvalidEvent);
      }
      var stored := tx.WithinTx(Background, WriteOrder(order.value, event.value));
      if !stored {
        return Err(NotStored);
      }
      return Ok(order.value);
    }
  }
}
