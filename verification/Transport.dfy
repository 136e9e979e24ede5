/**
 From a Kafka message to the inbox: services/notification/internal/transport/kafka/router.go and the order handler
 beside it.
 */
module Transport {
  import opened Prelude
  import opened Postgres
  import Consumer
  import N = Notification
  import OrderEvent
  import Uuid

  const HEADER_EVENT_TYPE := "event-type"
  const EVENT_TYPE_ORDER_CREATED := "order.created"
  const ORDER_TOPIC := "order.events.v1"

  type Message = Consumer.Message

  /** What the order handler does with a message: skip an unknown type, refuse a malformed event, or store it. */
  datatype Action = Ignore | Refuse | Store(input: N.Input)

  /** orderCreatedIDs: both identifiers in canonical form, or an error. */
  function OrderCreatedIds(p: OrderEvent.Payload): Option<(bytes, bytes)>
  {
    match (Uuid.Parse(p.eventId), Uuid.Parse(p.orderId))
    case (Some(e), Some(o)) => Some((Uuid.Format(e), Uuid.Format(o)))
    case _ => None
  }

  function EventType(m: Message): string
  {
    if HEADER_EVENT_TYPE in m.headers then m.headers[HEADER_EVENT_TYPE] else ""
  }

  function Route(m: Message): Action
  {
    if EventType(m) != EVENT_TYPE_ORDER_CREATED then Ignore
    else match OrderEvent.Decode(m.value)
      case None => Refuse
      case Some(p) =>
        match OrderCreatedIds(p)
        case None => Refuse
        case Some((eventId, orderId)) =>
          Store(N.Input(N.InboxEvent(eventId, m.topic, m.partition, m.offset, EVENT_TYPE_ORDER_CREATED, orderId),
                        m.value, [N.CHANNEL_LOG]))
  }

  /** The effect of an action on the notification database. */
  function Perform(a: Action, db: N.NotifDb, calls: nat, commits: nat, faults: nat -> Fault): Outcome<N.NotifDb>
  {
    match a
    case Ignore => Outcome(db, calls, commits, true)
    case Refuse => Outcome(db, calls, commits, false)
    case Store(input) => Root(WithinTx(N.WriteNotification(input)), db, calls, commits, N.Apply, faults)
  }

  /** A message on a topic without a handler is acknowledged without effect. */
  function ActionFor(topics: set<string>, m: Message): Action
  {
    if m.topic in topics then Route(m) else Ignore
  }

  class OrderHandler {
    const notification: N.Service

    constructor (notification: N.Service)
      ensures this.notification == notification
    {
      this.notification := notification;
    }

    method Handle(m: Message) returns (ok: bool)
      modifies notification.tx.pool`committed, notification.tx.pool`calls, notification.tx.pool`commits
      ensures var pool := notification.tx.pool;
              Outcome(pool.committed, pool.calls, pool.commits, ok) ==
              if Route(m).Store?
              then Root(WithinTx(N.WriteNotification(Route(m).input)), old(pool.committed), old(pool.calls),
                        old(pool.commits), pool.apply, pool.faults)
              else Outcome(old(pool.committed), old(pool.calls), old(pool.commits), Route(m).Ignore?)
    {
      if HEADER_EVENT_TYPE !in m.headers || m.headers[HEADER_EVENT_TYPE] != EVENT_TYPE_ORDER_CREATED {
        return true;
      }
      var decoded := OrderEvent.Decode(m.value);
      if decoded.None? {
        return false;
      }
      var ids := OrderCreatedIds(decoded.value);
      if ids.None? {
        return false;
      }
      var event := N.InboxEvent(ids.value.0, m.topic, m.partition, m.offset, EVENT_TYPE_ORDER_CREATED, ids.value.1);
      ok := notification.CreateNotification(N.Input(event, m.value, [N.CHANNEL_LOG]));
    }
  }

  class Router {
    var handlers: map<string, OrderHandler>

    constructor ()
      ensures handlers == map[]
    {
      handlers := map[];
    }

    method Register(topic: string, handler: OrderHandler)
      modifies this
      ensures handlers == old(handlers)[topic := handler]
    {
      handlers := handlers[topic := handler];
    }

    ghost function Frame(topic: string): set<object>
      reads this
    {
      if topic in handlers then {handlers[topic].notification.tx.pool} else {}
    }

    method Handle(m: Message) returns (ok: bool)
      modifies Frame(m.topic)
      ensures m.topic !in handlers ==> ok
      ensures m.topic in handlers ==>
                var pool := handlers[m.topic].notification.tx.pool;
                pool.apply == N.Apply ==>
                Outcome(pool.committed, pool.calls, pool.commits, ok) ==
                Perform(ActionFor(handlers.Keys, m), old(pool.committed), old(pool.calls), old(pool.commits),
                  pool.faults)
    {
      if m.topic !in handlers {
        return true;
      }
      ok := handlers[m.topic].Handle(m);
    }
  }

  /** What the service does with a record of its topics: ignore it unless its topic has a handler and its first event
      type header names a created order; then refuse it unless its document can be read and both ids spell UUIDs; then
      store it under the canonical ids, with its own place in the log and its own bytes. */
  lemma RouteIs(rec: Consumer.Record, topics: set<string>)
    ensures var action, typed := ActionFor(topics, Consumer.MessageOf(rec)),
                                 Consumer.FirstHeader(rec.headers, "event-type") == Some("order.created");
            var doc := OrderEvent.Decode(rec.value);
            && (action.Ignore? <==> rec.topic !in topics || !typed)
            && (action.Refuse? <==> rec.topic in topics && typed && (doc.None? || OrderCreatedIds(doc.value).None?))
            && (action.Store? ==>
                  doc.Some? && OrderCreatedIds(doc.value).Some? &&
                  action.input == N.Input(N.InboxEvent(OrderCreatedIds(doc.value).value.0, rec.topic, rec.partition,
                                                       rec.offset, "order.created",
                                                       OrderCreatedIds(doc.value).value.1), rec.value, ["log"]))
  {
    Consumer.HeaderMapLookup(rec.headers, HEADER_EVENT_TYPE);
  }

  /** Two messages whose event ids spell the same UUID claim the same inbox row; different UUIDs claim different
      rows. */
  lemma InboxKeyIsTheUuid(a: OrderEvent.Payload, b: OrderEvent.Payload, u: Uuid.Id, v: Uuid.Id)
    requires Uuid.Spells(a.eventId, u) && Uuid.Spells(b.eventId, v)
    requires OrderCreatedIds(a).Some? && OrderCreatedIds(b).Some?
    ensures OrderCreatedIds(a).value.0 == OrderCreatedIds(b).value.0 <==> u == v
    ensures Uuid.Parse(OrderCreatedIds(a).value.0) == Some(u)
  {
    Uuid.SameKeyIffSameUuid(a.eventId, u, b.eventId, v);
    Uuid.ParseFormat(u);
  }

  /** An event is refused exactly when an identifier spells no UUID. */
  lemma IdsAcceptedIffUuids(p: OrderEvent.Payload)
    ensures OrderCreatedIds(p).Some? <==>
            (exists u :: Uuid.Spells(p.eventId, u)) && (exists u :: Uuid.Spells(p.orderId, u))
  {
    if u :| Uuid.Spells(p.eventId, u) {
      Uuid.ParseIffSpells(p.eventId, u);
    }
    if u :| Uuid.Spells(p.orderId, u) {
      Uuid.ParseIffSpells(p.orderId, u);
    }
    if OrderCreatedIds(p).Some? {
      Uuid.ParseIffSpells(p.eventId, Uuid.Parse(p.eventId).value);
      Uuid.ParseIffSpells(p.orderId, Uuid.Parse(p.orderId).value);
    }
  }
}
