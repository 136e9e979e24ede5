/**
 The effect of the delivery protocol on the notification database, over every run: no event is recorded twice, nothing
 is recorded that was never ordered, and an event whose record lies below the committed offset is recorded once.
 */
module ExactlyOnce {
  import opened Prelude
  import opened Consumer
  import opened ConsumerLoop
  import opened Progress
  import opened Delivery
  import Postgres
  import OE = OrderEvent
  import OS = OrderService
  import OC = OrderConsistency
  import N = Notification
  import T = Transport
  import NL = NoLoss
  import Uuid

  /* ---------- events and the records that carry them ---------- */

  /** An outbox row of a created order whose document names the row's own ids in canonical form. */
  ghost predicate Told(e: OS.OutboxRow)
  {
    && e.aggregateType == OS.AGGREGATE_TYPE_ORDER && e.eventType == OS.EVENT_TYPE_ORDER_CREATED
    && Uuid.CanonicalId(e.id) && Uuid.CanonicalId(e.aggregateId)
    && OE.Decode(e.payload).Some?
    && OE.Decode(e.payload).value.eventId == e.id && OE.Decode(e.payload).value.orderId == e.aggregateId
  }

  function StoreFor(r: Record, e: OS.OutboxRow): N.Input
  {
    N.Input(N.InboxEvent(e.id, r.topic, r.partition, r.offset, e.eventType, e.aggregateId), r.value, [N.CHANNEL_LOG])
  }

  lemma CanonicalKey(id: bytes)
    requires Uuid.CanonicalId(id)
    ensures Uuid.Parse(id).Some? && Uuid.Format(Uuid.Parse(id).value) == id
  {
    var u :| id == Uuid.Format(u);
    Uuid.ParseFormat(u);
  }

  /** What the order service writes and the connector copies is what the notification service listens to. */
  lemma NamesMeet()
    ensures OS.AGGREGATE_TYPE_ORDER + TOPIC_SUFFIX == T.ORDER_TOPIC
    ensures OS.EVENT_TYPE_ORDER_CREATED == T.EVENT_TYPE_ORDER_CREATED && TYPE_HEADER == T.HEADER_EVENT_TYPE
  {
  }

  lemma RoutedToHandler(r: Record, e: OS.OutboxRow)
    requires Told(e) && Carries(r, e)
    ensures r.topic in TOPICS && T.EventType(MessageOf(r)) == T.EVENT_TYPE_ORDER_CREATED == e.eventType
  {
    NamesMeet();
    HeaderMapLookup(r.headers, T.HEADER_EVENT_TYPE);
  }

  /** The handler stores a record that carries an event under that event's own id. */
  lemma CarrierIsStored(r: Record, e: OS.OutboxRow)
    requires Told(e) && Carries(r, e)
    ensures Action(r) == T.Store(StoreFor(r, e))
  {
    RoutedToHandler(r, e);
    CanonicalKey(e.id);
    CanonicalKey(e.aggregateId);
    assert T.OrderCreatedIds(OE.Decode(r.value).value) == Some((e.id, e.aggregateId));
  }

  ghost predicate InLog(log: Log, r: Record)
  {
    r in LogOf(log, r.Source())
  }

  /** A record carries an ordered event, or the handler stores nothing for it. */
  ghost predicate Tells(r: Record, outbox: seq<OS.OutboxRow>)
  {
    Action(r).Store? ==> exists e :: e in outbox && Carries(r, e)
  }

  /* ---------- the invariant ---------- */

  ghost predicate OutboxOk(orders: OS.OrderDb)
  {
    OC.Consistent(orders) && forall e :: e in orders.outbox ==> Told(e)
  }

  ghost predicate LogTells(log: Log, outbox: seq<OS.OutboxRow>)
  {
    NL.LogOk(log) && forall r :: InLog(log, r) ==> Tells(r, outbox)
  }

  /** What a consumer still has to handle comes from the log. */
  ghost predicate FromLog(log: Log, todo: Fetches)
  {
    forall i, j :: 0 <= i < |todo| && 0 <= j < |todo[i].records| ==> InLog(log, todo[i].records[j])
  }

  ghost predicate WorkersFromLog(log: Log, workers: map<nat, Worker>)
  {
    forall w :: w in workers && workers[w].flight.Busy? ==> FromLog(log, workers[w].flight.todo)
  }

  function LogOnly(id: bytes): seq<string>
  {
    [N.CHANNEL_LOG]
  }

  ghost predicate IsEvent(id: bytes, outbox: seq<OS.OutboxRow>)
  {
    exists e :: e in outbox && e.id == id
  }

  /** A stored payload reads as the document of the event it is stored under. */
  ghost predicate RowTells(row: N.NotificationRow, outbox: seq<OS.OutboxRow>)
  {
    exists e :: e in outbox && e.id == row.eventId && OE.Decode(row.payload) == OE.Decode(e.payload)
  }

  ghost predicate NotifTells(notif: N.NotifDb, outbox: seq<OS.OutboxRow>)
  {
    && N.Agree(notif, LogOnly)
    && (forall i :: 0 <= i < |notif.inbox| ==> IsEvent(notif.inbox[i].eventId, outbox))
    && (forall i :: 0 <= i < |notif.notifications| ==> RowTells(notif.notifications[i], outbox))
  }

  ghost predicate Logged(log: Log, tp: TopicPartition, offset: int)
  {
    exists i :: 0 <= i < |LogOf(log, tp)| && LogOf(log, tp)[i].offset == offset
  }

  /** The events of handled records are in the inbox, and no handled record is one the handler refuses. */
  ghost predicate HandledTells(log: Log, handled: NL.History, notif: N.NotifDb, outbox: seq<OS.OutboxRow>)
  {
    && (forall h :: h in handled ==> Logged(log, h.0, h.1))
    && (forall r, e :: InLog(log, r) && (r.Source(), r.offset) in handled && e in outbox && Carries(r, e) ==>
          N.Claimed(notif, e.id))
    && (forall r :: InLog(log, r) && (r.Source(), r.offset) in handled ==> !Action(r).Refuse?)
  }

  ghost predicate Effects(s: Cluster)
  {
    && OutboxOk(s.orders) && LogTells(s.log, s.orders.outbox) && WorkersFromLog(s.log, s.workers)
    && NotifTells(s.notif, s.orders.outbox) && HandledTells(s.log, s.handled, s.notif, s.orders.outbox)
  }

  /* ---------- creating orders ---------- */

  lemma PlannedIsTold(call: OC.Call, p: OS.Planned)
    requires OC.TypedCall(call) && OS.Plan(call.input, call.answers, call.finish, call.gen) == Ok(p)
    requires Uuid.CanonicalId(call.gen.orderId) && Uuid.CanonicalId(call.gen.eventId)
    ensures Told(p.event)
  {
    OC.PlannedAgrees(call, p);
    assert p.order.id == call.gen.orderId;
  }

  lemma OutboxAfter(db: OS.OrderDb, call: OC.Call, p: OS.Planned)
    requires OC.TypedCall(call) && OS.Plan(call.input, call.answers, call.finish, call.gen) == Ok(p)
    ensures var next := OC.After(db, call).outbox; next == db.outbox || next == db.outbox + [p.event]
  {
    OC.WriteOrderAllOrNothing(db, p.order, p.event, 0, 0, call.faults);
  }

  /** A CreateOrder call leaves the outbox alone or appends one row that names its own canonical ids. */
  lemma CreateAppends(db: OS.OrderDb, call: OC.Call)
    requires OutboxOk(db) && OC.TypedCall(call)
    requires Uuid.CanonicalId(call.gen.orderId) && Uuid.CanonicalId(call.gen.eventId)
    ensures OutboxOk(OC.After(db, call)) && db.outbox <= OC.After(db, call).outbox
  {
    OC.CallKeepsConsistent(db, call);
    match OS.Plan(call.input, call.answers, call.finish, call.gen)
    case Err(_) =>
    case Ok(p) =>
      PlannedIsTold(call, p);
      OutboxAfter(db, call, p);
  }

  lemma MoreOutboxTells(r: Record, outbox: seq<OS.OutboxRow>, more: seq<OS.OutboxRow>)
    requires Tells(r, outbox) && outbox <= more
    ensures Tells(r, more)
  {
    if Action(r).Store? {
      var e :| e in outbox && Carries(r, e);
      assert e in more;
    }
  }

  lemma MoreOutboxNotif(notif: N.NotifDb, outbox: seq<OS.OutboxRow>, more: seq<OS.OutboxRow>)
    requires NotifTells(notif, outbox) && outbox <= more
    ensures NotifTells(notif, more)
  {
    assert forall e :: e in outbox ==> e in more;
    forall i | 0 <= i < |notif.inbox| ensures IsEvent(notif.inbox[i].eventId, more) {
      assert IsEvent(notif.inbox[i].eventId, outbox);
    }
    forall i | 0 <= i < |notif.notifications| ensures RowTells(notif.notifications[i], more) {
      assert RowTells(notif.notifications[i], outbox);
    }
  }

  lemma CarriedTwice(r: Record, d: OS.OutboxRow, e: OS.OutboxRow)
    requires Told(d) && Told(e) && Carries(r, d) && Carries(r, e)
    ensures d.id == e.id
  {
  }

  lemma SameEvent(orders: OS.OrderDb, d: OS.OutboxRow, e: OS.OutboxRow)
    requires OC.DistinctKeys(orders) && d in orders.outbox && e in orders.outbox && d.id == e.id
    ensures d == e
  {
    var i :| 0 <= i < |orders.outbox| && orders.outbox[i] == d;
    var j :| 0 <= j < |orders.outbox| && orders.outbox[j] == e;
    assert i == j;
  }

  /** No record of the log carries an event before the event is in the outbox. */
  lemma CarriedIsKnown(r: Record, e: OS.OutboxRow, outbox: seq<OS.OutboxRow>, after: OS.OrderDb)
    requires Tells(r, outbox) && OutboxOk(after) && outbox <= after.outbox && e in after.outbox && Carries(r, e)
    ensures e in outbox
  {
    CarrierIsStored(r, e);
    var d :| d in outbox && Carries(r, d);
    assert d in after.outbox;
    CarriedTwice(r, d, e);
    SameEvent(after, d, e);
  }

  lemma CreateKeeps(s: Cluster, call: OC.Call)
    requires Effects(s) && Enabled(s, Create(call))
    ensures Effects(Do(s, Create(call)))
  {
    var next := OC.After(s.orders, call);
    CreateAppends(s.orders, call);
    forall r | InLog(s.log, r) ensures Tells(r, next.outbox) {
      MoreOutboxTells(r, s.orders.outbox, next.outbox);
    }
    MoreOutboxNotif(s.notif, s.orders.outbox, next.outbox);
    forall r, e | InLog(s.log, r) && (r.Source(), r.offset) in s.handled && e in next.outbox && Carries(r, e)
      ensures N.Claimed(s.notif, e.id)
    {
      CarriedIsKnown(r, e, s.orders.outbox, next);
    }
  }

  /* ---------- the log grows ---------- */

  lemma AppendedLog(log: Log, r: Record, x: Record)
    requires NL.LogOk(log) && Appendable(log, r)
    ensures InLog(Append(log, r), x) <==> InLog(log, x) || x == r
  {
    var own := LogOf(log, r.Source());
    if x.Source() == r.Source() {
      assert LogOf(Append(log, r), x.Source()) == own + [r];
    }
  }

  lemma AppendedOffset(log: Log, r: Record, tp: TopicPartition, offset: int)
    requires NL.LogOk(log) && Appendable(log, r) && Logged(log, tp, offset)
    ensures Logged(Append(log, r), tp, offset) && (tp == r.Source() ==> offset != r.offset)
  {
    NL.EndBounds(log, tp);
    var own, next := LogOf(log, tp), LogOf(Append(log, r), tp);
    var i :| 0 <= i < |own| && own[i].offset == offset;
    assert next == if tp == r.Source() then own + [r] else own;
    assert next[i].offset == offset;
  }

  lemma AppendKeeps(s: Cluster, r: Record)
    requires Effects(s) && Appendable(s.log, r) && Tells(r, s.orders.outbox)
    ensures Effects(s.(log := Append(s.log, r)))
  {
    var next := Append(s.log, r);
    NL.AppendKeepsLog(s.log, r);
    forall x ensures InLog(next, x) <==> InLog(s.log, x) || x == r {
      AppendedLog(s.log, r, x);
    }
    forall w | w in s.workers && s.workers[w].flight.Busy? ensures FromLog(next, s.workers[w].flight.todo) {
      assert FromLog(s.log, s.workers[w].flight.todo);
    }
    forall h | h in s.handled ensures Logged(next, h.0, h.1) && (h.0 == r.Source() ==> h.1 != r.offset) {
      AppendedOffset(s.log, r, h.0, h.1);
    }
    assert (r.Source(), r.offset) !in s.handled;
  }

  /* ---------- consumers ---------- */

  lemma {:induction false} FetchedFromLog(log: Log, position: map<TopicPartition, int>, fetches: Fetches)
    requires NL.LogOk(log) && Fetched(log, position, fetches)
    ensures FromLog(log, fetches)
    decreases |fetches|
  {
    if fetches != [] {
      var f := fetches[0];
      FetchedFromLog(log, Advance(position, [f]), fetches[1..]);
      ConsecutiveFromLog(log, f.source, f.records, position[f.source]);
      FromLogCons(log, fetches);
    }
  }

  lemma FromLogCons(log: Log, fetches: Fetches)
    requires fetches != [] && FromLog(log, fetches[1..])
    requires forall j :: 0 <= j < |fetches[0].records| ==> InLog(log, fetches[0].records[j])
    ensures FromLog(log, fetches)
  {
    forall i, j | 0 <= i < |fetches| && 0 <= j < |fetches[i].records| ensures InLog(log, fetches[i].records[j]) {
      assert i > 0 ==> fetches[i] == fetches[1..][i - 1];
    }
  }

  lemma ConsecutiveFromLog(log: Log, tp: TopicPartition, records: seq<Record>, position: int)
    requires NL.LogOk(log) && Consecutive(records, LogOf(log, tp), position)
    ensures forall j :: 0 <= j < |records| ==> InLog(log, records[j])
  {
    var own := LogOf(log, tp);
    var i := Below(own, position);
    forall j | 0 <= j < |records| ensures InLog(log, records[j]) {
      assert own[i..i + |records|][j] == own[i + j];
      assert own[i + j] in log[tp];
      assert records[j].Source() == tp;
    }
  }

  lemma HandleFromLog(log: Log, f: Flight, ok: bool)
    requires f.Busy? && f.todo != [] && FromLog(log, f.todo)
    ensures FromLog(log, Handle(f, ok).todo)
  {
    var next := Handle(f, ok).todo;
    forall i, j | 0 <= i < |next| && 0 <= j < |next[i].records| ensures InLog(log, next[i].records[j]) {
      if |next| == |f.todo| {
        assert i > 0 ==> next[i] == f.todo[i];
        assert i == 0 ==> next[0].records[j] == f.todo[0].records[j + 1];
      } else {
        assert next[i] == f.todo[i + 1];
      }
    }
  }

  lemma OneWorkerKeeps(s: Cluster, w: nat, wk: Worker)
    requires Effects(s) && (wk.flight.Busy? ==> FromLog(s.log, wk.flight.todo))
    ensures Effects(s.(workers := s.workers[w := wk]))
  {
  }

  /* ---------- handling a record ---------- */

  /** Recording an event on its single channel. */
  lemma RecordingTells(notif: N.NotifDb, outbox: seq<OS.OutboxRow>, r: Record, e: OS.OutboxRow)
    requires NotifTells(notif, outbox) && e in outbox && Told(e) && Carries(r, e)
    ensures NotifTells(N.Recorded(notif, StoreFor(r, e)), outbox)
  {
    var input := StoreFor(r, e);
    var next, row := N.Recorded(notif, input), N.RowFor(input, N.CHANNEL_LOG);
    N.RecordedAgrees(notif, input, LogOnly);
    var claimed := N.AddClaim(notif, input.event);
    assert input.channels[1..] == [] && N.AddRows(N.AddRow(claimed, row), input, []) == N.AddRow(claimed, row);
    assert next == N.AddRow(claimed, row);
    assert IsEvent(input.event.eventId, outbox);
    assert RowTells(row, outbox);
    assert next.notifications == notif.notifications || next.notifications == notif.notifications + [row];
    assert next.inbox == notif.inbox || next.inbox == notif.inbox + [input.event];
  }

  /** Storing a record that carries an event. */
  lemma StoreTells(notif: N.NotifDb, outbox: seq<OS.OutboxRow>, r: Record, e: OS.OutboxRow,
                   faults: nat -> Postgres.Fault)
    requires NotifTells(notif, outbox) && e in outbox && Told(e) && Carries(r, e)
    ensures var out := T.Perform(T.Store(StoreFor(r, e)), notif, 0, 0, faults);
            && NotifTells(out.db, outbox)
            && (forall id :: N.Claimed(notif, id) ==> N.Claimed(out.db, id))
            && (out.ok ==> N.Claimed(out.db, e.id))
  {
    var input := StoreFor(r, e);
    N.CreateAllOrNothing(notif, input, 0, 0, faults);
    RecordingTells(notif, outbox, r, e);
    forall id ensures N.Claimed(N.Recorded(notif, input), id) <==> N.Claimed(notif, id) || id == e.id {
      N.RecordedSays(notif, input, id, N.CHANNEL_LOG);
    }
  }

  /** One handler call: the database still tells only true events, forgets none, and on success holds the record's
      event. */
  lemma PerformTells(notif: N.NotifDb, outbox: seq<OS.OutboxRow>, r: Record, faults: nat -> Postgres.Fault)
    requires NotifTells(notif, outbox) && Tells(r, outbox) && forall e :: e in outbox ==> Told(e)
    ensures var out := T.Perform(Action(r), notif, 0, 0, faults);
            && NotifTells(out.db, outbox)
            && (forall id :: N.Claimed(notif, id) ==> N.Claimed(out.db, id))
            && (out.ok ==> forall e :: e in outbox && Carries(r, e) ==> N.Claimed(out.db, e.id))
  {
    forall e | e in outbox && Carries(r, e) ensures Action(r) == T.Store(StoreFor(r, e)) {
      CarrierIsStored(r, e);
    }
    if Action(r).Store? {
      var e :| e in outbox && Carries(r, e);
      StoreTells(notif, outbox, r, e, faults);
      forall d | d in outbox && Carries(r, d) ensures d.id == e.id {
        CarriedTwice(r, d, e);
      }
    }
  }

  lemma SameOffset(log: Log, a: Record, b: Record)
    requires NL.LogOk(log) && InLog(log, a) && InLog(log, b) && a.Source() == b.Source() && a.offset == b.offset
    ensures a == b
  {
    var own := LogOf(log, a.Source());
    var i :| 0 <= i < |own| && own[i] == a;
    var j :| 0 <= j < |own| && own[j] == b;
    assert i == j;
  }

  lemma HandledMoreTells(log: Log, handled: NL.History, before: N.NotifDb, after: N.NotifDb, outbox: seq<OS.OutboxRow>,
                         r: Record)
    requires NL.LogOk(log) && InLog(log, r) && !Action(r).Refuse? && HandledTells(log, handled, before, outbox)
    requires forall id :: N.Claimed(before, id) ==> N.Claimed(after, id)
    requires forall e :: e in outbox && Carries(r, e) ==> N.Claimed(after, e.id)
    ensures HandledTells(log, handled + {(r.Source(), r.offset)}, after, outbox)
  {
    var more := handled + {(r.Source(), r.offset)};
    var i :| 0 <= i < |LogOf(log, r.Source())| && LogOf(log, r.Source())[i] == r;
    assert Logged(log, r.Source(), r.offset);
    forall x, e | InLog(log, x) && (x.Source(), x.offset) in more && e in outbox && Carries(x, e)
      ensures N.Claimed(after, e.id)
    {
      if (x.Source(), x.offset) !in handled {
        SameOffset(log, x, r);
      }
    }
    forall x | InLog(log, x) && (x.Source(), x.offset) in more ensures !Action(x).Refuse? {
      if (x.Source(), x.offset) !in handled {
        SameOffset(log, x, r);
      }
    }
  }

  lemma PollKeeps(s: Cluster, w: nat, fetches: Fetches)
    requires Effects(s) && Enabled(s, Poll(w, fetches))
    ensures Effects(Do(s, Poll(w, fetches)))
  {
    FetchedFromLog(s.log, s.workers[w].position, fetches);
    OneWorkerKeeps(s, w, Do(s, Poll(w, fetches)).workers[w]);
  }

  lemma HandleKeeps(s: Cluster, w: nat, faults: nat -> Postgres.Fault)
    requires Effects(s) && Enabled(s, HandleNext(w, faults))
    ensures Effects(Do(s, HandleNext(w, faults)))
  {
    var wk := s.workers[w];
    var chunk := wk.flight.todo[0];
    assert FromLog(s.log, wk.flight.todo);
    if chunk.records == [] {
      HandleFromLog(s.log, wk.flight, true);
      OneWorkerKeeps(s, w, wk.(flight := Handle(wk.flight, true)));
    } else {
      var r := chunk.records[0];
      assert InLog(s.log, wk.flight.todo[0].records[0]);
      var out := T.Perform(Action(r), s.notif, 0, 0, faults);
      PerformTells(s.notif, s.orders.outbox, r, faults);
      var more := if out.ok then s.handled + {(r.Source(), r.offset)} else s.handled;
      if out.ok {
        HandledMoreTells(s.log, s.handled, s.notif, out.db, s.orders.outbox, r);
      }
      assert HandledTells(s.log, more, out.db, s.orders.outbox);
      HandleFromLog(s.log, wk.flight, out.ok);
      OneWorkerKeeps(s.(notif := out.db, handled := more), w, wk.(flight := Handle(wk.flight, out.ok)));
    }
  }

  lemma CommitKeeps(s: Cluster, w: nat, landed: set<TopicPartition>)
    requires Effects(s) && Enabled(s, Commit(w, landed))
    ensures Effects(Do(s, Commit(w, landed)))
  {
    var end := Do(s, Commit(w, landed));
    OneWorkerKeeps(s.(committed := end.committed), w, end.workers[w]);
  }

  /* ---------- every step, every run ---------- */

  lemma StepKeepsEffects(s: Cluster, step: Step)
    requires Effects(s) && Enabled(s, step)
    ensures Effects(Do(s, step))
  {
    match step
    case Create(call) => CreateKeeps(s, call);
    case Publish(e, r) =>
      assert Tells(r, s.orders.outbox);
      AppendKeeps(s, r);
    case Foreign(r) => AppendKeeps(s, r);
    case Assign(w, tp) => OneWorkerKeeps(s, w, Do(s, step).workers[w]);
    case Poll(w, fetches) => PollKeeps(s, w, fetches);
    case HandleNext(w, faults) => HandleKeeps(s, w, faults);
    case Commit(w, landed) => CommitKeeps(s, w, landed);
    case SetOffsets(w) => OneWorkerKeeps(s, w, Do(s, step).workers[w]);
    case Crash(w) => OneWorkerKeeps(s, w, Do(s, step).workers[w]);
    case SeekBack(tp, offset) =>
  }

  lemma {:induction false} RunKeepsEffects(s: Cluster, steps: seq<Step>)
    requires Effects(s) && Runs(s, steps)
    ensures Effects(After(s, steps))
    decreases |steps|
  {
    if steps != [] {
      StepKeepsEffects(s, steps[0]);
      RunKeepsEffects(Do(s, steps[0]), steps[1..]);
    }
  }

  /* ---------- counting rows ---------- */

  function InboxCount(inbox: seq<N.InboxEvent>, id: bytes): nat
  {
    if inbox == [] then 0 else (if inbox[0].eventId == id then 1 else 0) + InboxCount(inbox[1..], id)
  }

  /** The notifications of an event on a channel, in the order they were written. */
  function NotificationsOf(rows: seq<N.NotificationRow>, id: bytes, channel: string): seq<N.NotificationRow>
  {
    if rows == [] then []
    else (if rows[0].eventId == id && rows[0].channel == channel then [rows[0]] else []) +
         NotificationsOf(rows[1..], id, channel)
  }

  lemma {:induction false} InboxCountUnique(inbox: seq<N.InboxEvent>, id: bytes)
    requires forall i, j :: 0 <= i < j < |inbox| ==> inbox[i].eventId != inbox[j].eventId
    ensures InboxCount(inbox, id) == if exists i :: 0 <= i < |inbox| && inbox[i].eventId == id then 1 else 0
  {
    if inbox != [] {
      var tail := inbox[1..];
      InboxCountUnique(tail, id);
      if i :| 0 <= i < |tail| && tail[i].eventId == id {
        assert inbox[i + 1].eventId == id;
      }
      if i :| 0 <= i < |inbox| && inbox[i].eventId == id && i > 0 {
        assert tail[i - 1].eventId == id;
      }
    }
  }

  ghost predicate RowAt(rows: seq<N.NotificationRow>, i: int, id: bytes, channel: string)
  {
    0 <= i < |rows| && rows[i].eventId == id && rows[i].channel == channel
  }

  lemma {:induction false} NotificationsNone(rows: seq<N.NotificationRow>, id: bytes, channel: string)
    requires forall i :: !RowAt(rows, i, id, channel)
    ensures NotificationsOf(rows, id, channel) == []
  {
    if rows != [] {
      assert !RowAt(rows, 0, id, channel);
      forall i ensures !RowAt(rows[1..], i, id, channel) {
        assert !RowAt(rows, i + 1, id, channel);
      }
      NotificationsNone(rows[1..], id, channel);
    }
  }

  lemma {:induction false} NotificationsUnique(rows: seq<N.NotificationRow>, i: nat, id: bytes, channel: string)
    requires RowAt(rows, i, id, channel) && forall j :: RowAt(rows, j, id, channel) ==> i == j
    ensures NotificationsOf(rows, id, channel) == [rows[i]]
  {
    var tail := rows[1..];
    if i == 0 {
      forall j ensures !RowAt(tail, j, id, channel) {
        assert RowAt(tail, j, id, channel) ==> RowAt(rows, j + 1, id, channel);
      }
      NotificationsNone(tail, id, channel);
    } else {
      assert !RowAt(rows, 0, id, channel);
      assert RowAt(tail, i - 1, id, channel);
      forall j ensures RowAt(tail, j, id, channel) ==> i - 1 == j {
        assert RowAt(tail, j, id, channel) ==> RowAt(rows, j + 1, id, channel);
      }
      NotificationsUnique(tail, i - 1, id, channel);
    }
  }

  /** Exactly one inbox row and one notification, whose payload reads as the event's document. */
  ghost predicate RecordedOnce(notif: N.NotifDb, e: OS.OutboxRow)
  {
    && InboxCount(notif.inbox, e.id) == 1
    && var rows := NotificationsOf(notif.notifications, e.id, N.CHANNEL_LOG);
       |rows| == 1 && OE.Decode(rows[0].payload) == OE.Decode(e.payload)
  }

  ghost predicate NotRecorded(notif: N.NotifDb, id: bytes)
  {
    InboxCount(notif.inbox, id) == 0 && NotificationsOf(notif.notifications, id, N.CHANNEL_LOG) == []
  }

  lemma UnclaimedIsNotRecorded(notif: N.NotifDb, id: bytes)
    requires N.Agree(notif, LogOnly) && !N.Claimed(notif, id)
    ensures NotRecorded(notif, id)
  {
    InboxCountUnique(notif.inbox, id);
    assert !N.Notified(notif, id, N.CHANNEL_LOG);
    NotificationsNone(notif.notifications, id, N.CHANNEL_LOG);
  }

  lemma ClaimedIsRecordedOnce(notif: N.NotifDb, orders: OS.OrderDb, e: OS.OutboxRow)
    requires NotifTells(notif, orders.outbox) && OutboxOk(orders) && e in orders.outbox && N.Claimed(notif, e.id)
    ensures RecordedOnce(notif, e)
  {
    InboxCountUnique(notif.inbox, e.id);
    var i := NotifiedRow(notif, e.id);
    NotificationsUnique(notif.notifications, i, e.id, N.CHANNEL_LOG);
    assert RowTells(notif.notifications[i], orders.outbox);
    var d :| d in orders.outbox && d.id == e.id && OE.Decode(notif.notifications[i].payload) == OE.Decode(d.payload);
    SameEvent(orders, d, e);
  }

  /** The one notification row of a claimed event. */
  lemma NotifiedRow(notif: N.NotifDb, id: bytes) returns (i: nat)
    requires N.Agree(notif, LogOnly) && N.Claimed(notif, id)
    ensures RowAt(notif.notifications, i, id, N.CHANNEL_LOG)
    ensures forall j :: RowAt(notif.notifications, j, id, N.CHANNEL_LOG) ==> i == j
  {
    var rows := notif.notifications;
    assert N.CHANNEL_LOG in LogOnly(id);
    assert N.Notified(notif, id, N.CHANNEL_LOG);
    i :| i < |rows| && rows[i].eventId == id && rows[i].channel == N.CHANNEL_LOG;
  }

  /* ---------- the theorems ---------- */

  /** At most once, with no hypothesis on polls: in every reachable state an id is recorded exactly once, with the
      payload of the outbox row that has this id, or not at all; only ids of outbox rows are recorded. */
  lemma AtMostOnce(steps: seq<Step>, id: bytes)
    requires Runs(START, steps)
    ensures var s := After(START, steps);
            NotRecorded(s.notif, id) || exists e :: e in s.orders.outbox && e.id == id && RecordedOnce(s.notif, e)
  {
    RunKeepsEffects(START, steps);
    var s := After(START, steps);
    if N.Claimed(s.notif, id) {
      var i :| 0 <= i < |s.notif.inbox| && s.notif.inbox[i].eventId == id;
      assert IsEvent(s.notif.inbox[i].eventId, s.orders.outbox);
      var e :| e in s.orders.outbox && e.id == id;
      ClaimedIsRecordedOnce(s.notif, s.orders, e);
    } else {
      UnclaimedIsNotRecorded(s.notif, id);
    }
  }

  /** In every reachable state, a record published for an outbox row is one the notification service stores, under the
      row's ids and type: no event is published past its handler. */
  lemma PublishedIsStored(steps: seq<Step>, r: Record, e: OS.OutboxRow)
    requires Runs(START, steps) && e in After(START, steps).orders.outbox && Carries(r, e)
    ensures Action(r) == T.Store(StoreFor(r, e))
  {
    OutboxIsTold(steps, e);
    CarrierIsStored(r, e);
  }

  lemma OutboxIsTold(steps: seq<Step>, e: OS.OutboxRow)
    requires Runs(START, steps) && e in After(START, steps).orders.outbox
    ensures Told(e)
  {
    ReachedOutbox(steps);
  }

  lemma ReachedOutbox(steps: seq<Step>)
    requires Runs(START, steps)
    ensures OutboxOk(After(START, steps).orders)
  {
    RunKeepsEffects(START, steps);
  }

  /** A record whose handler returned nil has its event recorded exactly once, in every later state. */
  lemma HandledIsRecordedOnce(steps: seq<Step>, r: Record, e: OS.OutboxRow)
    requires Runs(START, steps)
    ensures var s := After(START, steps);
            InLog(s.log, r) && (r.Source(), r.offset) in s.handled && e in s.orders.outbox && Carries(r, e) ==>
            RecordedOnce(s.notif, e)
  {
    RunKeepsEffects(START, steps);
    var s := After(START, steps);
    if InLog(s.log, r) && (r.Source(), r.offset) in s.handled && e in s.orders.outbox && Carries(r, e) {
      ClaimedIsRecordedOnce(s.notif, s.orders, e);
    }
  }

  /** Exactly once: in every reachable state an event that some record below its partition's committed offset carries
      has exactly one inbox row and exactly one notification, with that event's payload. */
  lemma ExactlyOnceBelowCommitted(steps: seq<Step>, r: Record, e: OS.OutboxRow)
    requires Runs(START, steps) && AllTame(steps)
    ensures var s := After(START, steps);
            e in s.orders.outbox && InLog(s.log, r) && Carries(r, e) &&
            r.Source() in s.committed && r.offset < s.committed[r.Source()] ==>
            RecordedOnce(s.notif, e)
  {
    var s := After(START, steps);
    if InLog(s.log, r) && r.Source() in s.committed && r.offset < s.committed[r.Source()] {
      var i: nat :| i < |LogOf(s.log, r.Source())| && LogOf(s.log, r.Source())[i] == r;
      NL.NothingIsLost(steps, r.Source(), i);
      HandledIsRecordedOnce(steps, r, e);
    }
  }

  /** From the order to its notification: the k-th order row is paired with the k-th outbox row, and once a record
      carrying that row lies below the committed offset, the one notification of the event names the stored order, its
      items and its total. */
  lemma OrderIsNotifiedOnce(steps: seq<Step>, k: nat, r: Record)
    requires Runs(START, steps) && AllTame(steps)
    ensures var s := After(START, steps);
            && |s.orders.outbox| == |s.orders.orders|
            && (k < |s.orders.orders| && InLog(s.log, r) && Carries(r, s.orders.outbox[k]) &&
                r.Source() in s.committed && r.offset < s.committed[r.Source()] ==>
                  var o, e := s.orders.orders[k], s.orders.outbox[k];
                  var rows := NotificationsOf(s.notif.notifications, e.id, N.CHANNEL_LOG);
                  && |rows| == 1
                  && OE.Decode(rows[0].payload).Some?
                  && OC.Normalized(OE.Decode(rows[0].payload).value) ==
                     OE.Payload(e.id, o.id, o.userId, OS.EventItems(OC.ItemsOf(s.orders.items, o.id)),
                                o.totalAmount, o.deliveryAddress, o.createdAt))
  {
    RunKeepsEffects(START, steps);
    var s := After(START, steps);
    if k < |s.orders.orders| {
      assert OC.Agrees(s.orders.orders[k], OC.ItemsOf(s.orders.items, s.orders.orders[k].id), s.orders.outbox[k]);
      ExactlyOnceBelowCommitted(steps, r, s.orders.outbox[k]);
    }
  }
}
