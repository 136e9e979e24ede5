/**
 The idempotent inbox: CreateNotification of services/notification/internal/service/notification.go with the two
 repositories it calls.  Claim and inserts run in one transaction; both use ON CONFLICT DO NOTHING.
 */
module Notification {
  import opened Prelude
  import opened Postgres

  datatype InboxEvent = InboxEvent(eventId: bytes, topic: string, partition: int, offset: int, eventType: string,
                                   aggregateId: bytes)

  datatype NotificationRow = NotificationRow(eventId: bytes, eventType: string, channel: string, payload: bytes)

  datatype NotifDb = NotifDb(inbox: seq<InboxEvent>, notifications: seq<NotificationRow>)

  datatype Stmt = Claim(event: InboxEvent) | Insert(row: NotificationRow)

  datatype Input = Input(event: InboxEvent, payload: bytes, channels: seq<string>)

  const CHANNEL_LOG := "log"

  predicate Claimed(db: NotifDb, id: bytes)
  {
    exists i :: 0 <= i < |db.inbox| && db.inbox[i].eventId == id
  }

  predicate Notified(db: NotifDb, id: bytes, channel: string)
  {
    exists i :: 0 <= i < |db.notifications| &&
                db.notifications[i].eventId == id && db.notifications[i].channel == channel
  }

  function AddClaim(db: NotifDb, e: InboxEvent): NotifDb
  {
    if Claimed(db, e.eventId) then db else db.(inbox := db.inbox + [e])
  }

  function AddRow(db: NotifDb, r: NotificationRow): NotifDb
  {
    if Notified(db, r.eventId, r.channel) then db else db.(notifications := db.notifications + [r])
  }

  /** INSERT ... ON CONFLICT DO NOTHING; a channel outside the CHECK constraint is refused. */
  function Apply(db: NotifDb, s: Stmt): Option<NotifDb>
  {
    match s
    case Claim(e) => Some(AddClaim(db, e))
    case Insert(r) => if r.channel == CHANNEL_LOG then Some(AddRow(db, r)) else None
  }

  function RowFor(input: Input, channel: string): NotificationRow
  {
    NotificationRow(input.event.eventId, input.event.eventType, channel, input.payload)
  }

  /** The batch of CreateForChannels: its results are consumed in order, the first error is returned. */
  function InsertAll(input: Input, channels: seq<string>): Prog<Stmt>
  {
    if channels == [] then Skip else Then(Exec(Insert(RowFor(input, channels[0]))), InsertAll(input, channels[1..]))
  }

  /** The closure CreateNotification passes to WithinTx. */
  function WriteNotification(input: Input): Prog<Stmt>
  {
    Then(Exec(Claim(input.event)), InsertAll(input, input.channels))
  }

  method CreateForChannels(input: Input) returns (fn: Prog<Stmt>)
    ensures fn == InsertAll(input, input.channels)
  {
    if |input.channels| == 0 {
      return Skip;
    }
    var batch: seq<Stmt> := [];
    for i := 0 to |input.channels|
      invariant |batch| == i && forall k :: 0 <= k < i ==> batch[k] == Insert(RowFor(input, input.channels[k]))
    {
      batch := batch + [Insert(RowFor(input, input.channels[i]))];
    }
    fn := Skip;
    assert input.channels[|batch|..] == [];
    for i := |batch| downto 0
      invariant fn == InsertAll(input, input.channels[i..])
    {
      assert input.channels[i..][0] == input.channels[i] && input.channels[i..][1..] == input.channels[i + 1..];
      fn := Then(Exec(batch[i]), fn);
    }
    assert input.channels[0..] == input.channels;
  }

  class Service {
    const tx: TxManager<NotifDb, Stmt>

    constructor (tx: TxManager<NotifDb, Stmt>)
      ensures this.tx == tx
    {
      this.tx := tx;
    }

    method CreateNotification(input: Input) returns (ok: bool)
      modifies tx.pool`committed, tx.pool`calls, tx.pool`commits
      ensures Outcome(tx.pool.committed, tx.pool.calls, tx.pool.commits, ok) ==
              Root(WithinTx(WriteNotification(input)), old(tx.pool.committed), old(tx.pool.calls),
                   old(tx.pool.commits), tx.pool.apply, tx.pool.faults)
    {
      var inserts := CreateForChannels(input);
      ok := tx.WithinTx(Background, Then(Exec(Claim(input.event)), inserts));
    }
  }

  /* ---------- one call ---------- */

  function AddRows(db: NotifDb, input: Input, channels: seq<string>): NotifDb
    decreases |channels|
  {
    if channels == [] then db else AddRows(AddRow(db, RowFor(input, channels[0])), input, channels[1..])
  }

  /** The database after a call that took effect. */
  function Recorded(db: NotifDb, input: Input): NotifDb
  {
    AddRows(AddClaim(db, input.event), input, input.channels)
  }

  lemma {:induction false} InsertsInTx(db: NotifDb, input: Input, channels: seq<string>, calls: nat,
                                       faults: nat -> Fault)
    ensures var r := InTx(InsertAll(input, channels), db, false, calls, Apply, faults);
            r.ok ==> r.pending == AddRows(db, input, channels) && forall c :: c in channels ==> c == CHANNEL_LOG
    decreases |channels|
  {
    if channels != [] {
      var r := InTx(Exec(Insert(RowFor(input, channels[0]))), db, false, calls, Apply, faults);
      if r.ok {
        InsertsInTx(r.pending, input, channels[1..], r.calls, faults);
        assert forall c :: c in channels ==> c == channels[0] || c in channels[1..];
      }
    }
  }

  /** Whatever fails, a call has its whole effect or none, and success means it took effect. */
  lemma CreateAllOrNothing(db: NotifDb, input: Input, calls: nat, commits: nat, faults: nat -> Fault)
    ensures var r := Root(WithinTx(WriteNotification(input)), db, calls, commits, Apply, faults);
            && (r.db == db || r.db == Recorded(db, input))
            && (r.ok ==> r.db == Recorded(db, input))
  {
    var claim := InTx(Exec(Claim(input.event)), db, false, calls + 1, Apply, faults);
    if claim.ok {
      InsertsInTx(claim.pending, input, input.channels, claim.calls, faults);
    }
    var all := InTx(WriteNotification(input), db, false, calls + 1, Apply, faults);
    assert all == if claim.ok
                  then InTx(InsertAll(input, input.channels), claim.pending, false, claim.calls, Apply, faults)
                  else claim;
  }

  lemma {:induction false} UnfaultedInserts(db: NotifDb, input: Input, channels: seq<string>, calls: nat)
    requires forall c :: c in channels ==> c == CHANNEL_LOG
    ensures var r := InTx(InsertAll(input, channels), db, false, calls, Apply, NO_FAULTS); r.ok && !r.aborted
    decreases |channels|
  {
    if channels != [] {
      var r := InTx(Exec(Insert(RowFor(input, channels[0]))), db, false, calls, Apply, NO_FAULTS);
      assert channels[0] in channels && forall c :: c in channels[1..] ==> c in channels;
      UnfaultedInserts(r.pending, input, channels[1..], r.calls);
    }
  }

  /** A call for known channels succeeds when the database is healthy and fails when it is not. */
  lemma UnfaultedCreates(db: NotifDb, input: Input)
    requires forall c :: c in input.channels ==> c == CHANNEL_LOG
    ensures Root(WithinTx(WriteNotification(input)), db, 0, 0, Apply, NO_FAULTS).ok
    ensures !Root(WithinTx(WriteNotification(input)), db, 0, 0, Apply, ALL_BROKEN).ok
  {
    var claim := InTx(Exec(Claim(input.event)), db, false, 1, Apply, NO_FAULTS);
    UnfaultedInserts(claim.pending, input, input.channels, claim.calls);
  }

  /* ---------- inbox and notifications agree ---------- */

  /** The channels every event id is handled with. */
  type Channels = bytes -> seq<string>

  ghost predicate UniqueRows(db: NotifDb)
  {
    && (forall i, j :: 0 <= i < j < |db.inbox| ==> db.inbox[i].eventId != db.inbox[j].eventId)
    && (forall i, j :: 0 <= i < j < |db.notifications| ==>
          db.notifications[i].eventId != db.notifications[j].eventId ||
          db.notifications[i].channel != db.notifications[j].channel)
  }

  ghost predicate Agree(db: NotifDb, channels: Channels)
  {
    && UniqueRows(db)
    && (forall id, c :: Claimed(db, id) && c in channels(id) ==> Notified(db, id, c))
    && (forall id, c :: Notified(db, id, c) ==> Claimed(db, id) && c in channels(id))
  }

  lemma AddClaimSays(db: NotifDb, e: InboxEvent, id: bytes)
    ensures Claimed(AddClaim(db, e), id) <==> Claimed(db, id) || id == e.eventId
  {
    var next := AddClaim(db, e);
    if Claimed(db, id) {
      var i :| 0 <= i < |db.inbox| && db.inbox[i].eventId == id;
      assert next.inbox[i].eventId == id;
    } else if id == e.eventId {
      assert next.inbox[|db.inbox|].eventId == id;
    }
  }

  lemma AddRowSays(db: NotifDb, r: NotificationRow, id: bytes, c: string)
    ensures Notified(AddRow(db, r), id, c) <==> Notified(db, id, c) || (id == r.eventId && c == r.channel)
  {
    var next := AddRow(db, r);
    if Notified(db, id, c) {
      var i :| 0 <= i < |db.notifications| && db.notifications[i].eventId == id && db.notifications[i].channel == c;
      assert next.notifications[i] == db.notifications[i];
    } else if id == r.eventId && c == r.channel {
      assert next.notifications[|db.notifications|] == r;
    }
  }

  lemma {:induction false} AddRowsSays(db: NotifDb, input: Input, channels: seq<string>, id: bytes, c: string)
    ensures Notified(AddRows(db, input, channels), id, c) <==>
            Notified(db, id, c) || (id == input.event.eventId && c in channels)
    ensures AddRows(db, input, channels).inbox == db.inbox
    decreases |channels|
  {
    if channels != [] {
      AddRowSays(db, RowFor(input, channels[0]), id, c);
      AddRowsSays(AddRow(db, RowFor(input, channels[0])), input, channels[1..], id, c);
    }
  }

  lemma {:induction false} AddRowsUnique(db: NotifDb, input: Input, channels: seq<string>)
    requires UniqueRows(db)
    ensures UniqueRows(AddRows(db, input, channels))
    decreases |channels|
  {
    if channels != [] {
      AddRowsUnique(AddRow(db, RowFor(input, channels[0])), input, channels[1..]);
    }
  }

  /** A recorded event is claimed and notified on each of its channels; nothing else changes. */
  lemma RecordedSays(db: NotifDb, input: Input, id: bytes, c: string)
    ensures Claimed(Recorded(db, input), id) <==> Claimed(db, id) || id == input.event.eventId
    ensures Notified(Recorded(db, input), id, c) <==>
            Notified(db, id, c) || (id == input.event.eventId && c in input.channels)
  {
    AddClaimSays(db, input.event, id);
    AddRowsSays(AddClaim(db, input.event), input, input.channels, id, c);
  }

  lemma RecordedAgrees(db: NotifDb, input: Input, channels: Channels)
    requires Agree(db, channels) && input.channels == channels(input.event.eventId)
    ensures Agree(Recorded(db, input), channels)
  {
    var next := Recorded(db, input);
    assert UniqueRows(AddClaim(db, input.event));
    AddRowsUnique(AddClaim(db, input.event), input, input.channels);
    forall id, c | Claimed(next, id) && c in channels(id) ensures Notified(next, id, c) {
      RecordedSays(db, input, id, c);
    }
    forall id, c | Notified(next, id, c) ensures Claimed(next, id) && c in channels(id) {
      RecordedSays(db, input, id, c);
    }
  }

  /** Adding rows that are all there already changes nothing. */
  lemma {:induction false} AddRowsNoop(db: NotifDb, input: Input, channels: seq<string>)
    requires forall c :: c in channels ==> Notified(db, input.event.eventId, c)
    ensures AddRows(db, input, channels) == db
    decreases |channels|
  {
    if channels != [] {
      assert channels[0] in channels;
      AddRowsNoop(db, input, channels[1..]);
    }
  }

  /** Once an event id is in the inbox, any further call for it, with whatever topic, partition, offset and payload and
      whatever faults, leaves the database as the first success left it. */
  lemma RepeatChangesNothing(db: NotifDb, input: Input, channels: Channels, calls: nat, commits: nat,
                             faults: nat -> Fault)
    requires Agree(db, channels) && input.channels == channels(input.event.eventId)
    requires Claimed(db, input.event.eventId)
    ensures Root(WithinTx(WriteNotification(input)), db, calls, commits, Apply, faults).db == db
  {
    CreateAllOrNothing(db, input, calls, commits, faults);
    AddRowsNoop(db, input, input.channels);
  }

  /** The first success of an event appends its inbox row as given and its notifications with the given payload. */
  lemma FirstWriteAppends(db: NotifDb, input: Input, channels: Channels, i: nat)
    requires Agree(db, channels) && input.channels == channels(input.event.eventId)
    requires !Claimed(db, input.event.eventId) && i < |input.channels|
    ensures var next := Recorded(db, input);
            && next.inbox == db.inbox + [input.event]
            && db.notifications <= next.notifications
            && NotificationRow(input.event.eventId, input.event.eventType, input.channels[i], input.payload) in
               next.notifications[|db.notifications|..]
  {
    var claimed := AddClaim(db, input.event);
    assert !Notified(claimed, input.event.eventId, input.channels[i]) by {
      if Notified(claimed, input.event.eventId, input.channels[i]) {
        var k :| 0 <= k < |db.notifications| && db.notifications[k].eventId == input.event.eventId &&
                 db.notifications[k].channel == input.channels[i];
        assert Notified(db, input.event.eventId, input.channels[i]);
      }
    }
    AddRowsAppends(claimed, input, input.channels, i);
  }

  lemma {:induction false} AddRowsAppends(db: NotifDb, input: Input, channels: seq<string>, i: nat)
    requires i < |channels| && !Notified(db, input.event.eventId, channels[i])
    ensures var next := AddRows(db, input, channels);
            && next.inbox == db.inbox && db.notifications <= next.notifications
            && RowFor(input, channels[i]) in next.notifications[|db.notifications|..]
    decreases |channels|
  {
    var row := RowFor(input, channels[0]);
    var one := AddRow(db, row);
    var next := AddRows(db, input, channels);
    AddRowsExtends(one, input, channels[1..]);
    if channels[i] == channels[0] {
      assert one.notifications == db.notifications + [row];
      assert next.notifications[|db.notifications|] == row;
    } else {
      AddRowSays(db, row, input.event.eventId, channels[i]);
      AddRowsAppends(one, input, channels[1..], i - 1);
      var k :| |one.notifications| <= k < |next.notifications| && next.notifications[k] == RowFor(input, channels[i]);
      assert next.notifications[|db.notifications|..][k - |db.notifications|] == RowFor(input, channels[i]);
    }
  }

  lemma {:induction false} AddRowsExtends(db: NotifDb, input: Input, channels: seq<string>)
    ensures AddRows(db, input, channels).inbox == db.inbox
    ensures db.notifications <= AddRows(db, input, channels).notifications
    decreases |channels|
  {
    if channels != [] {
      AddRowsExtends(AddRow(db, RowFor(input, channels[0])), input, channels[1..]);
    }
  }

  /* ---------- runs ---------- */

  datatype Call = Call(input: Input, faults: nat -> Fault)

  function AfterAll(db: NotifDb, calls: seq<Call>): NotifDb
    decreases |calls|
  {
    if calls == [] then db
    else AfterAll(Root(WithinTx(WriteNotification(calls[0].input)), db, 0, 0, Apply, calls[0].faults).db, calls[1..])
  }

  ghost predicate Follows(calls: seq<Call>, channels: Channels)
  {
    forall i :: 0 <= i < |calls| ==> calls[i].input.channels == channels(calls[i].input.event.eventId)
  }

  lemma {:induction false} RunAgrees(db: NotifDb, calls: seq<Call>, channels: Channels)
    requires Agree(db, channels) && Follows(calls, channels)
    ensures Agree(AfterAll(db, calls), channels)
    decreases |calls|
  {
    if calls != [] {
      var c := calls[0];
      CreateAllOrNothing(db, c.input, 0, 0, c.faults);
      RecordedAgrees(db, c.input, channels);
      RunAgrees(Root(WithinTx(WriteNotification(c.input)), db, 0, 0, Apply, c.faults).db, calls[1..], channels);
    }
  }

  /** In every state a run can reach, an event id is in the inbox iff it has a notification on each of its channels. */
  lemma InboxIffNotified(calls: seq<Call>, channels: Channels, id: bytes)
    requires Follows(calls, channels) && channels(id) != []
    ensures var db := AfterAll(NotifDb([], []), calls);
            Claimed(db, id) <==> forall c :: c in channels(id) ==> Notified(db, id, c)
  {
    RunAgrees(NotifDb([], []), calls, channels);
    assert channels(id)[0] in channels(id);
  }
}
