/**
 The delivery protocol end to end, as a step system: orders and outbox, the partitioned log, any number of consumers of
 one group with their fetch positions, committed offsets, and the notification database.  A consumer's `process` call is
 broken into its handler calls, its commit and its rewind, so that a crash, a failed commit or another consumer's step
 can fall between any two of them.
 */
module Delivery {
  import opened Prelude
  import opened Consumer
  import opened ConsumerLoop
  import opened Progress
  import Postgres
  import OE = OrderEvent
  import OS = OrderService
  import OC = OrderConsistency
  import N = Notification
  import T = Transport
  import Uuid

  /* ---------- state ---------- */

  /** Where a consumer stands inside the loop of Run. */
  datatype Flight =
    | Idle                                                                    // about to poll
    | Busy(todo: Fetches, processed: seq<Record>, rewind: Offsets)            // inside EachPartition
    | Rewinding(rewind: Offsets)                                              // commit tried, SetOffsets next

  datatype Worker = Worker(position: map<TopicPartition, int>, flight: Flight)

  /** `handled` is the history of records whose handler returned nil. */
  datatype Cluster = Cluster(orders: OS.OrderDb, log: Log, committed: map<TopicPartition, int>,
                             workers: map<nat, Worker>, notif: N.NotifDb, handled: set<(TopicPartition, int)>)

  const START := Cluster(OC.EMPTY, map[], map[], map[], N.NotifDb([], []), {})

  function LogOf(log: Log, tp: TopicPartition): seq<Record>
  {
    if tp in log then log[tp] else []
  }

  /** The offset after the last record. */
  function End(records: seq<Record>): int
  {
    if records == [] then 0 else records[|records| - 1].offset + 1
  }

  const TOPICS := {T.ORDER_TOPIC}

  /** The topics the service registers a handler for, applied to a record. */
  function Action(r: Record): T.Action
  {
    T.ActionFor(TOPICS, MessageOf(r))
  }

  /* ---------- steps ---------- */

  datatype Step =
    | Create(call: OC.Call)                                            // a CreateOrder call
    | Publish(event: OS.OutboxRow, record: Record)                     // CDC, at least once
    | Foreign(record: Record)                                          // any other message
    | Assign(w: nat, tp: TopicPartition)                               // position := committed offset, or the start
    | Poll(w: nat, fetches: Fetches)
    | HandleNext(w: nat, faults: nat -> Postgres.Fault)
    | Commit(w: nat, landed: set<TopicPartition>)
    | SetOffsets(w: nat)
    | Crash(w: nat)
    | SeekBack(tp: TopicPartition, offset: int)                        // an operator moves the group back

  /* What deploy/debezium/order-outbox.json makes of an outbox row. */
  const TOPIC_SUFFIX := ".events.v1"
  const TYPE_HEADER := "event-type"

  /** A record that carries an outbox row: it is routed by the row's aggregate type, its event type header is the row's
      type, and its document reads as the payload. */
  ghost predicate Carries(r: Record, e: OS.OutboxRow)
  {
    && r.topic == e.aggregateType + TOPIC_SUFFIX && FirstHeader(r.headers, TYPE_HEADER) == Some(e.eventType)
    && OE.Decode(r.value) == OE.Decode(e.payload)
  }

  /** A poll returns, chunk by chunk, consecutive records from the fetch position, which moves past them. */
  ghost predicate Fetched(log: Log, position: map<TopicPartition, int>, fetches: Fetches)
    decreases |fetches|
  {
    fetches == [] ||
    var f := fetches[0];
    && f.source in position && Consecutive(f.records, LogOf(log, f.source), position[f.source])
    && Fetched(log, Advance(position, [f]), fetches[1..])
  }

  ghost predicate Appendable(log: Log, r: Record)
  {
    r.offset >= End(LogOf(log, r.Source()))
  }

  ghost predicate Enabled(s: Cluster, step: Step)
  {
    match step
    case Create(call) =>
      OC.TypedCall(call) && Uuid.CanonicalId(call.gen.orderId) && Uuid.CanonicalId(call.gen.eventId)
    case Publish(e, r) => e in s.orders.outbox && Carries(r, e) && Appendable(s.log, r)
    case Foreign(r) => !Action(r).Store? && Appendable(s.log, r)
    case Assign(w, tp) => w in s.workers ==> s.workers[w].flight.Idle?
    case Poll(w, fetches) => w in s.workers && s.workers[w].flight.Idle? &&
      Fetched(s.log, s.workers[w].position, fetches)
    case HandleNext(w, faults) => w in s.workers && s.workers[w].flight.Busy? && s.workers[w].flight.todo != []
    case Commit(w, landed) => w in s.workers && s.workers[w].flight.Busy? && s.workers[w].flight.todo == []
    case SetOffsets(w) => w in s.workers && s.workers[w].flight.Rewinding?
    case Crash(w) => true
    case SeekBack(tp, offset) => tp in s.committed && 0 <= offset <= s.committed[tp]
  }

  function Append(log: Log, r: Record): Log
  {
    log[r.Source() := LogOf(log, r.Source()) + [r]]
  }

  /** One handler call, or the passage to the next chunk: `ok` is the handler's answer. */
  function Handle(f: Flight, ok: bool): Flight
    requires f.Busy? && f.todo != []
  {
    var chunk := f.todo[0];
    if chunk.records == [] then f.(todo := f.todo[1..])
    else
      var r := chunk.records[0];
      if ok then Busy([chunk.(records := chunk.records[1..])] + f.todo[1..], f.processed + [r], f.rewind)
      else Busy(f.todo[1..], f.processed, f.rewind[r.Source() := EpochOffset(r.leaderEpoch, r.offset)])
  }

  ghost function Do(s: Cluster, step: Step): Cluster
    requires Enabled(s, step)
  {
    match step
    case Create(call) => s.(orders := OC.After(s.orders, call))
    case Publish(_, r) => s.(log := Append(s.log, r))
    case Foreign(r) => s.(log := Append(s.log, r))
    case Assign(w, tp) =>
      var position := if w in s.workers then s.workers[w].position else map[];
      var from := if tp in s.committed then s.committed[tp] else 0;
      s.(workers := s.workers[w := Worker(position[tp := from], Idle)])
    case Poll(w, fetches) =>
      var wk := s.workers[w];
      s.(workers := s.workers[w := Worker(Advance(wk.position, fetches),
                                          if FetchFailed(fetches) then Idle else Busy(fetches, [], map[]))])
    case HandleNext(w, faults) =>
      var wk := s.workers[w];
      var chunk := wk.flight.todo[0];
      if chunk.records == [] then s.(workers := s.workers[w := wk.(flight := Handle(wk.flight, true))])
      else
        var r := chunk.records[0];
        var out := T.Perform(Action(r), s.notif, 0, 0, faults);
        s.(workers := s.workers[w := wk.(flight := Handle(wk.flight, out.ok))],
           notif := out.db,
           handled := if out.ok then s.handled + {(r.Source(), r.offset)} else s.handled)
    case Commit(w, landed) =>
      var wk := s.workers[w];
      s.(committed := CommitInto(s.committed, wk.flight.processed, landed),
         workers := s.workers[w := wk.(flight := Rewinding(wk.flight.rewind))])
    case SetOffsets(w) =>
      var wk := s.workers[w];
      s.(workers := s.workers[w := Worker(Seek(wk.position, wk.flight.rewind), Idle)])
    case Crash(w) => s.(workers := s.workers[w := Worker(map[], Idle)])
    case SeekBack(tp, offset) => s.(committed := s.committed[tp := offset])
  }

  /** The hypotheses on polls: no two chunks with records of one partition, and no records beside a fetch error. */
  ghost predicate Tame(step: Step)
  {
    step.Poll? ==>
      && DistinctChunks(step.fetches)
      && (FetchFailed(step.fetches) ==> NoRecords(step.fetches))
  }

  ghost predicate Runs(s: Cluster, steps: seq<Step>)
    decreases |steps|
  {
    steps == [] || (Enabled(s, steps[0]) && Runs(Do(s, steps[0]), steps[1..]))
  }

  ghost function After(s: Cluster, steps: seq<Step>): Cluster
    requires Runs(s, steps)
    decreases |steps|
  {
    if steps == [] then s else After(Do(s, steps[0]), steps[1..])
  }

  ghost predicate AllTame(steps: seq<Step>)
  {
    forall i :: 0 <= i < |steps| ==> Tame(steps[i])
  }

  ghost predicate Leads(s: Cluster, steps: seq<Step>, end: Cluster)
  {
    Runs(s, steps) && After(s, steps) == end
  }

  lemma Precede(s: Cluster, step: Step, steps: seq<Step>, end: Cluster)
    requires Enabled(s, step) && Leads(Do(s, step), steps, end)
    ensures Leads(s, [step] + steps, end)
  {
    assert ([step] + steps)[1..] == steps;
  }

  lemma {:induction false} LeadsOn(s: Cluster, a: seq<Step>, b: seq<Step>, end: Cluster)
    requires Runs(s, a) && Leads(After(s, a), b, end)
    ensures Leads(s, a + b, end)
    decreases |a|
  {
    if a == [] {
      assert a + b == b;
    } else {
      assert (a + b)[0] == a[0] && (a + b)[1..] == a[1..] + b;
      LeadsOn(Do(s, a[0]), a[1..], b, end);
    }
  }

  /* ---------- the step system refines process ---------- */

  /** The consumer's own steps between a poll and its commit, when the k-th handler call answers `answers(k)`. */
  function Drain(f: Flight, answers: Answers, k: nat): Flight
    requires f.Busy?
    decreases |f.todo|, if f.todo == [] then 0 else |f.todo[0].records|
  {
    if f.todo == [] then f
    else Drain(Handle(f, answers(k)), answers, if f.todo[0].records == [] then k else k + 1)
  }

  /** The flight once the first chunk has stopped after `n` records. */
  function ChunkEnd(f: Flight, n: nat): Flight
    requires f.Busy? && f.todo != [] && n <= |f.todo[0].records|
  {
    var records := f.todo[0].records;
    Busy(f.todo[1..], f.processed + records[..n], Overwrite(f.rewind, records, n))
  }

  /** The first chunk of a flight is over, and the next handler call is number `l`. */
  predicate ChunkOver(f: Flight, answers: Answers, k: nat, end: Flight, l: nat)
    requires f.Busy? && f.todo != []
  {
    var len := |f.todo[0].records|;
    end == ChunkEnd(f, PrefixLength(len, answers, k)) && l == k + CallCount(len, answers, k)
  }

  lemma ChunkStops(f: Flight, answers: Answers, k: nat, end: Flight, l: nat)
    requires f.Busy? && f.todo != [] && ChunkOver(f, answers, k, end, l)
    requires f.todo[0].records == [] || !answers(k)
    ensures end == Handle(f, answers(k)) && l == if f.todo[0].records == [] then k else k + 1
  {
    assert f.processed + f.todo[0].records[..0] == f.processed;
  }

  lemma ChunkGoesOn(f: Flight, answers: Answers, k: nat, end: Flight, l: nat)
    requires f.Busy? && f.todo != [] && ChunkOver(f, answers, k, end, l)
    requires f.todo[0].records != [] && answers(k)
    ensures var next := Handle(f, true);
            && next.todo != [] && next.todo[0].records == f.todo[0].records[1..]
            && ChunkOver(next, answers, k + 1, end, l)
  {
    var records, next := f.todo[0].records, Handle(f, true);
    var n := PrefixLength(|records| - 1, answers, k + 1);
    assert next.todo[1..] == f.todo[1..];
    assert f.processed + [records[0]] + records[1..][..n] == f.processed + records[..n + 1];
  }

  lemma DrainStep(f: Flight, answers: Answers, k: nat, next: Flight, l: nat)
    requires f.Busy? && f.todo != [] && next == Handle(f, answers(k))
    requires l == if f.todo[0].records == [] then k else k + 1
    ensures Drain(f, answers, k) == Drain(next, answers, l)
  {
  }

  /** The consumer's steps finish the first chunk. */
  lemma {:induction false} DrainChunk(f: Flight, answers: Answers, k: nat, end: Flight, l: nat)
    requires f.Busy? && f.todo != [] && ChunkOver(f, answers, k, end, l)
    ensures Drain(f, answers, k) == Drain(end, answers, l)
    decreases |f.todo[0].records|
  {
    if f.todo[0].records == [] || !answers(k) {
      ChunkStops(f, answers, k, end, l);
      DrainStep(f, answers, k, end, l);
    } else {
      var next := Handle(f, true);
      ChunkGoesOn(f, answers, k, end, l);
      DrainStep(f, answers, k, next, k + 1);
      DrainChunk(next, answers, k + 1, end, l);
    }
  }

  /** A flight followed by an outcome of the remaining chunks. */
  function Ended(f: Flight, o: Outcome): Flight
    requires f.Busy?
  {
    Busy([], f.processed + o.processed, f.rewind + o.rewind)
  }

  lemma EndedAfterChunk(f: Flight, n: nat, c: nat, rest: Outcome)
    requires f.Busy? && f.todo != [] && n <= |f.todo[0].records| && c <= |f.todo[0].records|
    ensures Ended(ChunkEnd(f, n), rest) == Ended(f, Prepend(f.todo[0].records, n, c, rest))
  {
    var records := f.todo[0].records;
    assert f.processed + records[..n] + rest.processed == f.processed + (records[..n] + rest.processed);
    MergeRewind(f.rewind, records, n, rest.rewind);
  }

  /** Nothing is lost between chunks: what the rest of the flight will do completes the same outcome. */
  lemma FirstChunkEnds(f: Flight, answers: Answers, k: nat, next: Flight, l: nat)
    requires f.Busy? && f.todo != [] && ChunkOver(f, answers, k, next, l)
    ensures next.Busy? && |next.todo| < |f.todo|
    ensures Ended(next, Process(next.todo, answers, l)) == Ended(f, Process(f.todo, answers, k))
  {
    var len := |f.todo[0].records|;
    ProcessFirst(f.todo, answers, k);
    EndedAfterChunk(f, PrefixLength(len, answers, k), CallCount(len, answers, k), Rest(f.todo, answers, k));
  }

  lemma NothingLeft(f: Flight, answers: Answers, k: nat)
    requires f.Busy? && f.todo == []
    ensures Drain(f, answers, k) == f == Ended(f, Process(f.todo, answers, k))
  {
    assert f.processed + [] == f.processed && f.rewind + map[] == f.rewind;
  }

  lemma {:induction false} DrainEnds(f: Flight, answers: Answers, k: nat, end: Flight)
    requires f.Busy? && end == Ended(f, Process(f.todo, answers, k))
    ensures Drain(f, answers, k) == end
    decreases |f.todo|
  {
    if f.todo == [] {
      NothingLeft(f, answers, k);
    } else {
      var len := |f.todo[0].records|;
      var next, l := ChunkEnd(f, PrefixLength(len, answers, k)), k + CallCount(len, answers, k);
      FirstChunkEnds(f, answers, k, next, l);
      DrainChunk(f, answers, k, next, l);
      DrainEnds(next, answers, l, end);
    }
  }

  /** Between a poll and its commit the step system handles, commits and rewinds exactly what `process` does. */
  lemma DrainIsProcess(f: Flight, answers: Answers, k: nat)
    requires f.Busy?
    ensures Drain(f, answers, k) == Ended(f, Process(f.todo, answers, k))
  {
    DrainEnds(f, answers, k, Ended(f, Process(f.todo, answers, k)));
  }
}
