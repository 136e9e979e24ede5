/**
 The loop inside the system: every turn the consumer of platform/kafka/kafkaconsumer/kafkaconsumer.go can play is a run
 of steps of the delivery protocol with the same fetch positions, committed offsets and handled records.
 */
module LoopSteps {
  import Prelude
  import opened Consumer
  import opened ConsumerLoop
  import opened Progress
  import opened PartitionProgress
  import opened Delivery
  import Postgres
  import N = Notification
  import T = Transport

  /* ---------- answers ---------- */

  /** The answers the service's handler can give for a record: it acknowledges what it ignores and never accepts what it
      refuses; storing a record may succeed or fail. */
  ghost predicate CanAnswer(r: Record, ok: bool)
  {
    match Action(r)
    case Ignore => ok
    case Refuse => !ok
    case Store(_) => true
  }

  /** The first of `called` is call number `k`. */
  ghost predicate Answerable(called: seq<Record>, answers: Answers, k: nat)
  {
    forall i :: 0 <= i < |called| ==> CanAnswer(called[i], answers(k + i))
  }

  lemma AnswerableParts(a: seq<Record>, b: seq<Record>, answers: Answers, k: nat, l: nat)
    requires Answerable(a + b, answers, k) && l == k + |a|
    ensures Answerable(a, answers, k) && Answerable(b, answers, l)
  {
    forall i | 0 <= i < |a| ensures CanAnswer(a[i], answers(k + i)) {
      assert (a + b)[i] == a[i];
    }
    forall i | 0 <= i < |b| ensures CanAnswer(b[i], answers(l + i)) {
      assert (a + b)[|a| + i] == b[i];
    }
  }

  /** What the database does so that the handler gives an answer. */
  function FaultsFor(ok: bool): nat -> Postgres.Fault
  {
    if ok then Postgres.NO_FAULTS else Postgres.ALL_BROKEN
  }

  lemma AnswerIsGiven(r: Record, ok: bool, notif: N.NotifDb)
    requires CanAnswer(r, ok)
    ensures T.Perform(Action(r), notif, 0, 0, FaultsFor(ok)).ok == ok
  {
    if Action(r).Store? {
      N.UnfaultedCreates(notif, Action(r).input);
    }
  }

  /* ---------- one handler call ---------- */

  function Keys(records: seq<Record>): set<(TopicPartition, int)>
  {
    set r | r in records :: (r.Source(), r.offset)
  }

  lemma KeysConcat(a: seq<Record>, b: seq<Record>)
    ensures Keys(a + b) == Keys(a) + Keys(b)
  {
  }

  /** Apart from the notification database, only consumer `w` and the committed offsets have changed, and `handled` has
      been handled. */
  ghost predicate Moves(s: Cluster, end: Cluster, w: nat, wk: Worker, committed: map<TopicPartition, int>,
                        handled: seq<Record>)
  {
    && end.orders == s.orders && end.log == s.log && end.committed == committed
    && end.workers == s.workers[w := wk] && end.handled == s.handled + Keys(handled)
  }

  lemma MovesOn(s: Cluster, mid: Cluster, end: Cluster, w: nat, a: Worker, b: Worker,
                c: map<TopicPartition, int>, d: map<TopicPartition, int>, first: seq<Record>, rest: seq<Record>)
    requires Moves(s, mid, w, a, c, first) && Moves(mid, end, w, b, d, rest)
    ensures Moves(s, end, w, b, d, first + rest)
  {
    KeysConcat(first, rest);
  }

  /** The record the next step of a flight calls the handler for, if any. */
  function NextCalled(f: Flight): seq<Record>
    requires f.Busy? && f.todo != []
  {
    if f.todo[0].records == [] then [] else [f.todo[0].records[0]]
  }

  lemma HandlerStep(s: Cluster, w: nat, f: Flight, ok: bool)
    requires w in s.workers && s.workers[w].flight == f && f.Busy? && f.todo != []
    requires f.todo[0].records != [] ==> CanAnswer(f.todo[0].records[0], ok)
    ensures var step := HandleNext(w, FaultsFor(ok));
            && Enabled(s, step)
            && Moves(s, Do(s, step), w, s.workers[w].(flight := Handle(f, ok)), s.committed,
                     if ok then NextCalled(f) else [])
  {
    if f.todo[0].records != [] {
      AnswerIsGiven(f.todo[0].records[0], ok, s.notif);
    }
  }

  lemma NextCall(len: nat, answers: Answers, k: nat)
    ensures len == 0 ==> PrefixLength(len, answers, k) == CallCount(len, answers, k) == 0
    ensures len > 0 && !answers(k) ==> PrefixLength(len, answers, k) == 0 && CallCount(len, answers, k) == 1
    ensures len > 0 && answers(k) ==>
              && PrefixLength(len, answers, k) == 1 + PrefixLength(len - 1, answers, k + 1)
              && CallCount(len, answers, k) == 1 + CallCount(len - 1, answers, k + 1)
  {
  }

  /** `o` calls for `called` and handles `handled` before what `rest` does. */
  ghost predicate Before(called: seq<Record>, handled: seq<Record>, rest: Outcome, o: Outcome)
  {
    o.called == called + rest.called && o.processed == handled + rest.processed
  }

  /** The first chunk's share of an outcome: `n` records handled in `c` calls, so that call `l` is the next. */
  lemma FirstShare(fetches: Fetches, answers: Answers, k: nat, n: nat, c: nat, l: nat)
    requires fetches != [] && l == k + c
    requires n == PrefixLength(|fetches[0].records|, answers, k) && c == CallCount(|fetches[0].records|, answers, k)
    ensures Before(fetches[0].records[..c], fetches[0].records[..n], Process(fetches[1..], answers, l),
                   Process(fetches, answers, k))
  {
    ProcessFirst(fetches, answers, k);
  }

  /** Leaving a chunk: at most the failing call, then the rest of the poll. */
  lemma ChunkLeft(fetches: Fetches, answers: Answers, k: nat, l: nat)
    requires fetches != [] && (fetches[0].records == [] || !answers(k))
    requires l == if fetches[0].records == [] then k else k + 1
    ensures Before(if fetches[0].records == [] then [] else [fetches[0].records[0]], [],
                   Process(fetches[1..], answers, l), Process(fetches, answers, k))
  {
    NextCall(|fetches[0].records|, answers, k);
    FirstShare(fetches, answers, k, 0, l - k, l);
    assert fetches[0].records[..l - k] == if fetches[0].records == [] then [] else [fetches[0].records[0]];
    assert fetches[0].records[..0] == [];
  }

  lemma OneMore(records: seq<Record>, part: seq<Record>, n: nat, c: nat, rest: Outcome, later: Outcome, o: Outcome)
    requires records != [] && part == records[1..] && n <= |part| && c <= |part|
    requires Before(records[..c + 1], records[..n + 1], rest, o) && Before(part[..c], part[..n], rest, later)
    ensures Before([records[0]], [records[0]], later, o)
  {
    assert records[..n + 1] == [records[0]] + part[..n];
    assert records[..c + 1] == [records[0]] + part[..c];
    Prelude.Regroup([records[0]], part[..n], rest.processed);
    Prelude.Regroup([records[0]], part[..c], rest.called);
  }

  lemma SameTail(a: Fetches, b: Fetches, answers: Answers, k: nat)
    requires a == b
    ensures Process(a, answers, k) == Process(b, answers, k)
  {
  }

  lemma GoneOnShare(fetches: Fetches, answers: Answers, k: nat, len: nat, n: nat, c: nat, l: nat)
    requires fetches != [] && |fetches[0].records| == len + 1 && answers(k) && l == k + 1 + c
    requires n == PrefixLength(len, answers, k + 1) && c == CallCount(len, answers, k + 1)
    ensures Before(fetches[0].records[..c + 1], fetches[0].records[..n + 1], Process(fetches[1..], answers, l),
                   Process(fetches, answers, k))
  {
    NextCall(len + 1, answers, k);
    FirstShare(fetches, answers, k, n + 1, c + 1, l);
  }

  lemma LaterShare(next: Fetches, answers: Answers, k: nat, len: nat, n: nat, c: nat, tail: Fetches, l: nat)
    requires next != [] && |next[0].records| == len && next[1..] == tail && l == k + c
    requires n == PrefixLength(len, answers, k) && c == CallCount(len, answers, k)
    ensures Before(next[0].records[..c], next[0].records[..n], Process(tail, answers, l), Process(next, answers, k))
  {
    FirstShare(next, answers, k, n, c, l);
    SameTail(next[1..], tail, answers, l);
  }

  /** A successful call, then the rest of its chunk and of the poll. */
  lemma ChunkContinued(fetches: Fetches, next: Fetches, answers: Answers, k: nat)
    requires fetches != [] && fetches[0].records != [] && answers(k)
    requires next != [] && next[0].records == fetches[0].records[1..] && next[1..] == fetches[1..]
    ensures Before([fetches[0].records[0]], [fetches[0].records[0]], Process(next, answers, k + 1),
                   Process(fetches, answers, k))
  {
    var len := |next[0].records|;
    var n, c := PrefixLength(len, answers, k + 1), CallCount(len, answers, k + 1);
    ContinuedBy(fetches, next, answers, k, len, n, c, k + 1 + c);
  }

  lemma ContinuedBy(fetches: Fetches, next: Fetches, answers: Answers, k: nat, len: nat, n: nat, c: nat, l: nat)
    requires fetches != [] && |fetches[0].records| == len + 1 && answers(k) && l == k + 1 + c
    requires next != [] && next[0].records == fetches[0].records[1..] && next[1..] == fetches[1..]
    requires n == PrefixLength(len, answers, k + 1) && c == CallCount(len, answers, k + 1)
    ensures Before([fetches[0].records[0]], [fetches[0].records[0]], Process(next, answers, k + 1),
                   Process(fetches, answers, k))
  {
    GoneOnShare(fetches, answers, k, len, n, c, l);
    LaterShare(next, answers, k + 1, len, n, c, fetches[1..], l);
    SharesAddUp(fetches, next, answers, k, n, c, fetches[1..], l);
  }

  lemma SharesAddUp(fetches: Fetches, next: Fetches, answers: Answers, k: nat, n: nat, c: nat, tail: Fetches, l: nat)
    requires fetches != [] && next != [] && fetches[0].records != [] && next[0].records == fetches[0].records[1..]
    requires n <= |next[0].records| && c <= |next[0].records|
    requires Before(fetches[0].records[..c + 1], fetches[0].records[..n + 1], Process(tail, answers, l),
                    Process(fetches, answers, k))
    requires Before(next[0].records[..c], next[0].records[..n], Process(tail, answers, l),
                    Process(next, answers, k + 1))
    ensures Before([fetches[0].records[0]], [fetches[0].records[0]], Process(next, answers, k + 1),
                   Process(fetches, answers, k))
  {
    OneMore(fetches[0].records, next[0].records, n, c, Process(tail, answers, l), Process(next, answers, k + 1),
            Process(fetches, answers, k));
  }

  /** One step of a flight and the rest of it. */
  lemma ProcessStep(f: Flight, answers: Answers, k: nat, next: Flight, l: nat)
    requires f.Busy? && f.todo != [] && next == Handle(f, answers(k)) && l == k + |NextCalled(f)|
    ensures Before(NextCalled(f), if answers(k) then NextCalled(f) else [], Process(next.todo, answers, l),
                   Process(f.todo, answers, k))
  {
    if f.todo[0].records == [] || !answers(k) {
      ChunkLeft(f.todo, answers, k, l);
    } else {
      ChunkContinued(f.todo, next.todo, answers, k);
    }
  }

  /* ---------- one turn ---------- */

  /** The handler steps between a poll and its commit exist and do what `process` does. */
  lemma DrainRuns(s: Cluster, w: nat, f: Flight, answers: Answers, k: nat) returns (steps: seq<Step>, end: Cluster)
    requires w in s.workers && s.workers[w].flight == f && f.Busy?
    requires Answerable(Process(f.todo, answers, k).called, answers, k)
    ensures AllTame(steps) && Leads(s, steps, end)
    ensures Moves(s, end, w, s.workers[w].(flight := Drain(f, answers, k)), s.committed,
                  Process(f.todo, answers, k).processed)
    decreases |f.todo|, if f.todo == [] then 0 else |f.todo[0].records|
  {
    if f.todo == [] {
      steps, end := [], s;
    } else {
      var ok, l := answers(k), k + |NextCalled(f)|;
      var step, next := HandleNext(w, FaultsFor(ok)), Handle(f, ok);
      var rest := Process(next.todo, answers, l);
      ProcessStep(f, answers, k, next, l);
      AnswerableParts(NextCalled(f), rest.called, answers, k, l);
      assert NextCalled(f) != [] ==> CanAnswer(NextCalled(f)[0], answers(k + 0));
      HandlerStep(s, w, f, ok);
      DrainStep(f, answers, k, next, l);
      var later;
      later, end := DrainRuns(Do(s, step), w, next, answers, l);
      StepThen(s, step, later, end, w, s.workers[w].(flight := next),
               s.workers[w].(flight := Drain(next, answers, l)), s.committed, s.committed,
               if ok then NextCalled(f) else [], rest.processed);
      steps := [step] + later;
    }
  }

  /** One step before a run. */
  lemma StepThen(s: Cluster, step: Step, later: seq<Step>, end: Cluster, w: nat, a: Worker, b: Worker,
                 c: map<TopicPartition, int>, d: map<TopicPartition, int>, first: seq<Record>, rest: seq<Record>)
    requires Enabled(s, step) && Tame(step) && AllTame(later) && Leads(Do(s, step), later, end)
    requires Moves(s, Do(s, step), w, a, c, first) && Moves(Do(s, step), end, w, b, d, rest)
    ensures AllTame([step] + later) && Leads(s, [step] + later, end) && Moves(s, end, w, b, d, first + rest)
  {
    Precede(s, step, later, end);
    MovesOn(s, Do(s, step), end, w, a, b, c, d, first, rest);
  }

  /** A poll the client may return is one the system may return. */
  lemma {:induction false} PolledIsFetched(log: Log, position: map<TopicPartition, int>, fetches: Fetches)
    requires PollOk(log, position, fetches)
    ensures Fetched(log, position, fetches)
    decreases |fetches|
  {
    if fetches != [] {
      var f := fetches[0];
      var next := Advance(position, [f]);
      AdvanceKeys(position, [f]);
      forall i | 0 <= i < |fetches[1..]|
        ensures Consecutive(fetches[1..][i].records, log[fetches[1..][i].source], next[fetches[1..][i].source])
      {
        assert fetches[1..][i] == fetches[i + 1];
        if fetches[i + 1].records != [] {
          AdvanceElsewhere(position, [f], fetches[i + 1].source);
        }
      }
      PolledIsFetched(log, next, fetches[1..]);
    }
  }

  /** The consumer of the system stands where the loop stands. */
  ghost predicate Stands(s: Cluster, w: nat, st: LoopState)
  {
    w in s.workers && s.workers[w] == Worker(st.position, Idle) && s.committed == st.committed
  }

  /** Commit and rewind after the last handler call. */
  lemma TurnEnds(s: Cluster, w: nat, wk: Worker, landed: set<TopicPartition>) returns (end: Cluster)
    requires w in s.workers && s.workers[w] == wk && wk.flight.Busy? && wk.flight.todo == []
    ensures Leads(s, [Commit(w, landed)] + ([SetOffsets(w)] + []), end)
    ensures Moves(s, end, w, Worker(Seek(wk.position, wk.flight.rewind), Idle),
                  CommitInto(s.committed, wk.flight.processed, landed), [])
  {
    var mid := Do(s, Commit(w, landed));
    end := Do(mid, SetOffsets(w));
    assert Leads(end, [], end);
    Precede(mid, SetOffsets(w), [], end);
    Precede(s, Commit(w, landed), [SetOffsets(w)] + [], end);
  }

  lemma FailedTurnIsSteps(s: Cluster, w: nat, st: LoopState, t: Turn, answers: Answers)
    returns (steps: seq<Step>, end: Cluster)
    requires Stands(s, w, st) && LiveTurn(s.log, st, t, answers) && FetchFailed(t.fetches)
    ensures AllTame(steps) && Leads(s, steps, end)
    ensures var next := Play(st, t, answers); Moves(s, end, w, Worker(next.position, Idle), next.committed, [])
  {
    PolledIsFetched(s.log, st.position, t.fetches);
    end := Do(s, Poll(w, t.fetches));
    assert Leads(end, [], end);
    Precede(s, Poll(w, t.fetches), [], end);
    steps := [Poll(w, t.fetches)] + [];
  }

  /** A poll, its handler steps, the commit and the rewind. */
  lemma ProcessIsSteps(s: Cluster, w: nat, position: map<TopicPartition, int>, fetches: Fetches,
                       landed: set<TopicPartition>, answers: Answers, k: nat)
    returns (steps: seq<Step>, end: Cluster)
    requires w in s.workers && s.workers[w] == Worker(position, Idle)
    requires Fetched(s.log, position, fetches) && Tame(Poll(w, fetches)) && !FetchFailed(fetches)
    requires Answerable(Process(fetches, answers, k).called, answers, k)
    ensures AllTame(steps) && Leads(s, steps, end)
    ensures var o := Process(fetches, answers, k);
            Moves(s, end, w, Worker(Seek(Advance(position, fetches), o.rewind), Idle),
                  CommitInto(s.committed, o.processed, landed), o.processed)
  {
    var o, next := Process(fetches, answers, k), Advance(position, fetches);
    var start := Worker(next, Busy(fetches, [], map[]));
    var later;
    later, end := PolledRuns(Do(s, Poll(w, fetches)), w, start, landed, answers, k);
    StepThen(s, Poll(w, fetches), later, end, w, start, Worker(Seek(next, o.rewind), Idle), s.committed,
             CommitInto(s.committed, o.processed, landed), [], o.processed);
    assert [] + o.processed == o.processed;
    steps := [Poll(w, fetches)] + later;
  }

  /** From the poll to the end of the turn. */
  lemma PolledRuns(s: Cluster, w: nat, wk: Worker, landed: set<TopicPartition>, answers: Answers, k: nat)
    returns (steps: seq<Step>, end: Cluster)
    requires w in s.workers && s.workers[w] == wk && wk.flight.Busy?
    requires wk.flight.processed == [] && wk.flight.rewind == map[]
    requires Answerable(Process(wk.flight.todo, answers, k).called, answers, k)
    ensures AllTame(steps) && Leads(s, steps, end)
    ensures var o := Process(wk.flight.todo, answers, k);
            Moves(s, end, w, Worker(Seek(wk.position, o.rewind), Idle), CommitInto(s.committed, o.processed, landed),
                  o.processed)
  {
    var o := Process(wk.flight.todo, answers, k);
    var done := wk.(flight := Busy([], o.processed, o.rewind));
    var calls, drained := PollIsDrained(s, w, wk, answers, k);
    end := TurnEnds(drained, w, done, landed);
    var closing := [Commit(w, landed)] + ([SetOffsets(w)] + []);
    LeadsOn(s, calls, closing, end);
    steps := calls + closing;
    MovesOn(s, drained, end, w, done, Worker(Seek(wk.position, o.rewind), Idle), s.committed,
            CommitInto(s.committed, o.processed, landed), o.processed, []);
    assert o.processed + [] == o.processed;
  }

  lemma PollIsDrained(s: Cluster, w: nat, wk: Worker, answers: Answers, k: nat)
    returns (steps: seq<Step>, end: Cluster)
    requires w in s.workers && s.workers[w] == wk && wk.flight.Busy?
    requires wk.flight.processed == [] && wk.flight.rewind == map[]
    requires Answerable(Process(wk.flight.todo, answers, k).called, answers, k)
    ensures AllTame(steps) && Leads(s, steps, end)
    ensures var o := Process(wk.flight.todo, answers, k);
            Moves(s, end, w, wk.(flight := Busy([], o.processed, o.rewind)), s.committed, o.processed)
  {
    var o := Process(wk.flight.todo, answers, k);
    steps, end := DrainRuns(s, w, wk.flight, answers, k);
    DrainIsProcess(wk.flight, answers, k);
    assert [] + o.processed == o.processed && map[] + o.rewind == o.rewind;
  }

  /** Every turn of the loop is a run of steps that ends with the same positions, committed offsets and handled
      records. */
  lemma TurnIsSteps(s: Cluster, w: nat, st: LoopState, t: Turn, answers: Answers)
    returns (steps: seq<Step>, end: Cluster)
    requires Stands(s, w, st) && LiveTurn(s.log, st, t, answers)
    requires Answerable(CalledInTurn(st, t, answers), answers, |st.called|)
    ensures AllTame(steps) && Leads(s, steps, end)
    ensures var next := Play(st, t, answers);
            Moves(s, end, w, Worker(next.position, Idle), next.committed, HandledInTurn(st, t, answers))
  {
    if FetchFailed(t.fetches) {
      steps, end := FailedTurnIsSteps(s, w, st, t, answers);
    } else {
      PolledIsFetched(s.log, st.position, t.fetches);
      steps, end := ProcessIsSteps(s, w, st.position, t.fetches, t.landed, answers, |st.called|);
    }
  }

  /* ---------- a run ---------- */

  /** Every run of the loop, with any answers the handler can give, any commits that land and any record-less fetch
      errors, is a run of the system that ends with the same positions, committed offsets and handled records. */
  lemma RunIsSteps(s: Cluster, w: nat, st: LoopState, script: seq<Turn>, answers: Answers)
    returns (steps: seq<Step>, end: Cluster)
    requires Stands(s, w, st) && LiveScript(s.log, st, script, answers)
    requires Answerable(CalledBy(st, script, answers), answers, |st.called|)
    ensures AllTame(steps) && Leads(s, steps, end)
    ensures var last := RunAll(st, script, answers);
            Moves(s, end, w, Worker(last.position, Idle), last.committed, HandledBy(st, script, answers))
    decreases |script|
  {
    if script == [] {
      steps, end := [], s;
    } else {
      var t, next, tail := script[0], Play(st, script[0], answers), script[1..];
      AnswerableParts(CalledInTurn(st, t, answers), CalledBy(next, tail, answers), answers, |st.called|,
                      |next.called|);
      var first, mid := TurnIsSteps(s, w, st, t, answers);
      var rest;
      rest, end := RunIsSteps(mid, w, next, tail, answers);
      LeadsOn(s, first, rest, end);
      RunOneTurn(s.log, st, script, answers);
      var last := RunAll(next, tail, answers);
      MovesOn(s, mid, end, w, Worker(next.position, Idle), Worker(last.position, Idle), next.committed, last.committed,
              HandledInTurn(st, t, answers), HandledBy(next, tail, answers));
      steps := first + rest;
    }
  }
}
