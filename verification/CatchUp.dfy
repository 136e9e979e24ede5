/**
 Catching up: what the delivery protocol can still do from any reachable state.  A record can still be handled exactly
 when the handler refuses no record of its partition up to it, and a consumer whose polls keep serving a partition
 handles all of it.
 */
module CatchUp {
  import opened Consumer
  import opened ConsumerLoop
  import opened Progress
  import opened PartitionProgress
  import opened Delivery
  import opened LoopSteps
  import EO = ExactlyOnce
  import NL = NoLoss
  import OS = OrderService

  ghost predicate Reachable(s: Cluster, steps: seq<Step>)
  {
    Runs(START, steps) && AllTame(steps) && After(START, steps) == s
  }

  lemma ReachOn(before: seq<Step>, s: Cluster, more: seq<Step>, end: Cluster)
    requires Reachable(s, before) && AllTame(more) && Leads(s, more, end)
    ensures Reachable(end, before + more)
  {
    LeadsOn(START, before, more, end);
  }

  lemma ReachableInv(before: seq<Step>, s: Cluster)
    requires Reachable(s, before)
    ensures NL.Inv(s) && EO.Effects(s)
  {
    NL.RunKeepsInv(START, before);
    EO.RunKeepsEffects(START, before);
  }

  /** The first `n` records of a partition have been handled. */
  ghost predicate HandledUpTo(s: Cluster, tp: TopicPartition, n: nat)
  {
    forall i :: 0 <= i < |LogOf(s.log, tp)| && i < n ==> (tp, LogOf(s.log, tp)[i].offset) in s.handled
  }

  /* ---------- a consumer that keeps polling ---------- */

  /** Everything before an idle consumer's position has been handled. */
  lemma HandledBeforePosition(s: Cluster, w: nat, tp: TopicPartition)
    requires NL.Inv(s) && w in s.workers && s.workers[w].flight.Idle? && tp in s.workers[w].position
    ensures HandledUpTo(s, tp, Below(LogOf(s.log, tp), s.workers[w].position[tp]))
  {
    var own, position := LogOf(s.log, tp), s.workers[w].position;
    assert NL.WorkerOk(s.log, s.handled, s.workers[w]);
    NL.IdleIsSafe(s.log, s.handled, position, tp);
    NL.BelowSplits(own, position[tp]);
  }

  lemma HandledSoFar(before: seq<Step>, s: Cluster, w: nat, tp: TopicPartition)
    requires Reachable(s, before) && w in s.workers && s.workers[w].flight.Idle? && tp in s.workers[w].position
    ensures NL.LogOk(s.log) && HandledUpTo(s, tp, Below(LogOf(s.log, tp), s.workers[w].position[tp]))
  {
    ReachableInv(before, s);
    HandledBeforePosition(s, w, tp);
  }

  lemma HandledMore(s: Cluster, end: Cluster, w: nat, wk: Worker, committed: map<TopicPartition, int>,
                    handled: seq<Record>, tp: TopicPartition, from: nat, to: nat)
    requires HandledUpTo(s, tp, from) && Moves(s, end, w, wk, committed, handled)
    requires from <= to <= |LogOf(s.log, tp)| && Belongs(LogOf(s.log, tp), tp)
    requires Of(handled, tp) == LogOf(s.log, tp)[from..to]
    ensures HandledUpTo(end, tp, to)
  {
    var own := LogOf(s.log, tp);
    forall i | 0 <= i < to ensures (tp, own[i].offset) in end.handled {
      if i >= from {
        assert Of(handled, tp)[i - from] == own[i];
        OfMember(handled, own[i]);
        assert own[i] in own;
      }
    }
  }

  lemma LogBelongs(log: Log, tp: TopicPartition)
    requires NL.LogOk(log)
    ensures Belongs(LogOf(log, tp), tp) && Increasing(LogOf(log, tp))
  {
  }

  /** From any reachable state: once the turns that serve a partition outnumber its remaining records and the failing
      calls on them, every record of the partition has been handled, whatever happened before, whatever the other
      partitions' calls and the commits do, and through any record-less fetch errors. */
  lemma PartitionCatchesUp(before: seq<Step>, s: Cluster, w: nat, st: LoopState, script: seq<Turn>, answers: Answers,
                           tp: TopicPartition)
    returns (more: seq<Step>, end: Cluster)
    requires Reachable(s, before) && Stands(s, w, st) && LiveScript(s.log, st, script, answers)
    requires Answerable(CalledBy(st, script, answers), answers, |st.called|)
    requires tp in s.log && tp in st.position
    requires ServingTurns(script, tp) >=
             |s.log[tp]| - Below(s.log[tp], st.position[tp]) + FailuresOn(st, script, answers, tp)
    ensures Reachable(end, before + more) && end.log == s.log && HandledUpTo(end, tp, |s.log[tp]|)
  {
    HandledSoFar(before, s, w, tp);
    more, end := RunIsSteps(s, w, st, script, answers);
    ReachOn(before, s, more, end);
    ScriptHandles(s, w, st, script, answers, tp, end);
  }

  lemma ScriptHandles(s: Cluster, w: nat, st: LoopState, script: seq<Turn>, answers: Answers, tp: TopicPartition,
                      end: Cluster)
    requires NL.LogOk(s.log) && LiveScript(s.log, st, script, answers)
    requires tp in s.log && tp in st.position && HandledUpTo(s, tp, Below(s.log[tp], st.position[tp]))
    requires ServingTurns(script, tp) >=
             |s.log[tp]| - Below(s.log[tp], st.position[tp]) + FailuresOn(st, script, answers, tp)
    requires var last := RunAll(st, script, answers);
             Moves(s, end, w, Worker(last.position, Idle), last.committed, HandledBy(st, script, answers))
    ensures HandledUpTo(end, tp, |s.log[tp]|)
  {
    var last, own, from := RunAll(st, script, answers), s.log[tp], Below(s.log[tp], st.position[tp]);
    PartitionReachesEnd(s.log, st, script, answers, tp);
    assert own[from..|own|] == own[from..];
    LogBelongs(s.log, tp);
    HandledMore(s, end, w, Worker(last.position, Idle), last.committed, HandledBy(st, script, answers), tp, from,
                |own|);
  }

  /* ---------- a single record ---------- */

  /** The records of a partition's log in order, from index `from` up to but not including `to`, in one turn. */
  function Sweep(own: seq<Record>, tp: TopicPartition, from: nat, to: nat): Turn
    requires from <= to <= |own|
  {
    Turn([FetchPartition(tp, own[from..to], false)], false, {tp}, false, false)
  }

  const ALWAYS: Answers := _ => true

  lemma SweepHandles(records: seq<Record>, tp: TopicPartition, k: nat)
    ensures Process([FetchPartition(tp, records, false)], ALWAYS, k) == Outcome(records, records, map[])
  {
    var fetches := [FetchPartition(tp, records, false)];
    PrefixLengthIs(|records|, ALWAYS, k, |records|);
    ProcessFirst(fetches, ALWAYS, k);
    assert records[..|records|] + [] == records;
  }

  lemma SweepIsLive(log: Log, st: LoopState, tp: TopicPartition, to: nat)
    requires tp in log && tp in st.position && Below(log[tp], st.position[tp]) <= to <= |log[tp]|
    ensures LiveTurn(log, st, Sweep(log[tp], tp, Below(log[tp], st.position[tp]), to), ALWAYS)
  {
  }

  /** No record up to and including index `i` is one the handler refuses. */
  ghost predicate NoneRefused(own: seq<Record>, i: nat)
  {
    forall j :: 0 <= j < |own| && j <= i ==> !Action(own[j]).Refuse?
  }

  /** The position a consumer gets when the partition is assigned to it. */
  function Restart(s: Cluster, tp: TopicPartition): int
  {
    if tp in s.committed then s.committed[tp] else 0
  }

  /** A consumer restarts and is assigned the partition. */
  lemma Restarts(before: seq<Step>, s: Cluster, tp: TopicPartition) returns (more: seq<Step>, end: Cluster)
    requires Reachable(s, before)
    ensures Reachable(end, before + more) && end.log == s.log && end.orders == s.orders
    ensures end.committed == s.committed
    ensures 0 in end.workers && end.workers[0] == Worker(map[tp := Restart(s, tp)], Idle)
  {
    var mid := Do(s, Crash(0));
    end := Do(mid, Assign(0, tp));
    assert Leads(end, [], end);
    Precede(mid, Assign(0, tp), [], end);
    Precede(s, Crash(0), [Assign(0, tp)] + [], end);
    more := [Crash(0)] + ([Assign(0, tp)] + []);
    ReachOn(before, s, more, end);
  }

  /** One turn with healthy databases handles the records up to index `i`, if none of them is refused. */
  lemma Sweeps(before: seq<Step>, s: Cluster, tp: TopicPartition, i: nat) returns (more: seq<Step>, end: Cluster)
    requires Reachable(s, before) && tp in s.log && i < |s.log[tp]| && NoneRefused(s.log[tp], i)
    requires 0 in s.workers && s.workers[0].flight.Idle? && tp in s.workers[0].position
    ensures Reachable(end, before + more) && end.log == s.log && end.orders == s.orders && HandledUpTo(end, tp, i + 1)
  {
    var from := Below(s.log[tp], s.workers[0].position[tp]);
    HandledSoFar(before, s, 0, tp);
    if from > i {
      more, end := [], s;
      assert before + [] == before;
      HandledFewer(s, tp, from, i + 1);
    } else {
      var wk, committed;
      more, end, wk, committed := SweepRuns(s, tp, from, i);
      ReachOn(before, s, more, end);
      Swept(s, end, wk, committed, tp, from, i + 1);
    }
  }

  lemma HandledFewer(s: Cluster, tp: TopicPartition, n: nat, m: nat)
    requires HandledUpTo(s, tp, n) && m <= n
    ensures HandledUpTo(s, tp, m)
  {
  }

  lemma Swept(s: Cluster, end: Cluster, wk: Worker, committed: map<TopicPartition, int>, tp: TopicPartition, from: nat,
              to: nat)
    requires NL.LogOk(s.log) && from <= to <= |LogOf(s.log, tp)| && HandledUpTo(s, tp, from)
    requires Moves(s, end, 0, wk, committed, LogOf(s.log, tp)[from..to])
    ensures HandledUpTo(end, tp, to)
  {
    LogBelongs(s.log, tp);
    OfOwn(LogOf(s.log, tp)[from..to], tp);
    HandledMore(s, end, 0, wk, committed, LogOf(s.log, tp)[from..to], tp, from, to);
  }

  lemma SweepRuns(s: Cluster, tp: TopicPartition, from: nat, i: nat)
    returns (more: seq<Step>, end: Cluster, wk: Worker, committed: map<TopicPartition, int>)
    requires tp in s.log && from <= i < |s.log[tp]| && NoneRefused(s.log[tp], i)
    requires 0 in s.workers && s.workers[0].flight.Idle? && tp in s.workers[0].position
    requires from == Below(s.log[tp], s.workers[0].position[tp])
    ensures AllTame(more) && Leads(s, more, end) && Moves(s, end, 0, wk, committed, s.log[tp][from..i + 1])
  {
    var st, t := LoopState(s.workers[0].position, s.committed, [], 0), Sweep(s.log[tp], tp, from, i + 1);
    SweepIsLive(s.log, st, tp, i + 1);
    SweepHandles(s.log[tp][from..i + 1], tp, 0);
    more, end := TurnIsSteps(s, 0, st, t, ALWAYS);
    wk, committed := Worker(Play(st, t, ALWAYS).position, Idle), Play(st, t, ALWAYS).committed;
  }

  lemma CanBeHandled(before: seq<Step>, s: Cluster, tp: TopicPartition, i: nat)
    returns (more: seq<Step>, end: Cluster)
    requires Reachable(s, before) && i < |LogOf(s.log, tp)| && NoneRefused(LogOf(s.log, tp), i)
    ensures Reachable(end, before + more) && end.log == s.log && end.orders == s.orders && HandledUpTo(end, tp, i + 1)
  {
    var first, mid := Restarts(before, s, tp);
    var rest;
    rest, end := Sweeps(before + first, mid, tp, i);
    more := first + rest;
    assert before + first + rest == before + more;
  }

  /* ---------- the converse ---------- */

  lemma StepGrowsLog(s: Cluster, step: Step, tp: TopicPartition)
    requires Enabled(s, step)
    ensures LogOf(s.log, tp) <= LogOf(Do(s, step).log, tp)
  {
  }

  lemma {:induction false} RunGrowsLog(s: Cluster, steps: seq<Step>, tp: TopicPartition)
    requires Runs(s, steps)
    ensures LogOf(s.log, tp) <= LogOf(After(s, steps).log, tp)
    decreases |steps|
  {
    if steps != [] {
      StepGrowsLog(s, steps[0], tp);
      RunGrowsLog(Do(s, steps[0]), steps[1..], tp);
    }
  }

  lemma HandledMeansNoneRefused(before: seq<Step>, more: seq<Step>, s: Cluster, end: Cluster, tp: TopicPartition,
                                i: nat)
    requires Reachable(s, before) && Reachable(end, before + more) && i < |LogOf(s.log, tp)|
    requires Runs(s, more) && After(s, more) == end
    requires (tp, LogOf(s.log, tp)[i].offset) in end.handled
    ensures NoneRefused(LogOf(s.log, tp), i)
  {
    var own, now := LogOf(s.log, tp), LogOf(end.log, tp);
    RunGrowsLog(s, more, tp);
    ReachableInv(before + more, end);
    LogBelongs(end.log, tp);
    forall j | 0 <= j < |own| && j <= i ensures !Action(own[j]).Refuse? {
      assert own[j] == now[j] && own[i] == now[i];
      NL.EarlierIsHandled(end.log, end.handled, tp, j, i);
      assert now[j] in now && EO.InLog(end.log, now[j]);
    }
  }

  /** `more` continues a run so that the record at index `i` of a partition ends up handled. */
  ghost predicate Handles(s: Cluster, more: seq<Step>, tp: TopicPartition, i: nat)
    requires i < |LogOf(s.log, tp)|
  {
    Runs(s, more) && AllTame(more) && (tp, LogOf(s.log, tp)[i].offset) in After(s, more).handled
  }

  lemma {:induction false} RunsSplit(s: Cluster, a: seq<Step>, b: seq<Step>)
    requires Runs(s, a)
    ensures Runs(s, a + b) <==> Runs(After(s, a), b)
    ensures Runs(s, a + b) ==> After(s, a + b) == After(After(s, a), b)
    decreases |a|
  {
    if a == [] {
      assert a + b == b;
    } else {
      assert (a + b)[0] == a[0] && (a + b)[1..] == a[1..] + b;
      RunsSplit(Do(s, a[0]), a[1..], b);
    }
  }

  lemma Continues(before: seq<Step>, s: Cluster, more: seq<Step>, end: Cluster)
    requires Reachable(s, before) && Reachable(end, before + more)
    ensures AllTame(more) && Leads(s, more, end)
  {
    RunsSplit(START, before, more);
    assert forall k :: 0 <= k < |more| ==> (before + more)[|before| + k] == more[k];
  }

  /** From any reachable state a record of the log can still be handled if and only if the handler refuses no record of
      its partition up to it: nothing else can block it for good. */
  lemma CanBeHandledIff(before: seq<Step>, s: Cluster, tp: TopicPartition, i: nat)
    requires Reachable(s, before) && i < |LogOf(s.log, tp)|
    ensures (exists more :: Handles(s, more, tp, i)) <==> NoneRefused(LogOf(s.log, tp), i)
  {
    if NoneRefused(LogOf(s.log, tp), i) {
      var more, end := CanBeHandled(before, s, tp, i);
      Continues(before, s, more, end);
      assert Handles(s, more, tp, i);
    }
    if more :| Handles(s, more, tp, i) {
      ReachOn(before, s, more, After(s, more));
      HandledMeansNoneRefused(before, more, s, After(s, more), tp, i);
    }
  }

  /** Then its event can still be recorded exactly once. */
  lemma EventCanBeRecorded(before: seq<Step>, s: Cluster, tp: TopicPartition, i: nat, e: OS.OutboxRow)
    returns (more: seq<Step>, end: Cluster)
    requires Reachable(s, before) && i < |LogOf(s.log, tp)| && NoneRefused(LogOf(s.log, tp), i)
    requires e in s.orders.outbox && Carries(LogOf(s.log, tp)[i], e)
    ensures Reachable(end, before + more) && EO.RecordedOnce(end.notif, e)
  {
    more, end := CanBeHandled(before, s, tp, i);
    ReachableInv(before, s);
    LogBelongs(s.log, tp);
    var r := LogOf(s.log, tp)[i];
    assert r in LogOf(s.log, tp);
    EO.HandledIsRecordedOnce(before + more, r, e);
  }
}
