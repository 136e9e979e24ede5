/**
 Progress of one partition, whatever happens to the others: over any run of the loop of
 platform/kafka/kafkaconsumer/kafkaconsumer.go, only failing handler calls on the partition's own records can keep it
 from its log end.
 */
module PartitionProgress {
  import opened Prelude
  import opened Consumer
  import opened ConsumerLoop
  import opened Progress

  /* ---------- what a run does with a partition ---------- */

  /** The records a turn handles with a nil result. */
  function HandledInTurn(st: LoopState, t: Turn, answers: Answers): seq<Record>
  {
    if FetchFailed(t.fetches) then [] else Process(t.fetches, answers, |st.called|).processed
  }

  /** The records a run handles, in order. */
  function HandledBy(st: LoopState, script: seq<Turn>, answers: Answers): seq<Record>
    decreases |script|
  {
    if script == [] then []
    else HandledInTurn(st, script[0], answers) + HandledBy(Play(st, script[0], answers), script[1..], answers)
  }

  /** A processed turn whose poll holds records of the partition. */
  ghost predicate Serves(t: Turn, tp: TopicPartition)
  {
    && !FetchFailed(t.fetches)
    && exists i :: 0 <= i < |t.fetches| && t.fetches[i].source == tp && t.fetches[i].records != []
  }

  ghost function ServingTurns(script: seq<Turn>, tp: TopicPartition): nat
  {
    if script == [] then 0 else (if Serves(script[0], tp) then 1 else 0) + ServingTurns(script[1..], tp)
  }

  /** Failing handler calls on records of one partition, when the first of `called` is call number `k`. */
  function FailingCalls(called: seq<Record>, answers: Answers, k: nat, tp: TopicPartition): nat
    decreases |called|
  {
    if called == [] then 0
    else (if called[0].Source() == tp && !answers(k) then 1 else 0) + FailingCalls(called[1..], answers, k + 1, tp)
  }

  lemma {:induction false} FailingCallsConcat(a: seq<Record>, b: seq<Record>, answers: Answers, k: nat,
                                              tp: TopicPartition)
    ensures FailingCalls(a + b, answers, k, tp) ==
            FailingCalls(a, answers, k, tp) + FailingCalls(b, answers, k + |a|, tp)
    decreases |a|
  {
    if a == [] {
      assert a + b == b;
    } else {
      assert (a + b)[1..] == a[1..] + b;
      FailingCallsConcat(a[1..], b, answers, k + 1, tp);
    }
  }

  /** Every call on a record of the partition handled it or failed. */
  ghost predicate Accounted(called: seq<Record>, handled: seq<Record>, answers: Answers, k: nat, tp: TopicPartition)
  {
    |Of(called, tp)| == |Of(handled, tp)| + FailingCalls(called, answers, k, tp)
  }

  lemma {:induction false} CallsOfChunk(records: seq<Record>, answers: Answers, k: nat, tp: TopicPartition)
    ensures Accounted(records[..CallCount(|records|, answers, k)], records[..PrefixLength(|records|, answers, k)],
                      answers, k, tp)
  {
    var n, c := PrefixLength(|records|, answers, k), CallCount(|records|, answers, k);
    if records != [] && answers(k) {
      CallsOfChunk(records[1..], answers, k + 1, tp);
      assert records[..c][1..] == records[1..][..c - 1] && records[..n][1..] == records[1..][..n - 1];
    } else if records != [] {
      assert records[..c] == [records[0]];
    }
  }

  lemma {:induction false} CallsOfPartition(fetches: Fetches, answers: Answers, k: nat, tp: TopicPartition)
    ensures Accounted(Process(fetches, answers, k).called, Process(fetches, answers, k).processed, answers, k, tp)
    decreases |fetches|
  {
    if fetches != [] {
      var records := fetches[0].records;
      var n, c := PrefixLength(|records|, answers, k), CallCount(|records|, answers, k);
      var rest := Rest(fetches, answers, k);
      CallsOfChunk(records, answers, k, tp);
      CallsOfPartition(fetches[1..], answers, k + c, tp);
      CallsAddUp(records[..n], rest.processed, records[..c], rest.called, answers, k, k + c, tp);
      ProcessFirst(fetches, answers, k);
    }
  }

  /** Calls, handled records and failures of two stretches of calls. */
  lemma CallsAddUp(handled: seq<Record>, later: seq<Record>, called: seq<Record>, calledLater: seq<Record>,
                   answers: Answers, k: nat, l: nat, tp: TopicPartition)
    requires l == k + |called|
    requires Accounted(called, handled, answers, k, tp) && Accounted(calledLater, later, answers, l, tp)
    ensures Accounted(called + calledLater, handled + later, answers, k, tp)
  {
    OfConcat(called, calledLater, tp);
    OfConcat(handled, later, tp);
    FailingCallsConcat(called, calledLater, answers, k, tp);
  }

  /* ---------- one turn ---------- */

  /** `handled` are the partition's next records in the log, up to the new position. */
  ghost predicate HandlesNext(own: seq<Record>, from: int, to: int, handled: seq<Record>)
  {
    && Below(own, from) <= Below(own, to) && handled == own[Below(own, from)..Below(own, to)]
  }

  lemma PrefixIsNext(own: seq<Record>, position: int, next: int, records: seq<Record>, n: nat)
    requires Consecutive(records, own, position) && n <= |records|
    requires Below(own, next) == Below(own, position) + n
    ensures HandlesNext(own, position, next, records[..n])
  {
  }

  lemma ServedTurn(log: Log, st: LoopState, t: Turn, answers: Answers, i: nat)
    requires ValidLog(log) && PollOk(log, st.position, t.fetches) && !FetchFailed(t.fetches)
    requires i < |t.fetches| && t.fetches[i].records != []
    ensures var tp, next, o := t.fetches[i].source, Play(st, t, answers), Process(t.fetches, answers, |st.called|);
            && tp in next.position
            && HandlesNext(log[tp], st.position[tp], next.position[tp], Of(o.processed, tp))
            && |Of(o.called, tp)| >= 1
  {
    var f, k := t.fetches[i], |st.called|;
    var first := FirstCall(t.fetches, answers, k, i);
    var n := PrefixLength(|f.records|, answers, first);
    PollIsGrouped(log, st.position, t.fetches);
    TurnMovesPosition(log, st, t, answers, f.source);
    ProcessPartition(t.fetches, answers, k, i);
    PrefixIsNext(log[f.source], st.position[f.source], Play(st, t, answers).position[f.source], f.records, n);
  }

  lemma UnservedTurn(log: Log, st: LoopState, t: Turn, answers: Answers, tp: TopicPartition)
    requires ValidLog(log) && PollOk(log, st.position, t.fetches) && !FetchFailed(t.fetches)
    requires tp in log && tp in st.position && WithoutRecords(t.fetches, tp)
    ensures var next, o := Play(st, t, answers), Process(t.fetches, answers, |st.called|);
            tp in next.position && HandlesNext(log[tp], st.position[tp], next.position[tp], Of(o.processed, tp))
  {
    PollIsGrouped(log, st.position, t.fetches);
    TurnMovesPosition(log, st, t, answers, tp);
    ProcessTouchesOnlyPolled(t.fetches, answers, |st.called|, tp);
  }

  /** The calls of one turn. */
  function CalledInTurn(st: LoopState, t: Turn, answers: Answers): (called: seq<Record>)
    ensures Play(st, t, answers).called == st.called + called
  {
    if FetchFailed(t.fetches) then [] else Process(t.fetches, answers, |st.called|).called
  }

  /** What a turn did with a partition: its position moved over exactly the handled records, and every call on it
      either handled a record or failed. */
  ghost predicate PartitionTurn(own: seq<Record>, from: int, to: int, handled: seq<Record>, calls: nat, failing: nat)
  {
    HandlesNext(own, from, to, handled) && calls == |handled| + failing
  }

  /** One turn, and when the poll holds records of the partition there is a call on one of them. */
  lemma TurnOfPartition(log: Log, st: LoopState, t: Turn, answers: Answers, tp: TopicPartition)
    requires ValidLog(log) && LiveTurn(log, st, t, answers) && tp in log && tp in st.position
    ensures var next, called := Play(st, t, answers), CalledInTurn(st, t, answers);
            && tp in next.position
            && PartitionTurn(log[tp], st.position[tp], next.position[tp], Of(HandledInTurn(st, t, answers), tp),
                             |Of(called, tp)|, FailingCalls(called, answers, |st.called|, tp))
            && (Serves(t, tp) ==> |Of(called, tp)| >= 1)
  {
    if FetchFailed(t.fetches) {
      FailedTurnStays(log, st, t, answers);
    } else {
      CallsOfPartition(t.fetches, answers, |st.called|, tp);
      if i :| 0 <= i < |t.fetches| && t.fetches[i].source == tp && t.fetches[i].records != [] {
        ServedTurn(log, st, t, answers, i);
      } else {
        UnservedTurn(log, st, t, answers, tp);
      }
    }
  }

  /* ---------- a run ---------- */

  /** The records a run passes to the handler, in order. */
  function CalledBy(st: LoopState, script: seq<Turn>, answers: Answers): seq<Record>
    decreases |script|
  {
    if script == [] then []
    else CalledInTurn(st, script[0], answers) + CalledBy(Play(st, script[0], answers), script[1..], answers)
  }

  /** They are what the run adds to the handler's history of calls. */
  lemma {:induction false} RunCalls(log: Log, st: LoopState, script: seq<Turn>, answers: Answers)
    requires LiveScript(log, st, script, answers)
    ensures RunAll(st, script, answers).called == st.called + CalledBy(st, script, answers)
    decreases |script|
  {
    if script != [] {
      var next := Play(st, script[0], answers);
      RunOneTurn(log, st, script, answers);
      RunCalls(log, next, script[1..], answers);
      Regroup(st.called, CalledInTurn(st, script[0], answers), CalledBy(next, script[1..], answers));
    }
  }

  /** The failing calls a run makes on records of a partition. */
  function FailuresOn(st: LoopState, script: seq<Turn>, answers: Answers, tp: TopicPartition): nat
  {
    FailingCalls(CalledBy(st, script, answers), answers, |st.called|, tp)
  }

  lemma FailuresSplitByTurn(st: LoopState, script: seq<Turn>, answers: Answers, tp: TopicPartition)
    requires script != []
    ensures FailuresOn(st, script, answers, tp) ==
            FailingCalls(CalledInTurn(st, script[0], answers), answers, |st.called|, tp) +
            FailuresOn(Play(st, script[0], answers), script[1..], answers, tp)
  {
    var next := Play(st, script[0], answers);
    FailingCallsConcat(CalledInTurn(st, script[0], answers), CalledBy(next, script[1..], answers), answers,
      |st.called|, tp);
  }

  lemma NextAndNext(own: seq<Record>, a: int, b: int, c: int, first: seq<Record>, rest: seq<Record>)
    requires HandlesNext(own, a, b, first) && HandlesNext(own, b, c, rest)
    ensures HandlesNext(own, a, c, first + rest)
  {
  }

  lemma {:induction false} PartitionTurns(log: Log, st: LoopState, script: seq<Turn>, answers: Answers,
                                          tp: TopicPartition)
    requires ValidLog(log) && LiveScript(log, st, script, answers) && tp in log && tp in st.position
    ensures var end, called := RunAll(st, script, answers), Of(CalledBy(st, script, answers), tp);
            && tp in end.position
            && PartitionTurn(log[tp], st.position[tp], end.position[tp], Of(HandledBy(st, script, answers), tp),
                             |called|, FailuresOn(st, script, answers, tp))
            && |called| >= ServingTurns(script, tp)
    decreases |script|
  {
    if script != [] {
      var t, next := script[0], Play(st, script[0], answers);
      TurnOfPartition(log, st, t, answers, tp);
      PartitionTurns(log, next, script[1..], answers, tp);
      RunOneTurn(log, st, script, answers);
      FailuresSplitByTurn(st, script, answers, tp);
      var first, rest := HandledInTurn(st, t, answers), HandledBy(next, script[1..], answers);
      OfConcat(first, rest, tp);
      OfConcat(CalledInTurn(st, t, answers), CalledBy(next, script[1..], answers), tp);
      NextAndNext(log[tp], st.position[tp], next.position[tp], RunAll(st, script, answers).position[tp],
                  Of(first, tp), Of(rest, tp));
    }
  }

  /** The handler's calls during a run. */
  function CallsSince(st: LoopState, end: LoopState): seq<Record>
    requires |st.called| <= |end.called|
  {
    end.called[|st.called|..]
  }

  /** Over any run, whatever the other partitions' calls and the commits do: the records of a partition that are handled
      are exactly those between its old and its new fetch position, each once and in order; the handler's calls on the
      partition are these and the failing ones; and every turn that hands out records of the partition makes one. */
  lemma PartitionRun(log: Log, st: LoopState, script: seq<Turn>, answers: Answers, tp: TopicPartition)
    requires ValidLog(log) && LiveScript(log, st, script, answers) && tp in log && tp in st.position
    ensures var end := RunAll(st, script, answers);
            var handled := Of(HandledBy(st, script, answers), tp);
            && tp in end.position && st.called <= end.called
            && HandlesNext(log[tp], st.position[tp], end.position[tp], handled)
            && |Of(CallsSince(st, end), tp)| == |handled| + FailuresOn(st, script, answers, tp)
            && |Of(CallsSince(st, end), tp)| >= ServingTurns(script, tp)
  {
    PartitionTurns(log, st, script, answers, tp);
    RunCalls(log, st, script, answers);
    assert CallsSince(st, RunAll(st, script, answers)) == CalledBy(st, script, answers);
  }

  /** A partition gets to its log end, and all its remaining records are handled, once the turns that hand out its
      records outnumber the records left and the failing calls on its own records.  Nothing is asked of the other
      partitions. */
  lemma PartitionReachesEnd(log: Log, st: LoopState, script: seq<Turn>, answers: Answers, tp: TopicPartition)
    requires ValidLog(log) && LiveScript(log, st, script, answers) && tp in log && tp in st.position
    requires ServingTurns(script, tp) >=
             |log[tp]| - Below(log[tp], st.position[tp]) + FailuresOn(st, script, answers, tp)
    ensures var end := RunAll(st, script, answers);
            && tp in end.position && Below(log[tp], end.position[tp]) == |log[tp]|
            && Of(HandledBy(st, script, answers), tp) == log[tp][Below(log[tp], st.position[tp])..]
  {
    PartitionRun(log, st, script, answers, tp);
  }

  /** If at most `budget` handler calls of the run fail, then after (records remaining) + `budget` processed turns, and
      any number of fetch errors between them, every remaining record of every partition has been handled, once and in
      order. */
  lemma EverythingIsHandled(log: Log, st: LoopState, script: seq<Turn>, answers: Answers, parts: seq<TopicPartition>,
                            budget: int)
    requires ValidLog(log) && Assigned(log, st.position, parts)
    requires LiveScript(log, st, script, answers) && NeverIdle(log, st, script, answers, parts)
    requires Budgeted(answers, |st.called|, budget)
    requires ProcessedTurns(script) >= Remaining(log, st.position, parts) + budget
    ensures forall tp :: tp in parts ==>
              Of(HandledBy(st, script, answers), tp) == log[tp][Below(log[tp], st.position[tp])..]
  {
    var end := RunAll(st, script, answers).position;
    ReachesLogEnd(log, st, script, answers, parts, budget);
    NothingRemains(log, end, parts);
    forall tp | tp in parts
      ensures Of(HandledBy(st, script, answers), tp) == log[tp][Below(log[tp], st.position[tp])..]
    {
      PartitionRun(log, st, script, answers, tp);
      NextToTheEnd(log[tp], st.position[tp], end[tp], Of(HandledBy(st, script, answers), tp));
    }
  }

  lemma NextToTheEnd(own: seq<Record>, from: int, to: int, handled: seq<Record>)
    requires HandlesNext(own, from, to, handled) && Below(own, to) == |own|
    ensures handled == own[Below(own, from)..]
  {
  }

  /** The handler never succeeds on a record during a run. */
  ghost predicate NeverSucceeds(st: LoopState, script: seq<Turn>, answers: Answers, r: Record)
  {
    r !in HandledBy(st, script, answers)
  }

  lemma {:induction false} OfMember(records: seq<Record>, r: Record)
    requires r in Of(records, r.Source())
    ensures r in records
  {
    if records != [] && r in Of(records[1..], r.Source()) {
      OfMember(records[1..], r);
    }
  }

  /** A record that always fails blocks its own partition only: its partition stays before it, and any other partition
      gets to its end as if the record did not exist. */
  lemma PoisonBlocksOnlyItsPartition(log: Log, st: LoopState, script: seq<Turn>, answers: Answers,
                                     poisoned: TopicPartition, i: nat, other: TopicPartition)
    requires ValidLog(log) && LiveScript(log, st, script, answers)
    requires poisoned in log && poisoned in st.position &&
             Below(log[poisoned], st.position[poisoned]) <= i < |log[poisoned]|
    requires NeverSucceeds(st, script, answers, log[poisoned][i])
    requires other in log && other in st.position
    ensures var end := RunAll(st, script, answers);
            && poisoned in end.position && Below(log[poisoned], end.position[poisoned]) <= i
            && (ServingTurns(script, other) >=
                  |log[other]| - Below(log[other], st.position[other]) + FailuresOn(st, script, answers, other) ==>
                Of(HandledBy(st, script, answers), other) == log[other][Below(log[other], st.position[other])..])
  {
    PartitionRun(log, st, script, answers, poisoned);
    PartitionRun(log, st, script, answers, other);
    assert log[poisoned][i].Source() == poisoned;
    StaysBefore(log[poisoned], st.position[poisoned], RunAll(st, script, answers).position[poisoned],
                HandledBy(st, script, answers), poisoned, i);
  }

  lemma StaysBefore(own: seq<Record>, from: int, to: int, handled: seq<Record>, tp: TopicPartition, i: nat)
    requires HandlesNext(own, from, to, Of(handled, tp)) && Below(own, from) <= i < |own|
    requires own[i].Source() == tp && own[i] !in handled
    ensures Below(own, to) <= i
  {
    if Below(own, to) > i {
      assert Of(handled, tp)[i - Below(own, from)] == own[i];
      OfMember(handled, own[i]);
    }
  }
}
