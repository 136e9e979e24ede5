/**
 Progress of the poll loop of platform/kafka/kafkaconsumer/kafkaconsumer.go: every turn that handles a non-empty poll
 strictly lowers (records past the fetch positions) + (failures still to come), whatever happens to the commits.
 */
module Progress {
  import opened Consumer
  import opened ConsumerLoop

  type Log = map<TopicPartition, seq<Record>>

  ghost predicate ValidLog(log: Log)
  {
    forall tp :: tp in log ==> Belongs(log[tp], tp) && Increasing(log[tp])
  }

  /** How many records of a partition lie below an offset (offsets increase, but need not be contiguous). */
  function Below(records: seq<Record>, offset: int): (n: nat)
    ensures n <= |records|
  {
    if records == [] || records[0].offset >= offset then 0 else 1 + Below(records[1..], offset)
  }

  /** The contract of PollRecords for one partition: consecutive records from the fetch position on. */
  ghost predicate Consecutive(records: seq<Record>, log: seq<Record>, position: int)
  {
    var i := Below(log, position);
    i + |records| <= |log| && records == log[i..i + |records|]
  }

  ghost predicate PollOk(log: Log, position: map<TopicPartition, int>, fetches: Fetches)
  {
    && DistinctChunks(fetches)
    && forall i :: 0 <= i < |fetches| ==>
         && fetches[i].source in log && fetches[i].source in position
         && Consecutive(fetches[i].records, log[fetches[i].source], position[fetches[i].source])
  }

  lemma {:induction false} BelowAt(records: seq<Record>, i: nat)
    requires Increasing(records) && i < |records|
    ensures Below(records, records[i].offset) == i && Below(records, records[i].offset + 1) == i + 1
  {
    if i > 0 {
      var tail := records[1..];
      assert Increasing(tail) && tail[i - 1] == records[i];
      BelowAt(tail, i - 1);
    } else if |records| > 1 {
      assert records[1..][0] == records[1];
    }
  }

  lemma ConsecutiveIsGrouped(log: seq<Record>, tp: TopicPartition, records: seq<Record>, position: int)
    requires Belongs(log, tp) && Increasing(log) && Consecutive(records, log, position)
    ensures Belongs(records, tp) && Increasing(records)
  {
  }

  lemma PollIsGrouped(log: Log, position: map<TopicPartition, int>, fetches: Fetches)
    requires ValidLog(log) && PollOk(log, position, fetches)
    ensures WellGrouped(fetches)
  {
    forall i | 0 <= i < |fetches| ensures Belongs(fetches[i].records, fetches[i].source) {
      var tp := fetches[i].source;
      ConsecutiveIsGrouped(log[tp], tp, fetches[i].records, position[tp]);
    }
  }

  lemma {:induction false} AdvanceElsewhere(position: map<TopicPartition, int>, fetches: Fetches, tp: TopicPartition)
    requires tp in position && WithoutRecords(fetches, tp)
    ensures tp in Advance(position, fetches) && Advance(position, fetches)[tp] == position[tp]
    decreases |fetches|
  {
    if fetches != [] {
      var f := fetches[0];
      AdvanceElsewhere(if f.records == [] then position
                       else position[f.source := f.records[|f.records| - 1].offset + 1], fetches[1..], tp);
    }
  }

  lemma {:induction false} AdvanceOver(position: map<TopicPartition, int>, fetches: Fetches, i: nat)
    requires DistinctChunks(fetches) && i < |fetches| && fetches[i].records != []
    ensures var f, after := fetches[i], Advance(position, fetches);
            f.source in after && after[f.source] == f.records[|f.records| - 1].offset + 1
    decreases |fetches|
  {
    var f := fetches[0];
    var next := if f.records == [] then position else position[f.source := f.records[|f.records| - 1].offset + 1];
    if i == 0 {
      AdvanceElsewhere(next, fetches[1..], f.source);
    } else {
      AdvanceOver(next, fetches[1..], i - 1);
    }
  }

  /** A processed turn moves each fetch position over exactly the records it handled. */
  lemma TurnMovesPosition(log: Log, st: LoopState, t: Turn, answers: Answers, tp: TopicPartition)
    requires ValidLog(log) && PollOk(log, st.position, t.fetches) && !FetchFailed(t.fetches)
    requires tp in log && tp in st.position
    ensures var after := Play(st, t, answers).position;
            && tp in after
            && Below(log[tp], after[tp]) ==
               Below(log[tp], st.position[tp]) + |Of(Process(t.fetches, answers, |st.called|).processed, tp)|
  {
    var k := |st.called|;
    PollIsGrouped(log, st.position, t.fetches);
    if i :| 0 <= i < |t.fetches| && t.fetches[i].source == tp && t.fetches[i].records != [] {
      PolledPartitionMoves(log, st.position, t.fetches, answers, k, i);
    } else {
      AdvanceElsewhere(st.position, t.fetches, tp);
      ProcessTouchesOnlyPolled(t.fetches, answers, k, tp);
    }
  }

  lemma PolledPartitionMoves(log: Log, position: map<TopicPartition, int>, fetches: Fetches, answers: Answers, k: nat,
                             i: nat)
    requires ValidLog(log) && PollOk(log, position, fetches) && WellGrouped(fetches)
    requires i < |fetches| && fetches[i].records != []
    ensures var o, tp, advanced := Process(fetches, answers, k), fetches[i].source, Advance(position, fetches);
            tp in advanced &&
            Below(log[tp], Seek(advanced, o.rewind)[tp]) == Below(log[tp], position[tp]) + |Of(o.processed, tp)|
  {
    var f := fetches[i];
    var first, o := FirstCall(fetches, answers, k, i), Process(fetches, answers, k);
    var advanced := Advance(position, fetches);
    var n, c := PrefixLength(|f.records|, answers, first), CallCount(|f.records|, answers, first);
    AdvanceOver(position, fetches, i);
    ProcessPartition(fetches, answers, k, i);
    assert PartitionOutcome(f, n, c, o);
    ChunkMovesPosition(log[f.source], position[f.source], f, n, c, o, advanced);
  }

  lemma ChunkMovesPosition(log: seq<Record>, position: int, f: FetchPartition, n: nat, c: nat, o: Outcome,
                           advanced: map<TopicPartition, int>)
    requires Increasing(log) && Consecutive(f.records, log, position)
    requires PartitionOutcome(f, n, c, o) && f.source in advanced
    requires f.records != [] && advanced[f.source] == f.records[|f.records| - 1].offset + 1
    ensures Below(log, Seek(advanced, o.rewind)[f.source]) == Below(log, position) + |Of(o.processed, f.source)|
  {
    var i := Below(log, position);
    if n < |f.records| {
      BelowAt(log, i + n);
      assert f.records[n] == log[i + n];
    } else if n > 0 {
      BelowAt(log, i + n - 1);
      assert f.records[n - 1] == log[i + n - 1];
    }
  }

  /* ---------- counting ---------- */

  /** Failing calls among `n` consecutive ones. */
  function Failures(answers: Answers, k: nat, n: nat): nat
    decreases n
  {
    if n == 0 then 0 else (if answers(k) then 0 else 1) + Failures(answers, k + 1, n - 1)
  }

  lemma {:induction false} FailuresSplit(answers: Answers, k: nat, a: nat, b: nat)
    ensures Failures(answers, k, a + b) == Failures(answers, k, a) + Failures(answers, k + a, b)
    decreases a
  {
    if a > 0 {
      FailuresSplit(answers, k + 1, a - 1, b);
    }
  }

  lemma {:induction false} FailuresAtMost(answers: Answers, k: nat, n: nat)
    ensures Failures(answers, k, n) <= n
    decreases n
  {
    if n > 0 {
      FailuresAtMost(answers, k + 1, n - 1);
    }
  }

  lemma {:induction false} FailuresOfChunk(len: nat, answers: Answers, k: nat)
    ensures CallCount(len, answers, k) ==
            PrefixLength(len, answers, k) + Failures(answers, k, CallCount(len, answers, k))
    decreases len
  {
    if len > 0 && answers(k) {
      FailuresOfChunk(len - 1, answers, k + 1);
    } else if len > 0 {
      assert Failures(answers, k + 1, 0) == 0;
    }
  }

  /** Every handler call either handles a record or fails. */
  lemma {:induction false} CallsAreHandledOrFail(fetches: Fetches, answers: Answers, k: nat)
    ensures var o := Process(fetches, answers, k);
            |o.called| == |o.processed| + Failures(answers, k, |o.called|)
    decreases |fetches|
  {
    if fetches != [] {
      var len := |fetches[0].records|;
      var c := CallCount(len, answers, k);
      var rest := Rest(fetches, answers, k);
      FailuresOfChunk(len, answers, k);
      CallsAreHandledOrFail(fetches[1..], answers, k + c);
      FailuresSplit(answers, k, c, |rest.called|);
      ProcessFirst(fetches, answers, k);
    }
  }

  lemma {:induction false} NonEmptyPollIsAttempted(fetches: Fetches, answers: Answers, k: nat, i: nat)
    requires i < |fetches| && fetches[i].records != []
    ensures |Process(fetches, answers, k).called| >= 1
    decreases |fetches|
  {
    if i > 0 {
      NonEmptyPollIsAttempted(fetches[1..], answers, k + CallCount(|fetches[0].records|, answers, k), i - 1);
    }
  }

  ghost predicate NoDuplicates(parts: seq<TopicPartition>)
  {
    forall i, j :: 0 <= i < j < |parts| ==> parts[i] != parts[j]
  }

  /** Records at or past the fetch positions. */
  function Remaining(log: Log, position: map<TopicPartition, int>, parts: seq<TopicPartition>): nat
    requires forall tp :: tp in parts ==> tp in log && tp in position
  {
    if parts == [] then 0
    else |log[parts[0]]| - Below(log[parts[0]], position[parts[0]]) + Remaining(log, position, parts[1..])
  }

  function CountIn(records: seq<Record>, parts: seq<TopicPartition>): nat
  {
    if parts == [] then 0 else |Of(records, parts[0])| + CountIn(records, parts[1..])
  }

  lemma {:induction false} CountInCons(r: Record, records: seq<Record>, parts: seq<TopicPartition>)
    requires NoDuplicates(parts)
    ensures CountIn([r] + records, parts) == CountIn(records, parts) + if r.Source() in parts then 1 else 0
  {
    if parts != [] {
      assert ([r] + records)[1..] == records;
      CountInCons(r, records, parts[1..]);
      if parts[0] == r.Source() {
        assert r.Source() !in parts[1..];
      }
    }
  }

  lemma {:induction false} CountInAll(records: seq<Record>, parts: seq<TopicPartition>)
    requires NoDuplicates(parts) && forall r :: r in records ==> r.Source() in parts
    ensures CountIn(records, parts) == |records|
  {
    if records == [] {
      CountInNone(parts);
    } else {
      assert records == [records[0]] + records[1..];
      CountInAll(records[1..], parts);
      CountInCons(records[0], records[1..], parts);
    }
  }

  lemma {:induction false} CountInNone(parts: seq<TopicPartition>)
    ensures CountIn([], parts) == 0
  {
    if parts != [] {
      CountInNone(parts[1..]);
    }
  }

  lemma {:induction false} RemainingFalls(log: Log, before: map<TopicPartition, int>, after: map<TopicPartition, int>,
                                          handled: seq<Record>, parts: seq<TopicPartition>)
    requires forall tp :: tp in parts ==> tp in log && tp in before && tp in after
    requires forall tp :: tp in parts ==>
               Below(log[tp], after[tp]) == Below(log[tp], before[tp]) + |Of(handled, tp)|
    ensures Remaining(log, after, parts) + CountIn(handled, parts) == Remaining(log, before, parts)
  {
    if parts != [] {
      RemainingFalls(log, before, after, handled, parts[1..]);
    }
  }

  lemma {:induction false} HandledAreFetched(fetches: Fetches, answers: Answers, k: nat, r: Record)
    requires WellGrouped(fetches) && r in Process(fetches, answers, k).processed
    ensures exists i :: 0 <= i < |fetches| && fetches[i].source == r.Source()
    decreases |fetches|
  {
    var records := fetches[0].records;
    if r in records {
      assert Belongs(records, fetches[0].source);
    } else {
      HandledAreFetched(fetches[1..], answers, k + CallCount(|records|, answers, k), r);
      var i :| 0 <= i < |fetches[1..]| && fetches[1..][i].source == r.Source();
      assert fetches[i + 1].source == r.Source();
    }
  }

  /* ---------- the theorems ---------- */

  /** The partitions assigned to the consumer. */
  ghost predicate Assigned(log: Log, position: map<TopicPartition, int>, parts: seq<TopicPartition>)
  {
    && NoDuplicates(parts)
    && (forall tp :: tp in parts <==> tp in position)
    && (forall tp :: tp in parts ==> tp in log)
  }

  /** A turn after which the loop goes on; a poll with a fetch error carries no records.  Commits may fail. */
  ghost predicate LiveTurn(log: Log, st: LoopState, t: Turn, answers: Answers)
  {
    && !t.closed && !(WaitsAfter(st, t, answers) && t.cancelled)
    && PollOk(log, st.position, t.fetches)
    && (FetchFailed(t.fetches) ==> NoRecords(t.fetches))
  }

  ghost predicate Progressed(log: Log, st: LoopState, next: LoopState, answers: Answers, parts: seq<TopicPartition>)
    requires Assigned(log, st.position, parts)
  {
    && Assigned(log, next.position, parts)
    && |next.called| >= |st.called|
    && Remaining(log, next.position, parts) + (|next.called| - |st.called|) ==
       Remaining(log, st.position, parts) + Failures(answers, |st.called|, |next.called| - |st.called|)
    && (Remaining(log, st.position, parts) > 0 ==> |next.called| > |st.called|)
  }

  /** The positions fall by what was handled, partition by partition. */
  lemma TurnLowersRemaining(log: Log, st: LoopState, t: Turn, answers: Answers, parts: seq<TopicPartition>)
    requires ValidLog(log) && Assigned(log, st.position, parts)
    requires PollOk(log, st.position, t.fetches) && !FetchFailed(t.fetches)
    ensures var next, handled := Play(st, t, answers), Process(t.fetches, answers, |st.called|).processed;
            && Assigned(log, next.position, parts)
            && Remaining(log, next.position, parts) + CountIn(handled, parts) == Remaining(log, st.position, parts)
  {
    var next, handled := Play(st, t, answers), Process(t.fetches, answers, |st.called|).processed;
    forall tp | tp in parts
      ensures tp in next.position
      ensures Below(log[tp], next.position[tp]) == Below(log[tp], st.position[tp]) + |Of(handled, tp)|
    {
      TurnMovesPosition(log, st, t, answers, tp);
    }
    forall tp | tp in next.position ensures tp in parts {
      AdvanceKeys(st.position, t.fetches);
    }
    RemainingFalls(log, st.position, next.position, handled, parts);
  }

  lemma HandledAreCounted(log: Log, position: map<TopicPartition, int>, fetches: Fetches, answers: Answers, k: nat,
                          parts: seq<TopicPartition>)
    requires ValidLog(log) && Assigned(log, position, parts) && PollOk(log, position, fetches)
    ensures CountIn(Process(fetches, answers, k).processed, parts) == |Process(fetches, answers, k).processed|
  {
    PollIsGrouped(log, position, fetches);
    forall r | r in Process(fetches, answers, k).processed ensures r.Source() in parts {
      HandledAreFetched(fetches, answers, k, r);
    }
    CountInAll(Process(fetches, answers, k).processed, parts);
  }

  /** One turn: the records past the positions fall by the number of handled records, every call either handles a
      record or fails, and while records remain there is at least one call. */
  lemma TurnProgress(log: Log, st: LoopState, t: Turn, answers: Answers, parts: seq<TopicPartition>)
    requires ValidLog(log) && Assigned(log, st.position, parts)
    requires PollOk(log, st.position, t.fetches) && !FetchFailed(t.fetches)
    requires Remaining(log, st.position, parts) > 0 ==> !NoRecords(t.fetches)
    ensures Progressed(log, st, Play(st, t, answers), answers, parts)
  {
    var o := Process(t.fetches, answers, |st.called|);
    TurnLowersRemaining(log, st, t, answers, parts);
    HandledAreCounted(log, st.position, t.fetches, answers, |st.called|, parts);
    CallsAreHandledOrFail(t.fetches, answers, |st.called|);
    if !NoRecords(t.fetches) {
      var i :| 0 <= i < |t.fetches| && t.fetches[i].records != [];
      NonEmptyPollIsAttempted(t.fetches, answers, |st.called|, i);
    }
    ProgressedBy(log, st, Play(st, t, answers), answers, parts, |o.processed|, |o.called|);
  }

  lemma ProgressedBy(log: Log, st: LoopState, next: LoopState, answers: Answers, parts: seq<TopicPartition>,
                     handled: nat, calls: nat)
    requires Assigned(log, st.position, parts) && Assigned(log, next.position, parts)
    requires |next.called| == |st.called| + calls && calls == handled + Failures(answers, |st.called|, calls)
    requires Remaining(log, next.position, parts) + handled == Remaining(log, st.position, parts)
    requires Remaining(log, st.position, parts) > 0 ==> calls > 0
    ensures Progressed(log, st, next, answers, parts)
  {
  }

  lemma {:induction false} AdvanceKeys(position: map<TopicPartition, int>, fetches: Fetches)
    requires forall i :: 0 <= i < |fetches| ==> fetches[i].source in position
    ensures Advance(position, fetches).Keys == position.Keys
    decreases |fetches|
  {
    if fetches != [] {
      var f := fetches[0];
      AdvanceKeys(if f.records == [] then position
                  else position[f.source := f.records[|f.records| - 1].offset + 1], fetches[1..]);
    }
  }

  lemma {:induction false} EmptyPollStays(position: map<TopicPartition, int>, fetches: Fetches)
    requires NoRecords(fetches)
    ensures Advance(position, fetches) == position
    decreases |fetches|
  {
    if fetches != [] {
      assert fetches[0].records == [];
      EmptyPollStays(position, fetches[1..]);
    }
  }

  /** A turn with a fetch error and no records moves no position and calls no handler. */
  lemma FailedTurnStays(log: Log, st: LoopState, t: Turn, answers: Answers)
    requires LiveTurn(log, st, t, answers) && FetchFailed(t.fetches)
    ensures Play(st, t, answers) == st.(reported := st.reported + 1)
  {
    EmptyPollStays(st.position, t.fetches);
  }

  /** Every turn of a script is live in the state it starts from. */
  ghost predicate LiveScript(log: Log, st: LoopState, script: seq<Turn>, answers: Answers)
    decreases |script|
  {
    script == [] ||
    (LiveTurn(log, st, script[0], answers) && LiveScript(log, Play(st, script[0], answers), script[1..], answers))
  }

  /** Polls without an error are non-empty while records remain. */
  ghost predicate NeverIdle(log: Log, st: LoopState, script: seq<Turn>, answers: Answers, parts: seq<TopicPartition>)
    decreases |script|
  {
    script == [] ||
    ((FetchFailed(script[0].fetches) || !NoRecords(script[0].fetches) ||
      forall tp :: tp in parts && tp in log && tp in st.position ==> Below(log[tp], st.position[tp]) == |log[tp]|) &&
     NeverIdle(log, Play(st, script[0], answers), script[1..], answers, parts))
  }

  function ProcessedTurns(script: seq<Turn>): nat
  {
    if script == [] then 0 else (if FetchFailed(script[0].fetches) then 0 else 1) + ProcessedTurns(script[1..])
  }

  /** At most `budget` of the handler calls from number `k` on fail. */
  ghost predicate Budgeted(answers: Answers, k: nat, budget: int)
  {
    forall n: nat :: Failures(answers, k, n) <= budget
  }

  lemma BudgetIsNat(answers: Answers, k: nat, budget: int)
    requires Budgeted(answers, k, budget)
    ensures budget >= 0
  {
    assert Failures(answers, k, 0) <= budget;
  }

  lemma BudgetAfter(answers: Answers, k: nat, calls: nat, l: nat, budget: int)
    requires Budgeted(answers, k, budget) && l == k + calls
    ensures Failures(answers, k, calls) <= budget
    ensures Budgeted(answers, l, budget - Failures(answers, k, calls))
  {
    forall n: nat ensures Failures(answers, l, n) <= budget - Failures(answers, k, calls) {
      FailuresSplit(answers, k, calls, n);
      assert Failures(answers, k, calls + n) <= budget;
    }
  }

  /** The measure falls strictly with every processed turn: records past the positions plus failures still to come. */
  lemma MeasureFalls(log: Log, st: LoopState, t: Turn, answers: Answers, parts: seq<TopicPartition>, budget: int)
    returns (budget': int)
    requires ValidLog(log) && Assigned(log, st.position, parts) && LiveTurn(log, st, t, answers)
    requires !FetchFailed(t.fetches) && !NoRecords(t.fetches)
    requires Remaining(log, st.position, parts) > 0 && Budgeted(answers, |st.called|, budget)
    ensures var next := Play(st, t, answers);
            && Assigned(log, next.position, parts) && Budgeted(answers, |next.called|, budget')
            && Remaining(log, next.position, parts) + budget' < Remaining(log, st.position, parts) + budget
  {
    var next := Play(st, t, answers);
    TurnProgress(log, st, t, answers, parts);
    budget' := SpendBudget(log, st, next, answers, parts, budget);
  }

  lemma SpendBudget(log: Log, st: LoopState, next: LoopState, answers: Answers, parts: seq<TopicPartition>, budget: int)
    returns (budget': int)
    requires Assigned(log, st.position, parts) && Progressed(log, st, next, answers, parts)
    requires Remaining(log, st.position, parts) > 0 && Budgeted(answers, |st.called|, budget)
    ensures Budgeted(answers, |next.called|, budget')
    ensures Remaining(log, next.position, parts) + budget' < Remaining(log, st.position, parts) + budget
  {
    var calls := |next.called| - |st.called|;
    BudgetAfter(answers, |st.called|, calls, |next.called|, budget);
    budget' := budget - Failures(answers, |st.called|, calls);
  }

  ghost predicate AtEnd(log: Log, st: LoopState, parts: seq<TopicPartition>)
  {
    Assigned(log, st.position, parts) && Remaining(log, st.position, parts) == 0
  }

  lemma {:induction false} NothingRemains(log: Log, position: map<TopicPartition, int>, parts: seq<TopicPartition>)
    requires forall tp :: tp in parts ==> tp in log && tp in position
    ensures Remaining(log, position, parts) == 0 <==>
            forall tp :: tp in parts ==> Below(log[tp], position[tp]) == |log[tp]|
  {
    if parts != [] {
      NothingRemains(log, position, parts[1..]);
      assert forall tp :: tp in parts <==> tp == parts[0] || tp in parts[1..];
    }
  }

  lemma RunOneTurn(log: Log, st: LoopState, script: seq<Turn>, answers: Answers)
    requires LiveScript(log, st, script, answers) && script != []
    ensures RunAll(st, script, answers) == RunAll(Play(st, script[0], answers), script[1..], answers)
  {
  }

  /** If at most `budget` handler calls of the run fail, then after (records remaining) + `budget` processed turns, and
      any number of fetch errors between them, every fetch position is at the end of the log, even if every commit
      fails. */
  lemma {:induction false} ReachesLogEnd(log: Log, st: LoopState, script: seq<Turn>, answers: Answers,
                                         parts: seq<TopicPartition>, budget: int)
    requires ValidLog(log) && Assigned(log, st.position, parts)
    requires LiveScript(log, st, script, answers) && NeverIdle(log, st, script, answers, parts)
    requires Budgeted(answers, |st.called|, budget)
    requires ProcessedTurns(script) >= Remaining(log, st.position, parts) + budget
    ensures AtEnd(log, RunAll(st, script, answers), parts)
    decreases |script|
  {
    BudgetIsNat(answers, |st.called|, budget);
    if script != [] {
      var t, next := script[0], Play(st, script[0], answers);
      RunOneTurn(log, st, script, answers);
      if FetchFailed(t.fetches) {
        FailedTurnStays(log, st, t, answers);
        ReachesLogEnd(log, next, script[1..], answers, parts, budget);
      } else if Remaining(log, st.position, parts) == 0 {
        StaysAtEnd(log, st, script, answers, parts);
      } else {
        NothingRemains(log, st.position, parts);
        var budget' := MeasureFalls(log, st, t, answers, parts, budget);
        ReachesLogEnd(log, next, script[1..], answers, parts, budget');
      }
    }
  }

  lemma {:induction false} StaysAtEnd(log: Log, st: LoopState, script: seq<Turn>, answers: Answers,
                                      parts: seq<TopicPartition>)
    requires ValidLog(log) && AtEnd(log, st, parts) && LiveScript(log, st, script, answers)
    ensures AtEnd(log, RunAll(st, script, answers), parts)
    decreases |script|
  {
    if script != [] {
      RunOneTurn(log, st, script, answers);
      TurnStaysAtEnd(log, st, script[0], answers, parts);
      StaysAtEnd(log, Play(st, script[0], answers), script[1..], answers, parts);
    }
  }

  lemma TurnStaysAtEnd(log: Log, st: LoopState, t: Turn, answers: Answers, parts: seq<TopicPartition>)
    requires ValidLog(log) && AtEnd(log, st, parts) && LiveTurn(log, st, t, answers)
    ensures AtEnd(log, Play(st, t, answers), parts)
  {
    if FetchFailed(t.fetches) {
      FailedTurnStays(log, st, t, answers);
    } else {
      TurnProgress(log, st, t, answers, parts);
      FailuresAtMost(answers, |st.called|, |Play(st, t, answers).called| - |st.called|);
    }
  }
}
