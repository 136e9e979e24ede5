/**
 What the loop of platform/kafka/kafkaconsumer/kafkaconsumer.go commits and reports, turn by turn and over whole runs,
 and when it ends.
 */
module LoopCommits {
  import opened Prelude
  import opened Consumer
  import opened ConsumerLoop
  import opened Progress
  import opened PartitionProgress

  function Entry(offsets: map<TopicPartition, int>, tp: TopicPartition): Option<int>
  {
    if tp in offsets then Some(offsets[tp]) else None
  }

  /** A commit of `target` for a partition, if there is one: it takes effect where it lands. */
  ghost predicate Commits(before: map<TopicPartition, int>, after: map<TopicPartition, int>, tp: TopicPartition,
                          landed: set<TopicPartition>, target: Option<int>)
  {
    Entry(after, tp) == if target.Some? && tp in landed then target else Entry(before, tp)
  }

  /* ---------- one turn ---------- */

  lemma CommitTargetNone(records: seq<Record>, tp: TopicPartition)
    requires Of(records, tp) == []
    ensures CommitTarget(records, tp) == None
  {
    CommitTargetOf(records, tp);
  }

  lemma {:induction false} TargetHasSource(records: seq<Record>, tp: TopicPartition)
    requires CommitTarget(records, tp).Some?
    ensures exists r :: r in records && r.Source() == tp
  {
    if records[0].Source() == tp {
      assert records[0] in records;
    } else {
      TargetHasSource(records[1..], tp);
      var r :| r in records[1..] && r.Source() == tp;
      assert r in records;
    }
  }

  /** Which entries a commit of some records changes. */
  lemma CommittedEntry(committed: map<TopicPartition, int>, records: seq<Record>, landed: set<TopicPartition>,
                       tp: TopicPartition)
    ensures Entry(CommitInto(committed, records, landed), tp) ==
            if tp in landed && CommitTarget(records, tp).Some? then CommitTarget(records, tp) else Entry(committed, tp)
  {
    if CommitTarget(records, tp).Some? {
      TargetHasSource(records, tp);
      var r :| r in records && r.Source() == tp;
      assert tp in set x | x in records :: x.Source();
    }
  }

  lemma ChunkTarget(fetches: Fetches, answers: Answers, k: nat, i: nat, n: nat, processed: seq<Record>,
                    target: Option<int>)
    requires WellGrouped(fetches) && i < |fetches| && Alone(fetches, i) && Increasing(fetches[i].records)
    requires n == PrefixLength(|fetches[i].records|, answers, FirstCall(fetches, answers, k, i))
    requires target == if n == 0 then None else Some(fetches[i].records[n - 1].offset + 1)
    requires processed == Process(fetches, answers, k).processed
    ensures CommitTarget(processed, fetches[i].source) == target
  {
    ProcessCommits(fetches, answers, k, i);
  }

  /** A turn without a fetch error commits, for each partition whose commit lands, one past the last of the `n` records
      it handled; it commits nothing for a partition of which it handled no record. */
  lemma TurnCommits(st: LoopState, t: Turn, answers: Answers, i: nat, n: nat)
    requires !FetchFailed(t.fetches) && WellGrouped(t.fetches) && i < |t.fetches| && Alone(t.fetches, i)
    requires Increasing(t.fetches[i].records)
    requires n == PrefixLength(|t.fetches[i].records|, answers, FirstCall(t.fetches, answers, |st.called|, i))
    ensures Commits(st.committed, Play(st, t, answers).committed, t.fetches[i].source, t.landed,
                    if n == 0 then None else Some(t.fetches[i].records[n - 1].offset + 1))
  {
    var target := if n == 0 then None else Some(t.fetches[i].records[n - 1].offset + 1);
    var processed := Process(t.fetches, answers, |st.called|).processed;
    ChunkTarget(t.fetches, answers, |st.called|, i, n, processed, target);
    TurnCommitsTarget(st, t, answers, t.fetches[i].source, processed, target);
  }

  lemma TurnCommitsTarget(st: LoopState, t: Turn, answers: Answers, tp: TopicPartition, processed: seq<Record>,
                          target: Option<int>)
    requires !FetchFailed(t.fetches) && processed == Process(t.fetches, answers, |st.called|).processed
    requires CommitTarget(processed, tp) == target
    ensures Commits(st.committed, Play(st, t, answers).committed, tp, t.landed, target)
  {
    CommittedEntry(st.committed, processed, t.landed, tp);
  }

  /** Where the fetch position stands after a turn. */
  lemma TurnPosition(st: LoopState, t: Turn, answers: Answers, i: nat, n: nat)
    requires !FetchFailed(t.fetches) && WellGrouped(t.fetches) && DistinctChunks(t.fetches)
    requires i < |t.fetches| && t.fetches[i].records != []
    requires n == PrefixLength(|t.fetches[i].records|, answers, FirstCall(t.fetches, answers, |st.called|, i))
    ensures var tp, records := t.fetches[i].source, t.fetches[i].records;
            Entry(Play(st, t, answers).position, tp) ==
            Some(if n < |records| then records[n].offset else records[n - 1].offset + 1)
  {
    AdvanceOver(st.position, t.fetches, i);
    ProcessPartition(t.fetches, answers, |st.called|, i);
  }

  /** The committed offset meets the fetch position unless the turn goes back over a gap between offsets. */
  lemma CommittedIsPositionIff(st: LoopState, t: Turn, answers: Answers, i: nat, n: nat)
    requires !FetchFailed(t.fetches) && WellGrouped(t.fetches) && DistinctChunks(t.fetches)
    requires i < |t.fetches| && t.fetches[i].records != [] && Increasing(t.fetches[i].records)
    requires n == PrefixLength(|t.fetches[i].records|, answers, FirstCall(t.fetches, answers, |st.called|, i))
    requires n > 0 && t.fetches[i].source in t.landed
    ensures var tp, records, next := t.fetches[i].source, t.fetches[i].records, Play(st, t, answers);
            Entry(next.committed, tp) == Entry(next.position, tp) <==>
            n == |records| || records[n].offset == records[n - 1].offset + 1
  {
    TurnCommits(st, t, answers, i, n);
    TurnPosition(st, t, answers, i, n);
  }

  /** No other partition's committed offset moves, and none does when the poll reports an error. */
  lemma TurnCommitsNothingElse(st: LoopState, t: Turn, answers: Answers, tp: TopicPartition)
    requires FetchFailed(t.fetches) || (WellGrouped(t.fetches) && WithoutRecords(t.fetches, tp))
    ensures Entry(Play(st, t, answers).committed, tp) == Entry(st.committed, tp)
  {
    if !FetchFailed(t.fetches) {
      ProcessTouchesOnlyPolled(t.fetches, answers, |st.called|, tp);
      var processed := Process(t.fetches, answers, |st.called|).processed;
      CommitTargetNone(processed, tp);
      TurnCommitsTarget(st, t, answers, tp, processed, None);
    }
  }

  /** The offset a partition's handled records are to be committed at. */
  function AfterLast(handled: seq<Record>): Option<int>
  {
    if handled == [] then None else Some(handled[|handled| - 1].offset + 1)
  }

  lemma HandledIsIncreasing(own: seq<Record>, tp: TopicPartition, from: int, to: int, handled: seq<Record>)
    requires Belongs(own, tp) && Increasing(own) && HandlesNext(own, from, to, handled)
    ensures Belongs(handled, tp) && Increasing(handled)
  {
  }

  /** The same seen from the log: a live turn commits one past the last record of the partition it handled. */
  lemma LiveTurnCommits(log: Log, st: LoopState, t: Turn, answers: Answers, tp: TopicPartition)
    requires ValidLog(log) && LiveTurn(log, st, t, answers) && tp in log && tp in st.position
    ensures Commits(st.committed, Play(st, t, answers).committed, tp, t.landed,
                    AfterLast(Of(HandledInTurn(st, t, answers), tp)))
  {
    TurnOfPartition(log, st, t, answers, tp);
    HandledTarget(log[tp], tp, st.position[tp], Play(st, t, answers).position[tp], HandledInTurn(st, t, answers));
    CommitsHandled(st, t, answers, tp, HandledInTurn(st, t, answers),
                   AfterLast(Of(HandledInTurn(st, t, answers), tp)));
  }

  lemma HandledTarget(own: seq<Record>, tp: TopicPartition, from: int, to: int, handled: seq<Record>)
    requires Belongs(own, tp) && Increasing(own) && HandlesNext(own, from, to, Of(handled, tp))
    ensures CommitTarget(handled, tp) == AfterLast(Of(handled, tp))
  {
    HandledIsIncreasing(own, tp, from, to, Of(handled, tp));
    CommitTargetOf(handled, tp);
    CommitTargetLast(Of(handled, tp), tp);
  }

  lemma CommitsHandled(st: LoopState, t: Turn, answers: Answers, tp: TopicPartition, handled: seq<Record>,
                       target: Option<int>)
    requires handled == HandledInTurn(st, t, answers) && CommitTarget(handled, tp) == target
    ensures Commits(st.committed, Play(st, t, answers).committed, tp, t.landed, target)
  {
    if !FetchFailed(t.fetches) {
      TurnCommitsTarget(st, t, answers, tp, handled, target);
    }
  }

  /** What one turn reports: a fetch error, or a commit of handled records that fails. */
  function ReportsInTurn(st: LoopState, t: Turn, answers: Answers): nat
  {
    if FetchFailed(t.fetches) || (t.commitFails && HandledInTurn(st, t, answers) != []) then 1 else 0
  }

  function ReportsOf(st: LoopState, script: seq<Turn>, answers: Answers): nat
    decreases |script|
  {
    if script == [] then 0
    else ReportsInTurn(st, script[0], answers) + ReportsOf(Play(st, script[0], answers), script[1..], answers)
  }

  /* ---------- a run ---------- */

  lemma {:induction false} LastOfConcat(a: seq<Record>, b: seq<Record>)
    ensures AfterLast(a + b) == if b == [] then AfterLast(a) else AfterLast(b)
  {
    if b == [] {
      assert a + b == a;
    }
  }

  lemma BelowAfterLast(own: seq<Record>, from: int, to: int, handled: seq<Record>)
    requires Increasing(own) && HandlesNext(own, from, to, handled) && handled != []
    ensures Below(own, AfterLast(handled).value) == Below(own, to)
  {
    var i := Below(own, to) - 1;
    assert handled[|handled| - 1] == own[i];
    BelowAt(own, i);
  }

  /** A run whose commits for a partition all land ends with one past the last handled record of the partition
      committed, which is where its fetch position stands in the log; if it handled none, the committed offset is the
      old one. */
  lemma RunCommits(log: Log, st: LoopState, script: seq<Turn>, answers: Answers, tp: TopicPartition)
    requires ValidLog(log) && LiveScript(log, st, script, answers) && tp in log && tp in st.position
    requires forall i :: 0 <= i < |script| ==> tp in script[i].landed
    ensures var end, target := RunAll(st, script, answers), AfterLast(Of(HandledBy(st, script, answers), tp));
            && Entry(end.committed, tp) == (if target.Some? then target else Entry(st.committed, tp))
            && tp in end.position
            && (target.Some? ==> Below(log[tp], target.value) == Below(log[tp], end.position[tp]))
  {
    RunCommitsLast(log, st, script, answers, tp);
    PartitionRun(log, st, script, answers, tp);
    var handled := Of(HandledBy(st, script, answers), tp);
    if handled != [] {
      BelowAfterLast(log[tp], st.position[tp], RunAll(st, script, answers).position[tp], handled);
    }
  }

  lemma {:induction false} RunCommitsLast(log: Log, st: LoopState, script: seq<Turn>, answers: Answers,
                                          tp: TopicPartition)
    requires ValidLog(log) && LiveScript(log, st, script, answers) && tp in log && tp in st.position
    requires forall i :: 0 <= i < |script| ==> tp in script[i].landed
    ensures var target := AfterLast(Of(HandledBy(st, script, answers), tp));
            Entry(RunAll(st, script, answers).committed, tp) ==
            if target.Some? then target else Entry(st.committed, tp)
    decreases |script|
  {
    if script != [] {
      var t, next := script[0], Play(st, script[0], answers);
      TurnOfPartition(log, st, t, answers, tp);
      LiveTurnCommits(log, st, t, answers, tp);
      assert forall i :: 0 <= i < |script[1..]| ==> script[1..][i] == script[i + 1];
      RunCommitsLast(log, next, script[1..], answers, tp);
      RunOneTurn(log, st, script, answers);
      var first, rest := HandledInTurn(st, t, answers), HandledBy(next, script[1..], answers);
      OfConcat(first, rest, tp);
      LastOfConcat(Of(first, tp), Of(rest, tp));
    }
  }

  /** A run reports every fetch error and every failed commit of handled records, once each, and nothing else. */
  lemma {:induction false} RunReports(log: Log, st: LoopState, script: seq<Turn>, answers: Answers)
    requires LiveScript(log, st, script, answers)
    ensures RunAll(st, script, answers).reported == st.reported + ReportsOf(st, script, answers)
    decreases |script|
  {
    if script != [] {
      RunOneTurn(log, st, script, answers);
      RunReports(log, Play(st, script[0], answers), script[1..], answers);
    }
  }

  /* ---------- when the loop ends ---------- */

  /** The loop ends at a turn: the client is closed, or the wait after an error or a rewind is cancelled. */
  ghost predicate EndsAt(st: LoopState, t: Turn, answers: Answers)
  {
    t.closed || (t.cancelled && (FetchFailed(t.fetches) || Stops(t.fetches, answers, |st.called|)))
  }

  /** A turn at which the loop ends makes the rest of the script irrelevant; a closed client only loses its position.
      Any other turn is followed by the next one. */
  lemma LoopEnds(st: LoopState, t: Turn, later: seq<Turn>, answers: Answers)
    ensures t.closed ==>
              var end := RunAll(st, [t] + later, answers);
              end.called == st.called && end.committed == st.committed && end.reported == st.reported
    ensures !t.closed && EndsAt(st, t, answers) ==> RunAll(st, [t] + later, answers) == Play(st, t, answers)
    ensures !EndsAt(st, t, answers) ==>
              RunAll(st, [t] + later, answers) == RunAll(Play(st, t, answers), later, answers)
  {
    assert ([t] + later)[0] == t && ([t] + later)[1..] == later;
    ProcessRewindsIffProperPrefix(t.fetches, answers, |st.called|);
  }
}
