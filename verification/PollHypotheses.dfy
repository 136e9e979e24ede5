/**
 The two hypotheses on polls that platform/kafka/kafkaconsumer/kafkaconsumer.go depends on: each is stated as the exact
 condition under which one poll is harmless, and each comes with a run that loses a record without it.
 */
module PollHypotheses {
  import opened Prelude
  import opened Consumer
  import opened ConsumerLoop
  import opened Progress
  import opened Delivery
  import EO = ExactlyOnce
  import N = Notification
  import NL = NoLoss
  import OC = OrderConsistency
  import OE = OrderEvent
  import OS = OrderService
  import Postgres
  import T = Transport

  /* ---------- a poll beside a fetch error ---------- */

  ghost predicate WithinLog(log: Log, position: map<TopicPartition, int>)
  {
    forall tp :: tp in position ==> position[tp] <= End(LogOf(log, tp))
  }

  lemma AdvanceOne(position: map<TopicPartition, int>, f: FetchPartition)
    ensures Advance(position, [f]) ==
            if f.records == [] then position else position[f.source := f.records[|f.records| - 1].offset + 1]
  {
    assert [f][1..] == [];
  }

  lemma OneChunkGrows(log: Log, position: map<TopicPartition, int>, f: FetchPartition, tp: TopicPartition)
    requires NL.LogOk(log) && tp in position && f.source in position
    requires Consecutive(f.records, LogOf(log, f.source), position[f.source])
    ensures tp in Advance(position, [f]) && position[tp] <= Advance(position, [f])[tp]
  {
    AdvanceOne(position, f);
    if f.records != [] {
      FirstIsFetched(log, f, position[f.source]);
    }
  }

  lemma {:induction false} PositionsOnlyGrow(log: Log, position: map<TopicPartition, int>, fetches: Fetches,
                                             tp: TopicPartition)
    requires NL.LogOk(log) && Fetched(log, position, fetches) && tp in position
    ensures tp in Advance(position, fetches) && position[tp] <= Advance(position, fetches)[tp]
    decreases |fetches|
  {
    if fetches != [] {
      OneChunkGrows(log, position, fetches[0], tp);
      PositionsOnlyGrow(log, Advance(position, [fetches[0]]), fetches[1..], tp);
      AdvanceFirst(position, fetches);
    }
  }

  lemma AdvanceFirst(position: map<TopicPartition, int>, fetches: Fetches)
    requires fetches != []
    ensures Advance(position, fetches) == Advance(Advance(position, [fetches[0]]), fetches[1..])
  {
    AdvanceOne(position, fetches[0]);
  }

  lemma FirstIsFetched(log: Log, f: FetchPartition, position: int)
    requires NL.LogOk(log) && Consecutive(f.records, LogOf(log, f.source), position) && f.records != []
    ensures f.records[0] in LogOf(log, f.source)
    ensures position <= f.records[0].offset < f.records[|f.records| - 1].offset + 1
  {
    var own, n := LogOf(log, f.source), |f.records|;
    var i := Below(own, position);
    NL.BelowSplits(own, position);
    assert own[i..i + n][0] == own[i] && own[i..i + n][n - 1] == own[i + n - 1];
  }

  /** The fetch position of `tp` moves over a log record at or past it. */
  ghost predicate Skips(log: Log, position: map<TopicPartition, int>, after: map<TopicPartition, int>,
                        tp: TopicPartition, r: Record)
  {
    tp in position && tp in after && r in LogOf(log, tp) && position[tp] <= r.offset < after[tp]
  }

  lemma FirstChunkSkips(log: Log, position: map<TopicPartition, int>, fetches: Fetches)
    requires NL.LogOk(log) && Fetched(log, position, fetches) && fetches != [] && fetches[0].records != []
    ensures Skips(log, position, Advance(position, fetches), fetches[0].source, fetches[0].records[0])
  {
    var f := fetches[0];
    AdvanceOne(position, f);
    FirstIsFetched(log, f, position[f.source]);
    PositionsOnlyGrow(log, Advance(position, [f]), fetches[1..], f.source);
  }

  /** Skipping a poll that carries a record moves a fetch position over a record. */
  lemma {:induction false} SkipsRecord(log: Log, position: map<TopicPartition, int>, fetches: Fetches)
    returns (tp: TopicPartition, r: Record)
    requires NL.LogOk(log) && Fetched(log, position, fetches) && !NoRecords(fetches)
    ensures Skips(log, position, Advance(position, fetches), tp, r)
    decreases |fetches|
  {
    if fetches[0].records != [] {
      FirstChunkSkips(log, position, fetches);
      tp, r := fetches[0].source, fetches[0].records[0];
    } else {
      AdvanceOne(position, fetches[0]);
      assert !NoRecords(fetches[1..]) by {
        var i :| 0 <= i < |fetches| && fetches[i].records != [];
        assert fetches[1..][i - 1].records != [];
      }
      tp, r := SkipsRecord(log, position, fetches[1..]);
    }
  }

  /** The history in which exactly the records below the fetch positions have been handled. */
  ghost function HandledSoFar(log: Log, position: map<TopicPartition, int>): NL.History
  {
    set tp, i | tp in position && 0 <= i < |LogOf(log, tp)| && LogOf(log, tp)[i].offset < position[tp] ::
      (tp, LogOf(log, tp)[i].offset)
  }

  lemma HandledSoFarIsSafe(log: Log, position: map<TopicPartition, int>)
    requires WithinLog(log, position)
    ensures NL.RestOk(log, HandledSoFar(log, position), position, [], map[])
  {
    var handled := HandledSoFar(log, position);
    forall tp | tp in position ensures NL.Safe(log, handled, tp, position[tp]) {
      forall i | 0 <= i < |LogOf(log, tp)| && LogOf(log, tp)[i].offset < position[tp]
        ensures (tp, LogOf(log, tp)[i].offset) in handled
      {
      }
    }
  }

  /** Skipping a poll because of a fetch error keeps "everything below a fetch position is handled", whatever was
      handled before, exactly when the poll carries no records. */
  lemma SkippedPollIsHarmlessIff(log: Log, position: map<TopicPartition, int>, fetches: Fetches)
    requires NL.LogOk(log) && Fetched(log, position, fetches) && WithinLog(log, position)
    ensures (forall handled: NL.History :: NL.RestOk(log, handled, position, [], map[]) ==>
               NL.RestOk(log, handled, Advance(position, fetches), [], map[]))
            <==> NoRecords(fetches)
  {
    if NoRecords(fetches) {
      EmptyPollStays(position, fetches);
    } else {
      var handled, after := HandledSoFar(log, position), Advance(position, fetches);
      HandledSoFarIsSafe(log, position);
      var tp, r := SkipsRecord(log, position, fetches);
      var i :| 0 <= i < |LogOf(log, tp)| && LogOf(log, tp)[i] == r;
      assert !NL.InChunks([], tp);
      assert (tp, r.offset) !in handled;
      assert !NL.Safe(log, handled, tp, NL.Resume(after[tp], map[], tp));
    }
  }

  /* ---------- a partition twice in one poll ---------- */

  function All(fetches: Fetches): seq<Record>
  {
    if fetches == [] then [] else fetches[0].records + All(fetches[1..])
  }

  /** Each partition's records come in offset order. */
  ghost predicate InOrder(records: seq<Record>)
  {
    forall a, b :: 0 <= a < b < |records| && records[a].Source() == records[b].Source() ==>
      records[a].offset < records[b].offset
  }

  /** Committing the processed records would commit an offset past `r`. */
  predicate Passed(processed: seq<Record>, r: Record)
  {
    CommitTarget(processed, r.Source()).Some? && r.offset < CommitTarget(processed, r.Source()).value
  }

  /** Committing the outcome commits no offset beyond an unhandled record of the poll. */
  ghost predicate CommitsNoGap(records: seq<Record>, processed: seq<Record>)
  {
    forall r :: r in records && Passed(processed, r) ==> r in processed
  }

  lemma {:induction false} ProcessedComesFromPoll(fetches: Fetches, answers: Answers, k: nat)
    ensures forall r :: r in Process(fetches, answers, k).processed ==> r in All(fetches)
  {
    if fetches != [] {
      ProcessedComesFromPoll(fetches[1..], answers, k + CallCount(|fetches[0].records|, answers, k));
    }
  }

  lemma {:induction false} AllMembers(fetches: Fetches, r: Record)
    requires WellGrouped(fetches) && r in All(fetches)
    ensures exists i :: 0 <= i < |fetches| && r in fetches[i].records && fetches[i].source == r.Source()
  {
    if r !in fetches[0].records {
      AllMembers(fetches[1..], r);
      var i :| 0 <= i < |fetches[1..]| && r in fetches[1..][i].records && fetches[1..][i].source == r.Source();
      assert fetches[i + 1] == fetches[1..][i];
    } else {
      assert r.Source() == fetches[0].source;
    }
  }

  /** When the first chunk has records, no later chunk holds records of its partition. */
  lemma LaterChunksAreForeign(fetches: Fetches, r: Record)
    requires WellGrouped(fetches) && DistinctChunks(fetches) && fetches != [] && fetches[0].records != []
    requires r in All(fetches[1..])
    ensures r.Source() != fetches[0].source
  {
    AllMembers(fetches[1..], r);
    var i :| 0 <= i < |fetches[1..]| && r in fetches[1..][i].records && fetches[1..][i].source == r.Source();
    assert fetches[i + 1] == fetches[1..][i];
  }

  lemma {:induction false} TargetBounds(records: seq<Record>, tp: TopicPartition, i: nat)
    requires i < |records| && records[i].Source() == tp
    ensures CommitTarget(records, tp).Some? && CommitTarget(records, tp).value > records[i].offset
  {
    if i > 0 {
      TargetBounds(records[1..], tp, i - 1);
    }
  }

  lemma PrefixHasNoGap(records: seq<Record>, n: nat, r: Record)
    requires n <= |records| && InOrder(records) && Belongs(records, r.Source()) && r in records
    requires Passed(records[..n], r)
    ensures r in records[..n]
  {
    NL.CommitTargetIsProcessed(records[..n], r.Source());
    var i :| 0 <= i < n && records[..n][i].offset + 1 == CommitTarget(records[..n], r.Source()).value;
    var j :| 0 <= j < |records| && records[j] == r;
    assert records[i] in records && records[i].Source() == records[j].Source();
    assert j <= i;
    assert records[..n][j] == r;
  }

  lemma InOrderParts(a: seq<Record>, b: seq<Record>)
    requires InOrder(a + b)
    ensures InOrder(a) && InOrder(b)
  {
    var all := a + b;
    assert forall i :: 0 <= i < |a| ==> all[i] == a[i];
    forall i, j | 0 <= i < j < |b| && b[i].Source() == b[j].Source() ensures b[i].offset < b[j].offset {
      assert all[|a| + i] == b[i] && all[|a| + j] == b[j];
    }
  }

  lemma EmptyChunk(fetches: Fetches, answers: Answers, k: nat)
    requires fetches != [] && fetches[0].records == []
    ensures Process(fetches, answers, k).processed == Process(fetches[1..], answers, k).processed
    ensures All(fetches) == All(fetches[1..])
  {
  }

  lemma {:induction false} DistinctHasNoGap(fetches: Fetches, answers: Answers, k: nat)
    requires WellGrouped(fetches) && DistinctChunks(fetches) && InOrder(All(fetches))
    ensures CommitsNoGap(All(fetches), Process(fetches, answers, k).processed)
    decreases |fetches|
  {
    if fetches != [] {
      var f, tail := fetches[0], fetches[1..];
      if f.records == [] {
        EmptyChunk(fetches, answers, k);
        DistinctHasNoGap(tail, answers, k);
      } else {
        var n, l := PrefixLength(|f.records|, answers, k), k + CallCount(|f.records|, answers, k);
        InOrderParts(f.records, All(tail));
        DistinctHasNoGap(tail, answers, l);
        ProcessedComesFromPoll(tail, answers, l);
        forall x | x in All(tail) ensures x.Source() != f.source {
          LaterChunksAreForeign(fetches, x);
        }
        HeadHasNoGap(f, n, All(tail), Process(tail, answers, l).processed);
        assert Process(fetches, answers, k).processed == f.records[..n] + Process(tail, answers, l).processed;
      }
    }
  }

  lemma HeadHasNoGap(f: FetchPartition, n: nat, later: seq<Record>, rest: seq<Record>)
    requires n <= |f.records| && Belongs(f.records, f.source) && InOrder(f.records)
    requires forall r :: r in later ==> r.Source() != f.source
    requires forall r :: r in rest ==> r in later
    requires CommitsNoGap(later, rest)
    ensures CommitsNoGap(f.records + later, f.records[..n] + rest)
  {
    var processed := f.records[..n] + rest;
    forall r | r in f.records + later && Passed(processed, r) ensures r in processed
    {
      var tp := r.Source();
      OfConcat(f.records[..n], rest, tp);
      CommitTargetOf(processed, tp);
      CommitTargetOf(f.records[..n], tp);
      CommitTargetOf(rest, tp);
      if tp == f.source {
        OfForeign(rest, tp);
        assert Of(processed, tp) == Of(f.records[..n], tp);
        PrefixHasNoGap(f.records, n, r);
      } else {
        OfForeign(f.records[..n], tp);
        assert Of(processed, tp) == Of(rest, tp);
      }
    }
  }

  lemma {:induction false} AllSucceed(fetches: Fetches, answers: Answers, k: nat)
    requires forall m: nat :: k <= m ==> answers(m)
    ensures Process(fetches, answers, k).processed == All(fetches)
  {
    if fetches != [] {
      var records := fetches[0].records;
      PrefixLengthIs(|records|, answers, k, |records|);
      AllSucceed(fetches[1..], answers, k + |records|);
    }
  }

  lemma WholeChunk(fetches: Fetches, answers: Answers, k: nat)
    requires fetches != [] && PrefixLength(|fetches[0].records|, answers, k) == |fetches[0].records|
    ensures Process(fetches, answers, k).processed ==
            fetches[0].records + Process(fetches[1..], answers, k + |fetches[0].records|).processed
  {
  }

  lemma FirstChunkStops(fetches: Fetches, answers: Answers, k: nat)
    requires fetches != [] && fetches[0].records != []
    requires forall m: nat :: k <= m ==> (answers(m) <==> m != k)
    ensures Process(fetches, answers, k).processed == All(fetches[1..])
  {
    AllSucceed(fetches[1..], answers, k + 1);
  }

  lemma AllTake(fetches: Fetches, i: nat)
    requires 0 < i < |fetches|
    ensures All(fetches[..i]) == fetches[0].records + All(fetches[1..][..i - 1])
    ensures fetches[1..][i..] == fetches[i + 1..]
  {
    assert fetches[..i][0] == fetches[0] && fetches[..i][1..] == fetches[1..][..i - 1];
  }

  /** When only the call for the first record of chunk i fails, the poll's other chunks are handled whole. */
  lemma {:induction false} OneChunkStops(fetches: Fetches, i: nat, answers: Answers, k: nat)
    requires i < |fetches| && fetches[i].records != []
    requires forall m: nat :: k <= m ==> (answers(m) <==> m != k + |All(fetches[..i])|)
    ensures Process(fetches, answers, k).processed == All(fetches[..i]) + All(fetches[i + 1..])
  {
    if i == 0 {
      FirstChunkStops(fetches, answers, k);
      assert All(fetches[..0]) == [] && [] + All(fetches[1..]) == All(fetches[1..]);
    } else {
      var n, tail := |fetches[0].records|, fetches[1..];
      AllTake(fetches, i);
      PrefixLengthIs(n, answers, k, n);
      OneChunkStops(tail, i - 1, answers, k + n);
      WholeChunk(fetches, answers, k);
      Regroup(fetches[0].records, All(tail[..i - 1]), All(tail[i..]));
    }
  }

  lemma {:induction false} AllSplits(fetches: Fetches, i: nat)
    requires i < |fetches|
    ensures All(fetches) == All(fetches[..i]) + fetches[i].records + All(fetches[i + 1..])
  {
    var tail := fetches[1..];
    if i == 0 {
      assert fetches[..0] == [];
    } else {
      assert fetches[..i][0] == fetches[0] && fetches[..i][1..] == tail[..i - 1];
      assert tail[i..] == fetches[i + 1..];
      AllSplits(tail, i - 1);
    }
  }

  /** A run of calls after which a doubled partition commits past an unhandled record. */
  lemma DoubledCommitsGap(fetches: Fetches, i: nat, j: nat) returns (answers: Answers)
    requires WellGrouped(fetches) && InOrder(All(fetches)) && i < j < |fetches|
    requires fetches[i].records != [] && fetches[j].records != [] && fetches[i].source == fetches[j].source
    ensures !CommitsNoGap(All(fetches), Process(fetches, answers, 0).processed)
  {
    var before, own, later := All(fetches[..i]), fetches[i].records, All(fetches[i + 1..]);
    answers := m => m != |before|;
    OneChunkStops(fetches, i, answers, 0);
    AllSplits(fetches, i);
    var q := fetches[j].records[0];
    assert own[0].Source() == q.Source() by {
      assert own[0] in fetches[i].records && q in fetches[j].records;
    }
    FirstIsListed(fetches[i + 1..], j - i - 1);
    GapAround(before, own, later, q);
  }

  lemma FirstIsListed(fetches: Fetches, j: nat)
    requires j < |fetches| && fetches[j].records != []
    ensures fetches[j].records[0] in All(fetches)
  {
    AllSplits(fetches, j);
    assert All(fetches)[|All(fetches[..j])|] == fetches[j].records[0];
  }

  lemma GapAround(before: seq<Record>, own: seq<Record>, later: seq<Record>, q: Record)
    requires own != [] && InOrder(before + own + later) && q in later && q.Source() == own[0].Source()
    ensures !CommitsNoGap(before + own + later, before + later)
  {
    var all, processed, r := before + own + later, before + later, own[0];
    var b :| 0 <= b < |later| && later[b] == q;
    assert all[|before|] == r && all[|before| + |own| + b] == q && processed[|before| + b] == q;
    TargetBounds(processed, r.Source(), |before| + b);
    Unrepeated(before, own, later);
  }

  lemma Unrepeated(before: seq<Record>, own: seq<Record>, later: seq<Record>)
    requires own != [] && InOrder(before + own + later)
    ensures own[0] !in before + later
  {
    var all := before + own + later;
    assert all[|before|] == own[0];
    forall b | 0 <= b < |before + later| ensures (before + later)[b] != own[0] {
      if b < |before| {
        assert all[b] == before[b];
      } else {
        assert all[b + |own|] == (before + later)[b];
      }
    }
  }

  /** One poll is harmless, however its handler calls end, exactly when no partition has two chunks with records. */
  lemma PollCommitsNoGapIff(fetches: Fetches)
    requires WellGrouped(fetches) && InOrder(All(fetches))
    ensures (forall answers: Answers :: CommitsNoGap(All(fetches), Process(fetches, answers, 0).processed))
            <==> DistinctChunks(fetches)
  {
    if DistinctChunks(fetches) {
      forall answers: Answers ensures CommitsNoGap(All(fetches), Process(fetches, answers, 0).processed) {
        DistinctHasNoGap(fetches, answers, 0);
      }
    } else {
      var i, j :| 0 <= i < j < |fetches| && fetches[i].records != [] && fetches[j].records != [] &&
                  fetches[i].source == fetches[j].source;
      var answers := DoubledCommitsGap(fetches, i, j);
    }
  }

  /* ---------- runs that lose a record ---------- */

  /** A log record below its partition's committed offset that was never handled. */
  ghost predicate Lost(s: Cluster)
  {
    exists tp, i :: LostAt(s, tp, i)
  }

  ghost predicate LostAt(s: Cluster, tp: TopicPartition, i: int)
  {
    && tp in s.committed && 0 <= i < |LogOf(s.log, tp)| && LogOf(s.log, tp)[i].offset < s.committed[tp]
    && (tp, LogOf(s.log, tp)[i].offset) !in s.handled
  }

  ghost predicate OnceEach(step: Step)
  {
    step.Poll? ==> DistinctChunks(step.fetches)
  }

  ghost predicate NotBesideError(step: Step)
  {
    step.Poll? && FetchFailed(step.fetches) ==> NoRecords(step.fetches)
  }

  ghost predicate NeverTwice(steps: seq<Step>)
  {
    forall i :: 0 <= i < |steps| ==> OnceEach(steps[i])
  }

  ghost predicate NeverBesideErrors(steps: seq<Step>)
  {
    forall i :: 0 <= i < |steps| ==> NotBesideError(steps[i])
  }

  /* A consumer `w` that is new to the group, a partition of its own with two records, and a second partition. */
  datatype Scene = Scene(w: nat, other: TopicPartition, from: int, r0: Record, r1: Record)
  {
    function Source(): TopicPartition { r0.Source() }

    function Positions(p: int): map<TopicPartition, int> { map[other := from][Source() := p] }
  }

  /** Records 0 and 1 of one partition, of which the handler ignores the second. */
  ghost predicate TwoRecords(c: Scene)
  {
    c.other != c.Source() == c.r1.Source() && c.r0.offset == 0 && c.r1.offset == 1 && Action(c.r1) == T.Ignore
  }

  /** The scene is new to the state, and record 0 arrives by the step `arrive`. */
  ghost predicate Fits(s: Cluster, c: Scene, arrive: Step)
  {
    && TwoRecords(c)
    && c.Source() !in s.log && c.Source() !in s.committed && c.w !in s.workers && (c.Source(), 0) !in s.handled
    && c.from == (if c.other in s.committed then s.committed[c.other] else 0)
    && !arrive.Poll? && Enabled(s, arrive) && Do(s, arrive) == s.(log := s.log[c.Source() := [c.r0]])
  }

  /** Both records are in the log, and the consumer stands at position `p` of their partition. */
  ghost function Flying(s: Cluster, c: Scene, p: int, flight: Flight): Cluster
  {
    s.(log := s.log[c.Source() := [c.r0, c.r1]], workers := s.workers[c.w := Worker(c.Positions(p), flight)])
  }

  ghost function Handled(s: Cluster, c: Scene, flight: Flight): Cluster
  {
    Flying(s, c, 2, flight).(handled := s.handled + {(c.Source(), 1)})
  }

  /** Record 1 has been handled and offset 2 committed. */
  ghost function Ending(s: Cluster, c: Scene, rewind: Offsets): Cluster
  {
    Handled(s, c, Rewinding(rewind)).(committed := s.committed[c.Source() := 2])
  }

  lemma SecondArrives(s: Cluster, c: Scene, arrive: Step)
    requires Fits(s, c, arrive)
    ensures var one := s.(log := s.log[c.Source() := [c.r0]]);
            && Enabled(one, Foreign(c.r1))
            && Do(one, Foreign(c.r1)) == s.(log := s.log[c.Source() := [c.r0, c.r1]])
  {
    assert [c.r0] + [c.r1] == [c.r0, c.r1];
  }

  lemma BothAssigned(s: Cluster, c: Scene, arrive: Step)
    requires Fits(s, c, arrive)
    ensures var two := s.(log := s.log[c.Source() := [c.r0, c.r1]]);
            && Enabled(two, Assign(c.w, c.other))
            && Enabled(Do(two, Assign(c.w, c.other)), Assign(c.w, c.Source()))
            && Do(Do(two, Assign(c.w, c.other)), Assign(c.w, c.Source())) == Flying(s, c, 0, Idle)
  {
    var two := s.(log := s.log[c.Source() := [c.r0, c.r1]]);
    var three := Do(two, Assign(c.w, c.other));
    assert three.workers[c.w] == Worker(map[c.other := c.from], Idle);
    assert Do(three, Assign(c.w, c.Source())).workers == s.workers[c.w := Worker(c.Positions(0), Idle)];
  }

  /** The steps before the first poll. */
  ghost function Opening(c: Scene, arrive: Step, steps: seq<Step>): seq<Step>
  {
    [arrive] + ([Foreign(c.r1)] + ([Assign(c.w, c.other)] + ([Assign(c.w, c.Source())] + steps)))
  }

  lemma Opens(s: Cluster, c: Scene, arrive: Step, steps: seq<Step>, end: Cluster)
    requires Fits(s, c, arrive) && Leads(Flying(s, c, 0, Idle), steps, end)
    ensures Leads(s, Opening(c, arrive, steps), end)
  {
    var one, two := s.(log := s.log[c.Source() := [c.r0]]), s.(log := s.log[c.Source() := [c.r0, c.r1]]);
    var three := Do(two, Assign(c.w, c.other));
    var tail := [Assign(c.w, c.Source())] + steps;
    SecondArrives(s, c, arrive);
    BothAssigned(s, c, arrive);
    Precede(three, Assign(c.w, c.Source()), steps, end);
    Precede(two, Assign(c.w, c.other), tail, end);
    Precede(one, Foreign(c.r1), [Assign(c.w, c.other)] + tail, end);
    Precede(s, arrive, [Foreign(c.r1)] + ([Assign(c.w, c.other)] + tail), end);
  }

  lemma HandleSecond(s: Cluster, c: Scene, chunk: FetchPartition, rewind: Offsets)
    requires TwoRecords(c) && chunk == FetchPartition(c.Source(), [c.r1], false)
    ensures var a := Flying(s, c, 2, Busy([chunk], [], rewind));
            && Enabled(a, HandleNext(c.w, Postgres.NO_FAULTS))
            && Do(a, HandleNext(c.w, Postgres.NO_FAULTS)) ==
               Handled(s, c, Busy([chunk.(records := [])], [c.r1], rewind))
  {
    var f := Busy([chunk], [], rewind);
    assert chunk.records[1..] == [] && [chunk][1..] == [] && [] + [c.r1] == [c.r1];
    assert Handle(f, true) == Busy([chunk.(records := [])] + [], [c.r1], rewind);
    assert [chunk.(records := [])] + [] == [chunk.(records := [])];
  }

  lemma DropEmpty(s: Cluster, c: Scene, chunk: FetchPartition, rewind: Offsets)
    requires chunk == FetchPartition(c.Source(), [], false)
    ensures var a := Handled(s, c, Busy([chunk], [c.r1], rewind));
            && Enabled(a, HandleNext(c.w, Postgres.NO_FAULTS))
            && Do(a, HandleNext(c.w, Postgres.NO_FAULTS)) == Handled(s, c, Busy([], [c.r1], rewind))
  {
    assert [chunk][1..] == [];
  }

  lemma CommitOne(committed: map<TopicPartition, int>, r: Record)
    ensures CommitInto(committed, [r], {r.Source()}) == committed[r.Source() := r.offset + 1]
  {
    assert [r][1..] == [];
    assert CommitTarget([r], r.Source()) == Some(r.offset + 1);
    assert r in [r];
  }

  lemma CommitSecond(s: Cluster, c: Scene, rewind: Offsets)
    requires TwoRecords(c)
    ensures var a := Handled(s, c, Busy([], [c.r1], rewind));
            && Enabled(a, Commit(c.w, {c.Source()}))
            && Do(a, Commit(c.w, {c.Source()})) == Ending(s, c, rewind)
  {
    CommitOne(s.committed, c.r1);
    assert CommitInto(s.committed, [c.r1], {c.Source()}) == s.committed[c.Source() := 2];
  }

  /** The steps from the chunk that holds record 1 to a commit of offset 2. */
  ghost function Closing(c: Scene): seq<Step>
  {
    [HandleNext(c.w, Postgres.NO_FAULTS)] + ([HandleNext(c.w, Postgres.NO_FAULTS)] + ([Commit(c.w, {c.Source()})] + []))
  }

  lemma Closes(s: Cluster, c: Scene, chunk: FetchPartition, rewind: Offsets)
    requires TwoRecords(c) && chunk == FetchPartition(c.Source(), [c.r1], false)
    ensures Leads(Flying(s, c, 2, Busy([chunk], [], rewind)), Closing(c), Ending(s, c, rewind))
  {
    var end, empty := Ending(s, c, rewind), chunk.(records := []);
    HandleSecond(s, c, chunk, rewind);
    DropEmpty(s, c, empty, rewind);
    CommitSecond(s, c, rewind);
    assert Leads(end, [], end);
    Precede(Handled(s, c, Busy([], [c.r1], rewind)), Commit(c.w, {c.Source()}), [], end);
    Precede(Handled(s, c, Busy([empty], [c.r1], rewind)), HandleNext(c.w, Postgres.NO_FAULTS),
            [Commit(c.w, {c.Source()})] + [], end);
    Precede(Flying(s, c, 2, Busy([chunk], [], rewind)), HandleNext(c.w, Postgres.NO_FAULTS),
            [HandleNext(c.w, Postgres.NO_FAULTS)] + ([Commit(c.w, {c.Source()})] + []), end);
  }

  lemma EndingLoses(s: Cluster, c: Scene, arrive: Step, rewind: Offsets)
    requires Fits(s, c, arrive)
    ensures LostAt(Ending(s, c, rewind), c.Source(), 0)
  {
  }

  /** The log of the scene, read from record i on. */
  lemma SceneFetched(log: Log, c: Scene, i: nat, r: Record)
    requires c.Source() in log && log[c.Source()] == [c.r0, c.r1] && c.r0.offset == 0 && c.r1.offset == 1
    requires i < 2 && r == [c.r0, c.r1][i] && r.Source() == c.Source() && c.other != c.Source()
    ensures var f := FetchPartition(c.Source(), [r], false);
            && Consecutive([r], LogOf(log, c.Source()), i)
            && Advance(c.Positions(i), [f]) == c.Positions(i + 1)
            && Fetched(log, c.Positions(i), [f])
  {
    var own, f := [c.r0, c.r1], FetchPartition(c.Source(), [r], false);
    assert own[1..] == [c.r1] && Below([c.r1], i) == 0 && Below(own, i) == i;
    assert own[i..i + 1] == [r];
    AdvanceOne(c.Positions(i), f);
    assert [f][1..] == [];
  }

  /** Record 0 of the one partition beside a fetch error of the other. */
  ghost function BesideError(c: Scene): Fetches
  {
    [FetchPartition(c.Source(), [c.r0], false), FetchPartition(c.other, [], true)]
  }

  lemma FetchedBesideError(log: Log, c: Scene)
    requires c.Source() in log && log[c.Source()] == [c.r0, c.r1] && c.r0.offset == 0 && c.r1.offset == 1
    requires c.other != c.Source()
    ensures Fetched(log, c.Positions(0), BesideError(c))
    ensures Advance(c.Positions(0), BesideError(c)) == c.Positions(1)
  {
    var f, e := BesideError(c)[0], BesideError(c)[1];
    SceneFetched(log, c, 0, c.r0);
    AdvanceOne(c.Positions(0), f);
    assert BesideError(c)[1..] == [e] && [e][1..] == [];
    AdvanceOne(c.Positions(1), e);
    assert Consecutive([], LogOf(log, c.other), c.Positions(1)[c.other]);
    assert Fetched(log, c.Positions(1), [e]);
  }

  lemma PollBesideError(s: Cluster, c: Scene)
    requires TwoRecords(c)
    ensures var a := Flying(s, c, 0, Idle);
            && Enabled(a, Poll(c.w, BesideError(c)))
            && Do(a, Poll(c.w, BesideError(c))) == Flying(s, c, 1, Idle)
  {
    FetchedBesideError(Flying(s, c, 0, Idle).log, c);
    assert BesideError(c)[1] in BesideError(c);
  }

  lemma PollSecond(s: Cluster, c: Scene, good: Fetches)
    requires TwoRecords(c) && good == [FetchPartition(c.Source(), [c.r1], false)]
    ensures var a := Flying(s, c, 1, Idle);
            && Enabled(a, Poll(c.w, good))
            && Do(a, Poll(c.w, good)) == Flying(s, c, 2, Busy(good, [], map[]))
  {
    SceneFetched(Flying(s, c, 1, Idle).log, c, 1, c.r1);
    assert !FetchFailed(good);
  }

  ghost function Doubled(c: Scene): Fetches
  {
    [FetchPartition(c.Source(), [c.r0], false), FetchPartition(c.Source(), [c.r1], false)]
  }

  lemma FetchedDoubled(log: Log, c: Scene)
    requires c.Source() in log && log[c.Source()] == [c.r0, c.r1] && c.r0.offset == 0 && c.r1.offset == 1
    requires c.r1.Source() == c.Source() && c.other != c.Source()
    ensures Fetched(log, c.Positions(0), Doubled(c))
    ensures Advance(c.Positions(0), Doubled(c)) == c.Positions(2)
  {
    SceneFetched(log, c, 0, c.r0);
    SceneFetched(log, c, 1, c.r1);
    AdvanceOne(c.Positions(0), Doubled(c)[0]);
    assert Doubled(c)[1..] == [Doubled(c)[1]];
  }

  lemma PollDoubled(s: Cluster, c: Scene)
    requires TwoRecords(c)
    ensures var a := Flying(s, c, 0, Idle);
            && Enabled(a, Poll(c.w, Doubled(c)))
            && Do(a, Poll(c.w, Doubled(c))) == Flying(s, c, 2, Busy(Doubled(c), [], map[]))
  {
    FetchedDoubled(Flying(s, c, 0, Idle).log, c);
    assert !FetchFailed(Doubled(c));
  }

  /** The handler's answer to record 0 is an error that leaves the notification database alone. */
  ghost predicate FailsOn(s: Cluster, r: Record, faults: nat -> Postgres.Fault)
  {
    var out := T.Perform(Action(r), s.notif, 0, 0, faults);
    !out.ok && out.db == s.notif
  }

  ghost function BackToFirst(c: Scene): Offsets
  {
    map[c.Source() := EpochOffset(c.r0.leaderEpoch, 0)]
  }

  lemma FailedFlight(c: Scene)
    ensures Doubled(c) != [] && Doubled(c)[0].records == [c.r0]
    ensures TwoRecords(c) ==> Handle(Busy(Doubled(c), [], map[]), false) == Busy([Doubled(c)[1]], [], BackToFirst(c))
  {
    assert Doubled(c)[1..] == [Doubled(c)[1]];
  }

  lemma FailingStep(s: Cluster, w: nat, wk: Worker, faults: nat -> Postgres.Fault)
    requires w in s.workers && s.workers[w] == wk && wk.flight.Busy? && wk.flight.todo != []
    requires wk.flight.todo[0].records != [] && FailsOn(s, wk.flight.todo[0].records[0], faults)
    ensures Enabled(s, HandleNext(w, faults))
    ensures Do(s, HandleNext(w, faults)) == s.(workers := s.workers[w := wk.(flight := Handle(wk.flight, false))])
  {
  }

  lemma FailFirst(s: Cluster, c: Scene, faults: nat -> Postgres.Fault)
    requires TwoRecords(c) && FailsOn(s, c.r0, faults)
    ensures var a := Flying(s, c, 2, Busy(Doubled(c), [], map[]));
            && Enabled(a, HandleNext(c.w, faults))
            && Do(a, HandleNext(c.w, faults)) == Flying(s, c, 2, Busy([Doubled(c)[1]], [], BackToFirst(c)))
  {
    var flight := Busy(Doubled(c), [], map[]);
    FailedFlight(c);
    FailingStep(Flying(s, c, 2, flight), c.w, Worker(c.Positions(2), flight), faults);
  }

  ghost function SkippingRun(c: Scene, arrive: Step): seq<Step>
  {
    Opening(c, arrive, [Poll(c.w, BesideError(c))] +
                       ([Poll(c.w, [FetchPartition(c.Source(), [c.r1], false)])] + Closing(c)))
  }

  ghost function DoublingRun(c: Scene, arrive: Step, faults: nat -> Postgres.Fault): seq<Step>
  {
    Opening(c, arrive, [Poll(c.w, Doubled(c))] + ([HandleNext(c.w, faults)] + Closing(c)))
  }

  lemma SkippingLeads(s: Cluster, c: Scene, arrive: Step)
    requires Fits(s, c, arrive)
    ensures Leads(s, SkippingRun(c, arrive), Ending(s, c, map[]))
  {
    var good, end := [FetchPartition(c.Source(), [c.r1], false)], Ending(s, c, map[]);
    Closes(s, c, good[0], map[]);
    PollSecond(s, c, good);
    Precede(Flying(s, c, 1, Idle), Poll(c.w, good), Closing(c), end);
    PollBesideError(s, c);
    Precede(Flying(s, c, 0, Idle), Poll(c.w, BesideError(c)), [Poll(c.w, good)] + Closing(c), end);
    Opens(s, c, arrive, [Poll(c.w, BesideError(c))] + ([Poll(c.w, good)] + Closing(c)), end);
  }

  lemma DoublingLeads(s: Cluster, c: Scene, arrive: Step, faults: nat -> Postgres.Fault)
    requires Fits(s, c, arrive) && FailsOn(s, c.r0, faults)
    ensures Leads(s, DoublingRun(c, arrive, faults), Ending(s, c, BackToFirst(c)))
  {
    var end, polled := Ending(s, c, BackToFirst(c)), Flying(s, c, 2, Busy(Doubled(c), [], map[]));
    Closes(s, c, Doubled(c)[1], BackToFirst(c));
    FailFirst(s, c, faults);
    Precede(polled, HandleNext(c.w, faults), Closing(c), end);
    PollDoubled(s, c);
    Precede(Flying(s, c, 0, Idle), Poll(c.w, Doubled(c)), [HandleNext(c.w, faults)] + Closing(c), end);
    Opens(s, c, arrive, [Poll(c.w, Doubled(c))] + ([HandleNext(c.w, faults)] + Closing(c)), end);
  }

  /** Only two steps of these runs can be polls. */
  lemma TwoSteps(c: Scene, arrive: Step, a: Step, b: Step)
    requires !arrive.Poll?
    ensures var whole := Opening(c, arrive, [a] + ([b] + Closing(c)));
            && (OnceEach(a) && OnceEach(b) ==> NeverTwice(whole))
            && (NotBesideError(a) && NotBesideError(b) ==> NeverBesideErrors(whole))
  {
    var whole, closing := Opening(c, arrive, [a] + ([b] + Closing(c))), Closing(c);
    assert whole[4] == a && whole[5] == b && forall i :: 6 <= i < |whole| ==> whole[i] == closing[i - 6];
    assert forall i :: 0 <= i < |closing| ==> !closing[i].Poll?;
  }

  lemma SkippingNeverTwice(c: Scene, arrive: Step)
    requires !arrive.Poll? && c.other != c.Source()
    ensures NeverTwice(SkippingRun(c, arrive))
  {
    TwoSteps(c, arrive, Poll(c.w, BesideError(c)), Poll(c.w, [FetchPartition(c.Source(), [c.r1], false)]));
  }

  lemma DoublingNeverBesideErrors(c: Scene, arrive: Step, faults: nat -> Postgres.Fault)
    requires !arrive.Poll?
    ensures NeverBesideErrors(DoublingRun(c, arrive, faults))
  {
    assert !FetchFailed(Doubled(c));
    TwoSteps(c, arrive, Poll(c.w, Doubled(c)), HandleNext(c.w, faults));
  }

  /* ---------- from the empty system ---------- */

  function Plain(offset: int): Record
  {
    Record("other", 0, offset, 0, [], [])
  }

  /** A poll that reports an error beside record 0, then a poll of record 1: offset 2 is committed and record 0 is lost,
      although no partition was ever polled twice at once. */
  lemma RecordsBesideErrorsAreLost()
    ensures exists steps :: Runs(START, steps) && NeverTwice(steps) && Lost(After(START, steps))
  {
    var c := Scene(0, TopicPartition("other", 1), 0, Plain(0), Plain(1));
    var arrive := Foreign(c.r0);
    assert [] + [c.r0] == [c.r0];
    assert Fits(START, c, arrive);
    SkippingLeads(START, c, arrive);
    SkippingNeverTwice(c, arrive);
    EndingLoses(START, c, arrive, map[]);
    assert Runs(START, SkippingRun(c, arrive));
  }

  lemma EmptyTextIsRefused(r: Record)
    requires r.topic == T.ORDER_TOPIC && r.value == [] &&
             r.headers == [Header(T.HEADER_EVENT_TYPE, T.EVENT_TYPE_ORDER_CREATED)]
    ensures Action(r) == T.Refuse
  {
    HeaderMapLookup(r.headers, T.HEADER_EVENT_TYPE);
    assert OE.Decode([]) == None;
  }

  /** A record without headers is ignored. */
  lemma BareIsIgnored(r: Record)
    requires r.headers == []
    ensures Action(r) == T.Ignore
  {
    HeaderMapLookup([], T.HEADER_EVENT_TYPE);
  }

  /** One poll with record 0, which the handler refuses, and record 1 in two chunks of their partition: offset 2 is
      committed and record 0 is lost, although no poll ever reported an error. */
  lemma DoubledPartitionIsLost()
    ensures exists steps :: Runs(START, steps) && NeverBesideErrors(steps) && Lost(After(START, steps))
  {
    var r0 := Record(T.ORDER_TOPIC, 0, 0, 0, [Header(T.HEADER_EVENT_TYPE, T.EVENT_TYPE_ORDER_CREATED)], []);
    var r1 := Record(T.ORDER_TOPIC, 0, 1, 0, [], []);
    EmptyTextIsRefused(r0);
    BareIsIgnored(r1);
    DoubledRefusalIsLost(Scene(0, TopicPartition(T.ORDER_TOPIC, 1), 0, r0, r1));
  }

  lemma DoubledRefusalIsLost(c: Scene)
    requires c.from == 0 && c.other != c.Source() && c.r1.Source() == c.Source() && c.r0.offset == 0 && c.r1.offset == 1
    requires Action(c.r0) == T.Refuse && Action(c.r1) == T.Ignore
    ensures exists steps :: Runs(START, steps) && NeverBesideErrors(steps) && Lost(After(START, steps))
  {
    var arrive := Foreign(c.r0);
    assert [] + [c.r0] == [c.r0];
    assert Fits(START, c, arrive);
    DoublingLeads(START, c, arrive, Postgres.NO_FAULTS);
    DoublingNeverBesideErrors(c, arrive, Postgres.NO_FAULTS);
    EndingLoses(START, c, arrive, BackToFirst(c));
    assert Runs(START, DoublingRun(c, arrive, Postgres.NO_FAULTS));
  }

  /* ---------- from any state with an unrecorded event ---------- */

  ghost predicate BelowCommitted(s: Cluster, r: Record)
  {
    r.Source() in s.committed && r.offset < s.committed[r.Source()]
  }

  /** An event of the outbox that is recorded nowhere although a record carrying it lies below the committed offset. */
  ghost predicate Missed(s: Cluster, e: OS.OutboxRow)
  {
    && e in s.orders.outbox && EO.NotRecorded(s.notif, e.id)
    && exists r :: EO.InLog(s.log, r) && Carries(r, e) && BelowCommitted(s, r)
  }

  function CarrierOf(e: OS.OutboxRow, partition: int): Record
  {
    Record(e.aggregateType + TOPIC_SUFFIX, partition, 0, 0, [Header(TYPE_HEADER, e.eventType)], e.payload)
  }

  lemma CarrierCarries(e: OS.OutboxRow, partition: int)
    ensures Carries(CarrierOf(e, partition), e)
  {
  }

  lemma {:induction false} Above(s: set<int>) returns (m: nat)
    ensures forall x :: x in s ==> x < m
    decreases |s|
  {
    m := 0;
    if x :| x in s {
      var n := Above(s - {x});
      m := if x < n then n else if x < 0 then 0 else x + 1;
      assert forall y :: y in s ==> y == x || y in s - {x};
    }
  }

  /** A scene of the event's topic that is new to a state. */
  lemma NewScene(s: Cluster, e: OS.OutboxRow) returns (c: Scene)
    ensures c.r0 == CarrierOf(e, c.r0.partition) && c.r1 == Record(c.r0.topic, c.r0.partition, 1, 0, [], [])
    ensures c.Source() !in s.log && c.Source() !in s.committed && c.w !in s.workers && c.other != c.Source()
    ensures c.from == if c.other in s.committed then s.committed[c.other] else 0
  {
    var partitions := set tp | tp in s.log.Keys + s.committed.Keys :: tp.partition;
    var workers := set x | x in s.workers :: x as int;
    var q := Above(partitions);
    var w := Above(workers);
    var topic := e.aggregateType + TOPIC_SUFFIX;
    var tp, other := TopicPartition(topic, q), TopicPartition(topic, q + 1);
    c := Scene(w, other, if other in s.committed then s.committed[other] else 0, CarrierOf(e, q),
               Record(topic, q, 1, 0, [], []));
    assert tp in s.log.Keys + s.committed.Keys ==> tp.partition in partitions;
    assert w in s.workers ==> w as int in workers;
    assert c.Source() == tp;
  }

  lemma SceneFits(s: Cluster, e: OS.OutboxRow, c: Scene)
    requires EO.Effects(s) && e in s.orders.outbox
    requires c.r0 == CarrierOf(e, c.r0.partition) && c.r1 == Record(c.r0.topic, c.r0.partition, 1, 0, [], [])
    requires c.Source() !in s.log && c.Source() !in s.committed && c.w !in s.workers && c.other != c.Source()
    requires c.from == if c.other in s.committed then s.committed[c.other] else 0
    ensures Fits(s, c, Publish(e, c.r0))
  {
    CarrierCarries(e, c.r0.partition);
    BareIsIgnored(c.r1);
    assert LogOf(s.log, c.Source()) == [] && [] + [c.r0] == [c.r0];
    assert !EO.Logged(s.log, c.Source(), 0);
  }

  lemma EndingMisses(s: Cluster, e: OS.OutboxRow, c: Scene, rewind: Offsets)
    requires EO.Effects(s) && e in s.orders.outbox && !N.Claimed(s.notif, e.id)
    requires Carries(c.r0, e) && Fits(s, c, Publish(e, c.r0))
    ensures Missed(Ending(s, c, rewind), e)
  {
    var end := Ending(s, c, rewind);
    EO.UnclaimedIsNotRecorded(s.notif, e.id);
    assert LogOf(end.log, c.r0.Source())[0] == c.r0;
    assert EO.InLog(end.log, c.r0);
  }

  /** Continuing a run by `more` leaves the event missed. */
  ghost predicate Misses(steps: seq<Step>, more: seq<Step>, e: OS.OutboxRow)
  {
    Runs(START, steps + more) && Missed(After(START, steps + more), e)
  }

  /** In any good state an unrecorded event can be missed without ever polling a partition twice at once. */
  lemma SkipEvent(s: Cluster, e: OS.OutboxRow) returns (more: seq<Step>, end: Cluster)
    requires EO.Effects(s) && e in s.orders.outbox && !N.Claimed(s.notif, e.id)
    ensures NeverTwice(more) && Leads(s, more, end) && Missed(end, e)
  {
    var c := NewScene(s, e);
    var arrive := Publish(e, c.r0);
    CarrierCarries(e, c.r0.partition);
    SceneFits(s, e, c);
    SkippingLeads(s, c, arrive);
    SkippingNeverTwice(c, arrive);
    EndingMisses(s, e, c, map[]);
    more, end := SkippingRun(c, arrive), Ending(s, c, map[]);
  }

  lemma ReachedEffects(steps: seq<Step>)
    requires Runs(START, steps)
    ensures EO.Effects(After(START, steps))
  {
    EO.RunKeepsEffects(START, steps);
  }

  /** Exactly once needs the hypothesis on errors: any run that has left an event unrecorded can go on, without ever
      polling a partition twice at once, so that the event is missed below the committed offset. */
  lemma EventsBesideErrorsAreMissed(steps: seq<Step>, e: OS.OutboxRow) returns (more: seq<Step>)
    requires Runs(START, steps) && e in After(START, steps).orders.outbox && !N.Claimed(After(START, steps).notif, e.id)
    ensures NeverTwice(more) && Misses(steps, more, e)
  {
    ReachedEffects(steps);
    var end;
    more, end := SkipEvent(After(START, steps), e);
    LeadsOn(START, steps, more, end);
  }

  lemma StoreFailsWhenBroken(s: Cluster, r: Record)
    requires Action(r).Store?
    ensures FailsOn(s, r, Postgres.ALL_BROKEN)
  {
  }

  /** The same without ever polling records beside an error. */
  lemma DoubleEvent(s: Cluster, e: OS.OutboxRow) returns (more: seq<Step>, end: Cluster)
    requires EO.Effects(s) && e in s.orders.outbox && !N.Claimed(s.notif, e.id)
    ensures NeverBesideErrors(more) && Leads(s, more, end) && Missed(end, e)
  {
    var c := NewScene(s, e);
    var arrive := Publish(e, c.r0);
    CarrierCarries(e, c.r0.partition);
    SceneFits(s, e, c);
    EO.CarrierIsStored(c.r0, e);
    StoreFailsWhenBroken(s, c.r0);
    DoublingLeads(s, c, arrive, Postgres.ALL_BROKEN);
    DoublingNeverBesideErrors(c, arrive, Postgres.ALL_BROKEN);
    EndingMisses(s, e, c, BackToFirst(c));
    more, end := DoublingRun(c, arrive, Postgres.ALL_BROKEN), Ending(s, c, BackToFirst(c));
  }

  /** It needs the hypothesis on partitions as well: the same without ever polling records beside an error. */
  lemma EventsInDoubledPartitionsAreMissed(steps: seq<Step>, e: OS.OutboxRow) returns (more: seq<Step>)
    requires Runs(START, steps) && e in After(START, steps).orders.outbox && !N.Claimed(After(START, steps).notif, e.id)
    ensures NeverBesideErrors(more) && Misses(steps, more, e)
  {
    ReachedEffects(steps);
    var end;
    more, end := DoubleEvent(After(START, steps), e);
    LeadsOn(START, steps, more, end);
  }

  /** Such runs exist: one CreateOrder call leaves an unrecorded event. */
  lemma UnrecordedEventExists() returns (steps: seq<Step>, e: OS.OutboxRow)
    ensures Runs(START, steps) && e in After(START, steps).orders.outbox && !N.Claimed(After(START, steps).notif, e.id)
    ensures NeverTwice(steps) && NeverBesideErrors(steps)
  {
    var sale := OC.SellableExists();
    OC.OverflowingOrderIsStored(sale);
    var call := OC.BulkCall(sale);
    e := OS.EventOf(OC.BulkOrder(sale), sale.eventId);
    steps := [Create(call)];
    var s := START.(orders := OC.After(OC.EMPTY, call));
    assert Do(START, Create(call)) == s;
    assert Leads(s, [], s);
    Precede(START, Create(call), [], s);
    assert [Create(call)] + [] == steps;
    assert e in s.orders.outbox;
  }

  lemma NeverTwiceConcat(a: seq<Step>, b: seq<Step>)
    ensures NeverTwice(a) && NeverTwice(b) ==> NeverTwice(a + b)
    ensures NeverBesideErrors(a) && NeverBesideErrors(b) ==> NeverBesideErrors(a + b)
  {
  }

  lemma MissedBesideErrors() returns (steps: seq<Step>, e: OS.OutboxRow)
    ensures Runs(START, steps) && NeverTwice(steps) && Missed(After(START, steps), e)
  {
    var before;
    before, e := UnrecordedEventExists();
    var more := EventsBesideErrorsAreMissed(before, e);
    steps := before + more;
    NeverTwiceConcat(before, more);
  }

  lemma MissedInDoubledPartition() returns (steps: seq<Step>, e: OS.OutboxRow)
    ensures Runs(START, steps) && NeverBesideErrors(steps) && Missed(After(START, steps), e)
  {
    var before;
    before, e := UnrecordedEventExists();
    var more := EventsInDoubledPartitionsAreMissed(before, e);
    steps := before + more;
    NeverTwiceConcat(before, more);
  }

  /** Without either hypothesis "exactly once below the committed offset" fails from the empty system. */
  lemma ExactlyOnceNeedsBothHypotheses()
    ensures exists steps, e :: Runs(START, steps) && NeverTwice(steps) && Missed(After(START, steps), e)
    ensures exists steps, e :: Runs(START, steps) && NeverBesideErrors(steps) && Missed(After(START, steps), e)
  {
    var a, d := MissedBesideErrors();
    var b, e := MissedInDoubledPartition();
  }
}
