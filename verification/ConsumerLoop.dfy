/**
 The objects of platform/kafka/kafkaconsumer/kafkaconsumer.go: a client with fetch positions and committed offsets, a
 handler, and the consumer whose `Process` and `Run` drive them.  What the environment does (results of polls, which
 commits land, whether the wait is cancelled) is a script; `Run` is proved against the fold `RunAll` of that script.
 */
module ConsumerLoop {
  import opened Consumer

  /** One turn of the loop as the environment plays it. */
  datatype Turn = Turn(fetches: Fetches,               // what PollRecords returns
                       closed: bool,                   // ctx cancelled or client closed
                       landed: set<TopicPartition>,    // partitions whose commit takes effect
                       commitFails: bool,              // CommitRecords reports an error
                       cancelled: bool)                // the wait ends with a cancelled context

  datatype LoopState = LoopState(position: map<TopicPartition, int>, committed: map<TopicPartition, int>,
                                 called: seq<Record>, reported: nat)

  /** The positions after a poll: one past the last record returned for each partition. */
  function Advance(position: map<TopicPartition, int>, fetches: Fetches): map<TopicPartition, int>
    decreases |fetches|
  {
    if fetches == [] then position
    else
      var f := fetches[0];
      Advance(if f.records == [] then position else position[f.source := f.records[|f.records| - 1].offset + 1],
              fetches[1..])
  }

  /** SetOffsets moves the fetch position of the partitions it is given. */
  function Seek(position: map<TopicPartition, int>, rewind: Offsets): map<TopicPartition, int>
  {
    map tp | tp in position :: if tp in rewind then rewind[tp].offset else position[tp]
  }

  function FetchFailed(fetches: Fetches): bool
  {
    exists f :: f in fetches && f.failed
  }

  /** The effect of a process call with outcome `o`: commit what was handled, go back where a record failed. */
  function Processed(st: LoopState, t: Turn, o: Outcome): LoopState
  {
    LoopState(Seek(st.position, o.rewind),
              CommitInto(st.committed, o.processed, t.landed),
              st.called + o.called,
              st.reported + if t.commitFails && o.processed != [] then 1 else 0)
  }

  /** One turn that is not cut short: skip a failed poll, otherwise process it. */
  function Play(st: LoopState, t: Turn, answers: Answers): LoopState
  {
    var polled := st.(position := Advance(st.position, t.fetches));
    if FetchFailed(t.fetches) then polled.(reported := st.reported + 1)
    else Processed(polled, t, Process(t.fetches, answers, |st.called|))
  }

  function WaitsAfter(st: LoopState, t: Turn, answers: Answers): bool
  {
    FetchFailed(t.fetches) || Process(t.fetches, answers, |st.called|).rewind != map[]
  }

  function RunAll(st: LoopState, script: seq<Turn>, answers: Answers): LoopState
    decreases |script|
  {
    if script == [] then st
    else
      var t := script[0];
      if t.closed then st.(position := Advance(st.position, t.fetches))
      else if WaitsAfter(st, t, answers) && t.cancelled then Play(st, t, answers)
      else RunAll(Play(st, t, answers), script[1..], answers)
  }

  /* ---------- objects ---------- */

  class Handler {
    const answers: Answers
    var called: seq<Record>

    constructor (answers: Answers)
      ensures this.answers == answers && called == []
    {
      this.answers := answers;
      called := [];
    }

    method Handle(rec: Record) returns (ok: bool)
      modifies this
      ensures called == old(called) + [rec] && ok == answers(|old(called)|)
    {
      ok := answers(|called|);
      called := called + [rec];
    }
  }

  /** A rewind map as the source builds it, by topic and then by partition. */
  type NestedOffsets = map<string, map<int, EpochOffset>>

  ghost predicate Represents(nested: NestedOffsets, flat: Offsets)
  {
    && (forall t, p :: t in nested && p in nested[t] <==> TopicPartition(t, p) in flat)
    && (forall t, p :: t in nested && p in nested[t] ==> nested[t][p] == flat[TopicPartition(t, p)])
    && (forall t :: t in nested ==> exists p :: p in nested[t])
  }

  class Client {
    var position: map<TopicPartition, int>
    var committed: map<TopicPartition, int>

    constructor (position: map<TopicPartition, int>, committed: map<TopicPartition, int>)
      ensures this.position == position && this.committed == committed
    {
      this.position, this.committed := position, committed;
    }

    method PollRecords(t: Turn) returns (fetches: Fetches)
      modifies this`position
      ensures fetches == t.fetches && position == Advance(old(position), fetches)
    {
      fetches := t.fetches;
      for i := 0 to |fetches|
        invariant Advance(position, fetches[i..]) == Advance(old(position), fetches)
      {
        var f := fetches[i];
        assert fetches[i..][0] == f && fetches[i..][1..] == fetches[i + 1..];
        if f.records != [] {
          position := position[f.source := f.records[|f.records| - 1].offset + 1];
        }
      }
    }

    method CommitRecords(t: Turn, records: seq<Record>) returns (failed: bool)
      modifies this`committed
      ensures committed == CommitInto(old(committed), records, t.landed) && failed == t.commitFails
    {
      committed := CommitInto(committed, records, t.landed);
      failed := t.commitFails;
    }

    method SetOffsets(rewind: NestedOffsets, ghost flat: Offsets)
      requires Represents(rewind, flat)
      modifies this`position
      ensures position == Seek(old(position), flat)
    {
      position := map tp | tp in position ::
        if tp.topic in rewind && tp.partition in rewind[tp.topic] then rewind[tp.topic][tp.partition].offset
        else position[tp];
      assert forall tp: TopicPartition :: tp == TopicPartition(tp.topic, tp.partition);
    }
  }

  lemma {:induction false} PrefixLengthIs(len: nat, answers: Answers, k: nat, n: nat)
    requires n <= len && forall m: nat :: k <= m < k + n ==> answers(m)
    requires n < len ==> !answers(k + n)
    ensures PrefixLength(len, answers, k) == n
    decreases n
  {
    if n > 0 {
      assert answers(k);
      PrefixLengthIs(len - 1, answers, k + 1, n - 1);
    }
  }

  /** The rewind map after a chunk that stopped after `n` records. */
  function Overwrite(flat: Offsets, records: seq<Record>, n: nat): Offsets
    requires n <= |records|
  {
    if n < |records| then flat[records[n].Source() := EpochOffset(records[n].leaderEpoch, records[n].offset)] else flat
  }

  lemma UnfoldAt(fetches: Fetches, i: nat, answers: Answers, k: nat)
    requires i < |fetches|
    ensures var len := |fetches[i].records|;
            var n, c := PrefixLength(len, answers, k), CallCount(len, answers, k);
            Consumer.Process(fetches[i..], answers, k) ==
            Prepend(fetches[i].records, n, c, Consumer.Process(fetches[i + 1..], answers, k + c))
  {
    assert fetches[i..][0] == fetches[i] && fetches[i..][1..] == fetches[i + 1..];
  }

  /** What a process call has done so far (`called`, `processed`, `flat`) and what the remaining chunks will do (`rest`)
      make up the whole outcome `o`. */
  ghost predicate Extends(before: seq<Record>, called: seq<Record>, processed: seq<Record>, flat: Offsets,
                          rest: Outcome, o: Outcome)
  {
    && called + rest.called == before + o.called
    && processed + rest.processed == o.processed
    && flat + rest.rewind == o.rewind
  }

  lemma ExtendsByChunk(before: seq<Record>, called: seq<Record>, processed: seq<Record>, flat: Offsets,
                       records: seq<Record>, n: nat, c: nat, rest: Outcome, whole: Outcome, o: Outcome)
    requires n <= |records| && c <= |records| && whole == Prepend(records, n, c, rest)
    requires Extends(before, called, processed, flat, whole, o)
    ensures Extends(before, called + records[..c], processed + records[..n], Overwrite(flat, records, n), rest, o)
  {
    assert called + (records[..c] + rest.called) == (called + records[..c]) + rest.called;
    assert processed + (records[..n] + rest.processed) == (processed + records[..n]) + rest.processed;
    MergeRewind(flat, records, n, rest.rewind);
  }

  lemma ChunkStep(fetches: Fetches, i: nat, answers: Answers,
                  before: seq<Record>, called: seq<Record>, processed: seq<Record>, flat: Offsets, o: Outcome)
    requires i < |fetches|
    requires Extends(before, called, processed, flat, Consumer.Process(fetches[i..], answers, |called|), o)
    ensures var records := fetches[i].records;
            var n, c := PrefixLength(|records|, answers, |called|), CallCount(|records|, answers, |called|);
            Extends(before, called + records[..c], processed + records[..n], Overwrite(flat, records, n),
                    Consumer.Process(fetches[i + 1..], answers, |called + records[..c]|), o)
  {
    var records := fetches[i].records;
    var n, c := PrefixLength(|records|, answers, |called|), CallCount(|records|, answers, |called|);
    var next := |called + records[..c]|;
    assert next == |called| + c;
    UnfoldAt(fetches, i, answers, |called|);
    ExtendsByChunk(before, called, processed, flat, records, n, c, Consumer.Process(fetches[i + 1..], answers, next),
                   Consumer.Process(fetches[i..], answers, |called|), o);
  }

  lemma NoEntries(nested: NestedOffsets, flat: Offsets)
    requires Represents(nested, flat)
    ensures |nested| > 0 <==> flat != map[]
  {
    if |nested| > 0 {
      var topic :| topic in nested;
      var p :| p in nested[topic];
      assert TopicPartition(topic, p) in flat;
    }
    if flat != map[] {
      var tp :| tp in flat;
      assert tp == TopicPartition(tp.topic, tp.partition);
      assert tp.topic in nested;
    }
  }

  lemma MergeRewind(flat: Offsets, records: seq<Record>, n: nat, later: Offsets)
    requires n <= |records|
    ensures n == |records| ==> AddRewind(records, n, later) == later
    ensures n < |records| ==>
              flat + AddRewind(records, n, later) ==
              flat[records[n].Source() := EpochOffset(records[n].leaderEpoch, records[n].offset)] + later
  {
  }

  class KafkaConsumer {
    const client: Client
    var reported: nat     // calls of onError

    constructor (client: Client)
      ensures this.client == client && reported == 0
    {
      this.client := client;
      reported := 0;
    }

    /** The state the loop works on. */
    ghost function State(h: Handler): LoopState
      reads this, client, h
    {
      LoopState(client.position, client.committed, h.called, reported)
    }

    /** The closure handed to EachPartition: handle records until one fails, remember what succeeded and where to go
        back to. */
    method HandlePartition(records: seq<Record>, h: Handler, processed0: seq<Record>, rewind0: NestedOffsets,
                           ghost flat0: Offsets)
      returns (processed: seq<Record>, rewind: NestedOffsets)
      requires Represents(rewind0, flat0)
      modifies h
      ensures var n, c := PrefixLength(|records|, h.answers, |old(h.called)|),
                          CallCount(|records|, h.answers, |old(h.called)|);
              && h.called == old(h.called) + records[..c]
              && processed == processed0 + records[..n]
              && Represents(rewind, Overwrite(flat0, records, n))
    {
      processed, rewind := processed0, rewind0;
      ghost var k := |h.called|;
      for j := 0 to |records|
        invariant rewind == rewind0
        invariant h.called == old(h.called) + records[..j] && processed == processed0 + records[..j]
        invariant forall m: nat :: k <= m < k + j ==> h.answers(m)
      {
        var rec := records[j];
        assert records[..j + 1] == records[..j] + [rec];
        var ok := h.Handle(rec);
        if !ok {
          PrefixLengthIs(|records|, h.answers, k, j);
          rewind := Remember(rewind, flat0, rec);
          return;
        }
        processed := processed + [rec];
      }
      PrefixLengthIs(|records|, h.answers, k, |records|);
    }

    method Remember(rewind0: NestedOffsets, ghost flat0: Offsets, rec: Record) returns (rewind: NestedOffsets)
      requires Represents(rewind0, flat0)
      ensures Represents(rewind, flat0[rec.Source() := EpochOffset(rec.leaderEpoch, rec.offset)])
    {
      rewind := rewind0;
      if rec.topic !in rewind {
        rewind := rewind[rec.topic := map[]];
      }
      rewind := rewind[rec.topic := rewind[rec.topic][rec.partition := EpochOffset(rec.leaderEpoch, rec.offset)]];
      assert rec.partition in rewind[rec.topic];
    }

    /** EachPartition: run the closure on every chunk of the poll. */
    method EachPartition(fetches: Fetches, h: Handler) returns (processed: seq<Record>, rewind: NestedOffsets)
      modifies h
      ensures var o := Consumer.Process(fetches, h.answers, |old(h.called)|);
              && h.called == old(h.called) + o.called && processed == o.processed
              && Represents(rewind, o.rewind)
    {
      processed, rewind := [], map[];
      ghost var flat: Offsets := map[];
      ghost var o := Consumer.Process(fetches, h.answers, |h.called|);
      assert fetches[0..] == fetches;
      for i := 0 to |fetches|
        invariant Represents(rewind, flat)
        invariant Extends(old(h.called), h.called, processed, flat,
                          Consumer.Process(fetches[i..], h.answers, |h.called|), o)
      {
        ChunkStep(fetches, i, h.answers, old(h.called), h.called, processed, flat, o);
        ghost var n := PrefixLength(|fetches[i].records|, h.answers, |h.called|);
        processed, rewind := HandlePartition(fetches[i].records, h, processed, rewind, flat);
        flat := Overwrite(flat, fetches[i].records, n);
      }
      assert fetches[|fetches|..] == [];
      assert flat + map[] == flat;
    }

    method Process(t: Turn, fetches: Fetches, h: Handler) returns (rewound: bool)
      modifies client, h, this`reported
      ensures State(h) == Processed(old(State(h)), t, Consumer.Process(fetches, h.answers, |old(h.called)|))
      ensures rewound == (Consumer.Process(fetches, h.answers, |old(h.called)|).rewind != map[])
    {
      ghost var o := Consumer.Process(fetches, h.answers, |h.called|);
      var processed, rewind := EachPartition(fetches, h);
      Commit(t, processed);
      rewound := Rewind(rewind, o.rewind);
    }

    method Commit(t: Turn, processed: seq<Record>)
      modifies client`committed, this`reported
      ensures client.committed == CommitInto(old(client.committed), processed, t.landed)
      ensures reported == old(reported) + if t.commitFails && processed != [] then 1 else 0
    {
      if |processed| > 0 {
        var failed := client.CommitRecords(t, processed);
        if failed {
          reported := reported + 1;
        }
      } else {
        assert CommitInto(client.committed, processed, t.landed) == client.committed;
      }
    }

    method Rewind(rewind: NestedOffsets, ghost flat: Offsets) returns (rewound: bool)
      requires Represents(rewind, flat)
      modifies client`position
      ensures client.position == Seek(old(client.position), flat) && rewound == (flat != map[])
    {
      NoEntries(rewind, flat);
      if |rewind| > 0 {
        client.SetOffsets(rewind, flat);
      } else {
        assert Seek(client.position, flat) == client.position;
      }
      rewound := |rewind| > 0;
    }

    /** One iteration of the loop; false when Run returns. */
    method PlayTurn(t: Turn, h: Handler) returns (goOn: bool)
      modifies client, h, this`reported
      ensures State(h) == if t.closed then old(State(h)).(position := Advance(old(client.position), t.fetches))
                          else Play(old(State(h)), t, h.answers)
      ensures goOn == (!t.closed && !(WaitsAfter(old(State(h)), t, h.answers) && t.cancelled))
    {
      var fetches := client.PollRecords(t);
      if t.closed {
        return false;
      }
      if FetchFailed(fetches) {
        reported := reported + 1;
        return !t.cancelled;
      }
      var rewound := Process(t, fetches, h);
      return !(rewound && t.cancelled);
    }

    method Run(script: seq<Turn>, h: Handler)
      modifies client, h, this`reported
      ensures State(h) == RunAll(old(State(h)), script, h.answers)
    {
      var i := 0;
      assert script[0..] == script;
      while i < |script|
        invariant i <= |script|
        invariant RunAll(State(h), script[i..], h.answers) == RunAll(old(State(h)), script, h.answers)
      {
        assert script[i..][0] == script[i] && script[i..][1..] == script[i + 1..];
        var goOn := PlayTurn(script[i], h);
        if !goOn {
          return;
        }
        i := i + 1;
      }
    }
  }
}
