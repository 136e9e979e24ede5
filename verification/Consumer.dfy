/**
 The Kafka consumer of platform/kafka/kafkaconsumer.

 `Outcome` is the specification of one `process` call: what is handled, what is committed and what is rewound.  The
 class methods are proved against it; its own meaning is given by the lemmas that follow it.
 */
module Consumer {
  import opened Prelude

  datatype TopicPartition = TopicPartition(topic: string, partition: int)

  datatype Header = Header(key: string, value: string)

  datatype Record = Record(topic: string, partition: int, offset: int, leaderEpoch: int,
                           headers: seq<Header>, value: bytes)
  {
    function Source(): TopicPartition { TopicPartition(topic, partition) }
  }

  /** One partition of a poll; `failed` is the fetch error of that partition. */
  datatype FetchPartition = FetchPartition(source: TopicPartition, records: seq<Record>, failed: bool)

  type Fetches = seq<FetchPartition>

  datatype EpochOffset = EpochOffset(epoch: int, offset: int)

  type Offsets = map<TopicPartition, EpochOffset>

  type Answers = nat -> bool   // does the k-th handler call return nil?

  /* ---------- message.go ---------- */

  datatype Message = Message(topic: string, partition: int, offset: int, value: bytes, headers: map<string, string>)

  /** The value a Go map lookup would find: the first header with that key. */
  function FirstHeader(headers: seq<Header>, key: string): Option<string>
  {
    if headers == [] then None
    else if headers[0].key == key then Some(headers[0].value)
    else FirstHeader(headers[1..], key)
  }

  lemma {:induction false} FirstHeaderAppend(headers: seq<Header>, h: Header, key: string)
    ensures FirstHeader(headers + [h], key) ==
            if FirstHeader(headers, key).Some? then FirstHeader(headers, key)
            else if h.key == key then Some(h.value) else None
  {
    if headers != [] {
      assert (headers + [h])[1..] == headers[1..] + [h];
      FirstHeaderAppend(headers[1..], h, key);
    } else {
      assert ([h])[1..] == [];
    }
  }

  function MessageOf(rec: Record): Message
  {
    Message(rec.topic, rec.partition, rec.offset, rec.value, HeaderMap(rec.headers))
  }

  function HeaderMap(headers: seq<Header>): map<string, string>
  {
    map key | key in (set h | h in headers :: h.key) && FirstHeader(headers, key).Some? ::
      FirstHeader(headers, key).value
  }

  lemma {:induction false} HeaderMapLookup(headers: seq<Header>, key: string)
    ensures (if key in HeaderMap(headers) then Some(HeaderMap(headers)[key]) else None) == FirstHeader(headers, key)
  {
    if headers != [] && headers[0].key != key {
      HeaderMapLookup(headers[1..], key);
      assert forall h :: h in headers[1..] ==> h in headers;
    }
  }

  method ToMessage(rec: Record) returns (m: Message)
    ensures m == MessageOf(rec)
  {
    var headers: map<string, string> := map[];
    for i := 0 to |rec.headers|
      invariant forall key ::
                  (if key in headers then Some(headers[key]) else None) == FirstHeader(rec.headers[..i], key)
    {
      var h := rec.headers[i];
      ghost var before := headers;
      assert rec.headers[..i + 1] == rec.headers[..i] + [h];
      if h.key !in headers {
        headers := headers[h.key := h.value];
      }
      forall key
        ensures (if key in headers then Some(headers[key]) else None) == FirstHeader(rec.headers[..i + 1], key)
      {
        FirstHeaderAppend(rec.headers[..i], h, key);
        assert (if key in before then Some(before[key]) else None) == FirstHeader(rec.headers[..i], key);
      }
    }
    assert rec.headers[..|rec.headers|] == rec.headers;
    forall key ensures (key in headers <==> key in HeaderMap(rec.headers)) &&
                       (key in headers ==> headers[key] == HeaderMap(rec.headers)[key])
    {
      HeaderMapLookup(rec.headers, key);
      assert (if key in headers then Some(headers[key]) else None) == FirstHeader(rec.headers, key);
    }
    assert headers == HeaderMap(rec.headers);
    return Message(rec.topic, rec.partition, rec.offset, rec.value, headers);
  }

  /* ---------- the specification of process ---------- */

  /** Of `len` records to be handled from call number `k` on: how many calls succeed before the first that fails. */
  function PrefixLength(len: nat, answers: Answers, k: nat): (n: nat)
    ensures n <= len
    ensures forall m: nat :: k <= m < k + n ==> answers(m)
    ensures n < len ==> !answers(k + n)
    decreases len
  {
    if len == 0 || !answers(k) then 0 else 1 + PrefixLength(len - 1, answers, k + 1)
  }

  /** Handler calls spent on them: the successful prefix and the failing record, if there is one. */
  function CallCount(len: nat, answers: Answers, k: nat): (n: nat)
    ensures n <= len
  {
    var n := PrefixLength(len, answers, k);
    if n < len then n + 1 else n
  }

  datatype Outcome = Outcome(called: seq<Record>, processed: seq<Record>, rewind: Offsets)

  /** The rewind map of a poll whose first chunk stopped after `n` records: `rewind` is written chunk by chunk, so an
      entry made by a later chunk of the same partition replaces an earlier one. */
  function AddRewind(records: seq<Record>, n: nat, later: Offsets): Offsets
    requires n <= |records|
  {
    if n < |records| && records[n].Source() !in later
    then later[records[n].Source() := EpochOffset(records[n].leaderEpoch, records[n].offset)]
    else later
  }

  function Process(fetches: Fetches, answers: Answers, k: nat): Outcome
  {
    if fetches == [] then Outcome([], [], map[])
    else
      var records := fetches[0].records;
      var n := PrefixLength(|records|, answers, k);
      var c := CallCount(|records|, answers, k);
      Prepend(records, n, c, Process(fetches[1..], answers, k + c))
  }

  function Prepend(records: seq<Record>, n: nat, c: nat, rest: Outcome): Outcome
    requires n <= |records| && c <= |records|
  {
    Outcome(records[..c] + rest.called, records[..n] + rest.processed, AddRewind(records, n, rest.rewind))
  }

  /** CommitRecords: per partition, one past the highest of the given offsets. */
  function CommitTarget(records: seq<Record>, tp: TopicPartition): Option<int>
  {
    if records == [] then None
    else
      var rest := CommitTarget(records[1..], tp);
      if records[0].Source() != tp then rest
      else if rest.Some? && rest.value > records[0].offset + 1 then rest
      else Some(records[0].offset + 1)
  }

  /** The committed offsets after a commit request of which only the partitions in `landed` take effect. */
  function CommitInto(committed: map<TopicPartition, int>, records: seq<Record>, landed: set<TopicPartition>)
    : map<TopicPartition, int>
  {
    map tp | tp in committed.Keys + (set r | r in records :: r.Source()) &&
             (tp in committed || (tp in landed && CommitTarget(records, tp).Some?)) ::
      if tp in landed && CommitTarget(records, tp).Some? then CommitTarget(records, tp).value else committed[tp]
  }

  /* ---------- what the specification means ---------- */

  /** Records of one partition, in order. */
  function Of(records: seq<Record>, tp: TopicPartition): seq<Record>
  {
    if records == [] then []
    else (if records[0].Source() == tp then [records[0]] else []) + Of(records[1..], tp)
  }

  ghost predicate Belongs(records: seq<Record>, tp: TopicPartition)
  {
    forall r :: r in records ==> r.Source() == tp
  }

  ghost predicate Foreign(records: seq<Record>, tp: TopicPartition)
  {
    forall r :: r in records ==> r.Source() != tp
  }

  ghost predicate Increasing(records: seq<Record>)
  {
    forall i, j :: 0 <= i < j < |records| ==> records[i].offset < records[j].offset
  }

  /** A poll as franz-go groups it: each chunk holds records of its own partition. */
  ghost predicate WellGrouped(fetches: Fetches)
  {
    forall i :: 0 <= i < |fetches| ==> Belongs(fetches[i].records, fetches[i].source)
  }

  /** No other chunk of the poll holds records of chunk i's partition. */
  ghost predicate Alone(fetches: Fetches, i: nat)
    requires i < |fetches|
  {
    forall j :: 0 <= j < |fetches| && j != i && fetches[j].source == fetches[i].source ==> fetches[j].records == []
  }

  /** No chunk of the poll holds records of the partition. */
  ghost predicate WithoutRecords(fetches: Fetches, tp: TopicPartition)
  {
    forall i :: 0 <= i < |fetches| && fetches[i].source == tp ==> fetches[i].records == []
  }

  /** No partition has two chunks with records. */
  ghost predicate DistinctChunks(fetches: Fetches)
  {
    forall i, j :: 0 <= i < j < |fetches| && fetches[i].records != [] && fetches[j].records != [] ==>
      fetches[i].source != fetches[j].source
  }

  ghost predicate NoRecords(fetches: Fetches)
  {
    forall i :: 0 <= i < |fetches| ==> fetches[i].records == []
  }

  lemma {:induction false} OfConcat(a: seq<Record>, b: seq<Record>, tp: TopicPartition)
    ensures Of(a + b, tp) == Of(a, tp) + Of(b, tp)
  {
    if a == [] {
      assert a + b == b;
    } else {
      assert (a + b)[1..] == a[1..] + b;
      OfConcat(a[1..], b, tp);
    }
  }

  lemma {:induction false} OfOwn(records: seq<Record>, tp: TopicPartition)
    requires Belongs(records, tp)
    ensures Of(records, tp) == records
  {
    if records != [] {
      assert forall r :: r in records[1..] ==> r in records;
      OfOwn(records[1..], tp);
    }
  }

  lemma {:induction false} OfForeign(records: seq<Record>, tp: TopicPartition)
    requires forall r :: r in records ==> r.Source() != tp
    ensures Of(records, tp) == []
  {
    if records != [] {
      assert forall r :: r in records[1..] ==> r in records;
      OfForeign(records[1..], tp);
    }
  }

  /** CommitTarget only looks at the partition's own records, and on increasing records it is the last offset + 1. */
  lemma {:induction false} CommitTargetOf(records: seq<Record>, tp: TopicPartition)
    ensures CommitTarget(records, tp) == CommitTarget(Of(records, tp), tp)
  {
    if records != [] {
      CommitTargetOf(records[1..], tp);
      if records[0].Source() == tp {
        var own := Of(records, tp);
        assert own[0] == records[0] && own[1..] == Of(records[1..], tp);
      } else {
        assert Of(records, tp) == Of(records[1..], tp);
      }
    }
  }

  lemma {:induction false} CommitTargetLast(records: seq<Record>, tp: TopicPartition)
    requires Belongs(records, tp) && Increasing(records)
    ensures CommitTarget(records, tp) ==
            if records == [] then None else Some(records[|records| - 1].offset + 1)
  {
    if |records| > 1 {
      assert forall r :: r in records[1..] ==> r in records;
      CommitTargetLast(records[1..], tp);
    } else if |records| == 1 {
      assert records[1..] == [];
    }
  }

  /** Number of the first handler call spent on chunk i. */
  function FirstCall(fetches: Fetches, answers: Answers, k: nat, i: nat): nat
    requires i <= |fetches|
  {
    if i == 0 then k
    else FirstCall(fetches[1..], answers, k + CallCount(|fetches[0].records|, answers, k), i - 1)
  }

  /** The outcome of the remaining chunks of a poll. */
  function Rest(fetches: Fetches, answers: Answers, k: nat): Outcome
    requires fetches != []
  {
    Process(fetches[1..], answers, k + CallCount(|fetches[0].records|, answers, k))
  }

  lemma ProcessFirst(fetches: Fetches, answers: Answers, k: nat)
    requires fetches != []
    ensures var len := |fetches[0].records|;
            Process(fetches, answers, k) ==
            Prepend(fetches[0].records, PrefixLength(len, answers, k), CallCount(len, answers, k),
                    Rest(fetches, answers, k))
  {
  }

  /** No record of the partition is called for, handled or rewound. */
  ghost predicate Untouched(o: Outcome, tp: TopicPartition)
  {
    Of(o.called, tp) == [] && Of(o.processed, tp) == [] && tp !in o.rewind
  }

  lemma {:induction false} ProcessTouchesOnlyPolled(fetches: Fetches, answers: Answers, k: nat, tp: TopicPartition)
    requires WellGrouped(fetches) && WithoutRecords(fetches, tp)
    ensures Untouched(Process(fetches, answers, k), tp)
  {
    if fetches != [] {
      var head := fetches[0];
      ProcessTouchesOnlyPolled(fetches[1..], answers, k + CallCount(|head.records|, answers, k), tp);
      assert Belongs(head.records, head.source);
      FirstChunkForeign(fetches, answers, k, tp);
    }
  }

  lemma FirstChunkForeign(fetches: Fetches, answers: Answers, k: nat, tp: TopicPartition)
    requires fetches != [] && Foreign(fetches[0].records, tp) && Untouched(Rest(fetches, answers, k), tp)
    ensures Untouched(Process(fetches, answers, k), tp)
  {
    var head := fetches[0].records;
    HeadChunkForeign(head, PrefixLength(|head|, answers, k), CallCount(|head|, answers, k), Rest(fetches, answers, k),
                     tp);
  }

  lemma HeadChunkForeign(records: seq<Record>, n: nat, c: nat, rest: Outcome, tp: TopicPartition)
    requires n <= |records| && c <= |records| && Foreign(records, tp)
    ensures var o := Prepend(records, n, c, rest);
            && Of(o.processed, tp) == Of(rest.processed, tp)
            && Of(o.called, tp) == Of(rest.called, tp)
            && (tp in o.rewind <==> tp in rest.rewind)
            && (tp in rest.rewind ==> o.rewind[tp] == rest.rewind[tp])
  {
    OfConcat(records[..c], rest.called, tp);
    OfConcat(records[..n], rest.processed, tp);
    OfForeign(records[..c], tp);
    OfForeign(records[..n], tp);
    if n < |records| { assert records[n] in records; }
  }

  /** What one process call did with one polled partition: `n` records handled out of `c` attempted, the rest
      rewound. */
  ghost predicate PartitionOutcome(f: FetchPartition, n: nat, c: nat, o: Outcome)
  {
    && n <= c <= |f.records|
    && Of(o.processed, f.source) == f.records[..n]
    && Of(o.called, f.source) == f.records[..c]
    && (f.source in o.rewind <==> n < |f.records|)
    && (n < |f.records| ==>
          c == n + 1 && o.rewind[f.source] == EpochOffset(f.records[n].leaderEpoch, f.records[n].offset))
  }

  lemma HeadChunkOwn(f: FetchPartition, n: nat, c: nat, rest: Outcome, o: Outcome)
    requires n <= |f.records| && Belongs(f.records, f.source) && c == if n < |f.records| then n + 1 else n
    requires Untouched(rest, f.source)
    requires o == Prepend(f.records, n, c, rest)
    ensures PartitionOutcome(f, n, c, o)
  {
    OfConcat(f.records[..c], rest.called, f.source);
    OfConcat(f.records[..n], rest.processed, f.source);
    OfOwn(f.records[..c], f.source);
    OfOwn(f.records[..n], f.source);
    if n < |f.records| { assert f.records[n] in f.records; }
  }

  lemma FirstChunk(fetches: Fetches, answers: Answers, k: nat, f: FetchPartition, n: nat, c: nat)
    requires fetches != [] && f == fetches[0] && Belongs(f.records, f.source)
    requires n == PrefixLength(|f.records|, answers, k) && c == CallCount(|f.records|, answers, k)
    requires Untouched(Rest(fetches, answers, k), f.source)
    ensures PartitionOutcome(f, n, c, Process(fetches, answers, k))
  {
    HeadChunkOwn(f, n, c, Rest(fetches, answers, k), Process(fetches, answers, k));
  }

  lemma LaterChunk(fetches: Fetches, answers: Answers, k: nat, f: FetchPartition, n: nat, c: nat)
    requires fetches != [] && Foreign(fetches[0].records, f.source)
    requires PartitionOutcome(f, n, c, Rest(fetches, answers, k))
    ensures PartitionOutcome(f, n, c, Process(fetches, answers, k))
  {
    var head := fetches[0].records;
    HeadChunkForeign(head, PrefixLength(|head|, answers, k), CallCount(|head|, answers, k), Rest(fetches, answers, k),
                     f.source);
  }

  lemma {:induction false} ProcessChunk(fetches: Fetches, answers: Answers, k: nat, i: nat,
                                        f: FetchPartition, first: nat, n: nat, c: nat)
    requires WellGrouped(fetches) && i < |fetches| && Alone(fetches, i)
    requires f == fetches[i] && first == FirstCall(fetches, answers, k, i)
    requires n == PrefixLength(|f.records|, answers, first) && c == CallCount(|f.records|, answers, first)
    ensures PartitionOutcome(f, n, c, Process(fetches, answers, k))
    decreases |fetches|
  {
    var l := k + CallCount(|fetches[0].records|, answers, k);
    if i == 0 {
      ProcessTouchesOnlyPolled(fetches[1..], answers, l, f.source);
      FirstChunk(fetches, answers, k, f, n, c);
    } else {
      ProcessChunk(fetches[1..], answers, l, i - 1, f, first, n, c);
      assert Belongs(fetches[0].records, fetches[0].source);
      LaterChunk(fetches, answers, k, f, n, c);
    }
  }

  /** One partition of a poll: the handled records are its longest successful prefix, the calls add at most the failing
      record, the rewind target is the next record if there is one. */
  lemma ProcessPartition(fetches: Fetches, answers: Answers, k: nat, i: nat)
    requires WellGrouped(fetches) && i < |fetches| && Alone(fetches, i)
    ensures var first := FirstCall(fetches, answers, k, i);
            PartitionOutcome(fetches[i], PrefixLength(|fetches[i].records|, answers, first),
                             CallCount(|fetches[i].records|, answers, first), Process(fetches, answers, k))
  {
    var f, first := fetches[i], FirstCall(fetches, answers, k, i);
    ProcessChunk(fetches, answers, k, i, f, first, PrefixLength(|f.records|, answers, first),
                 CallCount(|f.records|, answers, first));
  }

  /** The commit target of a partition is one past its last handled record; nothing is committed for a partition
      without a handled record. */
  lemma ProcessCommits(fetches: Fetches, answers: Answers, k: nat, i: nat)
    requires WellGrouped(fetches) && i < |fetches| && Alone(fetches, i)
    requires Increasing(fetches[i].records)
    ensures var tp, records := fetches[i].source, fetches[i].records;
            var n := PrefixLength(|records|, answers, FirstCall(fetches, answers, k, i));
            CommitTarget(Process(fetches, answers, k).processed, tp) ==
            if n == 0 then None else Some(records[n - 1].offset + 1)
  {
    var tp, records := fetches[i].source, fetches[i].records;
    var n := PrefixLength(|records|, answers, FirstCall(fetches, answers, k, i));
    ProcessPartition(fetches, answers, k, i);
    assert Belongs(records, tp);
    PrefixCommits(records, n, Process(fetches, answers, k).processed, tp);
  }

  lemma PrefixCommits(records: seq<Record>, n: nat, processed: seq<Record>, tp: TopicPartition)
    requires n <= |records| && Belongs(records, tp) && Increasing(records)
    requires Of(processed, tp) == records[..n]
    ensures CommitTarget(processed, tp) == if n == 0 then None else Some(records[n - 1].offset + 1)
  {
    CommitTargetOf(processed, tp);
    CommitTargetLast(records[..n], tp);
  }

  /** Chunk i is not handled to its end. */
  ghost predicate StopsIn(fetches: Fetches, answers: Answers, k: nat, i: int)
  {
    0 <= i < |fetches| &&
    PrefixLength(|fetches[i].records|, answers, FirstCall(fetches, answers, k, i)) < |fetches[i].records|
  }

  ghost predicate Stops(fetches: Fetches, answers: Answers, k: nat)
  {
    exists i :: StopsIn(fetches, answers, k, i)
  }

  lemma AddRewindEmpty(records: seq<Record>, n: nat, later: Offsets)
    requires n <= |records|
    ensures AddRewind(records, n, later) != map[] <==> n < |records| || later != map[]
  {
    if n < |records| {
      assert records[n].Source() in AddRewind(records, n, later);
    }
  }

  /** `process` returns true exactly when some partition was not handled to its end. */
  lemma {:induction false} ProcessRewindsIffProperPrefix(fetches: Fetches, answers: Answers, k: nat)
    ensures Process(fetches, answers, k).rewind != map[] <==> Stops(fetches, answers, k)
  {
    if fetches != [] {
      var records := fetches[0].records;
      var n, rest := PrefixLength(|records|, answers, k), Rest(fetches, answers, k);
      assert Process(fetches, answers, k).rewind == AddRewind(records, n, rest.rewind);
      AddRewindEmpty(records, n, rest.rewind);
      if n < |records| {
        assert StopsIn(fetches, answers, k, 0);
      } else {
        ProcessRewindsIffProperPrefix(fetches[1..], answers, k + CallCount(|records|, answers, k));
        StopsInTail(fetches, answers, k);
      }
    }
  }

  lemma StopsInTail(fetches: Fetches, answers: Answers, k: nat)
    requires fetches != [] && PrefixLength(|fetches[0].records|, answers, k) == |fetches[0].records|
    ensures var l := k + CallCount(|fetches[0].records|, answers, k);
            Stops(fetches, answers, k) <==> Stops(fetches[1..], answers, l)
  {
    var tail, l := fetches[1..], k + CallCount(|fetches[0].records|, answers, k);
    forall i | StopsIn(fetches, answers, k, i) ensures Stops(tail, answers, l) {
      StopsInShift(fetches, answers, k, i);
    }
    forall i | StopsIn(tail, answers, l, i) ensures Stops(fetches, answers, k) {
      StopsInShift(fetches, answers, k, i + 1);
    }
  }

  lemma StopsInShift(fetches: Fetches, answers: Answers, k: nat, i: int)
    requires fetches != [] && i > 0
    ensures StopsIn(fetches, answers, k, i) <==>
            StopsIn(fetches[1..], answers, k + CallCount(|fetches[0].records|, answers, k), i - 1)
  {
  }

  /** The results of `n` consecutive handler calls. */
  function CallResults(answers: Answers, k: nat, n: nat): seq<bool>
    decreases n
  {
    if n == 0 then [] else [answers(k)] + CallResults(answers, k + 1, n - 1)
  }

  lemma {:induction false} PrefixLengthCongruent(len: nat, a: Answers, k: nat, b: Answers, l: nat)
    requires CallResults(a, k, len) == CallResults(b, l, len)
    ensures PrefixLength(len, a, k) == PrefixLength(len, b, l)
    decreases len
  {
    if len > 0 {
      var ra, rb := CallResults(a, k, len), CallResults(b, l, len);
      assert ra[0] == rb[0] && ra[1..] == rb[1..];
      PrefixLengthCongruent(len - 1, a, k + 1, b, l + 1);
    }
  }

  /** Partitions do not affect each other: whatever else two polls contain and however their other calls end, a chunk
      whose own calls end alike is handled, rewound and committed alike. */
  lemma PartitionsAreIndependent(fa: Fetches, a: Answers, k: nat, i: nat, fb: Fetches, b: Answers, l: nat, j: nat)
    requires WellGrouped(fa) && i < |fa| && Alone(fa, i)
    requires WellGrouped(fb) && j < |fb| && Alone(fb, j)
    requires fa[i] == fb[j] && Increasing(fa[i].records)
    requires CallResults(a, FirstCall(fa, a, k, i), |fa[i].records|) ==
             CallResults(b, FirstCall(fb, b, l, j), |fb[j].records|)
    ensures AlikeFor(fa[i].source, Process(fa, a, k), Process(fb, b, l))
  {
    var f := fa[i];
    var n, c := PrefixLength(|f.records|, a, FirstCall(fa, a, k, i)), CallCount(|f.records|, a, FirstCall(fa, a, k, i));
    PrefixLengthCongruent(|f.records|, a, FirstCall(fa, a, k, i), b, FirstCall(fb, b, l, j));
    ProcessPartition(fa, a, k, i);
    ProcessPartition(fb, b, l, j);
    AlikeFromOutcome(f, n, c, Process(fa, a, k), Process(fb, b, l));
  }

  /** Two process calls did the same to partition `tp`. */
  ghost predicate AlikeFor(tp: TopicPartition, oa: Outcome, ob: Outcome)
  {
    && Of(oa.called, tp) == Of(ob.called, tp)
    && Of(oa.processed, tp) == Of(ob.processed, tp)
    && (tp in oa.rewind <==> tp in ob.rewind)
    && (tp in oa.rewind ==> oa.rewind[tp] == ob.rewind[tp])
    && CommitTarget(oa.processed, tp) == CommitTarget(ob.processed, tp)
  }

  lemma AlikeFromOutcome(f: FetchPartition, n: nat, c: nat, oa: Outcome, ob: Outcome)
    requires Belongs(f.records, f.source) && Increasing(f.records)
    requires PartitionOutcome(f, n, c, oa) && PartitionOutcome(f, n, c, ob)
    ensures AlikeFor(f.source, oa, ob)
  {
    PrefixCommits(f.records, n, oa.processed, f.source);
    PrefixCommits(f.records, n, ob.processed, f.source);
  }
}
