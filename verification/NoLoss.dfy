/**
 No loss and order within a partition: what every run of the delivery protocol keeps when no poll holds records of one
 partition in two chunks or carries records beside a fetch error.
 */
module NoLoss {
  import opened Prelude
  import opened Consumer
  import opened ConsumerLoop
  import opened Progress
  import opened Delivery
  import Postgres
  import N = Notification
  import T = Transport

  type History = set<(TopicPartition, int)>

  /* ---------- the log ---------- */

  ghost predicate LogOk(log: Log)
  {
    ValidLog(log) && forall tp, i :: tp in log && 0 <= i < |log[tp]| ==> log[tp][i].offset >= 0
  }

  /** Every record of the partition below `offset` has been handled. */
  ghost predicate HandledBelow(records: seq<Record>, tp: TopicPartition, handled: History, offset: int)
  {
    forall i :: 0 <= i < |records| && records[i].offset < offset ==> (tp, records[i].offset) in handled
  }

  /** An offset that may be committed: nothing unhandled lies below it, now or after further appends. */
  ghost predicate Safe(log: Log, handled: History, tp: TopicPartition, offset: int)
  {
    offset <= End(LogOf(log, tp)) && HandledBelow(LogOf(log, tp), tp, handled, offset)
  }

  /* ---------- consumers ---------- */

  /** `records` are the log records from index i on. */
  ghost predicate At(own: seq<Record>, i: int, records: seq<Record>)
  {
    0 <= i <= |own| - |records| && own[i..i + |records|] == records
  }

  /** What a chunk still holds lies right after handled records, and the fetch position is right after it. */
  ghost predicate ChunkOk(log: Log, handled: History, f: FetchPartition, position: int)
  {
    if f.records == [] then Safe(log, handled, f.source, position)
    else
      var own, n := LogOf(log, f.source), |f.records|;
      && Safe(log, handled, f.source, f.records[0].offset)
      && position == f.records[n - 1].offset + 1
      && exists i :: At(own, i, f.records)
  }

  ghost predicate Holds(todo: Fetches, i: int, tp: TopicPartition)
  {
    0 <= i < |todo| && todo[i].source == tp && todo[i].records != []
  }

  /** The partition has records waiting in a chunk. */
  ghost predicate InChunks(todo: Fetches, tp: TopicPartition)
  {
    exists i :: Holds(todo, i, tp)
  }

  ghost predicate ChunksOk(log: Log, handled: History, position: map<TopicPartition, int>, todo: Fetches)
  {
    && DistinctChunks(todo)
    && forall i :: 0 <= i < |todo| && todo[i].records != [] ==>
         todo[i].source in position && ChunkOk(log, handled, todo[i], position[todo[i].source])
  }

  /** The offset from which a partition that is not waiting in a chunk will be fetched again. */
  function Resume(position: int, rewind: Offsets, tp: TopicPartition): int
  {
    if tp in rewind then rewind[tp].offset else position
  }

  ghost predicate RestOk(log: Log, handled: History, position: map<TopicPartition, int>, todo: Fetches, rewind: Offsets)
  {
    forall tp :: tp in position && !InChunks(todo, tp) ==> Safe(log, handled, tp, Resume(position[tp], rewind, tp))
  }

  ghost predicate ProcessedOk(log: Log, handled: History, processed: seq<Record>)
  {
    forall i :: 0 <= i < |processed| ==> Safe(log, handled, processed[i].Source(), processed[i].offset + 1)
  }

  ghost predicate WorkerOk(log: Log, handled: History, w: Worker)
  {
    match w.flight
    case Idle => RestOk(log, handled, w.position, [], map[])
    case Rewinding(rewind) => RestOk(log, handled, w.position, [], rewind)
    case Busy(todo, processed, rewind) =>
      && ChunksOk(log, handled, w.position, todo)
      && RestOk(log, handled, w.position, todo, rewind)
      && ProcessedOk(log, handled, processed)
      && (forall tp :: tp in rewind ==> !InChunks(todo, tp))
  }

  /* ---------- the invariant ---------- */

  /** Handled records are log records, and every earlier record of their partition has been handled as well. */
  ghost predicate HistoryOk(log: Log, handled: History)
  {
    forall h :: h in handled ==>
      Safe(log, handled, h.0, h.1 + 1) &&
      exists i :: 0 <= i < |LogOf(log, h.0)| && LogOf(log, h.0)[i].offset == h.1
  }

  ghost predicate CommittedOk(log: Log, handled: History, committed: map<TopicPartition, int>)
  {
    forall tp :: tp in committed ==> Safe(log, handled, tp, committed[tp])
  }

  ghost predicate Inv(s: Cluster)
  {
    && LogOk(s.log) && HistoryOk(s.log, s.handled) && CommittedOk(s.log, s.handled, s.committed)
    && forall w :: w in s.workers ==> WorkerOk(s.log, s.handled, s.workers[w])
  }

  /* ---------- appending to the log ---------- */

  lemma AppendKeepsLog(log: Log, r: Record)
    requires LogOk(log) && Appendable(log, r)
    ensures LogOk(Append(log, r))
  {
    var own := LogOf(log, r.Source());
    EndBounds(log, r.Source());
  }

  lemma EndBounds(log: Log, tp: TopicPartition)
    requires LogOk(log)
    ensures End(LogOf(log, tp)) >= 0
    ensures forall i :: 0 <= i < |LogOf(log, tp)| ==> LogOf(log, tp)[i].offset < End(LogOf(log, tp))
  {
  }

  lemma AppendKeepsSafe(log: Log, handled: History, r: Record, tp: TopicPartition, offset: int)
    requires LogOk(log) && Appendable(log, r) && Safe(log, handled, tp, offset)
    ensures Safe(Append(log, r), handled, tp, offset)
  {
    EndBounds(log, tp);
    var next := LogOf(Append(log, r), tp);
    assert tp != r.Source() ==> next == LogOf(log, tp);
    assert tp == r.Source() ==> next == LogOf(log, tp) + [r];
  }

  lemma AppendKeepsChunk(log: Log, handled: History, r: Record, f: FetchPartition, position: int)
    requires LogOk(log) && Appendable(log, r) && ChunkOk(log, handled, f, position)
    ensures ChunkOk(Append(log, r), handled, f, position)
  {
    if f.records == [] {
      AppendKeepsSafe(log, handled, r, f.source, position);
    } else {
      AppendKeepsSafe(log, handled, r, f.source, f.records[0].offset);
      AppendKeepsAt(log, r, f.source, f.records);
    }
  }

  lemma AppendKeepsAt(log: Log, r: Record, tp: TopicPartition, records: seq<Record>)
    requires exists i :: At(LogOf(log, tp), i, records)
    ensures exists i :: At(LogOf(Append(log, r), tp), i, records)
  {
    var own, next := LogOf(log, tp), LogOf(Append(log, r), tp);
    var i :| At(own, i, records);
    assert next == own || next == own + [r];
    assert next[i..i + |records|] == own[i..i + |records|];
    assert At(next, i, records);
  }

  lemma AppendKeepsWorker(log: Log, handled: History, r: Record, w: Worker)
    requires LogOk(log) && Appendable(log, r) && WorkerOk(log, handled, w)
    ensures WorkerOk(Append(log, r), handled, w)
  {
    var next := Append(log, r);
    var todo, rewind := (if w.flight.Busy? then w.flight.todo else []),
      (if w.flight.Idle? then map[] else w.flight.rewind);
    forall tp | tp in w.position && !InChunks(todo, tp)
      ensures Safe(next, handled, tp, Resume(w.position[tp], rewind, tp))
    {
      AppendKeepsSafe(log, handled, r, tp, Resume(w.position[tp], rewind, tp));
    }
    if w.flight.Busy? {
      forall i | 0 <= i < |todo| && todo[i].records != []
        ensures ChunkOk(next, handled, todo[i], w.position[todo[i].source])
      {
        AppendKeepsChunk(log, handled, r, todo[i], w.position[todo[i].source]);
      }
      forall i | 0 <= i < |w.flight.processed|
        ensures Safe(next, handled, w.flight.processed[i].Source(), w.flight.processed[i].offset + 1)
      {
        AppendKeepsSafe(log, handled, r, w.flight.processed[i].Source(), w.flight.processed[i].offset + 1);
      }
    }
  }

  lemma AppendKeepsHistory(log: Log, handled: History, r: Record)
    requires LogOk(log) && Appendable(log, r) && HistoryOk(log, handled)
    ensures HistoryOk(Append(log, r), handled)
  {
    var next := Append(log, r);
    forall h | h in handled
      ensures Safe(next, handled, h.0, h.1 + 1)
      ensures exists i :: 0 <= i < |LogOf(next, h.0)| && LogOf(next, h.0)[i].offset == h.1
    {
      AppendKeepsSafe(log, handled, r, h.0, h.1 + 1);
      var i :| 0 <= i < |LogOf(log, h.0)| && LogOf(log, h.0)[i].offset == h.1;
      assert LogOf(next, h.0)[i] == LogOf(log, h.0)[i];
    }
  }

  lemma AppendKeepsInv(s: Cluster, r: Record)
    requires Inv(s) && Appendable(s.log, r)
    ensures Inv(s.(log := Append(s.log, r)))
  {
    AppendKeepsLog(s.log, r);
    AppendKeepsHistory(s.log, s.handled, r);
    forall tp | tp in s.committed ensures Safe(Append(s.log, r), s.handled, tp, s.committed[tp]) {
      AppendKeepsSafe(s.log, s.handled, r, tp, s.committed[tp]);
    }
    forall w | w in s.workers ensures WorkerOk(Append(s.log, r), s.handled, s.workers[w]) {
      AppendKeepsWorker(s.log, s.handled, r, s.workers[w]);
    }
  }

  /* ---------- handling one more record ---------- */

  lemma MoreHandledKeepsSafe(log: Log, handled: History, more: History, tp: TopicPartition, offset: int)
    requires Safe(log, handled, tp, offset) && handled <= more
    ensures Safe(log, more, tp, offset)
  {
  }

  lemma MoreHandledKeepsChunk(log: Log, handled: History, more: History, f: FetchPartition, position: int)
    requires ChunkOk(log, handled, f, position) && handled <= more
    ensures ChunkOk(log, more, f, position)
  {
    MoreHandledKeepsSafe(log, handled, more, f.source, if f.records == [] then position else f.records[0].offset);
  }

  lemma MoreHandledKeepsRest(log: Log, handled: History, more: History, position: map<TopicPartition, int>,
                             todo: Fetches,
                             rewind: Offsets)
    requires RestOk(log, handled, position, todo, rewind) && handled <= more
    ensures RestOk(log, more, position, todo, rewind)
  {
    forall tp | tp in position && !InChunks(todo, tp) ensures Safe(log, more, tp, Resume(position[tp], rewind, tp)) {
      MoreHandledKeepsSafe(log, handled, more, tp, Resume(position[tp], rewind, tp));
    }
  }

  lemma MoreHandledKeepsProcessed(log: Log, handled: History, more: History, processed: seq<Record>)
    requires ProcessedOk(log, handled, processed) && handled <= more
    ensures ProcessedOk(log, more, processed)
  {
    forall i | 0 <= i < |processed| ensures Safe(log, more, processed[i].Source(), processed[i].offset + 1) {
      MoreHandledKeepsSafe(log, handled, more, processed[i].Source(), processed[i].offset + 1);
    }
  }

  lemma MoreHandledKeepsWorker(log: Log, handled: History, more: History, w: Worker)
    requires WorkerOk(log, handled, w) && handled <= more
    ensures WorkerOk(log, more, w)
  {
    match w.flight
    case Idle => MoreHandledKeepsRest(log, handled, more, w.position, [], map[]);
    case Rewinding(rewind) => MoreHandledKeepsRest(log, handled, more, w.position, [], rewind);
    case Busy(todo, processed, rewind) =>
      MoreHandledKeepsRest(log, handled, more, w.position, todo, rewind);
      MoreHandledKeepsProcessed(log, handled, more, processed);
      forall i | 0 <= i < |todo| && todo[i].records != []
        ensures ChunkOk(log, more, todo[i], w.position[todo[i].source])
      {
        MoreHandledKeepsChunk(log, handled, more, todo[i], w.position[todo[i].source]);
      }
  }

  /** Handling record i after all records before it makes the next offset, and the next record, safe. */
  lemma HandledOneMore(own: seq<Record>, tp: TopicPartition, handled: History, i: nat)
    requires Increasing(own) && i < |own| && HandledBelow(own, tp, handled, own[i].offset)
    ensures var more := handled + {(tp, own[i].offset)};
            && HandledBelow(own, tp, more, own[i].offset + 1)
            && (i + 1 < |own| ==> HandledBelow(own, tp, more, own[i + 1].offset))
  {
    forall j | 0 <= j < |own|
      ensures j < i ==> own[j].offset < own[i].offset
      ensures i < j ==> own[i].offset < own[j].offset
      ensures i + 1 < j ==> own[i + 1].offset < own[j].offset
    {
    }
  }

  /** Dropping the first record of a stretch of the log leaves the stretch one later. */
  lemma AtNext(own: seq<Record>, i: int, records: seq<Record>)
    requires records != [] && At(own, i, records)
    ensures own[i] == records[0] && At(own, i + 1, records[1..])
    ensures |records| > 1 ==> own[i + 1] == records[1]
  {
    var n := |records|;
    assert own[i] == own[i..i + n][0];
    assert own[i + 1..i + 1 + |records[1..]|] == own[i..i + n][1..] == records[1..];
    assert n > 1 ==> own[i + 1] == own[i..i + n][1];
  }

  /** The next record of a chunk may be handled: everything before it has been. */
  lemma NextRecordIsSafe(log: Log, handled: History, f: FetchPartition, position: int) returns (i: nat)
    requires LogOk(log) && ChunkOk(log, handled, f, position) && f.records != []
    ensures var r, more := f.records[0], handled + {(f.source, f.records[0].offset)};
            && r.Source() == f.source
            && i < |LogOf(log, f.source)| && LogOf(log, f.source)[i] == r
            && Safe(log, more, f.source, r.offset + 1)
            && ChunkOk(log, more, f.(records := f.records[1..]), position)
  {
    var own, r := LogOf(log, f.source), f.records[0];
    i :| At(own, i, f.records);
    AtNext(own, i, f.records);
    assert f.source in log && r in log[f.source];
    EndBounds(log, f.source);
    HandledOneMore(own, f.source, handled, i);
  }

  lemma HandledKeepsHistory(log: Log, handled: History, tp: TopicPartition, i: nat)
    requires LogOk(log) && HistoryOk(log, handled) && i < |LogOf(log, tp)|
    requires Safe(log, handled + {(tp, LogOf(log, tp)[i].offset)}, tp, LogOf(log, tp)[i].offset + 1)
    ensures HistoryOk(log, handled + {(tp, LogOf(log, tp)[i].offset)})
  {
    var more := handled + {(tp, LogOf(log, tp)[i].offset)};
    forall h | h in handled ensures Safe(log, more, h.0, h.1 + 1) {
      MoreHandledKeepsSafe(log, handled, more, h.0, h.1 + 1);
    }
  }

  /** The consumer's own step: a handler call that succeeds, one that fails, or the passage to the next chunk. */
  lemma OwnStepKeepsWorker(log: Log, handled: History, w: Worker, ok: bool)
    requires LogOk(log) && WorkerOk(log, handled, w) && w.flight.Busy? && w.flight.todo != []
    ensures var chunk := w.flight.todo[0];
            var more :=
              if chunk.records != [] && ok then handled + {(chunk.source, chunk.records[0].offset)} else handled;
            WorkerOk(log, more, w.(flight := Handle(w.flight, ok)))
  {
    var f := w.flight;
    var chunk := f.todo[0];
    if chunk.records == [] {
      EmptyChunkDropped(log, handled, w.position, f.todo, f.rewind);
    } else {
      assert ChunkOk(log, handled, chunk, w.position[chunk.source]);
      var i := NextRecordIsSafe(log, handled, chunk, w.position[chunk.source]);
      if ok {
        var more := handled + {(chunk.source, chunk.records[0].offset)};
        MoreHandledKeepsWorker(log, handled, more, w);
        ChunkShortened(log, more, w.position, f, chunk.(records := chunk.records[1..]));
      } else {
        var r := chunk.records[0];
        ChunkDropped(log, handled, w.position, f.todo, f.rewind,
                     f.rewind[chunk.source := EpochOffset(r.leaderEpoch, r.offset)]);
      }
    }
  }

  /** The chunks of a poll after its first one. */
  lemma WaitsInTail(todo: Fetches, tp: TopicPartition)
    requires todo != []
    ensures InChunks(todo, tp) <==> Holds(todo, 0, tp) || InChunks(todo[1..], tp)
    ensures DistinctChunks(todo) && Holds(todo, 0, tp) ==> !InChunks(todo[1..], tp)
  {
    var rest := todo[1..];
    if InChunks(rest, tp) {
      var i :| Holds(rest, i, tp);
      assert Holds(todo, i + 1, tp);
    }
    if InChunks(todo, tp) && !Holds(todo, 0, tp) {
      var i :| Holds(todo, i, tp);
      assert Holds(rest, i - 1, tp);
    }
  }

  lemma AllWaitInTail(todo: Fetches)
    requires todo != []
    ensures forall tp :: InChunks(todo, tp) <==> Holds(todo, 0, tp) || InChunks(todo[1..], tp)
    ensures DistinctChunks(todo) && todo[0].records != [] ==> !InChunks(todo[1..], todo[0].source)
  {
    forall tp ensures InChunks(todo, tp) <==> Holds(todo, 0, tp) || InChunks(todo[1..], tp) {
      WaitsInTail(todo, tp);
    }
    WaitsInTail(todo, todo[0].source);
  }

  lemma TailOk(log: Log, handled: History, position: map<TopicPartition, int>, todo: Fetches)
    requires todo != [] && ChunksOk(log, handled, position, todo)
    ensures ChunksOk(log, handled, position, todo[1..])
  {
  }

  /** A chunk whose first record has been handled; when it was the last one, the partition waits no longer and will be
      fetched again from the position right after it. */
  lemma ChunkShortened(log: Log, handled: History, position: map<TopicPartition, int>, f: Flight, chunk: FetchPartition)
    requires WorkerOk(log, handled, Worker(position, f)) && f.Busy? && f.todo != [] && f.todo[0].records != []
    requires chunk == f.todo[0].(records := f.todo[0].records[1..])
    requires ChunkOk(log, handled, chunk, position[chunk.source])
    requires f.todo[0].records[0].Source() == chunk.source
    requires Safe(log, handled, chunk.source, f.todo[0].records[0].offset + 1)
    ensures WorkerOk(log, handled, Worker(position, Handle(f, true)))
  {
    var todo, rest := [chunk] + f.todo[1..], f.todo[1..];
    assert todo[1..] == rest;
    HeadReplaced(log, handled, position, f.todo, chunk);
    AllWaitInTail(f.todo);
    AllWaitInTail(todo);
    assert Holds(f.todo, 0, chunk.source);
    assert RestOk(log, handled, position, todo, f.rewind);
    ProcessedOneMore(log, handled, f.processed, f.todo[0].records[0]);
  }

  lemma HeadReplaced(log: Log, handled: History, position: map<TopicPartition, int>, todo: Fetches,
                     chunk: FetchPartition)
    requires todo != [] && todo[0].records != [] && ChunksOk(log, handled, position, todo)
    requires chunk.source == todo[0].source && ChunkOk(log, handled, chunk, position[chunk.source])
    ensures ChunksOk(log, handled, position, [chunk] + todo[1..])
  {
    var next := [chunk] + todo[1..];
    assert forall i :: 0 <= i < |todo| ==> next[i].source == todo[i].source;
    assert forall i :: 0 < i < |todo| ==> next[i] == todo[i];
  }

  lemma ProcessedOneMore(log: Log, handled: History, processed: seq<Record>, r: Record)
    requires ProcessedOk(log, handled, processed) && Safe(log, handled, r.Source(), r.offset + 1)
    ensures ProcessedOk(log, handled, processed + [r])
  {
  }

  lemma EmptyChunkDropped(log: Log, handled: History, position: map<TopicPartition, int>, todo: Fetches,
                          rewind: Offsets)
    requires todo != [] && todo[0].records == []
    requires ChunksOk(log, handled, position, todo) && RestOk(log, handled, position, todo, rewind)
    requires forall tp :: tp in rewind ==> !InChunks(todo, tp)
    ensures ChunksOk(log, handled, position, todo[1..])
    ensures RestOk(log, handled, position, todo[1..], rewind)
    ensures forall tp :: tp in rewind ==> !InChunks(todo[1..], tp)
  {
    TailOk(log, handled, position, todo);
    AllWaitInTail(todo);
  }

  /** Leaving the first chunk at a failed record keeps every resume offset safe. */
  lemma ChunkDropped(log: Log, handled: History, position: map<TopicPartition, int>, todo: Fetches, rewind: Offsets,
                     next: Offsets)
    requires todo != [] && todo[0].records != []
    requires ChunksOk(log, handled, position, todo) && RestOk(log, handled, position, todo, rewind)
    requires forall tp :: tp in rewind ==> !InChunks(todo, tp)
    requires forall tp :: tp != todo[0].source ==>
               (tp in next <==> tp in rewind) && (tp in rewind ==> next[tp] == rewind[tp])
    requires Safe(log, handled, todo[0].source, Resume(position[todo[0].source], next, todo[0].source))
    ensures ChunksOk(log, handled, position, todo[1..])
    ensures RestOk(log, handled, position, todo[1..], next)
    ensures forall tp :: tp in next ==> !InChunks(todo[1..], tp)
  {
    TailOk(log, handled, position, todo);
    AllWaitInTail(todo);
  }

  /* ---------- polls, commits, rewinds ---------- */

  /** A poll with at most one non-empty chunk of each partition leaves each chunk right after handled records. */
  lemma PollKeepsWorker(log: Log, handled: History, position: map<TopicPartition, int>, fetches: Fetches)
    requires LogOk(log) && RestOk(log, handled, position, [], map[])
    requires DistinctChunks(fetches) && Fetched(log, position, fetches)
    ensures WorkerOk(log, handled, Worker(Advance(position, fetches), Busy(fetches, [], map[])))
  {
    var after := Advance(position, fetches);
    forall i | 0 <= i < |fetches| && fetches[i].records != []
      ensures fetches[i].source in after && ChunkOk(log, handled, fetches[i], after[fetches[i].source])
    {
      FetchedChunk(log, position, fetches, i);
      AdvanceOver(position, fetches, i);
      IdleIsSafe(log, handled, position, fetches[i].source);
      FreshChunkOk(log, handled, fetches[i], position[fetches[i].source]);
    }
    forall tp | tp in after && !InChunks(fetches, tp) ensures Safe(log, handled, tp, Resume(after[tp], map[], tp)) {
      FetchedSources(log, position, fetches);
      AdvanceKeys(position, fetches);
      forall i | 0 <= i < |fetches| && fetches[i].source == tp ensures fetches[i].records == [] {
        assert !Holds(fetches, i, tp);
      }
      AdvanceElsewhere(position, fetches, tp);
      IdleIsSafe(log, handled, position, tp);
    }
  }

  lemma IdleIsSafe(log: Log, handled: History, position: map<TopicPartition, int>, tp: TopicPartition)
    requires RestOk(log, handled, position, [], map[]) && tp in position
    ensures Safe(log, handled, tp, position[tp])
  {
    assert !InChunks([], tp);
    assert Safe(log, handled, tp, Resume(position[tp], map[], tp));
  }

  lemma {:induction false} FetchedSources(log: Log, position: map<TopicPartition, int>, fetches: Fetches)
    requires Fetched(log, position, fetches)
    ensures forall i :: 0 <= i < |fetches| ==> fetches[i].source in position
    decreases |fetches|
  {
    if fetches != [] {
      FetchedSources(log, Advance(position, [fetches[0]]), fetches[1..]);
      AdvanceKeys(position, [fetches[0]]);
    }
  }

  /** Every non-empty chunk starts at the position the poll started from when no other one is of its partition. */
  lemma {:induction false} FetchedChunk(log: Log, position: map<TopicPartition, int>, fetches: Fetches, i: nat)
    requires Fetched(log, position, fetches) && DistinctChunks(fetches) && i < |fetches| && fetches[i].records != []
    ensures fetches[i].source in position
    ensures Consecutive(fetches[i].records, LogOf(log, fetches[i].source), position[fetches[i].source])
    decreases |fetches|
  {
    if i > 0 {
      var next := Advance(position, [fetches[0]]);
      FetchedChunk(log, next, fetches[1..], i - 1);
      AdvanceKeys(position, [fetches[0]]);
      AdvanceElsewhere(position, [fetches[0]], fetches[i].source);
    }
  }

  lemma {:induction false} BelowSplits(records: seq<Record>, offset: int)
    requires Increasing(records)
    ensures forall i :: 0 <= i < |records| ==> (records[i].offset < offset <==> i < Below(records, offset))
  {
    if records != [] && records[0].offset < offset {
      assert Increasing(records[1..]);
      BelowSplits(records[1..], offset);
      forall i | 0 <= i < |records| ensures records[i].offset < offset <==> i < Below(records, offset) {
        if i > 0 { assert records[1..][i - 1] == records[i]; }
      }
    } else if records != [] {
      forall i | 0 <= i < |records| ensures records[i].offset >= offset {
        if i > 0 { assert records[0].offset < records[i].offset; }
      }
    }
  }

  lemma FreshChunkOk(log: Log, handled: History, f: FetchPartition, position: int)
    requires LogOk(log) && Safe(log, handled, f.source, position)
    requires Consecutive(f.records, LogOf(log, f.source), position)
    ensures ChunkOk(log, handled, f,
                    if f.records == [] then position else f.records[|f.records| - 1].offset + 1)
  {
    var own, n := LogOf(log, f.source), |f.records|;
    if n > 0 {
      var i := Below(own, position);
      BelowSplits(own, position);
      EndBounds(log, f.source);
      assert own[i] == own[i..i + n][0] == f.records[0];
      assert At(own, i, f.records);
      assert forall j :: i < j < |own| ==> own[i].offset < own[j].offset;
    }
  }

  /** Committing what was processed commits only offsets below which everything has been handled. */
  lemma CommitKeeps(log: Log, handled: History, committed: map<TopicPartition, int>, processed: seq<Record>,
                    landed: set<TopicPartition>)
    requires CommittedOk(log, handled, committed) && ProcessedOk(log, handled, processed)
    ensures CommittedOk(log, handled, CommitInto(committed, processed, landed))
  {
    var next := CommitInto(committed, processed, landed);
    forall tp | tp in next ensures Safe(log, handled, tp, next[tp]) {
      if tp in landed && CommitTarget(processed, tp).Some? {
        CommitTargetIsProcessed(processed, tp);
        var i :| 0 <= i < |processed| && processed[i].Source() == tp && processed[i].offset + 1 == next[tp];
        assert Safe(log, handled, processed[i].Source(), processed[i].offset + 1);
      }
    }
  }

  lemma {:induction false} CommitTargetIsProcessed(records: seq<Record>, tp: TopicPartition)
    requires CommitTarget(records, tp).Some?
    ensures exists i :: 0 <= i < |records| && records[i].Source() == tp &&
                        records[i].offset + 1 == CommitTarget(records, tp).value
  {
    var rest := CommitTarget(records[1..], tp);
    if records[0].Source() != tp || (rest.Some? && rest.value > records[0].offset + 1) {
      CommitTargetIsProcessed(records[1..], tp);
      var i :| 0 <= i < |records[1..]| && records[1..][i].Source() == tp && records[1..][i].offset + 1 == rest.value;
      assert records[i + 1] == records[1..][i];
    } else {
      assert records[0].Source() == tp;
    }
  }

  lemma SeekKeepsWorker(log: Log, handled: History, position: map<TopicPartition, int>, rewind: Offsets)
    requires RestOk(log, handled, position, [], rewind)
    ensures WorkerOk(log, handled, Worker(Seek(position, rewind), Idle))
  {
    var after := Seek(position, rewind);
    forall tp | tp in after && !InChunks([], tp) ensures Safe(log, handled, tp, Resume(after[tp], map[], tp)) {
      assert Safe(log, handled, tp, Resume(position[tp], rewind, tp));
    }
  }

  lemma StartIsSafe(log: Log, handled: History, tp: TopicPartition)
    requires LogOk(log)
    ensures Safe(log, handled, tp, 0)
  {
    EndBounds(log, tp);
  }

  /* ---------- every step ---------- */

  /** Replacing one consumer's state by a good one. */
  lemma OneWorkerChanges(s: Cluster, w: nat, wk: Worker)
    requires Inv(s) && WorkerOk(s.log, s.handled, wk)
    ensures Inv(s.(workers := s.workers[w := wk]))
  {
  }

  lemma AssignKeepsInv(s: Cluster, w: nat, tp: TopicPartition)
    requires Inv(s) && Enabled(s, Assign(w, tp))
    ensures Inv(Do(s, Assign(w, tp)))
  {
    var position := if w in s.workers then s.workers[w].position else map[];
    var from := if tp in s.committed then s.committed[tp] else 0;
    StartIsSafe(s.log, s.handled, tp);
    forall q | q in position[tp := from] && !InChunks([], q)
      ensures Safe(s.log, s.handled, q, Resume(position[tp := from][q], map[], q))
    {
      if q != tp {
        assert WorkerOk(s.log, s.handled, s.workers[w]);
        assert Safe(s.log, s.handled, q, Resume(position[q], map[], q));
      }
    }
    OneWorkerChanges(s, w, Worker(position[tp := from], Idle));
  }

  lemma PollKeepsInv(s: Cluster, w: nat, fetches: Fetches)
    requires Inv(s) && Enabled(s, Poll(w, fetches)) && Tame(Poll(w, fetches))
    ensures Inv(Do(s, Poll(w, fetches)))
  {
    var wk := s.workers[w];
    assert WorkerOk(s.log, s.handled, wk);
    if FetchFailed(fetches) {
      EmptyPollStays(wk.position, fetches);
      OneWorkerChanges(s, w, Worker(Advance(wk.position, fetches), Idle));
    } else {
      PollKeepsWorker(s.log, s.handled, wk.position, fetches);
      OneWorkerChanges(s, w, Worker(Advance(wk.position, fetches), Busy(fetches, [], map[])));
    }
  }

  lemma MoreHandledKeepsInv(s: Cluster, more: History, notif: N.NotifDb)
    requires Inv(s) && s.handled <= more && HistoryOk(s.log, more)
    ensures Inv(s.(handled := more, notif := notif))
  {
    forall tp | tp in s.committed ensures Safe(s.log, more, tp, s.committed[tp]) {
      MoreHandledKeepsSafe(s.log, s.handled, more, tp, s.committed[tp]);
    }
    forall w | w in s.workers ensures WorkerOk(s.log, more, s.workers[w]) {
      MoreHandledKeepsWorker(s.log, s.handled, more, s.workers[w]);
    }
  }

  lemma HandleKeepsInv(s: Cluster, w: nat, faults: nat -> Postgres.Fault)
    requires Inv(s) && Enabled(s, HandleNext(w, faults))
    ensures Inv(Do(s, HandleNext(w, faults)))
  {
    var wk := s.workers[w];
    assert WorkerOk(s.log, s.handled, wk);
    var chunk := wk.flight.todo[0];
    if chunk.records == [] {
      OwnStepKeepsWorker(s.log, s.handled, wk, true);
      OneWorkerChanges(s, w, wk.(flight := Handle(wk.flight, true)));
    } else {
      var r := chunk.records[0];
      var out := T.Perform(Action(r), s.notif, 0, 0, faults);
      assert ChunkOk(s.log, s.handled, chunk, wk.position[chunk.source]);
      var i := NextRecordIsSafe(s.log, s.handled, chunk, wk.position[chunk.source]);
      var more := if out.ok then s.handled + {(r.Source(), r.offset)} else s.handled;
      if out.ok {
        HandledKeepsHistory(s.log, s.handled, chunk.source, i);
      }
      OwnStepKeepsWorker(s.log, s.handled, wk, out.ok);
      MoreHandledKeepsInv(s, more, out.db);
      OneWorkerChanges(s.(handled := more, notif := out.db), w, wk.(flight := Handle(wk.flight, out.ok)));
    }
  }

  lemma CommitKeepsInv(s: Cluster, w: nat, landed: set<TopicPartition>)
    requires Inv(s) && Enabled(s, Commit(w, landed))
    ensures Inv(Do(s, Commit(w, landed)))
  {
    var wk := s.workers[w];
    assert WorkerOk(s.log, s.handled, wk);
    CommitKeeps(s.log, s.handled, s.committed, wk.flight.processed, landed);
    OneWorkerChanges(s.(committed := CommitInto(s.committed, wk.flight.processed, landed)), w,
                     wk.(flight := Rewinding(wk.flight.rewind)));
  }

  lemma StepKeepsInv(s: Cluster, step: Step)
    requires Inv(s) && Enabled(s, step) && Tame(step)
    ensures Inv(Do(s, step))
  {
    match step
    case Create(call) =>
    case Publish(_, r) => AppendKeepsInv(s, r);
    case Foreign(r) => AppendKeepsInv(s, r);
    case Assign(w, tp) => AssignKeepsInv(s, w, tp);
    case Poll(w, fetches) => PollKeepsInv(s, w, fetches);
    case HandleNext(w, faults) => HandleKeepsInv(s, w, faults);
    case Commit(w, landed) => CommitKeepsInv(s, w, landed);
    case SetOffsets(w) =>
      var wk := s.workers[w];
      assert WorkerOk(s.log, s.handled, wk);
      SeekKeepsWorker(s.log, s.handled, wk.position, wk.flight.rewind);
      OneWorkerChanges(s, w, Worker(Seek(wk.position, wk.flight.rewind), Idle));
    case Crash(w) => OneWorkerChanges(s, w, Worker(map[], Idle));
    case SeekBack(tp, offset) =>
      assert Safe(s.log, s.handled, tp, s.committed[tp]);
  }

  lemma {:induction false} RunKeepsInv(s: Cluster, steps: seq<Step>)
    requires Inv(s) && Runs(s, steps) && AllTame(steps)
    ensures Inv(After(s, steps))
    decreases |steps|
  {
    if steps != [] {
      StepKeepsInv(s, steps[0]);
      RunKeepsInv(Do(s, steps[0]), steps[1..]);
    }
  }

  /* ---------- the theorems ---------- */

  /** No loss: in every reachable state every log record below its partition's committed offset has been handled with a
      nil result, whatever crashed, failed to commit, was reassigned or was moved back. */
  lemma NothingIsLost(steps: seq<Step>, tp: TopicPartition, i: nat)
    requires Runs(START, steps) && AllTame(steps)
    ensures var s := After(START, steps);
            tp in s.committed && i < |LogOf(s.log, tp)| && LogOf(s.log, tp)[i].offset < s.committed[tp] ==>
            (tp, LogOf(s.log, tp)[i].offset) in s.handled
  {
    RunKeepsInv(START, steps);
    var s := After(START, steps);
    if tp in s.committed {
      assert Safe(s.log, s.handled, tp, s.committed[tp]);
    }
  }

  lemma EarlierIsHandled(log: Log, handled: History, tp: TopicPartition, i: nat, j: nat)
    requires LogOk(log) && HistoryOk(log, handled)
    requires i <= j < |LogOf(log, tp)| && (tp, LogOf(log, tp)[j].offset) in handled
    ensures (tp, LogOf(log, tp)[i].offset) in handled
  {
    var own := LogOf(log, tp);
    assert Safe(log, handled, tp, own[j].offset + 1);
    assert i < j ==> own[i].offset < own[j].offset;
  }

  /** Order within a partition: in every reachable state the handled records of a partition are a prefix of its log. */
  lemma HandledIsAPrefix(steps: seq<Step>, tp: TopicPartition, i: nat, j: nat)
    requires Runs(START, steps) && AllTame(steps)
    ensures var s := After(START, steps);
            i <= j < |LogOf(s.log, tp)| && (tp, LogOf(s.log, tp)[j].offset) in s.handled ==>
            (tp, LogOf(s.log, tp)[i].offset) in s.handled
  {
    RunKeepsInv(START, steps);
    var s := After(START, steps);
    if i <= j < |LogOf(s.log, tp)| && (tp, LogOf(s.log, tp)[j].offset) in s.handled {
      EarlierIsHandled(s.log, s.handled, tp, i, j);
    }
  }

  /** A record whose handler never succeeds blocks its own partition: nothing after it is ever handled, nor is an offset
      beyond it committed. */
  lemma UnhandledRecordBlocks(steps: seq<Step>, tp: TopicPartition, i: nat)
    requires Runs(START, steps) && AllTame(steps)
    requires i < |LogOf(After(START, steps).log, tp)|
    requires (tp, LogOf(After(START, steps).log, tp)[i].offset) !in After(START, steps).handled
    ensures var s := After(START, steps);
            && (forall j :: i <= j < |LogOf(s.log, tp)| ==> (tp, LogOf(s.log, tp)[j].offset) !in s.handled)
            && (tp in s.committed ==> s.committed[tp] <= LogOf(s.log, tp)[i].offset)
  {
    var s := After(START, steps);
    forall j: nat | i <= j < |LogOf(s.log, tp)| ensures (tp, LogOf(s.log, tp)[j].offset) !in s.handled {
      HandledIsAPrefix(steps, tp, i, j);
    }
    NothingIsLost(steps, tp, i);
  }
}
