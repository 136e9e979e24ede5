/**
 Transactions of platform/postgres/tx.go.

 A closure handed to `WithinTx` is represented as data (`Prog`), so that every tree of nested `WithinTx` and executor
 calls can be quantified over.  The store and its statements are type parameters: a statement either produces the
 next store or is refused by the database (constraint violation).
 */
module Postgres {
  import opened Prelude

  /** What the environment does to one database call. `Ambiguous` only differs from `Broken` for a COMMIT (or an
      autocommitted statement): the effect landed although the caller sees an error. */
  datatype Fault = Healthy | Broken | Ambiguous

  /** The body of a Go function using executors and `WithinTx` with contexts derived from the one it was given. */
  datatype Prog<S> =
    | Skip                                    // return nil
    | Fail                                    // return a Go error that involves no database call
    | Exec(stmt: S)                           // DB(ctx, pool).Exec(ctx, stmt)
    | Then(first: Prog<S>, second: Prog<S>)   // if err := first; err != nil { return err }; return second
    | Attempt(body: Prog<S>)                  // _ = body
    | WithinTx(body: Prog<S>)                 // manager.WithinTx(ctx, body)

  /** Effect of running a program inside an open transaction. */
  datatype TxOutcome<D> = TxOutcome(pending: D, aborted: bool, calls: nat, ok: bool)

  /** Effect of running a program with a context that carries no transaction. */
  datatype Outcome<D> = Outcome(db: D, calls: nat, commits: nat, ok: bool)

  /* ---------- semantics ---------- */

  function InTx<D, S>(p: Prog<S>, pending: D, aborted: bool, calls: nat,
                      apply: (D, S) -> Option<D>, faults: nat -> Fault): TxOutcome<D>
  {
    match p
    case Skip => TxOutcome(pending, aborted, calls, true)
    case Fail => TxOutcome(pending, aborted, calls, false)
    case Exec(s) =>
      var next := apply(pending, s);
      if aborted || faults(calls) != Healthy || next.None?
      then TxOutcome(pending, true, calls + 1, false)
      else TxOutcome(next.value, false, calls + 1, true)
    case Then(first, second) =>
      var r := InTx(first, pending, aborted, calls, apply, faults);
      if r.ok then InTx(second, r.pending, r.aborted, r.calls, apply, faults) else r
    case Attempt(body) =>
      InTx(body, pending, aborted, calls, apply, faults).(ok := true)
    case WithinTx(body) =>
      InTx(body, pending, aborted, calls, apply, faults)
  }

  /** The outermost `WithinTx`: begin, run, then commit or roll back. */
  function Outermost<D, S>(p: Prog<S>, db: D, calls: nat, commits: nat,
                           apply: (D, S) -> Option<D>, faults: nat -> Fault): Outcome<D>
  {
    if faults(calls) != Healthy then Outcome(db, calls + 1, commits, false)
    else
      var r := InTx(p, db, false, calls + 1, apply, faults);
      if !r.ok then Outcome(db, r.calls, commits, false)
      else if r.aborted || faults(r.calls) == Broken then Outcome(db, r.calls + 1, commits, false)
      else Outcome(r.pending, r.calls + 1, commits + 1, faults(r.calls) == Healthy)
  }

  /** A program run with a context that carries no transaction: plain statements autocommit. */
  function Root<D, S>(p: Prog<S>, db: D, calls: nat, commits: nat,
                      apply: (D, S) -> Option<D>, faults: nat -> Fault): Outcome<D>
  {
    match p
    case Skip => Outcome(db, calls, commits, true)
    case Fail => Outcome(db, calls, commits, false)
    case Exec(s) =>
      var next := apply(db, s);
      if faults(calls) == Broken || next.None? then Outcome(db, calls + 1, commits, false)
      else Outcome(next.value, calls + 1, commits, faults(calls) == Healthy)
    case Then(first, second) =>
      var r := Root(first, db, calls, commits, apply, faults);
      if r.ok then Root(second, r.db, r.calls, r.commits, apply, faults) else r
    case Attempt(body) =>
      Root(body, db, calls, commits, apply, faults).(ok := true)
    case WithinTx(body) =>
      Outermost(body, db, calls, commits, apply, faults)
  }

  /* ---------- the reference: a journal of statements ---------- */

  /** The statements that succeed, in execution order, when `p` runs inside a transaction. */
  function Writes<D, S>(p: Prog<S>, pending: D, aborted: bool, calls: nat,
                        apply: (D, S) -> Option<D>, faults: nat -> Fault): seq<S>
  {
    match p
    case Skip => []
    case Fail => []
    case Exec(s) => if InTx(p, pending, aborted, calls, apply, faults).ok then [s] else []
    case Then(first, second) =>
      var r := InTx(first, pending, aborted, calls, apply, faults);
      Writes(first, pending, aborted, calls, apply, faults) +
      if r.ok then Writes(second, r.pending, r.aborted, r.calls, apply, faults) else []
    case Attempt(body) => Writes(body, pending, aborted, calls, apply, faults)
    case WithinTx(body) => Writes(body, pending, aborted, calls, apply, faults)
  }

  /** Applying a list of statements in order; None when one of them is refused. */
  function Replay<D, S>(db: D, stmts: seq<S>, apply: (D, S) -> Option<D>): Option<D>
  {
    if stmts == [] then Some(db)
    else match apply(db, stmts[0])
      case None => None
      case Some(next) => Replay(next, stmts[1..], apply)
  }

  lemma {:induction false} ReplayConcat<D, S>(db: D, a: seq<S>, b: seq<S>, apply: (D, S) -> Option<D>)
    ensures Replay(db, a + b, apply) ==
            match Replay(db, a, apply) case None => None case Some(mid) => Replay(mid, b, apply)
  {
    if a == [] {
      assert a + b == b;
    } else {
      assert (a + b)[1..] == a[1..] + b;
      match apply(db, a[0])
      case None =>
      case Some(next) => ReplayConcat(next, a[1..], b, apply);
    }
  }

  /** Inside a transaction the pending store is exactly the journal replayed on the store the body started from. */
  lemma {:induction false} InTxReplaysWrites<D, S>(p: Prog<S>, pending: D, aborted: bool, calls: nat,
                                                   apply: (D, S) -> Option<D>, faults: nat -> Fault)
    ensures Replay(pending, Writes(p, pending, aborted, calls, apply, faults), apply) ==
            Some(InTx(p, pending, aborted, calls, apply, faults).pending)
  {
    match p
    case Skip =>
    case Fail =>
    case Exec(s) =>
      var w := Writes(p, pending, aborted, calls, apply, faults);
      if w != [] {
        assert w[1..] == [];
      }
    case Then(first, second) =>
      var r := InTx(first, pending, aborted, calls, apply, faults);
      InTxReplaysWrites(first, pending, aborted, calls, apply, faults);
      var w := Writes(first, pending, aborted, calls, apply, faults);
      if r.ok {
        InTxReplaysWrites(second, r.pending, r.aborted, r.calls, apply, faults);
        ReplayConcat(pending, w, Writes(second, r.pending, r.aborted, r.calls, apply, faults), apply);
      } else {
        assert w + [] == w;
      }
    case Attempt(body) => InTxReplaysWrites(body, pending, aborted, calls, apply, faults);
    case WithinTx(body) => InTxReplaysWrites(body, pending, aborted, calls, apply, faults);
  }

  /** The same program with every inner `WithinTx` replaced by its body. */
  function Flat<S>(p: Prog<S>): Prog<S>
  {
    match p
    case Skip => Skip
    case Fail => Fail
    case Exec(s) => Exec(s)
    case Then(first, second) => Then(Flat(first), Flat(second))
    case Attempt(body) => Attempt(Flat(body))
    case WithinTx(body) => Flat(body)
  }

  /** Nested transactions join the outer one: nesting has no effect of its own. */
  lemma {:induction false} InnerJoinsOuter<D, S>(p: Prog<S>, pending: D, aborted: bool, calls: nat,
                                                 apply: (D, S) -> Option<D>, faults: nat -> Fault)
    ensures InTx(p, pending, aborted, calls, apply, faults) == InTx(Flat(p), pending, aborted, calls, apply, faults)
    ensures Writes(p, pending, aborted, calls, apply, faults) == Writes(Flat(p), pending, aborted, calls, apply, faults)
  {
    match p
    case Skip =>
    case Fail =>
    case Exec(s) =>
    case Then(first, second) =>
      InnerJoinsOuter(first, pending, aborted, calls, apply, faults);
      var r := InTx(first, pending, aborted, calls, apply, faults);
      InnerJoinsOuter(second, r.pending, r.aborted, r.calls, apply, faults);
    case Attempt(body) => InnerJoinsOuter(body, pending, aborted, calls, apply, faults);
    case WithinTx(body) => InnerJoinsOuter(body, pending, aborted, calls, apply, faults);
  }

  /** The outermost call applies the whole journal, in order, or nothing; it commits at most once; an error after
      which the journal is applied can only come from an ambiguous COMMIT. */
  lemma OutermostIsAtomic<D, S>(p: Prog<S>, db: D, calls: nat, commits: nat,
                                apply: (D, S) -> Option<D>, faults: nat -> Fault)
    ensures var r := Root(WithinTx(p), db, calls, commits, apply, faults);
            var w := Writes(p, db, false, calls + 1, apply, faults);
            && (r.ok ==> Replay(db, w, apply) == Some(r.db) && r.commits == commits + 1)
            && (!r.ok && r.commits == commits ==> r.db == db)
            && (!r.ok && r.commits != commits ==>
                  Replay(db, w, apply) == Some(r.db) && r.commits == commits + 1 &&
                  r.calls > 0 && faults(r.calls - 1) == Ambiguous)
  {
    InTxReplaysWrites(p, db, false, calls + 1, apply, faults);
  }

  /** A failing statement inside the body poisons the transaction even if the closure swallows the error. */
  lemma {:induction false} AbortIsSticky<D, S>(p: Prog<S>, pending: D, calls: nat,
                                               apply: (D, S) -> Option<D>, faults: nat -> Fault)
    ensures var r := InTx(p, pending, true, calls, apply, faults); r.aborted && r.pending == pending
  {
    match p
    case Skip =>
    case Fail =>
    case Exec(s) =>
    case Then(first, second) =>
      AbortIsSticky(first, pending, calls, apply, faults);
      AbortIsSticky(second, pending, InTx(first, pending, true, calls, apply, faults).calls, apply, faults);
    case Attempt(body) => AbortIsSticky(body, pending, calls, apply, faults);
    case WithinTx(body) => AbortIsSticky(body, pending, calls, apply, faults);
  }

  /* ---------- a swallowed error of an inner WithinTx ---------- */

  datatype DryOutcome<S> = DryOutcome(ok: bool, stmts: seq<S>)

  /** What a closure does by itself when every statement succeeds. */
  function DryRun<S>(p: Prog<S>): DryOutcome<S>
  {
    match p
    case Skip => DryOutcome(true, [])
    case Fail => DryOutcome(false, [])
    case Exec(s) => DryOutcome(true, [s])
    case Then(first, second) =>
      var a := DryRun(first);
      if a.ok then DryOutcome(DryRun(second).ok, a.stmts + DryRun(second).stmts) else a
    case Attempt(body) => DryRun(body).(ok := true)
    case WithinTx(body) => DryRun(body)
  }

  /** A run that does not poison the transaction is the dry run: same result, same statements. */
  lemma {:induction false} UnabortedIsDryRun<D, S>(p: Prog<S>, pending: D, calls: nat,
                                                   apply: (D, S) -> Option<D>, faults: nat -> Fault)
    requires !InTx(p, pending, false, calls, apply, faults).aborted
    ensures DryOutcome(InTx(p, pending, false, calls, apply, faults).ok,
                       Writes(p, pending, false, calls, apply, faults)) == DryRun(p)
  {
    match p
    case Skip =>
    case Fail =>
    case Exec(s) =>
    case Then(first, second) =>
      var r := InTx(first, pending, false, calls, apply, faults);
      if r.ok && r.aborted {
        AbortIsSticky(second, r.pending, r.calls, apply, faults);
      } else {
        UnabortedIsDryRun(first, pending, calls, apply, faults);
        if r.ok {
          UnabortedIsDryRun(second, r.pending, r.calls, apply, faults);
        }
      }
    case Attempt(body) => UnabortedIsDryRun(body, pending, calls, apply, faults);
    case WithinTx(body) => UnabortedIsDryRun(body, pending, calls, apply, faults);
  }

  ghost predicate AcceptsAll<D(!new), S(!new)>(apply: (D, S) -> Option<D>)
  {
    forall d, s :: apply(d, s).Some?
  }

  const NO_FAULTS: nat -> Fault := _ => Healthy
  const ALL_BROKEN: nat -> Fault := _ => Broken

  /** Without faults and refusals nothing poisons the transaction. */
  lemma {:induction false} NothingAborts<D(!new), S(!new)>(p: Prog<S>, pending: D, calls: nat,
                                                           apply: (D, S) -> Option<D>)
    requires AcceptsAll(apply)
    ensures !InTx(p, pending, false, calls, apply, NO_FAULTS).aborted
  {
    match p
    case Skip =>
    case Fail =>
    case Exec(s) => assert apply(pending, s).Some?;
    case Then(first, second) =>
      var r := InTx(first, pending, false, calls, apply, NO_FAULTS);
      NothingAborts(first, pending, calls, apply);
      NothingAborts(second, r.pending, r.calls, apply);
    case Attempt(body) => NothingAborts(body, pending, calls, apply);
    case WithinTx(body) => NothingAborts(body, pending, calls, apply);
  }

  /** A failing run of `p` that leaves the transaction usable has run no statement. */
  ghost predicate FailsClean<D, S>(p: Prog<S>, pending: D, calls: nat, apply: (D, S) -> Option<D>, faults: nat -> Fault)
  {
    var r := InTx(p, pending, false, calls, apply, faults);
    !r.ok && !r.aborted ==> Writes(p, pending, false, calls, apply, faults) == []
  }

  /** When an inner `WithinTx` fails and its caller swallows the error, nothing of it is left in the outer transaction,
      on every run, exactly when its closure, with every statement succeeding, returns nil or runs no statement. */
  lemma FailedInnerLeavesNothingIff<D(!new), S(!new)>(p: Prog<S>, db: D, apply: (D, S) -> Option<D>)
    requires AcceptsAll(apply)
    ensures (forall pending: D, calls: nat, faults: nat -> Fault ::
               FailsClean(WithinTx(p), pending, calls, apply, faults))
            <==> DryRun(p).ok || DryRun(p).stmts == []
  {
    if DryRun(p).ok || DryRun(p).stmts == [] {
      forall pending: D, calls: nat, faults: nat -> Fault
        ensures FailsClean(WithinTx(p), pending, calls, apply, faults)
      {
        if !InTx(p, pending, false, calls, apply, faults).aborted {
          UnabortedIsDryRun(p, pending, calls, apply, faults);
        }
      }
    } else {
      NothingAborts(p, db, 0, apply);
      UnabortedIsDryRun(p, db, 0, apply, NO_FAULTS);
      assert !FailsClean(WithinTx(p), db, 0, apply, NO_FAULTS);
    }
  }

  /** The same seen from the database: in a fault-free run the statements such a closure ran before failing are
      committed by the outer transaction although the inner call returned an error. */
  lemma FailedInnerIsCommitted<D(!new), S(!new)>(p: Prog<S>, db: D, apply: (D, S) -> Option<D>)
    requires AcceptsAll(apply)
    ensures var r := Root(WithinTx(Attempt(WithinTx(p))), db, 0, 0, apply, NO_FAULTS);
            r.ok && Some(r.db) == Replay(db, DryRun(p).stmts, apply)
  {
    NothingAborts(p, db, 1, apply);
    UnabortedIsDryRun(p, db, 1, apply, NO_FAULTS);
    InTxReplaysWrites(p, db, false, 1, apply, NO_FAULTS);
    var inner := InTx(p, db, false, 1, apply, NO_FAULTS);
    assert InTx(WithinTx(p), db, false, 1, apply, NO_FAULTS) == inner;
    assert InTx(Attempt(WithinTx(p)), db, false, 1, apply, NO_FAULTS) == inner.(ok := true);
  }

  /* ---------- what a fault-free run leaves behind ---------- */

  /** A statement outside a transaction commits by itself, and an error after it took effect means that the answer was
      lost. */
  lemma ExecAutocommits<D, S>(s: S, db: D, calls: nat, commits: nat, apply: (D, S) -> Option<D>, faults: nat -> Fault)
    ensures var r := Root(Exec(s), db, calls, commits, apply, faults);
            && r.calls == calls + 1 && r.commits == commits
            && (r.ok <==> apply(db, s).Some? && faults(calls) == Healthy)
            && (Some(r.db) == apply(db, s) || (r.db == db && !r.ok))
            && (apply(db, s).Some? && faults(calls) == Ambiguous ==> Some(r.db) == apply(db, s))
            && (faults(calls) == Broken ==> r.db == db)
  {
  }

  /** A program of plain statements, without `WithinTx`. */
  predicate Plain<S>(p: Prog<S>)
  {
    match p
    case Then(first, second) => Plain(first) && Plain(second)
    case Attempt(body) => Plain(body)
    case WithinTx(_) => false
    case _ => true
  }

  /** Outside a transaction nothing is undone: what ran before an error stays. */
  lemma {:induction false} PlainIsNeverUndone<D(!new), S(!new)>(p: Prog<S>, db: D, calls: nat, commits: nat,
                                                                apply: (D, S) -> Option<D>)
    requires Plain(p) && AcceptsAll(apply)
    ensures var r := Root(p, db, calls, commits, apply, NO_FAULTS);
            r.ok == DryRun(p).ok && Some(r.db) == Replay(db, DryRun(p).stmts, apply)
  {
    match p
    case Skip =>
    case Fail =>
    case Exec(s) =>
      assert apply(db, s).Some?;
      assert Replay(db, [s], apply) == Some(apply(db, s).value);
    case Then(first, second) =>
      var r := Root(first, db, calls, commits, apply, NO_FAULTS);
      PlainIsNeverUndone(first, db, calls, commits, apply);
      if r.ok {
        PlainIsNeverUndone(second, r.db, r.calls, r.commits, apply);
        ReplayConcat(db, DryRun(first).stmts, DryRun(second).stmts, apply);
      }
    case Attempt(body) => PlainIsNeverUndone(body, db, calls, commits, apply);
  }

  /** Inside one everything is, unless the closure returns nil. */
  lemma UnfaultedTxIsDryRun<D(!new), S(!new)>(p: Prog<S>, db: D, calls: nat, commits: nat, apply: (D, S) -> Option<D>)
    requires AcceptsAll(apply)
    ensures var r := Root(WithinTx(p), db, calls, commits, apply, NO_FAULTS);
            && r.ok == DryRun(p).ok
            && r.commits == commits + (if DryRun(p).ok then 1 else 0)
            && Some(r.db) == if DryRun(p).ok then Replay(db, DryRun(p).stmts, apply) else Some(db)
  {
    NothingAborts(p, db, calls + 1, apply);
    UnabortedIsDryRun(p, db, calls + 1, apply, NO_FAULTS);
    InTxReplaysWrites(p, db, false, calls + 1, apply, NO_FAULTS);
  }

  /* ---------- the objects ---------- */

  /** The connection pool: the committed store, plus how many calls and commits the environment has seen. */
  class Pool<D, S> {
    const apply: (D, S) -> Option<D>
    const faults: nat -> Fault
    var committed: D
    var calls: nat
    var commits: nat

    constructor (db: D, apply: (D, S) -> Option<D>, faults: nat -> Fault)
      ensures committed == db && calls == 0 && commits == 0
      ensures this.apply == apply && this.faults == faults
    {
      this.apply := apply;
      this.faults := faults;
      committed, calls, commits := db, 0, 0;
    }

    method Call() returns (fault: Fault)
      modifies this`calls
      ensures fault == faults(old(calls)) && calls == old(calls) + 1
    {
      fault := faults(calls);
      calls := calls + 1;
    }
  }

  /** An open transaction. */
  class Tx<D> {
    var pending: D
    var aborted: bool

    constructor (db: D)
      ensures pending == db && !aborted
    {
      pending, aborted := db, false;
    }
  }

  /** A context: the transaction stored under txKey, if any. */
  datatype Ctx<!D> = Background | InTransaction(tx: Tx<D>)
  {
    function Frame(): set<object> {
      match this case Background => {} case InTransaction(tx) => {tx}
    }
  }

  class TxManager<D, S> {
    const pool: Pool<D, S>

    constructor (pool: Pool<D, S>)
      ensures this.pool == pool
    {
      this.pool := pool;
    }

    method WithinTx(ctx: Ctx<D>, fn: Prog<S>) returns (ok: bool)
      modifies pool`committed, pool`calls, pool`commits, ctx.Frame()
      ensures ctx.Background? ==>
                Outcome(pool.committed, pool.calls, pool.commits, ok) ==
                Root(Prog.WithinTx(fn), old(pool.committed), old(pool.calls), old(pool.commits), pool.apply,
                  pool.faults)
      ensures ctx.InTransaction? ==>
                && TxOutcome(ctx.tx.pending, ctx.tx.aborted, pool.calls, ok) ==
                   InTx(fn, old(ctx.tx.pending), old(ctx.tx.aborted), old(pool.calls), pool.apply, pool.faults)
                && pool.committed == old(pool.committed) && pool.commits == old(pool.commits)
      decreases fn, 1
    {
      if ctx.InTransaction? {
        ok := Run(ctx, fn);
        return;
      }
      var begin := pool.Call();
      if begin != Healthy {
        return false;
      }
      var tx := new Tx<D>(pool.committed);
      ok := Run(InTransaction(tx), fn);
      if !ok {
        return;               // the deferred Rollback drops tx.pending
      }
      var commit := pool.Call();
      if tx.aborted || commit == Broken {
        return false;
      }
      pool.committed := tx.pending;
      pool.commits := pool.commits + 1;
      ok := commit == Healthy;
    }

    /** Runs a closure: `DB(ctx, pool)` picks the transaction of the context, or the pool. */
    method Run(ctx: Ctx<D>, fn: Prog<S>) returns (ok: bool)
      modifies pool`committed, pool`calls, pool`commits, ctx.Frame()
      ensures ctx.Background? ==>
                Outcome(pool.committed, pool.calls, pool.commits, ok) ==
                Root(fn, old(pool.committed), old(pool.calls), old(pool.commits), pool.apply, pool.faults)
      ensures ctx.InTransaction? ==>
                && TxOutcome(ctx.tx.pending, ctx.tx.aborted, pool.calls, ok) ==
                   InTx(fn, old(ctx.tx.pending), old(ctx.tx.aborted), old(pool.calls), pool.apply, pool.faults)
                && pool.committed == old(pool.committed) && pool.commits == old(pool.commits)
      decreases fn, 0
    {
      match fn
      case Skip => ok := true;
      case Fail => ok := false;
      case Exec(s) => ok := ExecOn(ctx, s);
      case Then(first, second) =>
        ok := Run(ctx, first);
        if ok {
          ok := Run(ctx, second);
        }
      case Attempt(body) =>
        var ignored := Run(ctx, body);
        ok := true;
      case WithinTx(body) =>
        ok := this.WithinTx(ctx, body);
    }

    method ExecOn(ctx: Ctx<D>, s: S) returns (ok: bool)
      modifies pool`committed, pool`calls, ctx.Frame()
      ensures ctx.Background? ==>
                Outcome(pool.committed, pool.calls, pool.commits, ok) ==
                Root(Exec(s), old(pool.committed), old(pool.calls), pool.commits, pool.apply, pool.faults)
      ensures ctx.InTransaction? ==>
                && TxOutcome(ctx.tx.pending, ctx.tx.aborted, pool.calls, ok) ==
                   InTx(Exec(s), old(ctx.tx.pending), old(ctx.tx.aborted), old(pool.calls), pool.apply, pool.faults)
                && pool.committed == old(pool.committed)
    {
      var fault := pool.Call();
      match ctx
      case Background =>
        var next := pool.apply(pool.committed, s);
        if fault == Broken || next.None? {
          return false;
        }
        pool.committed := next.value;
        ok := fault == Healthy;
      case InTransaction(tx) =>
        var next := pool.apply(tx.pending, s);
        if tx.aborted || fault != Healthy || next.None? {
          tx.aborted := true;
          return false;
        }
        tx.pending := next.value;
        ok := true;
    }
  }
}
