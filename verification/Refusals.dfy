/**
 Why transactions fail: every reason a rolled-back transaction reports was true of a
 committed state it saw.
 */
module Refusals {
  import opened Wrappers
  import FieldSchema
  import opened Catalog
  import opened Requests
  import opened Runs
  import opened Transactions
  import Service

  /** The rows an operation locks, as the catalog stands at its checks. */
  ghost function LockSet(cat: State, op: Op): set<Id> {
    if op.SetStatus? then Service.Found(cat.table, NamedIds(op.items)) else Writes(op)
  }

  /** Locked and still to lock are together what the checks found, and nothing the operation does not name. */
  ghost predicate LocksChecked(lib: FieldSchema.Lib, log: seq<Op>, tx: Tx)
    requires Replay(lib, log).Ok?
  {
    && Seen(tx).Keys <= Writes(tx.op)
    && (tx.phase.Locking? ==>
          && tx.phase.since <= |log|
          && tx.phase.seen.Keys + Service.Elements(tx.phase.todo) == LockSet(At(lib, log, tx.phase.since), tx.op))
    && (tx.phase.Locking? || tx.phase.Written? ==> tx.phase.since <= |log| && ActiveThen(At(lib, log, tx.phase.since), tx.op))
  }

  /** A creation names the schema version that is active in this state. */
  ghost predicate ActiveThen(cat: State, op: Op) {
    op.Create? ==> op.product.ptype in cat.active && cat.active[op.product.ptype] == op.product.schemaVersion
  }

  /** A committed transaction is in the log, and its creation's schema version was active at its checks. */
  ghost predicate CommitLogged(lib: FieldSchema.Lib, log: seq<Op>, tx: Tx)
    requires Replay(lib, log).Ok?
  {
    tx.phase.Committed? ==>
      && tx.phase.since <= tx.phase.pos < |log| && log[tx.phase.pos] == tx.op
      && ActiveThen(At(lib, log, tx.phase.since), tx.op)
  }

  ghost predicate Inactive(cat: State, p: Product) {
    p.ptype !in cat.active || cat.active[p.ptype] != p.schemaVersion
  }

  /**
   A failed edit or creation is refused for what it would fail with alone on the catalog at
   its end, or because its schema version is not the active one. Each reason of a failed
   batch applies at its end, or was that the row did not exist at its checks.
   */
  ghost predicate Explained(lib: FieldSchema.Lib, checked: State, ended: State, op: Op, why: Failure) {
    match why
    case BatchFailures(reasons) =>
      && op.SetStatus? && reasons != map[]
      && forall id :: id in reasons ==> id in NamedIds(op.items) && ReasonHeld(checked, ended, op, id, reasons[id])
    case _ =>
      Apply(lib, ended, op) == Err(why) || (op.Create? && why == SchemaVersionConflict && Inactive(ended, op.product))
  }

  ghost predicate ReasonHeld(checked: State, ended: State, op: Op, id: Id, reason: Reason)
    requires op.SetStatus? && id in NamedIds(op.items)
  {
    || WhyFails(ended.table, op.items, op.target, id) == Some(reason)
    || (reason == NotFound && WhyFails(checked.table, op.items, op.target, id) == Some(NotFound))
  }

  ghost predicate WhyOk(lib: FieldSchema.Lib, log: seq<Op>, tx: Tx)
    requires Replay(lib, log).Ok?
  {
    tx.phase.RolledBack? ==>
      && tx.phase.since <= tx.phase.upTo <= |log|
      && Explained(lib, At(lib, log, tx.phase.since), At(lib, log, tx.phase.upTo), tx.op, tx.phase.why)
  }

  ghost predicate TxTraceOk(lib: FieldSchema.Lib, log: seq<Op>, tx: Tx)
    requires Replay(lib, log).Ok?
  {
    LocksChecked(lib, log, tx) && WhyOk(lib, log, tx) && CommitLogged(lib, log, tx)
  }

  ghost predicate Traced(lib: FieldSchema.Lib, sys: System) {
    && Replay(lib, sys.log).Ok?
    && forall t :: t in sys.txs ==> TxTraceOk(lib, sys.log, sys.txs[t])
  }

  // ------------------------------------------------------------------------- later commits change no earlier state

  lemma AtStays(lib: FieldSchema.Lib, log: seq<Op>, log': seq<Op>, i: nat)
    requires Replay(lib, log).Ok? && Replay(lib, log').Ok? && log <= log' && i <= |log|
    ensures At(lib, log', i) == At(lib, log, i)
  {
    assert log'[..i] == log[..i];
  }

  lemma AtEnd(lib: FieldSchema.Lib, log: seq<Op>)
    requires Replay(lib, log).Ok?
    ensures At(lib, log, |log|) == Replay(lib, log).value
  {
    assert log[..|log|] == log;
  }

  lemma TraceStays(lib: FieldSchema.Lib, log: seq<Op>, log': seq<Op>, tx: Tx)
    requires Replay(lib, log).Ok? && Replay(lib, log').Ok? && log <= log'
    requires TxTraceOk(lib, log, tx)
    ensures TxTraceOk(lib, log', tx)
  {
    if tx.phase.Locking? || tx.phase.Written? || tx.phase.Committed? {
      AtStays(lib, log, log', tx.phase.since);
    } else if tx.phase.RolledBack? {
      AtStays(lib, log, log', tx.phase.since);
      AtStays(lib, log, log', tx.phase.upTo);
    }
  }

  // ------------------------------------------------------------------------- the checks

  lemma CheckRefuses(lib: FieldSchema.Lib, cat: State, op: Op)
    requires op.Create? || op.Edit? || op.SetStatus?
    requires Sane(lib, cat) && Admit(lib, cat, op).Err?
    ensures Explained(lib, cat, cat, op, Admit(lib, cat, op).error)
  {
  }

  lemma CheckLocks(lib: FieldSchema.Lib, cat: State, op: Op)
    requires Admit(lib, cat, op).Ok?
    ensures Service.Elements(Admit(lib, cat, op).value) == LockSet(cat, op) <= Writes(op)
    ensures ActiveThen(cat, op)
  {
    assert forall id :: id in Service.Elements(Admit(lib, cat, op).value) <==> id in LockSet(cat, op);
  }

  /** What is known of one transaction before its step. */
  ghost predicate Known(lib: FieldSchema.Lib, sys: System, t: TxId) {
    && Replay(lib, sys.log) == Ok(sys.cat)
    && t in sys.txs && TxOk(lib, sys, t, sys.txs[t]) && LocksChecked(lib, sys.log, sys.txs[t])
  }

  lemma CheckTraced(lib: FieldSchema.Lib, sys: System, sys': System, t: TxId)
    requires Known(lib, sys, t) && Next(lib, sys, sys', Check(t))
    ensures sys'.log == sys.log && TxTraceOk(lib, sys.log, sys'.txs[t])
  {
    var op := sys.txs[t].op;
    AtEnd(lib, sys.log);
    if Admit(lib, sys.cat, op).Ok? {
      CheckLocks(lib, sys.cat, op);
    } else {
      EveryStateSane(lib, sys.log, |sys.log|);
      CheckRefuses(lib, sys.cat, op);
    }
  }

  lemma LockTraced(lib: FieldSchema.Lib, sys: System, sys': System, t: TxId)
    requires Known(lib, sys, t) && Next(lib, sys, sys', Lock(t))
    ensures sys'.log == sys.log && TxTraceOk(lib, sys.log, sys'.txs[t])
  {
    var a, b := sys.txs[t].phase, sys'.txs[t].phase;
    assert a.todo == [a.todo[0]] + a.todo[1..];
    assert b.seen.Keys + Service.Elements(b.todo) == a.seen.Keys + Service.Elements(a.todo);
    assert a.todo[0] in Service.Elements(a.todo);
  }

  // ------------------------------------------------------------------------- the statements

  /** An edit or creation refused under its lock fails alone on the present catalog in the same way. */
  lemma ExecuteRefusesLikeApply(lib: FieldSchema.Lib, cat: State, op: Op, seen: map<Id, Option<Product>>)
    requires (op.Create? || op.Edit?) && StillAdmitted(lib, cat, op) && op.id in seen
    requires forall id :: id in seen ==> seen[id] == Lookup(cat.table, id)
    requires Execute(op, seen).Err?
    ensures Apply(lib, cat, op) == Err(Execute(op, seen).error)
  {
  }

  lemma BatchReasonHeld(checked: State, ended: State, op: Op, seen: map<Id, Option<Product>>, id: Id)
    requires op.SetStatus? && id in NamedIds(op.items) && WhyFails(Rows(seen), op.items, op.target, id).Some?
    requires seen.Keys == Service.Found(checked.table, NamedIds(op.items))
    requires forall x :: x in seen ==> seen[x].Some? && seen[x] == Lookup(ended.table, x)
    ensures ReasonHeld(checked, ended, op, id, WhyFails(Rows(seen), op.items, op.target, id).value)
  {
    if id in seen {
      assert Rows(seen)[id] == ended.table[id];
    }
  }

  lemma BatchRefusal(lib: FieldSchema.Lib, checked: State, ended: State, op: Op, seen: map<Id, Option<Product>>)
    requires op.SetStatus? && Execute(op, seen).Err?
    requires seen.Keys == Service.Found(checked.table, NamedIds(op.items))
    requires forall x :: x in seen ==> seen[x].Some? && seen[x] == Lookup(ended.table, x)
    ensures Explained(lib, checked, ended, op, Execute(op, seen).error)
  {
    var reasons := BatchReasons(Rows(seen), op.items, op.target);
    forall id | id in reasons
      ensures id in NamedIds(op.items) && ReasonHeld(checked, ended, op, id, reasons[id])
    {
      BatchReasonHeld(checked, ended, op, seen, id);
    }
  }

  /** What the statements find at a failure, given what was locked. */
  lemma RefusalExplained(lib: FieldSchema.Lib, sys: System, t: TxId)
    requires Known(lib, sys, t) && sys.txs[t].phase.Locking? && sys.txs[t].phase.todo == []
    requires Execute(sys.txs[t].op, sys.txs[t].phase.seen).Err?
    ensures var tx := sys.txs[t];
      Explained(lib, At(lib, sys.log, tx.phase.since), sys.cat, tx.op, Execute(tx.op, tx.phase.seen).error)
  {
    var tx := sys.txs[t];
    assert Service.Elements(tx.phase.todo) == {};
    if tx.op.SetStatus? {
      BatchRefusal(lib, At(lib, sys.log, tx.phase.since), sys.cat, tx.op, tx.phase.seen);
    } else {
      assert tx.op.id in LockSet(At(lib, sys.log, tx.phase.since), tx.op);
      ExecuteRefusesLikeApply(lib, sys.cat, tx.op, tx.phase.seen);
    }
  }

  lemma RunTraced(lib: FieldSchema.Lib, sys: System, sys': System, t: TxId)
    requires Known(lib, sys, t) && Next(lib, sys, sys', Run(t))
    ensures sys'.log == sys.log && TxTraceOk(lib, sys.log, sys'.txs[t])
  {
    AtEnd(lib, sys.log);
    if Execute(sys.txs[t].op, sys.txs[t].phase.seen).Err? {
      RefusalExplained(lib, sys, t);
    }
  }

  // ------------------------------------------------------------------------- all runs

  /** A step changes at most one transaction, and the log only grows. */
  ghost predicate OnlyTx(sys: System, sys': System, step: Step) {
    && sys.log <= sys'.log
    && if step.ChangeSchemas? then sys'.txs == sys.txs else step.t in sys'.txs && sys'.txs == sys.txs[step.t := sys'.txs[step.t]]
  }

  lemma StepsTouchOneTx(lib: FieldSchema.Lib, sys: System, sys': System, step: Step)
    requires Next(lib, sys, sys', step)
    ensures OnlyTx(sys, sys', step)
  {
  }

  /** A stale edit that waits for no lock fails alone on the present catalog in the same way. */
  lemma MissTraced(lib: FieldSchema.Lib, sys: System, sys': System, t: TxId)
    requires Known(lib, sys, t) && Next(lib, sys, sys', Miss(t))
    ensures sys'.log == sys.log && TxTraceOk(lib, sys.log, sys'.txs[t])
  {
    AtEnd(lib, sys.log);
    StaleEditFails(lib, sys.cat, sys.txs[t]);
  }

  lemma StaleEditFails(lib: FieldSchema.Lib, cat: State, tx: Tx)
    requires Misses(cat, tx) && StillAdmitted(lib, cat, tx.op)
    ensures Apply(lib, cat, tx.op) == Err(StaleVersion)
  {
  }

  lemma BeginTraced(lib: FieldSchema.Lib, sys: System, sys': System, step: Step)
    requires Next(lib, sys, sys', step) && (step.Begin? || step.Abort?)
    ensures sys'.txs[step.t].phase.Started? || sys'.txs[step.t].phase.Aborted?
  {
  }

  lemma CommitTraced(lib: FieldSchema.Lib, sys: System, sys': System, t: TxId)
    requires Known(lib, sys, t) && Next(lib, sys, sys', Commit(t)) && Replay(lib, sys'.log).Ok?
    ensures TxTraceOk(lib, sys'.log, sys'.txs[t])
  {
    CommitPhase(lib, sys, sys', t);
    CommittedTraceOk(lib, sys.log, sys'.log, sys.txs[t], sys'.txs[t]);
  }

  lemma CommitPhase(lib: FieldSchema.Lib, sys: System, sys': System, t: TxId)
    requires t in sys.txs && Next(lib, sys, sys', Commit(t))
    ensures sys.txs[t].phase.Written? && t in sys'.txs
    ensures sys'.txs[t] == Tx(sys.txs[t].op, Phase.Committed(sys.txs[t].phase.since, |sys.log|))
    ensures sys'.log == sys.log + [sys.txs[t].op]
  {
  }

  lemma CommittedTraceOk(lib: FieldSchema.Lib, log: seq<Op>, log': seq<Op>, tx: Tx, tx': Tx)
    requires Replay(lib, log).Ok? && Replay(lib, log').Ok? && log' == log + [tx.op]
    requires tx.phase.Written? && LocksChecked(lib, log, tx)
    requires tx' == Tx(tx.op, Phase.Committed(tx.phase.since, |log|))
    ensures TxTraceOk(lib, log', tx')
  {
    AtStays(lib, log, log', tx.phase.since);
  }

  lemma OwnTraced(lib: FieldSchema.Lib, sys: System, sys': System, step: Step)
    requires Replay(lib, sys'.log).Ok? && Next(lib, sys, sys', step)
    requires !step.ChangeSchemas? && (!step.Begin? ==> Known(lib, sys, step.t))
    ensures TxTraceOk(lib, sys'.log, sys'.txs[step.t])
  {
    if step.Check? {
      CheckTraced(lib, sys, sys', step.t);
    } else if step.Lock? {
      LockTraced(lib, sys, sys', step.t);
    } else if step.Run? {
      RunTraced(lib, sys, sys', step.t);
    } else if step.Miss? {
      MissTraced(lib, sys, sys', step.t);
    } else if step.Commit? {
      CommitTraced(lib, sys, sys', step.t);
    } else {
      BeginTraced(lib, sys, sys', step);
    }
  }

  lemma TracedNext(lib: FieldSchema.Lib, sys: System, sys': System, step: Step)
    requires Inv(lib, sys) && Traced(lib, sys) && Replay(lib, sys'.log).Ok? && Next(lib, sys, sys', step)
    ensures Traced(lib, sys')
  {
    StepsTouchOneTx(lib, sys, sys', step);
    forall u | u in sys'.txs
      ensures TxTraceOk(lib, sys'.log, sys'.txs[u])
    {
      TxTraced(lib, sys, sys', step, u);
    }
  }

  lemma TxTraced(lib: FieldSchema.Lib, sys: System, sys': System, step: Step, u: TxId)
    requires Inv(lib, sys) && Traced(lib, sys) && Replay(lib, sys'.log).Ok? && Next(lib, sys, sys', step)
    requires OnlyTx(sys, sys', step) && u in sys'.txs
    ensures TxTraceOk(lib, sys'.log, sys'.txs[u])
  {
    if step.ChangeSchemas? || u != step.t {
      TraceStays(lib, sys.log, sys'.log, sys.txs[u]);
    } else {
      if !step.Begin? {
        HeldBy(lib, sys, u);
      }
      OwnTraced(lib, sys, sys', step);
    }
  }

  lemma {:induction false} RunIsTraced(lib: FieldSchema.Lib, run: seq<System>)
    requires IsRun(lib, run)
    ensures Traced(lib, Final(run))
  {
    if |run| > 1 {
      var before := run[..|run| - 1];
      PathPrefix(INITIAL, Successor(lib), run);
      RunIsTraced(lib, before);
      RunInv(lib, before);
      RunInv(lib, run);
      var step :| Next(lib, Final(before), Final(run), step);
      TracedNext(lib, Final(before), Final(run), step);
    }
  }

  /**
   In every interleaving, what a rolled-back transaction reports was true: of the committed
   catalog at its end, or, for rows it did not find, of the one at its checks.
   */
  lemma RefusalsAreTrue(lib: FieldSchema.Lib, run: seq<System>, t: TxId)
    requires IsRun(lib, run) && t in Final(run).txs && Final(run).txs[t].phase.RolledBack?
    ensures Replay(lib, Final(run).log).Ok?
    ensures var log, tx := Final(run).log, Final(run).txs[t];
      && tx.phase.since <= tx.phase.upTo <= |log|
      && Explained(lib, At(lib, log, tx.phase.since), At(lib, log, tx.phase.upTo), tx.op, tx.phase.why)
  {
    RunIsTraced(lib, run);
  }

  /**
   In every interleaving, a committed transaction stands in the log at its commit, and a
   committed creation names the schema version that was active at its checks.
   */
  lemma CommittedWasActive(lib: FieldSchema.Lib, run: seq<System>, t: TxId)
    requires IsRun(lib, run) && t in Final(run).txs && Final(run).txs[t].phase.Committed?
    ensures Replay(lib, Final(run).log).Ok?
    ensures var log, tx := Final(run).log, Final(run).txs[t];
      && tx.phase.since <= tx.phase.pos < |log| && log[tx.phase.pos] == tx.op
      && (tx.op.Create? ==> Lookup(At(lib, log, tx.phase.since).active, tx.op.product.ptype) == Some(tx.op.product.schemaVersion))
  {
    RunIsTraced(lib, run);
  }

  /** What the commit at one place of the log does to the table, field by field. */
  ghost predicate AsRequested(before: Table, after: Table, op: Op) {
    match op
    case Create(id, p) => Created(before, after, id, p)
    case Edit(id, expected, _, change) => Rewritten(before, after, id, expected, change)
    case SetStatus(items, target) => StatusSet(before, after, items, target)
    case _ => after == before
  }

  /** In every interleaving, each commit leaves its rows as its request says, and no other row changed. */
  lemma CommittedAsRequested(lib: FieldSchema.Lib, run: seq<System>, i: nat)
    requires IsRun(lib, run) && i < |Final(run).log|
    ensures Replay(lib, Final(run).log).Ok?
    ensures AsRequested(At(lib, Final(run).log, i).table, At(lib, Final(run).log, i + 1).table, Final(run).log[i])
  {
    Serialisable(lib, run);
    AtNext(lib, Final(run).log, i);
    AppliedAsRequested(lib, At(lib, Final(run).log, i), Final(run).log[i]);
  }

  lemma AppliedAsRequested(lib: FieldSchema.Lib, s: State, op: Op)
    requires Apply(lib, s, op).Ok?
    ensures AsRequested(s.table, Apply(lib, s, op).value.table, op)
  {
    match op
    case Create(id, p) => CreationIs(lib, s, id, p);
    case Edit(id, expected, schemaVersion, change) => EditIs(lib, s, id, expected, schemaVersion, change);
    case SetStatus(items, target) => BatchIs(s.table, items, target);
    case _ =>
  }
}
