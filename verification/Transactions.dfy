/**
 Concurrent write transactions over one database: row locks taken one at a time, rows
 read under their lock, and a commit that publishes all writes at once.

 An edit or a creation locks one id (the row, or its place in the primary-key index); a
 batch locks the rows its statement finds, in ascending id order.
 */
module Transactions {
  import opened Wrappers
  import opened Domain
  import opened FieldSchema
  import opened Catalog
  import opened Runs
  import Service

  type TxId = nat

  datatype Phase =
    | Started
    // locks still to take, the rows read under the locks already held, and how many commits the checks saw
    | Locking(todo: seq<Id>, seen: map<Id, Option<Product>>, since: nat)
    // all statements executed, nothing committed
    | Written(seen: map<Id, Option<Product>>, writes: Table, since: nat)
    // how many commits there were at the checks, and which commit this one is
    | Committed(since: nat, pos: nat)
    // why, and how many commits there were at the checks and at the end
    | RolledBack(why: Failure, since: nat, upTo: nat)
    | Aborted

  datatype Tx = Tx(op: Op, phase: Phase)

  datatype System = System(cat: State, locks: map<Id, TxId>, txs: map<TxId, Tx>, log: seq<Op>)

  const INITIAL := System(EMPTY, map[], map[], [])

  predicate Unfinished(tx: Tx) {
    tx.phase.Started? || tx.phase.Locking? || tx.phase.Written?
  }

  /** The rows a transaction holds locked, as it read them. */
  function Seen(tx: Tx): map<Id, Option<Product>> {
    match tx.phase
    case Locking(_, seen, _) => seen
    case Written(seen, _, _) => seen
    case _ => map[]
  }

  // ------------------------------------------------------------------------- local decisions

  /** What the checks before the first lock decide: the ids to lock, in order, or a failure. */
  ghost function Admit(lib: Lib, cat: State, op: Op): Result<seq<Id>, Failure> {
    match op
    case Create(id, p) =>
      if p.ptype !in cat.active || cat.active[p.ptype] != p.schemaVersion then Err(SchemaVersionConflict)
      else if !AttributesValid(lib, cat, p.ptype, p.schemaVersion, p.attributes) then Err(InvalidAttributes)
      else if !ImagesOk(p.images) then Err(InvalidImages)
      else Ok([id])
    case Edit(id, _, schemaVersion, change) =>
      if id !in cat.table then Err(ProductNotFound)
      else if (cat.table[id].ptype, cat.table[id].schemaVersion) !in cat.schemas || schemaVersion != cat.table[id].schemaVersion then
        Err(SchemaVersionConflict)
      else if !AttributesValid(lib, cat, cat.table[id].ptype, schemaVersion, change.attributes) then Err(InvalidAttributes)
      else Ok([id])
    case SetStatus(items, _) => Ok(Service.SortedIds(Service.Found(cat.table, NamedIds(items))))
    case _ => Err(SchemaConflict)
  }

  /** The rows a batch found, as a table. */
  function Rows(seen: map<Id, Option<Product>>): Table {
    map id | id in seen && seen[id].Some? :: seen[id].value
  }

  /** What the statements write, given the rows read under lock. */
  ghost function Execute(op: Op, seen: map<Id, Option<Product>>): Result<Table, Failure> {
    match op
    case Create(id, p) =>
      if id !in seen || seen[id].Some? then Err(ProductConflict) else Ok(map[id := p.(version := 1)])
    case Edit(id, expected, _, change) =>
      if id !in seen || seen[id].None? then Err(ProductNotFound)
      else if seen[id].value.version != expected then Err(StaleVersion)
      else if !ImagesOk(change.images) then Err(InvalidImages)
      else Ok(map[id := Edited(seen[id].value, change)])
    case SetStatus(items, target) =>
      var reasons := BatchReasons(Rows(seen), items, target);
      if reasons != map[] then Err(BatchFailures(reasons)) else Ok(Moved(Rows(seen), NamedIds(items), target))
    case _ => Err(SchemaConflict)
  }

  // ------------------------------------------------------------------------- steps

  datatype Step =
    | Begin(t: TxId, op: Op)
    | Check(t: TxId)
    | Lock(t: TxId)
    | Run(t: TxId)
    | Miss(t: TxId)
    | Commit(t: TxId)
    | Abort(t: TxId)
    | ChangeSchemas(op: Op)

  function Released(locks: map<Id, TxId>, t: TxId): map<Id, TxId> {
    map id | id in locks && locks[id] != t :: locks[id]
  }

  function Set(sys: System, t: TxId, phase: Phase): System
    requires t in sys.txs
  {
    sys.(txs := sys.txs[t := sys.txs[t].(phase := phase)])
  }

  /** The UPDATE has not locked its row, and the committed row has another version. */
  predicate Misses(cat: State, tx: Tx) {
    && tx.phase.Locking? && tx.op.Edit? && tx.phase.seen == map[]
    && tx.op.id in cat.table && cat.table[tx.op.id].version != tx.op.expected
  }

  predicate Blocked(sys: System, t: TxId) {
    && t in sys.txs
    && sys.txs[t].phase.Locking?
    && sys.txs[t].phase.todo != []
    && sys.txs[t].phase.todo[0] in sys.locks
  }

  ghost predicate Next(lib: Lib, sys: System, sys': System, step: Step) {
    match step
    case Begin(t, op) =>
      && t !in sys.txs
      && (op.Create? || op.Edit? || op.SetStatus?)
      && sys' == sys.(txs := sys.txs[t := Tx(op, Started)])
    case Check(t) =>
      && t in sys.txs && sys.txs[t].phase.Started?
      && sys' == (match Admit(lib, sys.cat, sys.txs[t].op)
                  case Ok(ids) => Set(sys, t, Locking(ids, map[], |sys.log|))
                  case Err(e) => Set(sys, t, RolledBack(e, |sys.log|, |sys.log|)))
    case Lock(t) =>
      && t in sys.txs && sys.txs[t].phase.Locking? && sys.txs[t].phase.todo != [] && !Blocked(sys, t)
      && var Locking(todo, seen, since) := sys.txs[t].phase;
      && sys' == Set(sys, t, Locking(todo[1..], seen[todo[0] := Lookup(sys.cat.table, todo[0])], since)).(locks := sys.locks[todo[0] := t])
    case Run(t) =>
      && t in sys.txs && sys.txs[t].phase.Locking? && sys.txs[t].phase.todo == []
      && var seen, since := sys.txs[t].phase.seen, sys.txs[t].phase.since;
      && sys' == (match Execute(sys.txs[t].op, seen)
                  case Ok(writes) => Set(sys, t, Written(seen, writes, since))
                  case Err(e) => Set(sys, t, RolledBack(e, since, |sys.log|)).(locks := Released(sys.locks, t)))
    // an edit's UPDATE whose snapshot already fails the version test: no row to wait for
    case Miss(t) =>
      && t in sys.txs && sys.txs[t].phase.Locking? && Misses(sys.cat, sys.txs[t])
      && sys' == Set(sys, t, RolledBack(StaleVersion, sys.txs[t].phase.since, |sys.log|))
    case Commit(t) =>
      && t in sys.txs && sys.txs[t].phase.Written?
      && sys' == Set(sys, t, Committed(sys.txs[t].phase.since, |sys.log|)).(
           cat := sys.cat.(table := sys.cat.table + sys.txs[t].phase.writes),
           locks := Released(sys.locks, t),
           log := sys.log + [sys.txs[t].op])
    case Abort(t) =>
      && t in sys.txs && Unfinished(sys.txs[t])
      && sys' == Set(sys, t, Aborted).(locks := Released(sys.locks, t))
    case ChangeSchemas(op) =>
      && (op.AddSchema? || op.Activate?)
      && Apply(lib, sys.cat, op).Ok?
      && sys' == sys.(cat := Apply(lib, sys.cat, op).value, log := sys.log + [op])
  }

  // ------------------------------------------------------------------------- the invariant

  ghost predicate Ascending(ids: seq<Id>) {
    forall i, j :: 0 <= i < j < |ids| ==> ids[i] < ids[j]
  }

  /** What the checks before the locks established still holds. */
  ghost predicate StillAdmitted(lib: Lib, cat: State, op: Op) {
    match op
    case Create(_, p) => AttributesValid(lib, cat, p.ptype, p.schemaVersion, p.attributes) && ImagesOk(p.images)
    case Edit(id, _, schemaVersion, change) =>
      && id in cat.table
      && schemaVersion == cat.table[id].schemaVersion
      && AttributesValid(lib, cat, cat.table[id].ptype, schemaVersion, change.attributes)
    case SetStatus(_, _) => true
    case _ => false
  }

  /** Locks come in ascending order, and only on ids the operation may touch. */
  ghost predicate OrderedLocks(op: Op, todo: seq<Id>, seen: map<Id, Option<Product>>) {
    && Ascending(todo)
    && (forall id, next :: id in seen && next in todo ==> id < next)
    && (op.SetStatus? ==> forall id :: id in seen ==> seen[id].Some?)
  }

  ghost predicate TxOk(lib: Lib, sys: System, t: TxId, tx: Tx) {
    && (tx.op.Create? || tx.op.Edit? || tx.op.SetStatus?)
    && (forall id :: id in Seen(tx) ==> id in sys.locks && sys.locks[id] == t && Seen(tx)[id] == Lookup(sys.cat.table, id))
    && (tx.phase.Locking? || tx.phase.Written? ==> StillAdmitted(lib, sys.cat, tx.op))
    && (tx.phase.Locking? ==> OrderedLocks(tx.op, tx.phase.todo, tx.phase.seen))
    && (tx.phase.Locking? && tx.op.SetStatus? ==> forall id :: id in tx.phase.todo ==> id in sys.cat.table)
    && (tx.phase.Written? ==> Execute(tx.op, tx.phase.seen) == Ok(tx.phase.writes) && tx.phase.writes.Keys <= tx.phase.seen.Keys)
  }

  ghost predicate Inv(lib: Lib, sys: System) {
    && Replay(lib, sys.log) == Ok(sys.cat)
    && (forall t :: t in sys.txs ==> TxOk(lib, sys, t, sys.txs[t]))
    && (forall id :: id in sys.locks ==> sys.locks[id] in sys.txs && id in Seen(sys.txs[sys.locks[id]]))
  }

  lemma ReplayMore(lib: Lib, log: seq<Op>, op: Op)
    requires Replay(lib, log).Ok?
    ensures Replay(lib, log + [op]) == Apply(lib, Replay(lib, log).value, op)
  {
    assert (log + [op])[..|log|] == log;
  }

  lemma ExecuteWritesSeen(op: Op, seen: map<Id, Option<Product>>)
    requires Execute(op, seen).Ok?
    ensures Execute(op, seen).value.Keys <= seen.Keys
  {
  }

  /** Executed on the rows seen, an operation writes what it would write alone on the whole catalog. */
  lemma ExecuteIsApply(lib: Lib, cat: State, op: Op, seen: map<Id, Option<Product>>)
    requires Execute(op, seen).Ok? && StillAdmitted(lib, cat, op)
    requires forall id :: id in seen ==> seen[id] == Lookup(cat.table, id)
    ensures Apply(lib, cat, op) == Ok(cat.(table := cat.table + Execute(op, seen).value))
  {
    if op.Create? {
      var p := op.product.(version := 1);
      assert cat.table + map[op.id := p] == cat.table[op.id := p];
    } else if op.Edit? {
      var q := Edited(seen[op.id].value, op.change);
      assert cat.table + map[op.id := q] == cat.table[op.id := q];
    } else {
      ExecutedBatchIsApply(cat.table, op.items, op.target, Rows(seen));
    }
  }

  /** A batch that succeeds on rows of the table succeeds on the whole table, and moves the same rows. */
  lemma ExecutedBatchIsApply(table: Table, items: seq<(Id, int)>, target: ProductStatus, rows: Table)
    requires BatchReasons(rows, items, target) == map[]
    requires forall id :: id in rows ==> id in table && rows[id] == table[id]
    ensures BatchReasons(table, items, target) == map[]
    ensures Moved(table, NamedIds(items), target) == table + Moved(rows, NamedIds(items), target)
  {
    forall id | id in NamedIds(items)
      ensures id in rows && WhyFails(table, items, target, id).None?
    {
      BatchMovesNamed(rows, items, target, id);
    }
  }

  /** Growing the catalog legally keeps what the checks established. */
  lemma AdmissionLasts(lib: Lib, cat: State, op: Op, other: Op)
    requires StillAdmitted(lib, cat, op) && Apply(lib, cat, other).Ok?
    ensures StillAdmitted(lib, Apply(lib, cat, other).value, op)
  {
    ApplyIsLegal(lib, cat, other);
  }

  /** A later catalog in which every finding of the checks still holds. */
  ghost predicate Outlasts(lib: Lib, cat: State, cat': State) {
    && cat.table.Keys <= cat'.table.Keys
    && forall op :: StillAdmitted(lib, cat, op) ==> StillAdmitted(lib, cat', op)
  }

  lemma ApplyOutlasts(lib: Lib, cat: State, other: Op)
    requires Apply(lib, cat, other).Ok?
    ensures Outlasts(lib, cat, Apply(lib, cat, other).value)
  {
    ApplyIsLegal(lib, cat, other);
    forall op | StillAdmitted(lib, cat, op)
      ensures StillAdmitted(lib, Apply(lib, cat, other).value, op)
    {
      AdmissionLasts(lib, cat, op, other);
    }
  }

  /** A step of `t`: nobody else's state, locks or locked rows change. */
  ghost predicate OnlyOf(sys: System, sys': System, t: TxId) {
    && t in sys'.txs
    && sys'.txs == sys.txs[t := sys'.txs[t]]
    && (forall id :: id in sys.locks && sys.locks[id] != t ==>
          id in sys'.locks && sys'.locks[id] == sys.locks[id] && Lookup(sys'.cat.table, id) == Lookup(sys.cat.table, id))
    && (forall id :: id in sys'.locks && sys'.locks[id] != t ==> id in sys.locks && sys.locks[id] == sys'.locks[id])
  }

  lemma OtherKeeps(lib: Lib, sys: System, sys': System, t: TxId, u: TxId)
    requires u in sys.txs && u != t && TxOk(lib, sys, u, sys.txs[u])
    requires OnlyOf(sys, sys', t) && Outlasts(lib, sys.cat, sys'.cat)
    ensures TxOk(lib, sys', u, sys'.txs[u])
  {
  }

  /** A step of `t` keeps the invariant when it keeps `t` in order. */
  lemma OneStepKeeps(lib: Lib, sys: System, sys': System, t: TxId)
    requires Inv(lib, sys) && OnlyOf(sys, sys', t) && Outlasts(lib, sys.cat, sys'.cat)
    requires Replay(lib, sys'.log) == Ok(sys'.cat)
    requires TxOk(lib, sys', t, sys'.txs[t])
    requires forall id :: id in sys'.locks && sys'.locks[id] == t ==> id in Seen(sys'.txs[t])
    ensures Inv(lib, sys')
  {
    forall u | u in sys'.txs
      ensures TxOk(lib, sys', u, sys'.txs[u])
    {
      if u != t {
        OtherKeeps(lib, sys, sys', t, u);
      }
    }
  }

  lemma HeldBy(lib: Lib, sys: System, t: TxId)
    requires Inv(lib, sys) && t in sys.txs
    ensures TxOk(lib, sys, t, sys.txs[t])
    ensures forall id :: id in sys.locks && sys.locks[id] == t ==> id in Seen(sys.txs[t])
  {
  }

  lemma AdmittedOk(lib: Lib, cat: State, op: Op)
    requires Admit(lib, cat, op).Ok?
    ensures StillAdmitted(lib, cat, op) && OrderedLocks(op, Admit(lib, cat, op).value, map[])
    ensures op.SetStatus? ==> forall id :: id in Admit(lib, cat, op).value ==> id in cat.table
  {
  }

  lemma CheckKeeps(lib: Lib, sys: System, sys': System, t: TxId)
    requires Inv(lib, sys) && Next(lib, sys, sys', Check(t))
    ensures Inv(lib, sys')
  {
    HeldBy(lib, sys, t);
    CheckedOk(lib, sys, sys', t);
    OneStepKeeps(lib, sys, sys', t);
  }

  lemma CheckedOk(lib: Lib, sys: System, sys': System, t: TxId)
    requires t in sys.txs && TxOk(lib, sys, t, sys.txs[t]) && Next(lib, sys, sys', Check(t))
    ensures TxOk(lib, sys', t, sys'.txs[t])
  {
    if Admit(lib, sys.cat, sys.txs[t].op).Ok? {
      AdmittedOk(lib, sys.cat, sys.txs[t].op);
    }
  }

  lemma LockedOk(lib: Lib, sys: System, sys': System, t: TxId)
    requires t in sys.txs && TxOk(lib, sys, t, sys.txs[t]) && Next(lib, sys, sys', Lock(t))
    ensures TxOk(lib, sys', t, sys'.txs[t])
  {
    var todo := sys.txs[t].phase.todo;
    assert todo[0] in todo && forall id :: id in todo[1..] ==> id in todo && todo[0] < id;
  }

  lemma LockKeeps(lib: Lib, sys: System, sys': System, t: TxId)
    requires Inv(lib, sys) && Next(lib, sys, sys', Lock(t))
    ensures Inv(lib, sys')
  {
    HeldBy(lib, sys, t);
    LockedOk(lib, sys, sys', t);
    LockTouchesOwn(lib, sys, sys', t);
    OneStepKeeps(lib, sys, sys', t);
  }

  lemma LockTouchesOwn(lib: Lib, sys: System, sys': System, t: TxId)
    requires Next(lib, sys, sys', Lock(t))
    ensures OnlyOf(sys, sys', t) && sys'.cat == sys.cat && sys'.log == sys.log
  {
  }

  lemma RunKeeps(lib: Lib, sys: System, sys': System, t: TxId)
    requires Inv(lib, sys) && Next(lib, sys, sys', Run(t))
    ensures Inv(lib, sys')
  {
    HeldBy(lib, sys, t);
    RanOk(lib, sys, sys', t);
    OneStepKeeps(lib, sys, sys', t);
  }

  lemma RanOk(lib: Lib, sys: System, sys': System, t: TxId)
    requires t in sys.txs && TxOk(lib, sys, t, sys.txs[t]) && Next(lib, sys, sys', Run(t))
    ensures TxOk(lib, sys', t, sys'.txs[t])
  {
    var tx := sys.txs[t];
    if Execute(tx.op, tx.phase.seen).Ok? {
      ExecuteWritesSeen(tx.op, tx.phase.seen);
    }
  }

  lemma AbortKeeps(lib: Lib, sys: System, sys': System, t: TxId)
    requires Inv(lib, sys) && Next(lib, sys, sys', Abort(t))
    ensures Inv(lib, sys')
  {
    HeldBy(lib, sys, t);
    AbortTouchesOwn(lib, sys, sys', t);
    OneStepKeeps(lib, sys, sys', t);
  }

  lemma AbortTouchesOwn(lib: Lib, sys: System, sys': System, t: TxId)
    requires t in sys.txs && TxOk(lib, sys, t, sys.txs[t]) && Next(lib, sys, sys', Abort(t))
    ensures OnlyOf(sys, sys', t) && TxOk(lib, sys', t, sys'.txs[t])
  {
  }

  lemma MissKeeps(lib: Lib, sys: System, sys': System, t: TxId)
    requires Inv(lib, sys) && Next(lib, sys, sys', Miss(t))
    ensures Inv(lib, sys')
  {
    HeldBy(lib, sys, t);
    MissTouchesOwn(lib, sys, sys', t);
    OneStepKeeps(lib, sys, sys', t);
  }

  lemma MissTouchesOwn(lib: Lib, sys: System, sys': System, t: TxId)
    requires t in sys.txs && TxOk(lib, sys, t, sys.txs[t]) && Next(lib, sys, sys', Miss(t))
    ensures OnlyOf(sys, sys', t) && TxOk(lib, sys', t, sys'.txs[t])
  {
  }

  /** A commit publishes exactly what its operation does alone on the catalog of that moment. */
  lemma CommitIsApply(lib: Lib, sys: System, sys': System, t: TxId)
    requires Inv(lib, sys) && Next(lib, sys, sys', Commit(t))
    ensures Apply(lib, sys.cat, sys.txs[t].op) == Ok(sys'.cat)
  {
    assert TxOk(lib, sys, t, sys.txs[t]);
    ExecuteIsApply(lib, sys.cat, sys.txs[t].op, sys.txs[t].phase.seen);
  }

  lemma CommitKeeps(lib: Lib, sys: System, sys': System, t: TxId)
    requires Inv(lib, sys) && Next(lib, sys, sys', Commit(t))
    ensures Inv(lib, sys')
  {
    HeldBy(lib, sys, t);
    CommitIsApply(lib, sys, sys', t);
    ApplyOutlasts(lib, sys.cat, sys.txs[t].op);
    ReplayMore(lib, sys.log, sys.txs[t].op);
    CommitTouchesOwn(lib, sys, sys', t);
    OneStepKeeps(lib, sys, sys', t);
  }

  /** A commit writes only rows its transaction holds locked. */
  lemma CommitTouchesOwn(lib: Lib, sys: System, sys': System, t: TxId)
    requires t in sys.txs && TxOk(lib, sys, t, sys.txs[t]) && Next(lib, sys, sys', Commit(t))
    ensures OnlyOf(sys, sys', t) && TxOk(lib, sys', t, sys'.txs[t])
  {
    WritesOnlyHeld(lib, sys, sys', t);
  }

  lemma WritesOnlyHeld(lib: Lib, sys: System, sys': System, t: TxId)
    requires t in sys.txs && TxOk(lib, sys, t, sys.txs[t]) && Next(lib, sys, sys', Commit(t))
    ensures forall id :: id in sys.locks && sys.locks[id] != t ==> Lookup(sys'.cat.table, id) == Lookup(sys.cat.table, id)
    ensures sys'.locks == Released(sys.locks, t) && sys'.txs == sys.txs[t := sys.txs[t].(phase := Committed(sys.txs[t].phase.since, |sys.log|))]
  {
  }

  lemma SchemasKeep(lib: Lib, sys: System, sys': System, other: Op)
    requires Inv(lib, sys) && Next(lib, sys, sys', ChangeSchemas(other))
    ensures Inv(lib, sys')
  {
    ReplayMore(lib, sys.log, other);
    ApplyOutlasts(lib, sys.cat, other);
    forall t | t in sys.txs
      ensures TxOk(lib, sys', t, sys'.txs[t])
    {
      assert TxOk(lib, sys, t, sys.txs[t]);
    }
  }

  lemma BeginKeeps(lib: Lib, sys: System, sys': System, step: Step)
    requires Inv(lib, sys) && step.Begin? && Next(lib, sys, sys', step)
    ensures Inv(lib, sys')
  {
    OneStepKeeps(lib, sys, sys', step.t);
  }

  lemma InvNext(lib: Lib, sys: System, sys': System, step: Step)
    requires Inv(lib, sys) && Next(lib, sys, sys', step)
    ensures Inv(lib, sys')
  {
    match step
    case Begin(_, _) => BeginKeeps(lib, sys, sys', step);
    case Check(t) => CheckKeeps(lib, sys, sys', t);
    case Lock(t) => LockKeeps(lib, sys, sys', t);
    case Run(t) => RunKeeps(lib, sys, sys', t);
    case Miss(t) => MissKeeps(lib, sys, sys', t);
    case Commit(t) => CommitKeeps(lib, sys, sys', t);
    case Abort(t) => AbortKeeps(lib, sys, sys', t);
    case ChangeSchemas(op) => SchemasKeep(lib, sys, sys', op);
  }

  // ------------------------------------------------------------------------- whole runs

  ghost function Successor(lib: Lib): (System, System) -> bool {
    (sys, sys') => exists step :: Next(lib, sys, sys', step)
  }

  /** A run: any interleaving of steps from the empty system. */
  ghost predicate IsRun(lib: Lib, run: seq<System>) {
    IsPath(INITIAL, Successor(lib), run)
  }

  lemma {:induction false} RunInv(lib: Lib, run: seq<System>)
    requires IsRun(lib, run)
    ensures Inv(lib, Final(run))
  {
    if |run| > 1 {
      PathPrefix(INITIAL, Successor(lib), run);
      RunInv(lib, run[..|run| - 1]);
      var step :| Next(lib, Final(run[..|run| - 1]), Final(run), step);
      InvNext(lib, Final(run[..|run| - 1]), Final(run), step);
    }
  }

  /**
   Serialisability: whatever the interleaving, the committed catalog is the one the
   committed operations produce one at a time, in commit order, each of them succeeding.
   */
  lemma Serialisable(lib: Lib, run: seq<System>)
    requires IsRun(lib, run)
    ensures Replay(lib, Final(run).log) == Ok(Final(run).cat)
  {
    RunInv(lib, run);
  }

  /** In every run each (product, expected version) pair is written by at most one committed operation. */
  lemma NoLostUpdate(lib: Lib, run: seq<System>, a: nat, b: nat, id: Id)
    requires IsRun(lib, run) && a < |Final(run).log| && b < |Final(run).log|
    requires var x, y := Final(run).log[a], Final(run).log[b];
      id in Writes(x) && id in Writes(y) && Demands(x, id).Some? && Demands(x, id) == Demands(y, id)
    ensures a == b
  {
    Serialisable(lib, run);
    OneWriterPerVersion(lib, Final(run).log, a, b, id);
  }

  /** In every reachable state, every product is what its history allows. */
  lemma ReachableCatalog(lib: Lib, run: seq<System>, id: Id)
    requires IsRun(lib, run) && id in Final(run).cat.table
    ensures Sane(lib, Final(run).cat)
    ensures Final(run).cat.table[id].version == CountWrites(Final(run).log, id)
    ensures Replay(lib, Final(run).log).Ok? && StatusPath(Statuses(lib, Final(run).log, id))
  {
    Serialisable(lib, run);
    var log := Final(run).log;
    assert log[..|log|] == log;
    EveryStateSane(lib, log, |log|);
    VersionCountsWrites(lib, log, id);
    HistoryIsStatusPath(lib, log, id);
  }

  // ------------------------------------------------------------------------- progress

  /** `t` waits for a row that `u` holds. */
  ghost predicate WaitsFor(sys: System, t: TxId, u: TxId) {
    Blocked(sys, t) && sys.locks[sys.txs[t].phase.todo[0]] == u
  }

  ghost function Wanted(sys: System, t: TxId): Id
    requires Blocked(sys, t)
  {
    sys.txs[t].phase.todo[0]
  }

  /** Waiting climbs: the holder, if it waits too, waits for a greater id. */
  lemma WaitingClimbs(lib: Lib, sys: System, t: TxId)
    requires Inv(lib, sys) && Blocked(sys, t)
    ensures var u := sys.locks[Wanted(sys, t)];
      u in sys.txs && Unfinished(sys.txs[u]) && (Blocked(sys, u) ==> Wanted(sys, t) < Wanted(sys, u))
  {
    var i := Wanted(sys, t);
    var u := sys.locks[i];
    assert i in Seen(sys.txs[u]);
    assert TxOk(lib, sys, u, sys.txs[u]);
    if Blocked(sys, u) {
      assert Wanted(sys, u) in sys.txs[u].phase.todo;
    }
  }

  lemma {:induction false} ChainClimbs(lib: Lib, sys: System, chain: seq<TxId>)
    requires Inv(lib, sys) && chain != []
    requires forall k :: 0 <= k < |chain| ==> Blocked(sys, chain[k])
    requires forall k :: 0 <= k < |chain| - 1 ==> WaitsFor(sys, chain[k], chain[k + 1])
    ensures Wanted(sys, chain[0]) <= Wanted(sys, chain[|chain| - 1])
  {
    if |chain| > 1 {
      assert WaitsFor(sys, chain[0], chain[0 + 1]);
      WaitingClimbs(lib, sys, chain[0]);
      ChainClimbs(lib, sys, chain[1..]);
    }
  }

  /** No reachable state has a wait cycle. */
  lemma NoWaitCycle(lib: Lib, sys: System, cycle: seq<TxId>)
    requires Inv(lib, sys) && cycle != []
    requires forall k :: 0 <= k < |cycle| - 1 ==> WaitsFor(sys, cycle[k], cycle[k + 1])
    ensures !WaitsFor(sys, cycle[|cycle| - 1], cycle[0])
  {
    var last := cycle[|cycle| - 1];
    if WaitsFor(sys, last, cycle[0]) {
      forall k | 0 <= k < |cycle|
        ensures Blocked(sys, cycle[k])
      {
        if k < |cycle| - 1 {
          assert WaitsFor(sys, cycle[k], cycle[k + 1]);
        }
      }
      ChainClimbs(lib, sys, cycle);
      WaitingClimbs(lib, sys, last);
    }
  }

  lemma UnblockedSteps(lib: Lib, sys: System, t: TxId) returns (sys': System, step: Step)
    requires t in sys.txs && Unfinished(sys.txs[t]) && !Blocked(sys, t)
    ensures Next(lib, sys, sys', step) && !step.Abort? && !step.Begin? && !step.ChangeSchemas?
  {
    var tx := sys.txs[t];
    match tx.phase
    case Started =>
      step := Check(t);
      sys' := match Admit(lib, sys.cat, tx.op)
        case Ok(ids) => Set(sys, t, Locking(ids, map[], |sys.log|))
        case Err(e) => Set(sys, t, RolledBack(e, |sys.log|, |sys.log|));
    case Locking(todo, seen, since) =>
      if todo == [] {
        step := Run(t);
        sys' := match Execute(tx.op, seen)
          case Ok(writes) => Set(sys, t, Written(seen, writes, since))
          case Err(e) => Set(sys, t, RolledBack(e, since, |sys.log|)).(locks := Released(sys.locks, t));
      } else {
        step := Lock(t);
        sys' := Set(sys, t, Locking(todo[1..], seen[todo[0] := Lookup(sys.cat.table, todo[0])], since)).(locks := sys.locks[todo[0] := t]);
      }
    case Written(_, writes, since) =>
      step := Commit(t);
      sys' := Set(sys, t, Committed(since, |sys.log|)).(
        cat := sys.cat.(table := sys.cat.table + writes), locks := Released(sys.locks, t), log := sys.log + [tx.op]);
  }

  /** The locked ids from the wanted one up: fewer at every wait. */
  ghost function LocksFrom(sys: System, t: TxId): set<Id> {
    if Blocked(sys, t) then set i | i in sys.locks && i >= Wanted(sys, t) else {}
  }

  /** Following the waits from an unfinished transaction ends at one that can step. */
  lemma {:induction false} SomeoneUnblocked(lib: Lib, sys: System, t: TxId) returns (u: TxId)
    requires Inv(lib, sys) && t in sys.txs && Unfinished(sys.txs[t])
    ensures u in sys.txs && Unfinished(sys.txs[u]) && !Blocked(sys, u)
    decreases LocksFrom(sys, t)
  {
    if Blocked(sys, t) {
      WaitingClimbs(lib, sys, t);
      var next := sys.locks[Wanted(sys, t)];
      if Blocked(sys, next) {
        assert Wanted(sys, t) in LocksFrom(sys, t) && Wanted(sys, t) !in LocksFrom(sys, next);
        u := SomeoneUnblocked(lib, sys, next);
      } else {
        u := next;
      }
    } else {
      u := t;
    }
  }

  /** Deadlock freedom: while a transaction is unfinished, some transaction can take a step of its own. */
  lemma AlwaysProgress(lib: Lib, run: seq<System>, t: TxId) returns (sys': System, step: Step)
    requires IsRun(lib, run) && t in Final(run).txs && Unfinished(Final(run).txs[t])
    ensures Next(lib, Final(run), sys', step) && !step.Abort? && !step.Begin? && !step.ChangeSchemas?
  {
    RunInv(lib, run);
    var u := SomeoneUnblocked(lib, Final(run), t);
    sys', step := UnblockedSteps(lib, Final(run), u);
  }

  // ------------------------------------------------------------------------- what readers see

  /** Every committed change of a product, in every run, is a legal one: the readers' side relies on this. */
  lemma CommitsAreLegal(lib: Lib, run: seq<System>, sys': System, step: Step, id: Id)
    requires IsRun(lib, run) && Next(lib, Final(run), sys', step)
    requires Lookup(sys'.cat.table, id) != Lookup(Final(run).cat.table, id)
    ensures id in sys'.cat.table && LegalChange(Lookup(Final(run).cat.table, id), sys'.cat.table[id])
  {
    var sys := Final(run);
    RunInv(lib, run);
    if step.Commit? {
      CommitIsApply(lib, sys, sys', step.t);
      ApplyIsLegal(lib, sys.cat, sys.txs[step.t].op);
    }
  }
}
