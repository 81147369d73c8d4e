/**
 Writers and readers together: transactions run against the catalog, and each commit is at
 the same moment the commit that the read protocol's processes can see.
 */
module Composition {
  import opened Wrappers
  import opened Domain
  import FieldSchema
  import opened Catalog
  import opened Runs
  import T = Transactions
  import Refusals
  import R = ReadProtocol
  import I = ReadInvariant
  import ReadFlights
  import ReadSteps
  import ReadTheorems
  import ReadScripts

  datatype Whole = Whole(sys: T.System, m: R.Machine)

  function Initial(c: R.Config): Whole {
    Whole(T.INITIAL, R.Initial(c))
  }

  /** A transaction publishes its writes, to the catalog and to the readers. */
  ghost predicate Publishes(lib: FieldSchema.Lib, c: R.Config, w: Whole, w': Whole, t: T.TxId) {
    && T.Next(lib, w.sys, w'.sys, T.Commit(t))
    && R.NextBy(c, w.m, w'.m, R.CommitRows(w.sys.txs[t].phase.writes))
  }

  ghost predicate Next(lib: FieldSchema.Lib, c: R.Config, w: Whole, w': Whole) {
    || (exists t :: Publishes(lib, c, w, w', t))
    || (w'.m == w.m && exists step: T.Step :: !step.Commit? && T.Next(lib, w.sys, w'.sys, step))
    || (w'.sys == w.sys && exists step: R.Step :: !step.CommitRows? && R.NextBy(c, w.m, w'.m, step))
  }

  ghost function Successor(lib: FieldSchema.Lib, c: R.Config): (Whole, Whole) -> bool {
    (w, w') => Next(lib, c, w, w')
  }

  ghost predicate IsRun(lib: FieldSchema.Lib, c: R.Config, run: seq<Whole>) {
    IsPath(Initial(c), Successor(lib, c), run)
  }

  // ------------------------------------------------------------------------- what ties the two sides

  /** The product satisfies the schema version it is bound to and has legal images. */
  ghost predicate Sound(lib: FieldSchema.Lib, cat: State, p: Product) {
    ImagesOk(p.images) && AttributesValid(lib, cat, p.ptype, p.schemaVersion, p.attributes)
  }

  ghost predicate HistorySound(lib: FieldSchema.Lib, cat: State, past: R.Past) {
    forall id, i :: 0 <= i < |R.History(past, id)| ==> Sound(lib, cat, R.History(past, id)[i].product)
  }

  /** The readers' latest row of every product is the catalog's. */
  ghost predicate Agree(cat: State, past: R.Past) {
    forall id :: Lookup(cat.table, id) == R.RowAt(past, id, |R.History(past, id)|)
  }

  ghost predicate Joined(lib: FieldSchema.Lib, c: R.Config, w: Whole) {
    && T.Inv(lib, w.sys) && Refusals.Traced(lib, w.sys) && ReadSteps.Safe(c, w.m)
    && Agree(w.sys.cat, w.m.past) && HistorySound(lib, w.sys.cat, w.m.past)
  }

  // ------------------------------------------------------------------------- commits

  /** Every write a transaction publishes is a change the readers' history allows. */
  lemma WritesAreLegal(lib: FieldSchema.Lib, sys: T.System, sys': T.System, t: T.TxId, id: Id)
    requires T.Next(lib, sys, sys', T.Commit(t)) && id in sys.txs[t].phase.writes
    requires T.Inv(lib, sys) && Refusals.Traced(lib, sys)
    ensures LegalChange(Lookup(sys.cat.table, id), sys.txs[t].phase.writes[id])
  {
    var op := sys.txs[t].op;
    T.CommitIsApply(lib, sys, sys', t);
    T.HeldBy(lib, sys, t);
    assert id in Writes(op);
    ApplyWrites(lib, sys.cat, op, id);
    ApplyIsLegal(lib, sys.cat, op);
  }

  /** The readers' side never holds a transaction up: whatever it commits, they can see committed. */
  lemma CommitsAreSeen(lib: FieldSchema.Lib, c: R.Config, w: Whole, sys': T.System, t: T.TxId) returns (w': Whole)
    requires Joined(lib, c, w) && T.Next(lib, w.sys, sys', T.Commit(t))
    ensures w'.sys == sys' && Publishes(lib, c, w, w', t)
  {
    var s, changes := w.m, w.sys.txs[t].phase.writes;
    forall id | id in changes
      ensures LegalChange(R.RowAt(s.past, id, |R.History(s.past, id)|), changes[id])
    {
      WritesAreLegal(lib, w.sys, sys', t, id);
      assert Lookup(w.sys.cat.table, id) == R.RowAt(s.past, id, |R.History(s.past, id)|);
    }
    var s' := s.(
      past := R.Past(R.Extended(s, changes), s.past.log + [R.Committed(changes.Keys, s.now)]),
      jobs := map key | key in s.jobs.Keys + R.NewJobs(s, changes) :: if key in s.jobs then s.jobs[key] else R.Queued);
    assert R.WriterStep(s, s', R.CommitRows(changes));
    w' := Whole(sys', s');
  }

  /** Schemas are never unbound, so what was sound stays sound. */
  lemma SoundLasts(lib: FieldSchema.Lib, cat: State, cat': State, past: R.Past)
    requires HistorySound(lib, cat, past)
    requires forall k :: k in cat.schemas ==> k in cat'.schemas && cat'.schemas[k] == cat.schemas[k]
    ensures HistorySound(lib, cat', past)
  {
    forall id, i | 0 <= i < |R.History(past, id)|
      ensures Sound(lib, cat', R.History(past, id)[i].product)
    {
      assert Sound(lib, cat, R.History(past, id)[i].product);
    }
  }

  /** What publishing does to the two sides. */
  lemma Published(lib: FieldSchema.Lib, c: R.Config, w: Whole, w': Whole, t: T.TxId)
    requires Publishes(lib, c, w, w', t)
    ensures w'.sys.cat.table == w.sys.cat.table + w.sys.txs[t].phase.writes
    ensures w'.m.past.hist == R.Extended(w.m, w.sys.txs[t].phase.writes)
  {
    PublishedTable(lib, w.sys, w'.sys, t);
    PublishedHistory(w.m, w'.m, w.sys.txs[t].phase.writes);
  }

  lemma PublishedTable(lib: FieldSchema.Lib, sys: T.System, sys': T.System, t: T.TxId)
    requires T.Next(lib, sys, sys', T.Commit(t))
    ensures sys'.cat.table == sys.cat.table + sys.txs[t].phase.writes
  {
  }

  lemma PublishedHistory(s: R.Machine, s': R.Machine, writes: Table)
    requires R.WriterStep(s, s', R.CommitRows(writes))
    ensures s'.past.hist == R.Extended(s, writes)
  {
  }

  lemma LengthenedAgrees(cat: State, cat': State, s: R.Machine, past': R.Past, writes: Table)
    requires Agree(cat, s.past) && cat'.table == cat.table + writes && past'.hist == R.Extended(s, writes)
    ensures Agree(cat', past')
  {
    forall id
      ensures Lookup(cat'.table, id) == R.RowAt(past', id, |R.History(past', id)|)
    {
      assert Lookup(cat.table, id) == R.RowAt(s.past, id, |R.History(s.past, id)|);
      assert R.History(past', id) == R.Lengthened(s, writes, id);
    }
  }

  lemma LengthenedIsSound(lib: FieldSchema.Lib, cat: State, cat': State, s: R.Machine, past': R.Past, writes: Table)
    requires HistorySound(lib, cat', s.past) && Sane(lib, cat')
    requires cat'.table == cat.table + writes && past'.hist == R.Extended(s, writes)
    ensures HistorySound(lib, cat', past')
  {
    forall id, i | 0 <= i < |R.History(past', id)|
      ensures Sound(lib, cat', R.History(past', id)[i].product)
    {
      assert R.History(past', id) == R.Lengthened(s, writes, id);
      if i == |R.History(s.past, id)| {
        assert cat'.table[id] == writes[id];
      } else {
        assert Sound(lib, cat', R.History(s.past, id)[i].product);
      }
    }
  }

  lemma PublishedSchemas(lib: FieldSchema.Lib, sys: T.System, sys': T.System, t: T.TxId)
    requires T.Inv(lib, sys) && T.Next(lib, sys, sys', T.Commit(t))
    ensures Sane(lib, sys'.cat)
    ensures forall k :: k in sys.cat.schemas ==> k in sys'.cat.schemas && sys'.cat.schemas[k] == sys.cat.schemas[k]
  {
    T.CommitIsApply(lib, sys, sys', t);
    ApplyIsLegal(lib, sys.cat, sys.txs[t].op);
    SaneNow(lib, sys);
    ApplyKeepsSane(lib, sys.cat, sys.txs[t].op);
  }

  lemma SaneNow(lib: FieldSchema.Lib, sys: T.System)
    requires T.Inv(lib, sys)
    ensures Sane(lib, sys.cat)
  {
    assert sys.log[..|sys.log|] == sys.log;
    EveryStateSane(lib, sys.log, |sys.log|);
  }

  // ------------------------------------------------------------------------- every step

  lemma PublishKeeps(lib: FieldSchema.Lib, c: R.Config, w: Whole, w': Whole, t: T.TxId)
    requires Joined(lib, c, w) && Publishes(lib, c, w, w', t)
    ensures Joined(lib, c, w')
  {
    T.InvNext(lib, w.sys, w'.sys, T.Commit(t));
    Refusals.TracedNext(lib, w.sys, w'.sys, T.Commit(t));
    ReadSteps.SafeNext(c, w.m, w'.m, R.CommitRows(w.sys.txs[t].phase.writes));
    PublishedSchemas(lib, w.sys, w'.sys, t);
    SoundLasts(lib, w.sys.cat, w'.sys.cat, w.m.past);
    Published(lib, c, w, w', t);
    LengthenedAgrees(w.sys.cat, w'.sys.cat, w.m, w'.m.past, w.sys.txs[t].phase.writes);
    LengthenedIsSound(lib, w.sys.cat, w'.sys.cat, w.m, w'.m.past, w.sys.txs[t].phase.writes);
  }

  lemma QuietTxKeepsTable(lib: FieldSchema.Lib, sys: T.System, sys': T.System, step: T.Step)
    requires T.Next(lib, sys, sys', step) && !step.Commit?
    ensures sys'.cat.table == sys.cat.table
    ensures forall k :: k in sys.cat.schemas ==> k in sys'.cat.schemas && sys'.cat.schemas[k] == sys.cat.schemas[k]
  {
  }

  lemma TxStepKeeps(lib: FieldSchema.Lib, c: R.Config, w: Whole, w': Whole, step: T.Step)
    requires Joined(lib, c, w) && w'.m == w.m && !step.Commit? && T.Next(lib, w.sys, w'.sys, step)
    ensures Joined(lib, c, w')
  {
    T.InvNext(lib, w.sys, w'.sys, step);
    Refusals.TracedNext(lib, w.sys, w'.sys, step);
    QuietTxKeepsTable(lib, w.sys, w'.sys, step);
    SoundLasts(lib, w.sys.cat, w'.sys.cat, w.m.past);
    assert Agree(w'.sys.cat, w'.m.past);
  }

  lemma QuietJobKeepsHistory(s: R.Machine, s': R.Machine, step: R.Step)
    requires R.WriterStep(s, s', step) && !step.CommitRows?
    ensures s'.past.hist == s.past.hist
  {
  }

  lemma ReadStepKeeps(lib: FieldSchema.Lib, c: R.Config, w: Whole, w': Whole, step: R.Step)
    requires Joined(lib, c, w) && w'.sys == w.sys && !step.CommitRows? && R.NextBy(c, w.m, w'.m, step)
    ensures Joined(lib, c, w')
  {
    ReadSteps.SafeNext(c, w.m, w'.m, step);
    if R.WriterStep(w.m, w'.m, step) {
      QuietJobKeepsHistory(w.m, w'.m, step);
    } else {
      ReadFlights.ReadersWriteNothing(c, w.m, w'.m, step);
    }
    SameHistoryKeeps(lib, w.sys.cat, w.m.past, w'.m.past);
  }

  lemma SameHistoryKeeps(lib: FieldSchema.Lib, cat: State, past: R.Past, past': R.Past)
    requires past'.hist == past.hist && Agree(cat, past) && HistorySound(lib, cat, past)
    ensures Agree(cat, past') && HistorySound(lib, cat, past')
  {
    assert forall id :: R.History(past', id) == R.History(past, id);
  }

  lemma JoinedNext(lib: FieldSchema.Lib, c: R.Config, w: Whole, w': Whole)
    requires Joined(lib, c, w) && Next(lib, c, w, w')
    ensures Joined(lib, c, w')
  {
    if t :| Publishes(lib, c, w, w', t) {
      PublishKeeps(lib, c, w, w', t);
    } else if step: T.Step :| w'.m == w.m && !step.Commit? && T.Next(lib, w.sys, w'.sys, step) {
      TxStepKeeps(lib, c, w, w', step);
    } else {
      var step: R.Step :| !step.CommitRows? && R.NextBy(c, w.m, w'.m, step);
      ReadStepKeeps(lib, c, w, w', step);
    }
  }

  // ------------------------------------------------------------------------- every run

  lemma {:induction false} RunIsJoined(lib: FieldSchema.Lib, c: R.Config, run: seq<Whole>)
    requires IsRun(lib, c, run)
    ensures Joined(lib, c, Final(run)) && ReadScripts.Reachable(c, Final(run).m)
  {
    if |run| == 1 {
      ReadSteps.InitiallySafe(c);
      assert R.IsRun(c, [R.Initial(c)]) && Final([R.Initial(c)]) == R.Initial(c);
      assert forall id :: R.History(Final(run).m.past, id) == [];
    } else {
      var before := run[..|run| - 1];
      PathPrefix(Initial(c), Successor(lib, c), run);
      RunIsJoined(lib, c, before);
      JoinedNext(lib, c, Final(before), Final(run));
      ReadersMove(lib, c, Final(before), Final(run));
    }
  }

  lemma ReadersStep(lib: FieldSchema.Lib, c: R.Config, w: Whole, w': Whole) returns (step: R.Step)
    requires Next(lib, c, w, w') && w'.m != w.m
    ensures R.NextBy(c, w.m, w'.m, step)
  {
    if t :| Publishes(lib, c, w, w', t) {
      step := R.CommitRows(w.sys.txs[t].phase.writes);
    } else {
      step :| !step.CommitRows? && R.NextBy(c, w.m, w'.m, step);
    }
  }

  /** Seen from the readers, a step of the whole is one of theirs or none. */
  lemma ReadersMove(lib: FieldSchema.Lib, c: R.Config, w: Whole, w': Whole)
    requires Next(lib, c, w, w') && ReadScripts.Reachable(c, w.m)
    ensures ReadScripts.Reachable(c, w'.m) && I.Grows(w.m.past, w'.m.past)
  {
    if w'.m != w.m {
      var step := ReadersStep(lib, c, w, w');
      ReadScripts.ReachNext(c, w.m, w'.m, step);
      ReadTheorems.LogGrows(c, w.m, w'.m, step);
    }
  }

  lemma {:induction false} EarlierStates(lib: FieldSchema.Lib, c: R.Config, run: seq<Whole>, a: nat)
    requires IsRun(lib, c, run) && a < |run|
    ensures Joined(lib, c, run[a]) && I.Grows(run[a].m.past, Final(run).m.past)
    decreases |run|
  {
    RunIsJoined(lib, c, run);
    if a < |run| - 1 {
      var before := run[..|run| - 1];
      PathPrefix(Initial(c), Successor(lib, c), run);
      EarlierStates(lib, c, before, a);
      RunIsJoined(lib, c, before);
      ReadersMove(lib, c, Final(before), Final(run));
      GrowsOn(run[a].m.past, Final(before).m.past, Final(run).m.past);
    }
  }

  lemma GrowsOn(a: R.Past, b: R.Past, d: R.Past)
    requires I.Grows(a, b) && I.Grows(b, d)
    ensures I.Grows(a, d)
  {
    forall id
      ensures R.History(a, id) <= R.History(d, id)
    {
      assert R.History(a, id) <= R.History(b, id) <= R.History(d, id);
    }
  }

  /**
   Every product answered with 200, in any run of writers and readers together, is on the
   shelf, satisfies the schema version it is bound to and has legal images.
   */
  lemma ShownProductsAreSound(lib: FieldSchema.Lib, c: R.Config, run: seq<Whole>, i: R.CallId)
    requires IsRun(lib, c, run) && ReadTheorems.IsAnswered(Final(run).m, i) && Final(run).m.calls[i].st.answer.Shown?
    ensures var p := Final(run).m.calls[i].st.answer.product;
      p.status == OnShelf && FitToPublish(lib, Final(run).sys.cat, p)
  {
    RunIsJoined(lib, c, run);
    ShownWasCommitted(c, Final(run).m, i);
    ImagesOkIff(Final(run).m.calls[i].st.answer.product.images);
  }

  /** A product answered with 200 is one of its committed states, on the shelf. */
  lemma ShownWasCommitted(c: R.Config, s: R.Machine, i: R.CallId)
    requires I.CallsOk(c, s) && ReadTheorems.IsAnswered(s, i) && s.calls[i].st.answer.Shown?
    ensures s.calls[i].st.answer.product.status == OnShelf
    ensures var h := R.History(s.past, s.calls[i].id);
      exists k :: 0 <= k < |h| && h[k].product == s.calls[i].st.answer.product
  {
    assert I.CallOk(c, s.past, s.now, s.flights, s.calls[i]);
    var k := s.past.log[s.calls[i].st.answer.read].k;
    assert k > 0 && R.History(s.past, s.calls[i].id)[k - 1].product == s.calls[i].st.answer.product;
  }

  /**
   Once the catalog has a product penalized, by whatever transaction, nobody is answered 200
   for it more than the age bound later.
   */
  lemma PenalizedProductsDisappear(lib: FieldSchema.Lib, c: R.Config, run: seq<Whole>, a: nat, i: R.CallId)
    requires IsRun(lib, c, run) && a < |run| && ReadTheorems.IsAnswered(Final(run).m, i)
    requires var call, table := Final(run).m.calls[i], run[a].sys.cat.table;
      call.id in table && table[call.id].status == Penalized && run[a].m.now + ReadTheorems.ShownAge(c) < call.st.at
    ensures !Final(run).m.calls[i].st.answer.Shown?
  {
    var id := Final(run).m.calls[i].id;
    EarlierStates(lib, c, run, a);
    RunIsJoined(lib, c, run);
    var h, h' := R.History(run[a].m.past, id), R.History(Final(run).m.past, id);
    assert Lookup(run[a].sys.cat.table, id) == R.RowAt(run[a].m.past, id, |h|);
    assert I.CommitOk(run[a].m.past, run[a].m.now, id, |h| - 1);
    assert h <= h' && h'[|h| - 1] == h[|h| - 1];
    var readers :| R.IsRun(c, readers) && Final(readers) == Final(run).m;
    ReadTheorems.PenalizedIsNeverShown(c, readers, i, |h|);
  }
}
