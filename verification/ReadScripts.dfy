/**
 Parts of runs: named stretches of steps from which concrete runs of the read protocol are
 put together.
 */
module ReadScripts {
  import opened Wrappers
  import opened Domain
  import FieldSchema
  import opened Catalog
  import opened CacheStore
  import opened Runs
  import opened ReadProtocol

  const ID: Id := 0

  /** A product on the shelf as its first commit leaves it. */
  const FIRST: Product := Product(Physical, 1, OnShelf, 1, FieldSchema.NoFields, [], "")

  function AllFree(c: Config): map<Proc, nat> {
    map p | p in c.procs :: c.slots
  }

  // ------------------------------------------------------------------------- reachable states

  ghost predicate Reachable(c: Config, s: Machine) {
    exists run :: IsRun(c, run) && Final(run) == s
  }

  lemma ReachNext(c: Config, s: Machine, s': Machine, step: Step)
    requires Reachable(c, s) && NextBy(c, s, s', step)
    ensures Reachable(c, s')
  {
    var run :| IsRun(c, run) && Final(run) == s;
    var longer := run + [s'];
    RunGrows(c, run, s');
    assert IsRun(c, longer) && Final(longer) == s';
  }

  lemma ReachLater(c: Config, s: Machine, d: nat)
    requires Reachable(c, s) && MayWait(s, s.now + d)
    ensures Reachable(c, s.(now := s.now + d))
  {
    if d > 0 {
      ReachNext(c, s, s.(now := s.now + d), Tick(d));
    }
  }

  // ------------------------------------------------------------------------- a section, step by step

  function Opened(c: Config, s: Machine, i: nat, p: Proc, id: Id): Machine {
    s.(past := s.past.(log := s.past.log + [Granted(id, i, s.now)]),
       store := s.store.(locks := s.store.locks[id := Lock(i, s.now + c.ttl.lock)]),
       reg := s.reg[(p, id) := i],
       flights := s.flights[i := Flight(p, id, s.now, Some(Here(s)), Locking(s.now + c.redis, Some(true)))],
       calls := s.calls[i := Call(p, id, s.now, Waiting(i))])
  }

  function Begun(c: Config, s: Machine, i: nat, p: Proc, id: Id): Machine {
    s.(calls := s.calls[i := Call(p, id, s.now, Fetching(Asking(s.now + c.redis)))])
  }

  function Joined(c: Config, s: Machine, i: nat, p: Proc, id: Id): Machine {
    s.(calls := s.calls[i := Call(p, id, s.now, Waiting(i))],
       reg := s.reg[(p, id) := i],
       flights := s.flights[i := Flight(p, id, s.now, None, Locking(s.now + c.redis, None))])
  }

  lemma JoinAlone(c: Config, s: Machine, i: nat, p: Proc, id: Id)
    requires Reachable(c, s) && p in c.procs && i !in s.calls && i !in s.flights && (p, id) !in s.reg
    ensures Reachable(c, Joined(c, s, i, p, id))
  {
    var t, u := Begun(c, s, i, p, id), Joined(c, s, i, p, id);
    assert CallStep(c, s, t, Begin(i, p, id));
    ReachNext(c, s, t, Begin(i, p, id));
    assert u.calls == t.calls[i := t.calls[i].(st := Waiting(i))];
    assert CallStep(c, t, u, CallJoin(i, i));
    ReachNext(c, t, u, CallJoin(i, i));
  }

  /** A call whose cache read fails starts a flight, which is granted the free lock. */
  lemma OpenSection(c: Config, s: Machine, i: nat, p: Proc, id: Id)
    requires Reachable(c, s) && p in c.procs && i !in s.calls && i !in s.flights && (p, id) !in s.reg
    requires Holder(s.store, id, s.now).None?
    ensures Reachable(c, Opened(c, s, i, p, id))
  {
    var t, u := Joined(c, s, i, p, id), Opened(c, s, i, p, id);
    JoinAlone(c, s, i, p, id);
    assert u.flights == t.flights[i := LockAnswered(t.flights[i], Some(Here(t)))];
    assert LockStep(c, t, u, LockServe(i));
    ReachNext(c, t, u, LockServe(i));
  }

  /** The lock's holder reads its reply and waits for a slot. */
  lemma AwaitSlot(c: Config, s: Machine, f: FlightId, wait: nat)
    requires Reachable(c, s) && f in s.flights && s.flights[f].pc.Locking? && s.flights[f].pc.reply == Some(true)
    requires MayWait(Goto(s, f, WaitingSlot(s.now + c.slotWait, true)), s.now + wait)
    ensures Reachable(c, Goto(s, f, WaitingSlot(s.now + c.slotWait, true)).(now := s.now + wait))
  {
    var t := Goto(s, f, WaitingSlot(s.now + c.slotWait, true));
    assert LockStep(c, s, t, LockReply(f));
    ReachNext(c, s, t, LockReply(f));
    ReachLater(c, t, wait);
  }

  function InQuery(c: Config, s: Machine, f: FlightId): Machine
    requires f in s.flights && s.flights[f].proc in s.free && s.free[s.flights[f].proc] > 0
  {
    Goto(s, f, Querying(s.now + c.query, true, None)).(free := s.free[s.flights[f].proc := s.free[s.flights[f].proc] - 1])
  }

  lemma EnterDatabase(c: Config, s: Machine, f: FlightId)
    requires Reachable(c, s) && f in s.flights && s.flights[f].pc.WaitingSlot? && s.flights[f].pc.populate
    requires s.flights[f].proc in s.free && s.free[s.flights[f].proc] > 0
    ensures Reachable(c, InQuery(c, s, f))
  {
    assert QueryStep(c, s, InQuery(c, s, f), SlotGrant(f));
    ReachNext(c, s, InQuery(c, s, f), SlotGrant(f));
  }

  ghost function HasRead(s: Machine, f: FlightId): Machine
    requires f in s.flights && s.flights[f].pc.Querying?
  {
    var id, k := s.flights[f].id, |History(s.past, s.flights[f].id)|;
    Record(
      Goto(s, f, s.flights[f].pc.(got := Some(AnswerOf(PublicView(RowAt(s.past, id, k)), Here(s))))),
      ReadDb(id, k, f, s.now))
  }

  lemma ReadDatabase(c: Config, s: Machine, f: FlightId)
    requires Reachable(c, s) && f in s.flights && s.flights[f].pc.Querying? && s.flights[f].pc.got.None?
    ensures Reachable(c, HasRead(s, f))
  {
    assert QueryStep(c, s, HasRead(s, f), DbRead(f));
    ReachNext(c, s, HasRead(s, f), DbRead(f));
  }

  function Departed(c: Config, s: Machine, f: FlightId): Machine
    requires f in s.flights && s.flights[f].pc.Querying? && s.flights[f].pc.got.Some? && s.flights[f].proc in s.free
  {
    Goto(s, f, Putting(s.now + c.redis, s.flights[f].pc.got.value, false)).(
      free := s.free[s.flights[f].proc := s.free[s.flights[f].proc] + 1])
  }

  /** The holder gives its slot back and turns to its cache write. */
  lemma LeaveDatabase(c: Config, s: Machine, f: FlightId)
    requires Reachable(c, s) && f in s.flights && s.flights[f].pc.Querying? && s.flights[f].pc.populate
    requires s.flights[f].pc.got.Some? && s.flights[f].proc in s.free
    ensures Reachable(c, Departed(c, s, f))
  {
    assert QueryStep(c, s, Departed(c, s, f), QueryDone(f));
    ReachNext(c, s, Departed(c, s, f), QueryDone(f));
  }

  /** Redis runs the cache write of the flight's answer. */
  function CacheWritten(c: Config, s: Machine, f: FlightId, jitter: nat): Machine
    requires f in s.flights && s.flights[f].pc.Putting? && !s.flights[f].pc.answer.Unavailable?
  {
    var fl := s.flights[f];
    Record(
      Goto(s, f, fl.pc.(served := true)).(
        store := if fl.pc.answer.Shown? then PutProduct(s.store, c.ttl, fl.id, fl.pc.answer.product, jitter, s.now)
                 else PutMissing(s.store, c.ttl, fl.id, s.now),
        origin := s.origin[fl.id := Origin(fl.pc.answer.read, Here(s))]),
      Stored(fl.id, fl.pc.answer.read, f, s.now))
  }

  lemma WriteCache(c: Config, s: Machine, f: FlightId, jitter: nat)
    requires Reachable(c, s) && f in s.flights && s.flights[f].pc.Putting? && !s.flights[f].pc.served
    requires !s.flights[f].pc.answer.Unavailable? && jitter <= c.ttl.jitter
    ensures Reachable(c, CacheWritten(c, s, f, jitter))
  {
    assert QueryStep(c, s, CacheWritten(c, s, f, jitter), PutServe(f, jitter));
    ReachNext(c, s, CacheWritten(c, s, f, jitter), PutServe(f, jitter));
  }

  /** A holder whose reply has come goes through the database without any waiting. */
  lemma PassDatabase(c: Config, s: Machine, f: FlightId) returns (t: Machine)
    requires Reachable(c, s) && f in s.flights && s.flights[f].pc.Locking? && s.flights[f].pc.reply == Some(true)
    requires s.flights[f].proc in s.free && s.free[s.flights[f].proc] > 0
    ensures Reachable(c, t) && t.now == s.now && t.calls == s.calls && t.store == s.store && t.origin == s.origin && t.reg == s.reg
    ensures var id := s.flights[f].id; var k := |History(s.past, id)|;
      && t.past == s.past.(log := s.past.log + [ReadDb(id, k, f, s.now)])
      && t.flights == s.flights[f := s.flights[f].(pc :=
           Putting(s.now + c.redis, AnswerOf(PublicView(RowAt(s.past, id, k)), Here(s)), false))]
  {
    var u := Goto(s, f, WaitingSlot(s.now + c.slotWait, true));
    assert LockStep(c, s, u, LockReply(f));
    ReachNext(c, s, u, LockReply(f));
    EnterDatabase(c, u, f);
    var v := InQuery(c, u, f);
    ReadDatabase(c, v, f);
    var w := HasRead(v, f);
    LeaveDatabase(c, w, f);
    t := Departed(c, w, f);
  }

  // ------------------------------------------------------------------------- commits

  /** A commit of the one product. */
  function Committing(s: Machine, p: Product): Machine {
    var h := History(s.past, ID);
    s.(past := Past(map[ID := h + [Commit(p, s.now, Here(s))]], s.past.log + [Committed({ID}, s.now)]),
       jobs := s.jobs[(ID, |h| + 1) := Queued])
  }

  lemma CommitEffects(s: Machine, p: Product, changes: map<Id, Product>)
    requires changes == map[ID := p] && s.past.hist.Keys <= {ID}
    ensures Extended(s, changes) == Committing(s, p).past.hist
    ensures (map key | key in s.jobs.Keys + NewJobs(s, changes) :: if key in s.jobs then s.jobs[key] else Queued)
      == if (ID, |History(s.past, ID)| + 1) in s.jobs then s.jobs else Committing(s, p).jobs
    ensures changes.Keys == {ID}
  {
    assert forall id :: id in s.past.hist.Keys + changes.Keys <==> id == ID;
    assert NewJobs(s, changes) == {(ID, |History(s.past, ID)| + 1)};
    assert Extended(s, changes)[ID] == History(s.past, ID) + [Commit(p, s.now, Here(s))];
  }

  lemma ReachCommit(c: Config, s: Machine, p: Product)
    requires Reachable(c, s) && s.past.hist.Keys <= {ID}
    requires (ID, |History(s.past, ID)| + 1) !in s.jobs
    requires LegalChange(RowAt(s.past, ID, |History(s.past, ID)|), p)
    ensures Reachable(c, Committing(s, p))
  {
    var changes := map[ID := p];
    CommitEffects(s, p, changes);
    assert WriterStep(s, Committing(s, p), CommitRows(changes));
    ReachNext(c, s, Committing(s, p), CommitRows(changes));
  }

  /** The product is on the shelf; nobody has asked for it. */
  function OnSale(c: Config): Machine {
    Initial(c).(past := Past(map[ID := [Commit(FIRST, 0, 0)]], [Committed({ID}, 0)]), jobs := map[(ID, 1) := Queued])
  }

  lemma ReachOnSale(c: Config)
    ensures Reachable(c, OnSale(c))
  {
    var s := Initial(c);
    assert IsRun(c, [s]) && Final([s]) == s;
    ReachCommit(c, s, FIRST);
    assert Committing(s, FIRST).past.hist[ID] == OnSale(c).past.hist[ID];
    assert Committing(s, FIRST).past == OnSale(c).past;
  }

  // ------------------------------------------------------------------------- after the write, and from the cache

  function Ended(s: Machine, f: FlightId, i: CallId): Machine
    requires f in s.flights && s.flights[f].pc.Putting? && i in s.calls
  {
    var a := s.flights[f].pc.answer;
    CallTo(Goto(s, f, Finished(a, s.now)), i, Answered(a, s.now, Some(f))).(
      reg := Unregister(s.reg, (s.flights[f].proc, s.flights[f].id), f))
  }

  /** The holder's release fails, its flight ends, and its call answers. */
  lemma EndFlight(c: Config, s: Machine, f: FlightId, i: CallId)
    requires Reachable(c, s) && f in s.flights && s.flights[f].pc.Putting?
    requires i in s.calls && s.calls[i].st == Waiting(f)
    ensures Reachable(c, Ended(s, f, i))
  {
    var fl := s.flights[f];
    var t := Goto(s, f, Releasing(s.now + c.redis, fl.pc.answer));
    assert QueryStep(c, s, t, PutEnd(f));
    ReachNext(c, s, t, PutEnd(f));
    var u := Goto(t, f, Returning(fl.pc.answer, s.now));
    assert LockStep(c, t, u, ReleaseEnd(f));
    ReachNext(c, t, u, ReleaseEnd(f));
    FinishAndResume(c, u, f, i);
    assert Ended(s, f, i).flights == u.flights[f := fl.(pc := Finished(fl.pc.answer, s.now))];
  }

  lemma FinishAndResume(c: Config, u: Machine, f: FlightId, i: CallId)
    requires Reachable(c, u) && f in u.flights && u.flights[f].pc.Returning?
    requires i in u.calls && u.calls[i].st == Waiting(f)
    ensures Reachable(c, CallTo(Goto(u, f, Finished(u.flights[f].pc.answer, u.now)), i, Answered(u.flights[f].pc.answer, u.now, Some(f))).(
      reg := Unregister(u.reg, (u.flights[f].proc, u.flights[f].id), f)))
  {
    var v := Goto(u, f, Finished(u.flights[f].pc.answer, u.now)).(reg := Unregister(u.reg, (u.flights[f].proc, u.flights[f].id), f));
    assert LockStep(c, u, v, Finish(f));
    ReachNext(c, u, v, Finish(f));
    var w := CallTo(v, i, Answered(u.flights[f].pc.answer, u.now, Some(f)));
    assert CallStep(c, v, w, CallResume(i));
    ReachNext(c, v, w, CallResume(i));
  }

  /** No flight and no call is under way. */
  ghost predicate Idle(s: Machine) {
    && (forall f :: f in s.flights ==> s.flights[f].pc.Finished?)
    && (forall i :: i in s.calls ==> s.calls[i].st.Answered?)
  }

  /** A call on an idle machine is answered from the cache, its reply just in time. */
  lemma AnswerFromCache(c: Config, s: Machine, i: CallId, p: Proc, id: Id) returns (t: Machine)
    requires Reachable(c, s) && Idle(s) && i !in s.calls && p in c.procs
    requires id in s.store.entries && id in s.origin
    requires Live(s.store.entries[id].expires, s.now) && Accepts(id, s.store.entries[id].envelope)
    ensures Reachable(c, t) && t.past == s.past
    ensures i in t.calls && t.calls[i] == Call(p, id, s.now,
      Answered(EnvelopeAnswer(s.store.entries[id].envelope, s.origin[id].read), s.now + c.redis, None))
  {
    var u := s.(calls := s.calls[i := Call(p, id, s.now, Fetching(Asking(s.now + c.redis)))]);
    assert CallStep(c, s, u, Begin(i, p, id));
    ReachNext(c, s, u, Begin(i, p, id));
    var v := CallTo(u, i, Fetching(ServeGet(u, id, s.now + c.redis)));
    assert CallStep(c, u, v, CallServe(i));
    ReachNext(c, u, v, CallServe(i));
    ReachLater(c, v, c.redis);
    var w := v.(now := s.now + c.redis);
    t := CallTo(w, i, Answered(HitAnswer(w.calls[i].st.fetch), w.now, None));
    assert CallStep(c, w, t, CallHit(i));
    ReachNext(c, w, t, CallHit(i));
  }
}
