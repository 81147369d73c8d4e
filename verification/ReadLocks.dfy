/**
 The rebuild lock across processes: when the lock outlives everything its holder does, or
 there is one process only, the holders' sections never overlap and the cache is written in
 commit order.
 */
module ReadLocks {
  import opened Wrappers
  import opened Catalog
  import opened CacheStore
  import opened Runs
  import opened ReadProtocol
  import opened ReadInvariant
  import opened ReadFlights
  import opened ReadSteps

  /** The lock outlives the time from its request to the end of the cache write. */
  predicate Roomy(c: Config) {
    2 * c.redis + c.slotWait + c.query <= c.ttl.lock
  }

  /** Granted the lock, and the cache write still to come. */
  predicate InSection(pc: Pc) {
    || (pc.Locking? && pc.reply == Some(true))
    || (pc.WaitingSlot? && pc.populate)
    || (pc.Querying? && pc.populate)
    || (pc.Putting? && !pc.served)
  }

  predicate HoldsLock(c: Config, locks: map<Id, Lock>, f: FlightId, fl: Flight) {
    fl.id in locks && locks[fl.id].token == f && fl.started + c.ttl.lock <= locks[fl.id].expires
  }

  /** No write of this product's entry is recorded at position `p` or later. */
  ghost predicate NoStoreSince(past: Past, id: Id, p: nat) {
    forall q :: p <= q < |past.log| ==> !(past.log[q].Stored? && past.log[q].id == id)
  }

  /** Each flight in its section holds the lock. */
  ghost predicate LocksHeld(c: Config, s: Machine) {
    forall f :: f in s.flights && InSection(s.flights[f].pc) ==> HoldsLock(c, s.store.locks, f, s.flights[f])
  }

  /** No two flights are in their sections for one product. */
  ghost predicate Apart(s: Machine) {
    forall f, g :: SameSection(s, f, g) ==> f == g
  }

  predicate SameSection(s: Machine, f: FlightId, g: FlightId) {
    && f in s.flights && InSection(s.flights[f].pc)
    && g in s.flights && InSection(s.flights[g].pc)
    && s.flights[f].id == s.flights[g].id
  }

  ghost predicate SectionOk(past: Past, fl: Flight) {
    InSection(fl.pc) ==> fl.grant.Some? && NoStoreSince(past, fl.id, fl.grant.value)
  }

  /** Since its grant, no flight in its section has seen a write of its product. */
  ghost predicate Undisturbed(s: Machine) {
    forall f :: f in s.flights ==> SectionOk(s.past, s.flights[f])
  }

  /** Of two recorded writes of an entry, the later comes from a read after the earlier write. */
  ghost predicate WritesOrdered(past: Past) {
    forall p, q :: 0 <= p < q < |past.log| && past.log[p].Stored? && past.log[q].Stored? && past.log[p].id == past.log[q].id ==>
      p < past.log[q].read
  }

  /** Only a flight that had been granted the lock before its read wrote the cache. */
  ghost predicate WritesGranted(past: Past) {
    forall p :: 0 <= p < |past.log| && past.log[p].Stored? ==> WasGranted(past, past.log[p])
  }

  ghost predicate WasGranted(past: Past, e: Event)
    requires e.Stored?
  {
    exists q: nat :: q < e.read && IsGrant(past, e.id, e.flight, q)
  }

  // ------------------------------------------------------------------------- what a section means

  /** While the section lasts, Redis would answer that its owner holds the lock. */
  lemma SectionHoldsLock(c: Config, s: Machine, f: FlightId)
    requires Roomy(c) && FlightsOk(c, s) && LocksHeld(c, s)
    requires f in s.flights && InSection(s.flights[f].pc)
    ensures Holder(s.store, s.flights[f].id, s.now) == Some(f)
  {
    assert FlightOk(c, s.past, s.now, f, s.flights[f]);
    assert HoldsLock(c, s.store.locks, f, s.flights[f]);
  }

  /** One lock has one token. */
  lemma LocksKeepApart(c: Config, s: Machine)
    requires LocksHeld(c, s)
    ensures Apart(s)
  {
  }

  /** In one process single flight keeps sections apart, whatever becomes of the lock. */
  lemma OneProcessKeepsApart(c: Config, s: Machine)
    requires |c.procs| <= 1 && Registered(s) && AtHome(c, s)
    ensures Apart(s)
  {
    forall f, g | SameSection(s, f, g)
      ensures f == g
    {
      OnlyMember(c.procs, s.flights[f].proc, s.flights[g].proc);
      assert InFlight(s, f) && InFlight(s, g);
      assert s.reg[Place(s.flights[f])] == f && s.reg[Place(s.flights[g])] == g;
    }
  }

  lemma OnlyMember(procs: set<Proc>, p: Proc, q: Proc)
    requires |procs| <= 1 && p in procs && q in procs
    ensures p == q
  {
    assert |procs - {p}| == 0;
    assert procs - {p} == {};
  }

  // ------------------------------------------------------------------------- steps that leave locks alone

  ghost predicate NoNewStore(past: Past, past': Past) {
    past.log <= past'.log && forall q :: |past.log| <= q < |past'.log| ==> !past'.log[q].Stored?
  }

  ghost predicate WasInSection(s: Machine, f: FlightId, fl: Flight) {
    && f in s.flights && InSection(s.flights[f].pc)
    && fl.id == s.flights[f].id && fl.started == s.flights[f].started && fl.grant == s.flights[f].grant
  }

  /** No lock changed, no write was recorded, and no flight entered the section. */
  ghost predicate Steady(s: Machine, s': Machine) {
    && s'.store.locks == s.store.locks && NoNewStore(s.past, s'.past)
    && forall f :: f in s'.flights && InSection(s'.flights[f].pc) ==> WasInSection(s, f, s'.flights[f])
  }

  lemma SteadyHolds(c: Config, s: Machine, s': Machine)
    requires LocksHeld(c, s) && Steady(s, s')
    ensures LocksHeld(c, s')
  {
  }

  lemma SteadyUndisturbed(s: Machine, s': Machine)
    requires Undisturbed(s) && Steady(s, s')
    ensures Undisturbed(s')
  {
    forall f | f in s'.flights
      ensures SectionOk(s'.past, s'.flights[f])
    {
      if InSection(s'.flights[f].pc) {
        assert SectionOk(s.past, s.flights[f]);
      }
    }
  }

  lemma JoinSteady(c: Config, s: Machine, s': Machine, i: CallId, f: FlightId)
    requires CallStep(c, s, s', CallJoin(i, f))
    ensures Steady(s, s') && s'.now == s.now
  {
    assert forall g :: g in s'.flights && g != f ==> g in s.flights && s'.flights[g] == s.flights[g];
  }

  lemma LocksSteady(c: Config, s: Machine, s': Machine, step: Step)
    requires LockStep(c, s, s', step) && !step.LockServe? && !step.ReleaseServe?
    ensures Steady(s, s') && s'.now == s.now
  {
  }

  lemma PollsSteady(c: Config, s: Machine, s': Machine, step: Step)
    requires PollingStep(c, s, s', step)
    ensures Steady(s, s') && s'.now == s.now
  {
  }

  lemma QueriesSteady(c: Config, s: Machine, s': Machine, step: Step)
    requires QueryStep(c, s, s', step) && !step.PutServe?
    ensures Steady(s, s') && s'.now == s.now
  {
  }

  lemma OthersSteady(s: Machine, s': Machine, step: Step)
    requires WriterStep(s, s', step) || WorldStep(s, s', step)
    ensures Steady(s, s') && (step.Tick? || s'.now == s.now)
  {
  }

  // ------------------------------------------------------------------------- steps that take, free and use locks

  lemma LockServeHolds(c: Config, s: Machine, s': Machine, f: FlightId)
    requires Roomy(c) && FlightsOk(c, s) && LocksHeld(c, s) && LockStep(c, s, s', LockServe(f))
    ensures LocksHeld(c, s')
  {
    assert FlightOk(c, s.past, s.now, f, s.flights[f]);
    forall g | g in s'.flights && InSection(s'.flights[g].pc)
      ensures HoldsLock(c, s'.store.locks, g, s'.flights[g])
    {
      if g != f {
        SectionHoldsLock(c, s, g);
      }
    }
  }

  lemma ReleaseServeHolds(c: Config, s: Machine, s': Machine, f: FlightId)
    requires LocksHeld(c, s) && LockStep(c, s, s', ReleaseServe(f))
    ensures LocksHeld(c, s')
  {
  }

  lemma PutServeHolds(c: Config, s: Machine, s': Machine, f: FlightId, jitter: nat)
    requires LocksHeld(c, s) && QueryStep(c, s, s', PutServe(f, jitter))
    ensures LocksHeld(c, s')
  {
  }

  lemma LocksHeldNext(c: Config, s: Machine, s': Machine, step: Step)
    requires Roomy(c) && FlightsOk(c, s) && LocksHeld(c, s) && NextBy(c, s, s', step)
    ensures LocksHeld(c, s')
  {
    if step.LockServe? {
      LockServeHolds(c, s, s', step.f);
    } else if step.ReleaseServe? {
      ReleaseServeHolds(c, s, s', step.f);
    } else if step.PutServe? {
      PutServeHolds(c, s, s', step.f, step.jitter);
    } else {
      OtherStepsSteady(c, s, s', step);
      SteadyHolds(c, s, s');
    }
  }

  lemma LockServeUndisturbed(c: Config, s: Machine, s': Machine, f: FlightId)
    requires Undisturbed(s) && LockStep(c, s, s', LockServe(f))
    ensures Undisturbed(s')
  {
    if Holder(s.store, s.flights[f].id, s.now).None? {
      TakeLockUndisturbed(c, s, f);
    }
  }

  lemma TakeLockUndisturbed(c: Config, s: Machine, f: FlightId)
    requires Undisturbed(s) && f in s.flights && s.flights[f].pc.Locking?
    ensures Undisturbed(TakeLock(c, s, f))
  {
    var s' := TakeLock(c, s, f);
    forall g | g in s'.flights
      ensures SectionOk(s'.past, s'.flights[g])
    {
      if g != f {
        assert SectionOk(s.past, s.flights[g]);
      }
    }
  }

  lemma ReleaseServeUndisturbed(c: Config, s: Machine, s': Machine, f: FlightId)
    requires Undisturbed(s) && LockStep(c, s, s', ReleaseServe(f))
    ensures Undisturbed(s')
  {
  }

  /** A cache write disturbs nobody, since nobody else is in the section for its product. */
  lemma PutServeUndisturbed(c: Config, s: Machine, s': Machine, f: FlightId, jitter: nat)
    requires Undisturbed(s) && Apart(s) && QueryStep(c, s, s', PutServe(f, jitter))
    ensures Undisturbed(s')
  {
    forall g | g in s'.flights
      ensures SectionOk(s'.past, s'.flights[g])
    {
      if g != f {
        assert SectionOk(s.past, s.flights[g]);
        assert SameSection(s, f, g) ==> f == g;
      }
    }
  }

  lemma UndisturbedNext(c: Config, s: Machine, s': Machine, step: Step)
    requires Undisturbed(s) && Apart(s) && NextBy(c, s, s', step)
    ensures Undisturbed(s')
  {
    if step.LockServe? {
      LockServeUndisturbed(c, s, s', step.f);
    } else if step.ReleaseServe? {
      ReleaseServeUndisturbed(c, s, s', step.f);
    } else if step.PutServe? {
      PutServeUndisturbed(c, s, s', step.f, step.jitter);
    } else {
      OtherStepsSteady(c, s, s', step);
      SteadyUndisturbed(s, s');
    }
  }

  lemma OtherStepsSteady(c: Config, s: Machine, s': Machine, step: Step)
    requires NextBy(c, s, s', step) && !step.LockServe? && !step.ReleaseServe? && !step.PutServe?
    ensures Steady(s, s') && (step.Tick? || s'.now == s.now)
  {
    if step.CallJoin? {
      JoinSteady(c, s, s', step.i, step.anew);
    } else if CallStep(c, s, s', step) {
      CallsLeaveFlights(c, s, s', step);
    } else if LockStep(c, s, s', step) {
      LocksSteady(c, s, s', step);
    } else if PollingStep(c, s, s', step) {
      PollsSteady(c, s, s', step);
    } else if QueryStep(c, s, s', step) {
      QueriesSteady(c, s, s', step);
    } else {
      OthersSteady(s, s', step);
    }
  }

  // ------------------------------------------------------------------------- what is written, by whom and in which order

  lemma GrantStays(past: Past, past': Past, e: Event)
    requires e.Stored? && WasGranted(past, e) && past.log <= past'.log
    ensures WasGranted(past', e)
  {
    var q: nat :| q < e.read && IsGrant(past, e.id, e.flight, q);
    assert IsGrant(past', e.id, e.flight, q);
  }

  lemma NoNewStoreKeeps(past: Past, past': Past)
    requires NoNewStore(past, past')
    ensures WritesOrdered(past) ==> WritesOrdered(past')
    ensures WritesGranted(past) ==> WritesGranted(past')
  {
    if WritesGranted(past) {
      forall p | 0 <= p < |past'.log| && past'.log[p].Stored?
        ensures WasGranted(past', past'.log[p])
      {
        GrantStays(past, past', past.log[p]);
      }
    }
  }

  lemma LockServeStoresNothing(c: Config, s: Machine, s': Machine, step: Step)
    requires LockStep(c, s, s', step) && (step.LockServe? || step.ReleaseServe?)
    ensures NoNewStore(s.past, s'.past)
  {
  }

  lemma PutServeOrdered(c: Config, s: Machine, s': Machine, f: FlightId, jitter: nat)
    requires FlightsOk(c, s) && Undisturbed(s) && WritesOrdered(s.past) && QueryStep(c, s, s', PutServe(f, jitter))
    ensures WritesOrdered(s'.past)
  {
    assert FlightOk(c, s.past, s.now, f, s.flights[f]);
    assert SectionOk(s.past, s.flights[f]);
  }

  lemma PutServeGranted(c: Config, s: Machine, s': Machine, f: FlightId, jitter: nat)
    requires FlightsOk(c, s) && WritesGranted(s.past) && QueryStep(c, s, s', PutServe(f, jitter))
    ensures WritesGranted(s'.past)
  {
    var fl := s.flights[f];
    assert FlightOk(c, s.past, s.now, f, fl);
    forall p | 0 <= p < |s'.past.log| && s'.past.log[p].Stored?
      ensures WasGranted(s'.past, s'.past.log[p])
    {
      if p < Here(s) {
        GrantStays(s.past, s'.past, s.past.log[p]);
      } else {
        assert IsGrant(s'.past, fl.id, f, fl.grant.value);
      }
    }
  }

  lemma WritesGrantedNext(c: Config, s: Machine, s': Machine, step: Step)
    requires FlightsOk(c, s) && WritesGranted(s.past) && NextBy(c, s, s', step)
    ensures WritesGranted(s'.past)
  {
    if step.PutServe? {
      PutServeGranted(c, s, s', step.f, step.jitter);
    } else {
      if step.LockServe? || step.ReleaseServe? {
        LockServeStoresNothing(c, s, s', step);
      } else {
        OtherStepsSteady(c, s, s', step);
      }
      NoNewStoreKeeps(s.past, s'.past);
    }
  }

  lemma WritesOrderedNext(c: Config, s: Machine, s': Machine, step: Step)
    requires FlightsOk(c, s) && Undisturbed(s) && WritesOrdered(s.past) && NextBy(c, s, s', step)
    ensures WritesOrdered(s'.past)
  {
    if step.PutServe? {
      PutServeOrdered(c, s, s', step.f, step.jitter);
    } else {
      if step.LockServe? || step.ReleaseServe? {
        LockServeStoresNothing(c, s, s', step);
      } else {
        OtherStepsSteady(c, s, s', step);
      }
      NoNewStoreKeeps(s.past, s'.past);
    }
  }

  // ------------------------------------------------------------------------- over all runs

  /** Only a flight that was granted the lock ever writes a cache entry. */
  lemma {:induction false} OnlyGrantedFlightsWrite(c: Config, run: seq<Machine>)
    requires IsRun(c, run)
    ensures WritesGranted(Final(run).past)
  {
    if |run| > 1 {
      var before, step := run[..|run| - 1], LastStep(c, run);
      OnlyGrantedFlightsWrite(c, before);
      RunIsSafe(c, before);
      WritesGrantedNext(c, Final(before), Final(run), step);
    }
  }

  /** With room in the lock's lifetime, every section has its lock in every reachable state. */
  lemma {:induction false} SectionsHoldLocks(c: Config, run: seq<Machine>)
    requires Roomy(c) && IsRun(c, run)
    ensures LocksHeld(c, Final(run))
  {
    if |run| > 1 {
      var before, step := run[..|run| - 1], LastStep(c, run);
      SectionsHoldLocks(c, before);
      RunIsSafe(c, before);
      LocksHeldNext(c, Final(before), Final(run), step);
    }
  }

  /** What keeps sections apart: a lock that outlives them, or a single process. */
  predicate KeepsApart(c: Config) {
    Roomy(c) || |c.procs| <= 1
  }

  lemma SectionsApart(c: Config, run: seq<Machine>)
    requires KeepsApart(c) && IsRun(c, run)
    ensures Apart(Final(run))
  {
    if Roomy(c) {
      SectionsHoldLocks(c, run);
      LocksKeepApart(c, Final(run));
    } else {
      RunIsSafe(c, run);
      OneProcessKeepsApart(c, Final(run));
    }
  }

  lemma {:induction false} WritesInOrder(c: Config, run: seq<Machine>)
    requires KeepsApart(c) && IsRun(c, run)
    ensures Undisturbed(Final(run)) && WritesOrdered(Final(run).past)
  {
    if |run| > 1 {
      var before, step := run[..|run| - 1], LastStep(c, run);
      WritesInOrder(c, before);
      RunIsSafe(c, before);
      SectionsApart(c, before);
      UndisturbedNext(c, Final(before), Final(run), step);
      WritesOrderedNext(c, Final(before), Final(run), step);
    }
  }

  /**
   The section is exclusive in every reachable state, across processes; with room in the
   lock's lifetime its owner's lock is live throughout.
   */
  lemma SectionsNeverOverlap(c: Config, run: seq<Machine>, f: FlightId, g: FlightId)
    requires KeepsApart(c) && IsRun(c, run) && SameSection(Final(run), f, g)
    ensures f == g
    ensures Roomy(c) ==> Holder(Final(run).store, Final(run).flights[f].id, Final(run).now) == Some(f)
  {
    SectionsApart(c, run);
    if Roomy(c) {
      RunIsSafe(c, run);
      SectionsHoldLocks(c, run);
      SectionHoldsLock(c, Final(run), f);
    }
  }

  /** Commits of one product stand in the log in their order. */
  lemma {:induction false} CommitsAscend(past: Past, now: nat, id: Id, i: nat, j: nat)
    requires forall n :: 0 <= n < |History(past, id)| ==> CommitOk(past, now, id, n)
    requires i <= j < |History(past, id)|
    ensures History(past, id)[i].pos <= History(past, id)[j].pos
    ensures History(past, id)[i].at <= History(past, id)[j].at
    decreases j
  {
    if i < j {
      assert CommitOk(past, now, id, j);
      CommitsAscend(past, now, id, i, j - 1);
    }
  }

  /** Later reads see at least as many commits. */
  lemma ReadsAscend(c: Config, past: Past, now: nat, id: Id, p: nat, q: nat)
    requires PastOk(c, past, now) && IsRead(past, id, p) && IsRead(past, id, q) && p <= q
    ensures past.log[p].k <= past.log[q].k
  {
    var j, k := past.log[p].k, past.log[q].k;
    assert EventOk(c, past, now, p) && EventOk(c, past, now, q);
    if k < j {
      CommitsAscend(past, now, id, k, j - 1);
    }
  }

  /** The number of commits a recorded cache write carries. */
  function WrittenCommits(past: Past, p: nat): nat
    requires p < |past.log| && past.log[p].Stored? && IsRead(past, past.log[p].id, past.log[p].read)
  {
    past.log[past.log[p].read].k
  }

  /** Successive writes of one product's entry carry snapshots in non-decreasing commit order. */
  lemma CacheWritesInCommitOrder(c: Config, run: seq<Machine>, p: nat, q: nat)
    requires KeepsApart(c) && IsRun(c, run)
    requires var log := Final(run).past.log;
      p <= q < |log| && log[p].Stored? && log[q].Stored? && log[p].id == log[q].id
    ensures var past := Final(run).past;
      && IsRead(past, past.log[p].id, past.log[p].read) && IsRead(past, past.log[q].id, past.log[q].read)
      && WrittenCommits(past, p) <= WrittenCommits(past, q)
  {
    RunIsSafe(c, run);
    WritesInOrder(c, run);
    OrderedWritesAscend(c, Final(run).past, Final(run).now, p, q);
  }

  lemma OrderedWritesAscend(c: Config, past: Past, now: nat, p: nat, q: nat)
    requires PastOk(c, past, now) && WritesOrdered(past)
    requires p <= q < |past.log| && past.log[p].Stored? && past.log[q].Stored? && past.log[p].id == past.log[q].id
    ensures IsRead(past, past.log[p].id, past.log[p].read) && IsRead(past, past.log[q].id, past.log[q].read)
    ensures WrittenCommits(past, p) <= WrittenCommits(past, q)
  {
    assert EventOk(c, past, now, p) && EventOk(c, past, now, q);
    ReadsAscend(c, past, now, past.log[p].id, past.log[p].read, past.log[q].read);
  }

  // ------------------------------------------------------------------------- who may remove a lock

  /** A live lock goes away only by its own owner's release, or by time. */
  lemma LockLeavesByOwner(c: Config, s: Machine, s': Machine, step: Step, id: Id, owner: Token)
    requires NextBy(c, s, s', step) && step != ReleaseServe(owner)
    requires Holder(s.store, id, s.now) == Some(owner)
    ensures Holder(s'.store, id, s'.now) == Some(owner) || (step.Tick? && s.store.locks[id].expires < s'.now)
  {
    if step.LockServe? {
      LockServeKeepsHolder(c, s, s', step.f, id);
    } else if step.ReleaseServe? {
      ReleaseServeKeepsOthers(c, s, s', step.f, id);
    } else if step.PutServe? {
      PutServeKeepsLocks(c, s, s', step.f, step.jitter);
    } else {
      OtherStepsSteady(c, s, s', step);
    }
  }

  lemma LockServeKeepsHolder(c: Config, s: Machine, s': Machine, f: FlightId, id: Id)
    requires LockStep(c, s, s', LockServe(f)) && Holder(s.store, id, s.now).Some?
    ensures Holder(s'.store, id, s'.now) == Holder(s.store, id, s.now)
  {
  }

  lemma ReleaseServeKeepsOthers(c: Config, s: Machine, s': Machine, f: FlightId, id: Id)
    requires LockStep(c, s, s', ReleaseServe(f)) && Holder(s.store, id, s.now) != Some(f)
    ensures Holder(s'.store, id, s'.now) == Holder(s.store, id, s.now)
  {
  }

  lemma PutServeKeepsLocks(c: Config, s: Machine, s': Machine, f: FlightId, jitter: nat)
    requires QueryStep(c, s, s', PutServe(f, jitter))
    ensures s'.store.locks == s.store.locks && s'.now == s.now
  {
  }
}
