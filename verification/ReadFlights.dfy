/**
 What one process does on its own: the single-flight table, the database slots, and the
 invalidations its writers leave behind.
 */
module ReadFlights {
  import opened Catalog
  import opened ReadProtocol

  // ------------------------------------------------------------------------- what a step does to flights

  predicate SamePlace(a: Flight, b: Flight) {
    a.proc == b.proc && a.id == b.id && a.started == b.started && !b.pc.Finished?
  }

  /** One unfinished flight changed, where it was. */
  ghost predicate Moves(s: Machine, s': Machine, f: FlightId) {
    && InFlight(s, f) && f in s'.flights
    && s'.flights == s.flights[f := s'.flights[f]]
    && SamePlace(s.flights[f], s'.flights[f])
    && s'.reg == s.reg
  }

  ghost predicate Walks(s: Machine, s': Machine, f: FlightId) {
    && Moves(s, s', f) && s'.free == s.free
    && (s'.flights[f].pc.Querying? <==> s.flights[f].pc.Querying?)
  }

  ghost predicate Enters(s: Machine, s': Machine, f: FlightId) {
    && Moves(s, s', f) && !s.flights[f].pc.Querying? && s'.flights[f].pc.Querying?
    && var p := s.flights[f].proc;
    && p in s.free && s.free[p] > 0 && s'.free == s.free[p := s.free[p] - 1]
  }

  ghost predicate Leaves(s: Machine, s': Machine, f: FlightId) {
    && Moves(s, s', f) && s.flights[f].pc.Querying? && !s'.flights[f].pc.Querying?
    && var p := s.flights[f].proc;
    && p in s.free && s'.free == s.free[p := s.free[p] + 1]
  }

  ghost predicate Starts(s: Machine, s': Machine, f: FlightId) {
    && f !in s.flights && f in s'.flights
    && s'.flights == s.flights[f := s'.flights[f]] && s'.flights[f].pc.Locking?
    && var key := Place(s'.flights[f]);
    && (key in s.reg ==> !InFlight(s, s.reg[key]))
    && s'.reg == s.reg[key := f] && s'.free == s.free
  }

  ghost predicate Ends(s: Machine, s': Machine, f: FlightId) {
    && InFlight(s, f) && s.flights[f].pc.Returning?
    && f in s'.flights && s'.flights == s.flights[f := s'.flights[f]] && s'.flights[f].pc.Finished?
    && Place(s'.flights[f]) == Place(s.flights[f])
    && s'.reg == Unregister(s.reg, Place(s.flights[f]), f) && s'.free == s.free
  }

  ghost predicate Rests(s: Machine, s': Machine) {
    s'.flights == s.flights && s'.reg == s.reg && s'.free == s.free
  }

  /** Every step starts, moves or ends at most one flight. */
  ghost predicate OneFlightAtMost(s: Machine, s': Machine) {
    || Rests(s, s')
    || exists f :: Walks(s, s', f) || Enters(s, s', f) || Leaves(s, s', f) || Starts(s, s', f) || Ends(s, s', f)
  }

  lemma CallsTouchFlights(c: Config, s: Machine, s': Machine, step: Step)
    requires CallStep(c, s, s', step)
    ensures OneFlightAtMost(s, s')
  {
    if step.CallJoin? {
      var key := (s.calls[step.i].proc, s.calls[step.i].id);
      if !(key in s.reg && InFlight(s, s.reg[key])) {
        assert Starts(s, s', step.anew);
      }
    }
  }

  lemma LocksTouchFlights(c: Config, s: Machine, s': Machine, step: Step)
    requires LockStep(c, s, s', step)
    ensures OneFlightAtMost(s, s')
  {
    if step.Finish? {
      assert Ends(s, s', step.f);
    } else if !step.ReleaseServe? {
      assert Walks(s, s', step.f);
    }
  }

  lemma PollsTouchFlights(c: Config, s: Machine, s': Machine, step: Step)
    requires PollingStep(c, s, s', step)
    ensures OneFlightAtMost(s, s')
  {
    if !step.PollDrop? {
      assert Walks(s, s', step.f);
    }
  }

  lemma QueriesTouchFlights(c: Config, s: Machine, s': Machine, step: Step)
    requires QueryStep(c, s, s', step)
    ensures OneFlightAtMost(s, s')
  {
    if step.SlotGrant? {
      assert Enters(s, s', step.f);
    } else if step.QueryDone? || step.QueryFail? {
      assert Leaves(s, s', step.f);
    } else {
      assert Walks(s, s', step.f);
    }
  }

  lemma StepsTouchOneFlight(c: Config, s: Machine, s': Machine, step: Step)
    requires NextBy(c, s, s', step)
    ensures OneFlightAtMost(s, s')
  {
    if CallStep(c, s, s', step) {
      CallsTouchFlights(c, s, s', step);
    } else if LockStep(c, s, s', step) {
      LocksTouchFlights(c, s, s', step);
    } else if PollingStep(c, s, s', step) {
      PollsTouchFlights(c, s, s', step);
    } else if QueryStep(c, s, s', step) {
      QueriesTouchFlights(c, s, s', step);
    }
  }

  // ------------------------------------------------------------------------- single flight

  /** The table holds exactly the unfinished flights, each under its process and product. */
  ghost predicate Registered(s: Machine) {
    && (forall key :: key in s.reg ==> InFlight(s, s.reg[key]) && Place(s.flights[s.reg[key]]) == key)
    && (forall f :: InFlight(s, f) ==> Place(s.flights[f]) in s.reg && s.reg[Place(s.flights[f])] == f)
  }

  lemma RegisteredNext(s: Machine, s': Machine)
    requires Registered(s) && OneFlightAtMost(s, s')
    ensures Registered(s')
  {
    if !Rests(s, s') {
      var f :| Walks(s, s', f) || Enters(s, s', f) || Leaves(s, s', f) || Starts(s, s', f) || Ends(s, s', f);
      if Starts(s, s', f) {
        StartRegisters(s, s', f);
      } else if Ends(s, s', f) {
        EndUnregisters(s, s', f);
      } else {
        MoveLeavesTable(s, s', f);
      }
    }
  }

  lemma StartRegisters(s: Machine, s': Machine, f: FlightId)
    requires Registered(s) && Starts(s, s', f)
    ensures Registered(s')
  {
  }

  /** A flight that ends takes out its own registration and no other. */
  lemma EndUnregisters(s: Machine, s': Machine, f: FlightId)
    requires Registered(s) && Ends(s, s', f)
    ensures Registered(s')
    ensures s'.reg == s.reg - {Place(s.flights[f])}
  {
  }

  lemma MoveLeavesTable(s: Machine, s': Machine, f: FlightId)
    requires Registered(s) && Moves(s, s', f)
    ensures Registered(s')
  {
  }

  // ------------------------------------------------------------------------- places

  /** Calls stand as they were, and no flight is new or elsewhere. */
  ghost predicate PlacesStand(s: Machine, s': Machine) {
    && s'.calls == s.calls
    && forall f :: f in s'.flights ==> f in s.flights && Place(s'.flights[f]) == Place(s.flights[f])
  }

  lemma LocksLeaveCalls(c: Config, s: Machine, s': Machine, step: Step)
    requires LockStep(c, s, s', step) && !step.LockServe?
    ensures PlacesStand(s, s')
  {
  }

  lemma LockServeLeavesCalls(c: Config, s: Machine, s': Machine, f: FlightId)
    requires LockStep(c, s, s', LockServe(f))
    ensures PlacesStand(s, s')
  {
  }

  lemma PollsLeaveCalls(c: Config, s: Machine, s': Machine, step: Step)
    requires PollingStep(c, s, s', step)
    ensures PlacesStand(s, s')
  {
  }

  lemma QueriesLeaveCalls(c: Config, s: Machine, s': Machine, step: Step)
    requires QueryStep(c, s, s', step)
    ensures PlacesStand(s, s')
  {
  }

  lemma OthersLeaveCalls(c: Config, s: Machine, s': Machine, step: Step)
    requires NextBy(c, s, s', step) && !CallStep(c, s, s', step)
    ensures PlacesStand(s, s')
  {
    if step.LockServe? {
      LockServeLeavesCalls(c, s, s', step.f);
    } else if LockStep(c, s, s', step) {
      LocksLeaveCalls(c, s, s', step);
    } else if QueryStep(c, s, s', step) {
      QueriesLeaveCalls(c, s, s', step);
    } else if PollingStep(c, s, s', step) {
      PollsLeaveCalls(c, s, s', step);
    }
  }

  /** Every call and every flight belongs to a process of the deployment. */
  ghost predicate AtHome(c: Config, s: Machine) {
    && (forall i :: i in s.calls ==> s.calls[i].proc in c.procs)
    && (forall f :: f in s.flights ==> s.flights[f].proc in c.procs)
  }

  lemma CallsAtHome(c: Config, s: Machine, s': Machine, step: Step)
    requires AtHome(c, s) && CallStep(c, s, s', step) && !step.CallJoin?
    ensures AtHome(c, s')
  {
    CallsLeaveFlights(c, s, s', step);
    forall i | i in s'.calls
      ensures s'.calls[i].proc in c.procs
    {
      CallStaysHome(c, s, s', step, i);
    }
  }

  lemma CallsLeaveFlights(c: Config, s: Machine, s': Machine, step: Step)
    requires CallStep(c, s, s', step) && !step.CallJoin?
    ensures s'.flights == s.flights && s'.store.locks == s.store.locks && s'.past == s.past && s'.now == s.now
  {
  }

  lemma CallStaysHome(c: Config, s: Machine, s': Machine, step: Step, i: CallId)
    requires CallStep(c, s, s', step) && i in s'.calls
    ensures if i in s.calls then s'.calls[i].proc == s.calls[i].proc else s'.calls[i].proc in c.procs
  {
  }

  lemma JoinAtHome(c: Config, s: Machine, s': Machine, i: CallId, f: FlightId)
    requires AtHome(c, s) && CallStep(c, s, s', CallJoin(i, f))
    ensures AtHome(c, s')
  {
    assert forall j :: j in s'.calls ==> s'.calls[j].proc == s.calls[j].proc;
    assert forall g :: g in s'.flights && g != f ==> g in s.flights && s'.flights[g] == s.flights[g];
  }

  lemma AtHomeNext(c: Config, s: Machine, s': Machine, step: Step)
    requires AtHome(c, s) && NextBy(c, s, s', step)
    ensures AtHome(c, s')
  {
    if step.CallJoin? {
      JoinAtHome(c, s, s', step.i, step.anew);
    } else if CallStep(c, s, s', step) {
      CallsAtHome(c, s, s', step);
    } else {
      OthersLeaveCalls(c, s, s', step);
    }
  }

  // ------------------------------------------------------------------------- slots

  /** The flights of a process that hold one of its database slots. */
  ghost function InDatabase(s: Machine, p: Proc): set<FlightId> {
    set f | f in s.flights && s.flights[f].proc == p && s.flights[f].pc.Querying?
  }

  ghost predicate SlotsOk(c: Config, s: Machine) {
    && s.free.Keys == c.procs
    && forall p :: if p in c.procs then s.free[p] + |InDatabase(s, p)| == c.slots else InDatabase(s, p) == {}
  }

  lemma SlotsNext(c: Config, s: Machine, s': Machine)
    requires SlotsOk(c, s) && OneFlightAtMost(s, s')
    ensures SlotsOk(c, s')
  {
    if Rests(s, s') {
      assert forall p :: InDatabase(s', p) == InDatabase(s, p);
    } else {
      var f :| Walks(s, s', f) || Enters(s, s', f) || Leaves(s, s', f) || Starts(s, s', f) || Ends(s, s', f);
      if Enters(s, s', f) {
        EnterTakesSlot(s, s', f);
      } else if Leaves(s, s', f) {
        LeaveFreesSlot(s, s', f);
      } else {
        OthersKeepSlots(s, s', f);
      }
    }
  }

  lemma EnterTakesSlot(s: Machine, s': Machine, f: FlightId)
    requires Enters(s, s', f)
    ensures forall p :: |InDatabase(s', p)| == |InDatabase(s, p)| + (if p == s.flights[f].proc then 1 else 0)
  {
    forall p
      ensures |InDatabase(s', p)| == |InDatabase(s, p)| + (if p == s.flights[f].proc then 1 else 0)
    {
      assert InDatabase(s', p) == if p == s.flights[f].proc then InDatabase(s, p) + {f} else InDatabase(s, p);
    }
  }

  lemma LeaveFreesSlot(s: Machine, s': Machine, f: FlightId)
    requires Leaves(s, s', f)
    ensures forall p :: |InDatabase(s, p)| == |InDatabase(s', p)| + (if p == s.flights[f].proc then 1 else 0)
  {
    forall p
      ensures |InDatabase(s, p)| == |InDatabase(s', p)| + (if p == s.flights[f].proc then 1 else 0)
    {
      assert InDatabase(s, p) == if p == s.flights[f].proc then InDatabase(s', p) + {f} else InDatabase(s', p);
    }
  }

  lemma OthersKeepSlots(s: Machine, s': Machine, f: FlightId)
    requires Walks(s, s', f) || Starts(s, s', f) || Ends(s, s', f)
    ensures forall p :: InDatabase(s', p) == InDatabase(s, p)
  {
    forall p
      ensures InDatabase(s', p) == InDatabase(s, p)
    {
      assert forall g :: g in InDatabase(s', p) <==> g in InDatabase(s, p);
    }
  }

  // ------------------------------------------------------------------------- invalidations

  /** Position `q` of the log is a deletion for commit `k` of this product. */
  ghost predicate IsRemoval(past: Past, id: Id, k: nat, q: nat) {
    q < |past.log| && past.log[q] == Removed(id, k)
  }

  ghost predicate JobOk(past: Past, id: Id, k: nat, job: Job) {
    match job
    case Queued => true
    case Deleting(attempt, served) => 1 <= attempt <= 3 && (served ==> exists q: nat :: IsRemoval(past, id, k, q))
    case Resting(attempt) => 1 <= attempt < 3
    case Succeeded => exists q: nat :: IsRemoval(past, id, k, q)
    case GivenUp(attempt) => attempt == 3
  }

  /** Each commit of each product has one invalidation; one that succeeded did delete the key, one given up had three attempts. */
  ghost predicate JobsOk(s: Machine) {
    && (forall key :: key in s.jobs <==> 0 < key.1 <= |History(s.past, key.0)|)
    && (forall key :: key in s.jobs ==> JobOk(s.past, key.0, key.1, s.jobs[key]))
  }

  /** No commit and no work on invalidations; at most more events. */
  ghost predicate NoWrite(s: Machine, s': Machine) {
    s'.jobs == s.jobs && s'.past.hist == s.past.hist && s.past.log <= s'.past.log
  }

  lemma CallsWriteNothing(c: Config, s: Machine, s': Machine, step: Step)
    requires CallStep(c, s, s', step)
    ensures NoWrite(s, s')
  {
  }

  lemma WorldWritesNothing(s: Machine, s': Machine, step: Step)
    requires WorldStep(s, s', step)
    ensures NoWrite(s, s')
  {
  }

  lemma LocksWriteNothing(c: Config, s: Machine, s': Machine, step: Step)
    requires LockStep(c, s, s', step)
    ensures NoWrite(s, s')
  {
    if step.LockServe? {
      LockServeWritesNothing(c, s, s', step.f);
    }
  }

  lemma LockServeWritesNothing(c: Config, s: Machine, s': Machine, f: FlightId)
    requires LockStep(c, s, s', LockServe(f))
    ensures NoWrite(s, s')
  {
  }

  lemma PollsWriteNothing(c: Config, s: Machine, s': Machine, step: Step)
    requires PollingStep(c, s, s', step)
    ensures NoWrite(s, s')
  {
  }

  lemma QueriesWriteNothing(c: Config, s: Machine, s': Machine, step: Step)
    requires QueryStep(c, s, s', step)
    ensures NoWrite(s, s')
  {
  }

  lemma ReadersWriteNothing(c: Config, s: Machine, s': Machine, step: Step)
    requires NextBy(c, s, s', step) && !WriterStep(s, s', step)
    ensures NoWrite(s, s')
  {
    if QueryStep(c, s, s', step) {
      QueriesWriteNothing(c, s, s', step);
    } else if LockStep(c, s, s', step) {
      LocksWriteNothing(c, s, s', step);
    } else if PollingStep(c, s, s', step) {
      PollsWriteNothing(c, s, s', step);
    } else if CallStep(c, s, s', step) {
      CallsWriteNothing(c, s, s', step);
    } else {
      WorldWritesNothing(s, s', step);
    }
  }

  lemma JobStays(past: Past, past': Past, id: Id, k: nat, job: Job)
    requires JobOk(past, id, k, job) && past.log <= past'.log
    ensures JobOk(past', id, k, job)
  {
    if q: nat :| IsRemoval(past, id, k, q) {
      assert IsRemoval(past', id, k, q);
    }
  }

  lemma JobsStay(s: Machine, s': Machine)
    requires JobsOk(s) && NoWrite(s, s')
    ensures JobsOk(s')
  {
    forall key | key in s'.jobs
      ensures JobOk(s'.past, key.0, key.1, s'.jobs[key])
    {
      JobStays(s.past, s'.past, key.0, key.1, s.jobs[key]);
    }
    assert forall id :: History(s'.past, id) == History(s.past, id);
  }

  lemma CommitsHaveJobs(s: Machine, s': Machine, changes: map<Id, Product>)
    requires JobsOk(s) && WriterStep(s, s', CommitRows(changes))
    ensures forall key :: key in s'.jobs <==> 0 < key.1 <= |History(s'.past, key.0)|
  {
    CommitLengthens(s, s', changes);
    forall key: (Id, nat)
      ensures key in s'.jobs <==> 0 < key.1 <= |History(s'.past, key.0)|
    {
      assert key in NewJobs(s, changes) <==> key.0 in changes && key.1 == |History(s.past, key.0)| + 1;
    }
  }

  lemma CommitQueuesJobs(s: Machine, s': Machine, changes: map<Id, Product>)
    requires JobsOk(s) && WriterStep(s, s', CommitRows(changes))
    ensures JobsOk(s')
  {
    CommitsHaveJobs(s, s', changes);
    forall key | key in s'.jobs
      ensures JobOk(s'.past, key.0, key.1, s'.jobs[key])
    {
      if key in s.jobs {
        JobStays(s.past, s'.past, key.0, key.1, s.jobs[key]);
      }
    }
  }

  lemma JobMoves(s: Machine, s': Machine, step: Step)
    requires JobsOk(s) && WriterStep(s, s', step) && !step.CommitRows?
    ensures JobsOk(s')
  {
    var key := (step.id, step.k);
    assert forall id :: History(s'.past, id) == History(s.past, id);
    if step.JobServe? {
      assert IsRemoval(s'.past, step.id, step.k, Here(s));
    }
    forall x | x in s'.jobs
      ensures JobOk(s'.past, x.0, x.1, s'.jobs[x])
    {
      JobStays(s.past, s'.past, x.0, x.1, s.jobs[x]);
    }
  }

  lemma JobsNext(c: Config, s: Machine, s': Machine, step: Step)
    requires JobsOk(s) && NextBy(c, s, s', step)
    ensures JobsOk(s')
  {
    if !WriterStep(s, s', step) {
      ReadersWriteNothing(c, s, s', step);
      JobsStay(s, s');
    } else if step.CommitRows? {
      CommitQueuesJobs(s, s', step.changes);
    } else {
      JobMoves(s, s', step);
    }
  }
}
