/** Every step of the read protocol keeps its invariant. */
module ReadSteps {
  import opened Wrappers
  import opened Catalog
  import opened CacheStore
  import opened Runs
  import opened ReadProtocol
  import opened ReadInvariant
  import opened ReadFlights

  // ------------------------------------------------------------------------- shared frames

  /** A flight moved, and of what the invariant speaks of nothing else changed. */
  lemma MoveKeeps(c: Config, s: Machine, s': Machine, f: FlightId, pc: Pc)
    requires Inv(c, s) && f in s.flights && !pc.Finished?
    requires s'.now == s.now && s'.past == s.past && s'.calls == s.calls
    requires s'.store.entries == s.store.entries && s'.origin == s.origin
    requires s'.flights == s.flights[f := s.flights[f].(pc := pc)]
    requires PcOk(c, s.past, s.now, f, s.flights[f].(pc := pc))
    ensures Inv(c, s')
  {
    assert FlightOk(c, s.past, s.now, f, s.flights[f]);
    FlightsKept(c, s, s', f);
    CallsKept(c, s, s', f);
  }

  /** A flight moved and one event that removes nothing was recorded. */
  lemma MoveAndRecordKeeps(c: Config, s: Machine, s': Machine, f: FlightId, pc: Pc, e: Event)
    requires Inv(c, s) && f in s.flights && !pc.Finished? && !e.Removed?
    requires s'.now == s.now && s'.past == s.past.(log := s.past.log + [e]) && s'.calls == s.calls
    requires s'.store == s.store && s'.origin == s.origin
    requires s'.flights == s.flights[f := s.flights[f].(pc := pc)]
    requires EventOk(c, s'.past, s.now, Here(s))
    requires PcOk(c, s'.past, s.now, f, s.flights[f].(pc := pc))
    ensures Inv(c, s')
  {
    OneMoreEvent(c, s.past, s.now, e);
    Grown(s.past, e);
    FlightStays(c, s.past, s'.past, s.now, f, s.flights[f]);
    FlightsKept(c, s, s', f);
    CallsKept(c, s, s', f);
    EntriesKept(c, s, s');
  }

  /** A call moved, and of what the invariant speaks of nothing else changed. */
  lemma CallMoveKeeps(c: Config, s: Machine, s': Machine, i: CallId, call: Call)
    requires Inv(c, s)
    requires s'.now == s.now && s'.past == s.past && s'.flights == s.flights
    requires s'.store == s.store && s'.origin == s.origin
    requires s'.calls == s.calls[i := call]
    requires CallOk(c, s.past, s.now, s.flights, call)
    ensures Inv(c, s')
  {
    forall j | j in s'.calls
      ensures CallOk(c, s'.past, s'.now, s'.flights, s'.calls[j])
    {
      assert j != i ==> j in s.calls;
    }
  }

  /** An entry went away and nothing was recorded. */
  lemma DropKeeps(c: Config, s: Machine, s': Machine, id: Id)
    requires Inv(c, s) && s' == s.(store := Delete(s.store, id))
    ensures Inv(c, s')
  {
    EntriesKept(c, s, s');
    assert FlightsOk(c, s') && CallsOk(c, s');
  }

  // ------------------------------------------------------------------------- arithmetic of the loop

  /** Rounds that ended before the deadline are no more than sleeps fit below it. */
  lemma RoundsBelow(c: Config, rounds: nat)
    requires Times(rounds, PollStep(c)) < c.budget
    ensures rounds <= SleepsBelow(c)
  {
    var most := SleepsBelow(c);
    QuotientFits(c.budget - 1, PollStep(c));
    if most < rounds {
      TimesMonotone(most + 1, rounds, PollStep(c));
      assert false;
    }
  }

  /** A further round fits: rounds are counted against the budget. */
  lemma AnotherRound(c: Config, rounds: nat)
    requires Times(rounds, PollStep(c)) < c.budget
    ensures rounds + 1 <= MaxRounds(c)
  {
    RoundsBelow(c, rounds);
  }

  /** The number of rounds is ceil(B / min(25, B)). */
  lemma MaxRoundsIsCeiling(c: Config)
    requires c.budget > 0
    ensures MaxRounds(c) == (c.budget + Min(25, c.budget) - 1) / Min(25, c.budget)
  {
    QuotientIsDivision(c.budget - 1, PollStep(c));
    assert (c.budget - 1 + PollStep(c)) / PollStep(c) == (c.budget - 1) / PollStep(c) + 1;
  }

  /** The wait of the loop in closed form. */
  lemma LoopWaitIs(c: Config)
    ensures c.budget == 0 ==> LoopWait(c) == 0
    ensures c.budget > 0 ==>
      var p := Min(25, c.budget);
      LoopWait(c) == Min(c.budget - 1, (c.budget - 1) / p * (p + 2 * c.redis)) + p
  {
    if c.budget > 0 {
      QuotientIsDivision(c.budget - 1, PollStep(c));
      TimesIsProduct(SleepsBelow(c), RoundTime(c));
    }
  }

  /** Rounds that ended before the deadline ended by the loop's span. */
  lemma RoundsFit(c: Config, rounds: nat, offset: nat)
    requires Times(rounds, PollStep(c)) <= offset <= Times(rounds, RoundTime(c)) && offset < c.budget
    ensures offset <= LoopSpan(c)
  {
    RoundsBelow(c, rounds);
    TimesMonotone(rounds, SleepsBelow(c), RoundTime(c));
  }

  /** The loop's head keeps the flight in order, whether it sleeps again or gives up. */
  lemma LoopTopOk(c: Config, past: Past, now: nat, f: FlightId, fl: Flight, end: nat, rounds: nat)
    requires LoopOk(c, fl.started, end, rounds, now)
    requires now <= end - c.budget + Times(rounds, RoundTime(c))
    requires now <= LastWake(c, fl.started) + 2 * c.redis
    ensures PcOk(c, past, now, f, fl.(pc := LoopTop(c, now, end, rounds)))
  {
    if now < end {
      AnotherRound(c, rounds);
      RoundsFit(c, rounds, now - (end - c.budget));
    }
  }

  // ------------------------------------------------------------------------- cache reads

  /** What Redis answers to a GET is in order. */
  lemma ServeGetOk(c: Config, s: Machine, id: Id, d: nat, latest: int)
    requires EntriesOk(c, s) && FetchOk(c, s.past, s.now, id, Asking(d), latest)
    ensures FetchOk(c, s.past, s.now, id, ServeGet(s, id, d), latest)
  {
    if IsHit(id, ServeGet(s, id, d)) {
      assert EntryOk(c, s.past, id, s.store.entries[id], s.origin[id]);
    }
  }

  lemma ServeKeeps(c: Config, s: Machine, s': Machine, step: Step)
    requires Inv(c, s) && (CallStep(c, s, s', step) || PollingStep(c, s, s', step))
    requires step.CallServe? || step.PollServe?
    ensures Inv(c, s')
  {
    if step.CallServe? {
      var call := s.calls[step.i];
      assert CallOk(c, s.past, s.now, s.flights, call);
      ServeGetOk(c, s, call.id, call.st.fetch.deadline, call.began + c.redis);
      CallMoveKeeps(c, s, s', step.i, s'.calls[step.i]);
    } else {
      var fl := s.flights[step.f];
      assert FlightOk(c, s.past, s.now, step.f, fl);
      ServeGetOk(c, s, fl.id, fl.pc.fetch.deadline, WakeLimit(c, fl.started, fl.pc.end, fl.pc.rounds) + c.redis);
      MoveKeeps(c, s, s', step.f, s'.flights[step.f].pc);
    }
  }

  // ------------------------------------------------------------------------- calls

  lemma CallsStepKeeps(c: Config, s: Machine, s': Machine, step: Step)
    requires Inv(c, s) && CallStep(c, s, s', step)
    requires step.Begin? || step.CallReject? || step.CallHit? || step.CallResume? || step.CallCancel?
    ensures Inv(c, s')
  {
    if step.i in s.calls {
      assert CallOk(c, s.past, s.now, s.flights, s.calls[step.i]);
    }
    if step.CallResume? {
      var f := s.calls[step.i].st.flight;
      assert FlightOk(c, s.past, s.now, f, s.flights[f]);
    }
    CallMoveKeeps(c, s, s', step.i, s'.calls[step.i]);
  }

  lemma JoinKeeps(c: Config, s: Machine, s': Machine, i: CallId, f: FlightId)
    requires Inv(c, s) && Registered(s) && CallStep(c, s, s', CallJoin(i, f))
    ensures Inv(c, s')
  {
    var key := (s.calls[i].proc, s.calls[i].id);
    if key in s.reg && InFlight(s, s.reg[key]) {
      WaitOk(c, s, i, s.reg[key]);
      CallMoveKeeps(c, s, s', i, s'.calls[i]);
    } else {
      AnewKeeps(c, s, s', i, f);
    }
  }

  lemma AnewKeeps(c: Config, s: Machine, s': Machine, i: CallId, f: FlightId)
    requires Inv(c, s) && CallStep(c, s, s', CallJoin(i, f)) && f in s'.flights
    ensures Inv(c, s')
  {
    var call := s.calls[i];
    var fl := Flight(call.proc, call.id, s.now, None, Locking(s.now + c.redis, None));
    var t := s.(flights := s.flights[f := fl]);
    StartKeeps(c, s, f, fl);
    WaitOk(c, t, i, f);
    CallMoveKeeps(c, t, s', i, s'.calls[i]);
  }

  /** A call that fetched in time may wait for any unfinished flight of its process and product. */
  lemma WaitOk(c: Config, s: Machine, i: CallId, f: FlightId)
    requires FlightsOk(c, s) && CallsOk(c, s) && AtFetch(s, i) && InFlight(s, f)
    requires s.flights[f].proc == s.calls[i].proc && s.flights[f].id == s.calls[i].id
    ensures CallOk(c, s.past, s.now, s.flights, s.calls[i].(st := Waiting(f)))
  {
    assert CallOk(c, s.past, s.now, s.flights, s.calls[i]);
    assert FlightOk(c, s.past, s.now, f, s.flights[f]);
  }

  lemma StartKeeps(c: Config, s: Machine, f: FlightId, fl: Flight)
    requires Inv(c, s) && f !in s.flights
    requires fl.started == s.now && fl.grant.None? && fl.pc == Locking(s.now + c.redis, None)
    ensures Inv(c, s.(flights := s.flights[f := fl]))
  {
    var t := s.(flights := s.flights[f := fl]);
    assert FlightOk(c, t.past, t.now, f, fl);
    FlightsKept(c, s, t, f);
    CallsKept(c, s, t, f);
  }

  // ------------------------------------------------------------------------- flights

  lemma LockingKeeps(c: Config, s: Machine, s': Machine, step: Step)
    requires Inv(c, s) && LockStep(c, s, s', step) && (step.LockReply? || step.LockFail?)
    ensures Inv(c, s')
  {
    var f := step.f;
    LockingMoveOk(c, s, s', step);
    MoveKeeps(c, s, s', f, s'.flights[f].pc);
  }

  lemma LockingMoveOk(c: Config, s: Machine, s': Machine, step: Step)
    requires FlightsOk(c, s) && LockStep(c, s, s', step) && (step.LockReply? || step.LockFail?)
    ensures step.f in s'.flights && !s'.flights[step.f].pc.Finished?
    ensures PcOk(c, s.past, s.now, step.f, s'.flights[step.f])
  {
    var fl := s.flights[step.f];
    assert FlightOk(c, s.past, s.now, step.f, fl);
    if step.LockReply? && !fl.pc.reply.value {
      LoopTopOk(c, s.past, s.now, step.f, fl, s.now + c.budget, 0);
    }
  }

  lemma LockServeKeeps(c: Config, s: Machine, s': Machine, f: FlightId)
    requires Inv(c, s) && LockStep(c, s, s', LockServe(f))
    ensures Inv(c, s')
  {
    if Holder(s.store, s.flights[f].id, s.now).None? {
      GrantKeeps(c, s, s', f);
    } else {
      LockRefusedKeeps(c, s, s', f);
    }
  }

  lemma GrantKeeps(c: Config, s: Machine, s': Machine, f: FlightId)
    requires Inv(c, s) && LockStep(c, s, s', LockServe(f)) && Holder(s.store, s.flights[f].id, s.now).None?
    ensures Inv(c, s')
  {
    GrantOk(c, s, f);
    RecordKeeps(c, s, s', f, Granted(s.flights[f].id, f, s.now));
  }

  lemma LockRefusedKeeps(c: Config, s: Machine, s': Machine, f: FlightId)
    requires Inv(c, s) && LockStep(c, s, s', LockServe(f)) && Holder(s.store, s.flights[f].id, s.now).Some?
    ensures Inv(c, s')
  {
    LockRefusedOk(c, s, f);
    FlightsKept(c, s, s', f);
    CallsKept(c, s, s', f);
  }

  lemma GrantOk(c: Config, s: Machine, f: FlightId)
    requires FlightsOk(c, s) && f in s.flights && s.flights[f].pc.Locking?
    ensures var fl := s.flights[f].(grant := Some(Here(s)), pc := Locking(s.flights[f].pc.deadline, Some(true)));
      FlightOk(c, Record(s, Granted(fl.id, f, s.now)).past, s.now, f, fl)
  {
    assert FlightOk(c, s.past, s.now, f, s.flights[f]);
  }

  lemma LockRefusedOk(c: Config, s: Machine, f: FlightId)
    requires FlightsOk(c, s) && f in s.flights && s.flights[f].pc.Locking?
    ensures FlightOk(c, s.past, s.now, f, s.flights[f].(grant := None, pc := Locking(s.flights[f].pc.deadline, Some(false))))
  {
    assert FlightOk(c, s.past, s.now, f, s.flights[f]);
  }

  /** A flight changed in its place, one event that removes nothing was recorded, and no entry changed. */
  lemma RecordKeeps(c: Config, s: Machine, s': Machine, f: FlightId, e: Event)
    requires Inv(c, s) && f in s.flights && !e.Removed?
    requires s'.now == s.now && s'.past == s.past.(log := s.past.log + [e]) && s'.calls == s.calls
    requires s'.store.entries == s.store.entries && s'.origin == s.origin
    requires f in s'.flights && s'.flights == s.flights[f := s'.flights[f]] && SamePlace(s.flights[f], s'.flights[f])
    requires EventOk(c, s'.past, s.now, Here(s))
    requires FlightOk(c, s'.past, s.now, f, s'.flights[f])
    ensures Inv(c, s')
  {
    OneMoreEvent(c, s.past, s.now, e);
    Grown(s.past, e);
    FlightsKept(c, s, s', f);
    CallsKept(c, s, s', f);
    EntriesKept(c, s, s');
  }

  lemma ReleaseServeKeeps(c: Config, s: Machine, s': Machine, f: FlightId)
    requires Inv(c, s) && LockStep(c, s, s', ReleaseServe(f))
    ensures Inv(c, s')
  {
    EntriesKept(c, s, s');
    assert FlightsOk(c, s') && CallsOk(c, s');
  }

  lemma ReleaseEndKeeps(c: Config, s: Machine, s': Machine, f: FlightId)
    requires Inv(c, s) && LockStep(c, s, s', ReleaseEnd(f))
    ensures Inv(c, s')
  {
    assert FlightOk(c, s.past, s.now, f, s.flights[f]);
    MoveKeeps(c, s, s', f, s'.flights[f].pc);
  }

  lemma FinishKeeps(c: Config, s: Machine, s': Machine, f: FlightId)
    requires Inv(c, s) && LockStep(c, s, s', Finish(f))
    ensures Inv(c, s')
  {
    assert FlightOk(c, s.past, s.now, f, s.flights[f]);
    FlightsKept(c, s, s', f);
    CallsKept(c, s, s', f);
    EntriesKept(c, s, s');
  }

  lemma PollingKeeps(c: Config, s: Machine, s': Machine, step: Step)
    requires Inv(c, s) && PollingStep(c, s, s', step)
    requires step.Wake? || step.PollReject? || step.PollHit? || step.PollMiss?
    ensures Inv(c, s')
  {
    PollingMoveOk(c, s, s', step);
    MoveKeeps(c, s, s', step.f, s'.flights[step.f].pc);
  }

  lemma PollingMoveOk(c: Config, s: Machine, s': Machine, step: Step)
    requires FlightsOk(c, s) && PollingStep(c, s, s', step)
    requires step.Wake? || step.PollReject? || step.PollHit? || step.PollMiss?
    ensures step.f in s'.flights && !s'.flights[step.f].pc.Finished?
    ensures PcOk(c, s.past, s.now, step.f, s'.flights[step.f])
  {
    var fl := s.flights[step.f];
    assert FlightOk(c, s.past, s.now, step.f, fl);
    if step.PollMiss? {
      LoopTopOk(c, s.past, s.now, step.f, fl, fl.pc.end, fl.pc.rounds);
    }
  }

  lemma SlotGrantKeeps(c: Config, s: Machine, s': Machine, f: FlightId)
    requires Inv(c, s) && QueryStep(c, s, s', SlotGrant(f))
    ensures Inv(c, s')
  {
    var pc := Querying(s.now + c.query, s.flights[f].pc.populate, None);
    SlotGrantMoves(c, s, s', f);
    SlotGrantOk(c, s.past, s.now, f, s.flights[f]);
    MoveKeeps(c, s, s', f, pc);
  }

  lemma SlotGrantMoves(c: Config, s: Machine, s': Machine, f: FlightId)
    requires QueryStep(c, s, s', SlotGrant(f))
    ensures s'.flights == s.flights[f := s.flights[f].(pc := Querying(s.now + c.query, s.flights[f].pc.populate, None))]
    ensures s' == s.(flights := s'.flights, free := s'.free)
  {
  }

  lemma QueryDoneKeeps(c: Config, s: Machine, s': Machine, f: FlightId)
    requires Inv(c, s) && QueryStep(c, s, s', QueryDone(f))
    ensures Inv(c, s')
  {
    var pc := AfterQuery(c, s.now, s.flights[f].pc.populate, s.flights[f].pc.got.value);
    QueryDoneOk(c, s.past, s.now, f, s.flights[f]);
    MoveKeeps(c, s, s', f, pc);
  }

  lemma PutEndKeeps(c: Config, s: Machine, s': Machine, f: FlightId)
    requires Inv(c, s) && QueryStep(c, s, s', PutEnd(f))
    ensures Inv(c, s')
  {
    var pc := Releasing(s.now + c.redis, s.flights[f].pc.answer);
    PutEndOk(c, s.past, s.now, f, s.flights[f]);
    MoveKeeps(c, s, s', f, pc);
  }

  lemma SlotGrantOk(c: Config, past: Past, now: nat, f: FlightId, fl: Flight)
    requires FlightOk(c, past, now, f, fl) && fl.pc.WaitingSlot?
    ensures PcOk(c, past, now, f, fl.(pc := Querying(now + c.query, fl.pc.populate, None)))
  {
  }

  lemma QueryDoneOk(c: Config, past: Past, now: nat, f: FlightId, fl: Flight)
    requires FlightOk(c, past, now, f, fl) && fl.pc.Querying? && fl.pc.got.Some?
    ensures PcOk(c, past, now, f, fl.(pc := AfterQuery(c, now, fl.pc.populate, fl.pc.got.value)))
  {
  }

  lemma PutEndOk(c: Config, past: Past, now: nat, f: FlightId, fl: Flight)
    requires FlightOk(c, past, now, f, fl) && fl.pc.Putting?
    ensures PcOk(c, past, now, f, fl.(pc := Releasing(now + c.redis, fl.pc.answer)))
  {
  }

  lemma RefusalMoveOk(c: Config, s: Machine, s': Machine, step: Step)
    requires FlightsOk(c, s) && QueryStep(c, s, s', step) && (step.SlotTimeout? || step.QueryFail?)
    ensures step.f in s'.flights && !s'.flights[step.f].pc.Finished?
    ensures PcOk(c, s'.past, s.now, step.f, s'.flights[step.f])
  {
    assert FlightOk(c, s.past, s.now, step.f, s.flights[step.f]);
  }

  lemma RefusalKeeps(c: Config, s: Machine, s': Machine, step: Step)
    requires Inv(c, s) && QueryStep(c, s, s', step) && (step.SlotTimeout? || step.QueryFail?)
    ensures Inv(c, s')
  {
    var f := step.f;
    RefusalMoveOk(c, s, s', step);
    MoveAndRecordKeeps(c, s, s', f, s'.flights[f].pc, Refused(s.flights[f].id, f, s.now));
  }

  lemma DbReadKeeps(c: Config, s: Machine, s': Machine, f: FlightId)
    requires Inv(c, s) && QueryStep(c, s, s', DbRead(f))
    ensures Inv(c, s')
  {
    var id := s.flights[f].id;
    ReadNowOk(c, s, id, f);
    DbReadMoveOk(c, s, s', f);
    MoveAndRecordKeeps(c, s, s', f, s'.flights[f].pc, ReadDb(id, |History(s.past, id)|, f, s.now));
  }

  /** A read that takes place now sees every commit so far. */
  lemma ReadNowOk(c: Config, s: Machine, id: Id, f: FlightId)
    requires PastOk(c, s.past, s.now)
    ensures EventOk(c, Record(s, ReadDb(id, |History(s.past, id)|, f, s.now)).past, s.now, Here(s))
  {
    var h := History(s.past, id);
    if h != [] {
      assert CommitOk(s.past, s.now, id, |h| - 1);
    }
    assert History(Record(s, ReadDb(id, |h|, f, s.now)).past, id) == h;
  }

  lemma DbReadMoveOk(c: Config, s: Machine, s': Machine, f: FlightId)
    requires FlightsOk(c, s) && QueryStep(c, s, s', DbRead(f))
    ensures f in s'.flights && PcOk(c, s'.past, s.now, f, s'.flights[f])
  {
    var fl := s.flights[f];
    assert FlightOk(c, s.past, s.now, f, fl);
    assert History(s'.past, fl.id) == History(s.past, fl.id);
    assert RowAt(s'.past, fl.id, |History(s'.past, fl.id)|) == RowAt(s.past, fl.id, |History(s.past, fl.id)|);
  }

  lemma PutServeMoveOk(c: Config, s: Machine, s': Machine, f: FlightId, jitter: nat)
    requires FlightsOk(c, s) && QueryStep(c, s, s', PutServe(f, jitter))
    ensures f in s'.flights && SamePlace(s.flights[f], s'.flights[f])
    ensures FlightOk(c, s'.past, s'.now, f, s'.flights[f])
  {
    var fl := s.flights[f];
    assert FlightOk(c, s.past, s.now, f, fl);
    Grown(s.past, Stored(fl.id, fl.pc.answer.read, f, s.now));
    FlightStays(c, s.past, s'.past, s.now, f, fl);
  }

  lemma StoredEventOk(c: Config, s: Machine, s': Machine, f: FlightId, jitter: nat)
    requires FlightsOk(c, s) && QueryStep(c, s, s', PutServe(f, jitter))
    ensures EventOk(c, s'.past, s'.now, Here(s))
  {
    var fl := s.flights[f];
    assert FlightOk(c, s.past, s.now, f, fl);
    assert History(s'.past, fl.id) == History(s.past, fl.id);
  }

  /** What the lock holder writes into the cache is its own read, and expires in time. */
  lemma StoredEntryOk(c: Config, s: Machine, s': Machine, f: FlightId, jitter: nat)
    requires FlightsOk(c, s) && QueryStep(c, s, s', PutServe(f, jitter))
    ensures var id := s.flights[f].id;
      id in s'.store.entries && id in s'.origin && EntryOk(c, s'.past, id, s'.store.entries[id], s'.origin[id])
  {
    var fl := s.flights[f];
    var a := fl.pc.answer;
    assert FlightOk(c, s.past, s.now, f, fl);
    Grown(s.past, Stored(fl.id, a.read, f, s.now));
    AnswerStays(s.past, s'.past, fl.id, a);
  }

  lemma PutServeKeeps(c: Config, s: Machine, s': Machine, f: FlightId, jitter: nat)
    requires Inv(c, s) && QueryStep(c, s, s', PutServe(f, jitter))
    ensures Inv(c, s')
  {
    var fl := s.flights[f];
    var t := s'.(store := s.store, origin := s.origin);
    PutServeMoveOk(c, s, s', f, jitter);
    StoredEventOk(c, s, s', f, jitter);
    RecordKeeps(c, s, t, f, Stored(fl.id, fl.pc.answer.read, f, s.now));
    StoredEntryOk(c, s, s', f, jitter);
    OneEntryKeeps(c, t, s', fl.id);
  }

  /** A new entry in order keeps the rest. */
  lemma OneEntryKeeps(c: Config, s: Machine, s': Machine, id: Id)
    requires Inv(c, s) && id in s'.store.entries && id in s'.origin
    requires s' == s.(store := s'.store, origin := s'.origin)
    requires s'.store.entries == s.store.entries[id := s'.store.entries[id]] && s'.origin == s.origin[id := s'.origin[id]]
    requires EntryOk(c, s.past, id, s'.store.entries[id], s'.origin[id])
    ensures Inv(c, s')
  {
    assert EntriesOk(c, s');
  }

  // ------------------------------------------------------------------------- writers and the environment

  lemma CommitGrows(s: Machine, s': Machine, changes: map<Id, Product>)
    requires WriterStep(s, s', CommitRows(changes))
    ensures Grows(s.past, s'.past)
    ensures forall id :: History(s'.past, id) == Lengthened(s, changes, id)
  {
    CommitLengthens(s, s', changes);
  }

  lemma CommitEventsOk(c: Config, s: Machine, s': Machine, changes: map<Id, Product>, p: nat)
    requires PastOk(c, s.past, s.now) && WriterStep(s, s', CommitRows(changes)) && p < |s'.past.log|
    ensures EventOk(c, s'.past, s.now, p)
  {
    CommitGrows(s, s', changes);
    if p < |s.past.log| {
      assert EventOk(c, s.past, s.now, p);
      if s.past.log[p].Stored? {
        ReadStays(s.past, s'.past, s.past.log[p].id, s.past.log[p].read);
      }
    }
  }

  lemma CommitsOk(c: Config, s: Machine, s': Machine, changes: map<Id, Product>, id: Id, i: nat)
    requires PastOk(c, s.past, s.now) && WriterStep(s, s', CommitRows(changes)) && i < |History(s'.past, id)|
    ensures CommitOk(s'.past, s.now, id, i)
  {
    CommitGrows(s, s', changes);
    var h, h' := History(s.past, id), History(s'.past, id);
    if i < |h| {
      assert CommitOk(s.past, s.now, id, i);
    } else {
      assert i == |h| && id in changes;
      assert RowAt(s'.past, id, i) == RowAt(s.past, id, i);
      if i > 0 {
        assert CommitOk(s.past, s.now, id, i - 1);
      }
    }
  }

  /** What is recorded grew, and flights, calls and the clock stand still. */
  lemma WritersKeep(c: Config, s: Machine, s': Machine)
    requires FlightsOk(c, s) && CallsOk(c, s) && Framed(s, s')
    requires s'.flights == s.flights && s'.calls == s.calls
    ensures FlightsOk(c, s') && CallsOk(c, s')
  {
    forall f | f in s'.flights
      ensures FlightOk(c, s'.past, s'.now, f, s'.flights[f])
    {
      FlightStays(c, s.past, s'.past, s.now, f, s.flights[f]);
    }
    forall i | i in s'.calls
      ensures CallOk(c, s'.past, s'.now, s'.flights, s'.calls[i])
    {
      CallStays(c, s.past, s'.past, s.now, s.flights, s.calls[i]);
    }
  }

  lemma CommitKeeps(c: Config, s: Machine, s': Machine, changes: map<Id, Product>)
    requires Inv(c, s) && WriterStep(s, s', CommitRows(changes))
    ensures Inv(c, s')
  {
    CommitGrows(s, s', changes);
    forall p | 0 <= p < |s'.past.log| {
      CommitEventsOk(c, s, s', changes, p);
    }
    forall id, i | 0 <= i < |History(s'.past, id)| {
      CommitsOk(c, s, s', changes, id, i);
    }
    WritersKeep(c, s, s');
    EntriesKept(c, s, s');
  }

  lemma JobServeKeeps(c: Config, s: Machine, s': Machine, id: Id, k: nat)
    requires Inv(c, s) && JobsOk(s) && WriterStep(s, s', JobServe(id, k))
    ensures Inv(c, s')
  {
    var e := Removed(id, k);
    assert CommitOk(s.past, s.now, id, k - 1);
    OneMoreEvent(c, s.past, s.now, e);
    Grown(s.past, e);
    WritersKeep(c, s, s');
    RemovalKeepsEntries(c, s, s', id, k);
  }

  lemma RemovalKeepsEntries(c: Config, s: Machine, s': Machine, id: Id, k: nat)
    requires EntriesOk(c, s) && WriterStep(s, s', JobServe(id, k))
    ensures EntriesOk(c, s')
  {
    Grown(s.past, Removed(id, k));
    forall x | x in s'.store.entries
      ensures x in s'.origin && EntryOk(c, s'.past, x, s'.store.entries[x], s'.origin[x])
    {
      EntryStays(c, s.past, s'.past, x, s.store.entries[x], s.origin[x]);
    }
  }

  lemma OtherJobsKeep(c: Config, s: Machine, s': Machine, step: Step)
    requires Inv(c, s) && WriterStep(s, s', step) && (step.JobStart? || step.JobEnd? || step.JobRetry?)
    ensures Inv(c, s')
  {
    assert FlightsOk(c, s') && CallsOk(c, s') && EntriesOk(c, s');
  }

  lemma CorruptKeeps(c: Config, s: Machine, s': Machine, id: Id, e: Envelope, expires: nat)
    requires Inv(c, s) && WorldStep(s, s', Corrupt(id, e, expires))
    ensures Inv(c, s')
  {
    OneEntryKeeps(c, s, s', id);
  }

  lemma PastAges(c: Config, past: Past, now: nat, later: nat)
    requires PastOk(c, past, now) && now <= later
    ensures PastOk(c, past, later)
  {
    forall id, i | 0 <= i < |History(past, id)|
      ensures CommitOk(past, later, id, i)
    {
      assert CommitOk(past, now, id, i);
    }
    forall p | 0 <= p < |past.log|
      ensures EventOk(c, past, later, p)
    {
      assert EventOk(c, past, now, p);
    }
  }

  lemma FetchAges(c: Config, past: Past, now: nat, later: nat, id: Id, fetch: Fetch, latest: int)
    requires FetchOk(c, past, now, id, fetch, latest) && now <= later <= fetch.deadline
    ensures FetchOk(c, past, later, id, fetch, latest)
  {
  }

  lemma FlightAges(c: Config, past: Past, now: nat, later: nat, f: FlightId, fl: Flight)
    requires FlightOk(c, past, now, f, fl) && now <= later
    requires !fl.pc.Finished? ==> later <= Deadline(fl.pc)
    ensures FlightOk(c, past, later, f, fl)
  {
    if fl.pc.Polling? {
      FetchAges(c, past, now, later, fl.id, fl.pc.fetch, WakeLimit(c, fl.started, fl.pc.end, fl.pc.rounds) + c.redis);
    }
  }

  lemma CallAges(c: Config, s: Machine, later: nat, call: Call)
    requires CallOk(c, s.past, s.now, s.flights, call) && s.now <= later
    requires call.st.Fetching? ==> later <= call.st.fetch.deadline
    requires call.st.Waiting? ==> InFlight(s, call.st.flight)
    ensures CallOk(c, s.past, later, s.flights, call)
  {
    if call.st.Fetching? {
      FetchAges(c, s.past, s.now, later, call.id, call.st.fetch, call.began + c.redis);
    }
  }

  lemma TickKeeps(c: Config, s: Machine, s': Machine, d: nat)
    requires Inv(c, s) && WorldStep(s, s', Tick(d))
    ensures Inv(c, s')
  {
    PastAges(c, s.past, s.now, s'.now);
    forall f | f in s'.flights
      ensures FlightOk(c, s'.past, s'.now, f, s'.flights[f])
    {
      FlightAges(c, s.past, s.now, s'.now, f, s.flights[f]);
    }
    forall i | i in s'.calls
      ensures CallOk(c, s'.past, s'.now, s'.flights, s'.calls[i])
    {
      CallAges(c, s, s'.now, s.calls[i]);
    }
    assert EntriesOk(c, s');
  }

  // ------------------------------------------------------------------------- any step

  lemma CallStepsKeep(c: Config, s: Machine, s': Machine, step: Step)
    requires Inv(c, s) && Registered(s) && CallStep(c, s, s', step)
    ensures Inv(c, s')
  {
    if step.CallServe? {
      ServeKeeps(c, s, s', step);
    } else if step.CallDrop? {
      DropKeeps(c, s, s', s.calls[step.i].id);
    } else if step.CallJoin? {
      JoinKeeps(c, s, s', step.i, step.anew);
    } else {
      CallsStepKeeps(c, s, s', step);
    }
  }

  lemma LockStepsKeep(c: Config, s: Machine, s': Machine, step: Step)
    requires Inv(c, s) && LockStep(c, s, s', step)
    ensures Inv(c, s')
  {
    if step.LockServe? {
      LockServeKeeps(c, s, s', step.f);
    } else if step.ReleaseServe? {
      ReleaseServeKeeps(c, s, s', step.f);
    } else if step.ReleaseEnd? {
      ReleaseEndKeeps(c, s, s', step.f);
    } else if step.Finish? {
      FinishKeeps(c, s, s', step.f);
    } else {
      LockingKeeps(c, s, s', step);
    }
  }

  lemma PollingStepsKeep(c: Config, s: Machine, s': Machine, step: Step)
    requires Inv(c, s) && PollingStep(c, s, s', step)
    ensures Inv(c, s')
  {
    if step.PollServe? {
      ServeKeeps(c, s, s', step);
    } else if step.PollDrop? {
      DropKeeps(c, s, s', s.flights[step.f].id);
    } else {
      PollingKeeps(c, s, s', step);
    }
  }

  lemma QueryStepsKeep(c: Config, s: Machine, s': Machine, step: Step)
    requires Inv(c, s) && QueryStep(c, s, s', step)
    ensures Inv(c, s')
  {
    if step.SlotGrant? {
      SlotGrantKeeps(c, s, s', step.f);
    } else if step.DbRead? {
      DbReadKeeps(c, s, s', step.f);
    } else if step.QueryDone? {
      QueryDoneKeeps(c, s, s', step.f);
    } else if step.PutServe? {
      PutServeKeeps(c, s, s', step.f, step.jitter);
    } else if step.PutEnd? {
      PutEndKeeps(c, s, s', step.f);
    } else {
      RefusalKeeps(c, s, s', step);
    }
  }

  lemma WriterStepsKeep(c: Config, s: Machine, s': Machine, step: Step)
    requires Inv(c, s) && JobsOk(s) && WriterStep(s, s', step)
    ensures Inv(c, s')
  {
    if step.CommitRows? {
      CommitKeeps(c, s, s', step.changes);
    } else if step.JobServe? {
      JobServeKeeps(c, s, s', step.id, step.k);
    } else {
      OtherJobsKeep(c, s, s', step);
    }
  }

  lemma WorldStepsKeep(c: Config, s: Machine, s': Machine, step: Step)
    requires Inv(c, s) && WorldStep(s, s', step)
    ensures Inv(c, s')
  {
    match step
    case Corrupt(id, e, expires) => CorruptKeeps(c, s, s', id, e, expires);
    case Evict(id) => DropKeeps(c, s, s', id);
    case Tick(d) => TickKeeps(c, s, s', d);
  }

  lemma InvNext(c: Config, s: Machine, s': Machine, step: Step)
    requires Inv(c, s) && Registered(s) && JobsOk(s) && NextBy(c, s, s', step)
    ensures Inv(c, s')
  {
    if CallStep(c, s, s', step) {
      CallStepsKeep(c, s, s', step);
    } else if LockStep(c, s, s', step) {
      LockStepsKeep(c, s, s', step);
    } else if PollingStep(c, s, s', step) {
      PollingStepsKeep(c, s, s', step);
    } else if QueryStep(c, s, s', step) {
      QueryStepsKeep(c, s, s', step);
    } else if WriterStep(s, s', step) {
      WriterStepsKeep(c, s, s', step);
    } else {
      WorldStepsKeep(c, s, s', step);
    }
  }

  /** What every reachable state satisfies. */
  ghost predicate Safe(c: Config, s: Machine) {
    Inv(c, s) && Registered(s) && AtHome(c, s) && SlotsOk(c, s) && JobsOk(s)
  }

  lemma InitiallySafe(c: Config)
    ensures Safe(c, Initial(c))
  {
    var s := Initial(c);
    assert forall p :: InDatabase(s, p) == {};
    assert forall id :: History(s.past, id) == [];
  }

  lemma SafeNext(c: Config, s: Machine, s': Machine, step: Step)
    requires Safe(c, s) && NextBy(c, s, s', step)
    ensures Safe(c, s')
  {
    InvNext(c, s, s', step);
    JobsNext(c, s, s', step);
    AtHomeNext(c, s, s', step);
    StepsTouchOneFlight(c, s, s', step);
    RegisteredNext(s, s');
    SlotsNext(c, s, s');
  }

  lemma {:induction false} RunIsSafe(c: Config, run: seq<Machine>)
    requires IsRun(c, run)
    ensures Safe(c, Final(run))
  {
    if |run| == 1 {
      InitiallySafe(c);
    } else {
      var step := LastStep(c, run);
      RunIsSafe(c, run[..|run| - 1]);
      SafeNext(c, Final(run[..|run| - 1]), Final(run), step);
    }
  }
}
