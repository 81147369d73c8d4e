/**
 What single actions of the read protocol achieve: a discard discards, a release frees, an
 invalidation tries three times, and what a lock holder writes is what readers are told.
 */
module ReadEffects {
  import opened Wrappers
  import opened Domain
  import opened Catalog
  import opened CacheStore
  import opened Runs
  import opened ReadProtocol
  import opened ReadInvariant
  import opened ReadFlights
  import opened ReadSteps
  import opened ReadTheorems
  import opened ReadScripts

  // ------------------------------------------------------------------------- discards, deletions, releases

  /** Nothing is left under this key, and every other key is as it was. */
  ghost predicate Cleared(before: Store, after: Store, id: Id) {
    && (forall t: nat :: Get(after, id, t) == None)
    && (forall other, t: nat :: other != id ==> Get(after, other, t) == Get(before, other, t))
    && after.locks == before.locks
  }

  /** A call, and a polling flight, that found a bad value remove it when Redis runs the deletion. */
  lemma DiscardClears(c: Config, s: Machine, s': Machine, step: Step)
    requires (step.CallDrop? && CallStep(c, s, s', step)) || (step.PollDrop? && PollingStep(c, s, s', step))
    ensures Cleared(s.store, s'.store, if step.CallDrop? then s.calls[step.i].id else s.flights[step.f].id)
  {
  }

  lemma InvalidationClears(s: Machine, s': Machine, id: Id, k: nat)
    requires WriterStep(s, s', JobServe(id, k))
    ensures Cleared(s.store, s'.store, id)
  {
  }

  /** The holder's release frees the lock, for whoever asks next. */
  lemma ReleaseFrees(c: Config, s: Machine, s': Machine, f: FlightId, t: nat)
    requires LockStep(c, s, s', ReleaseServe(f)) && Holder(s.store, s.flights[f].id, s.now) == Some(f)
    ensures Holder(s'.store, s.flights[f].id, t) == None
    ensures s'.store.entries == s.store.entries
    ensures forall other :: other != s.flights[f].id ==> Holder(s'.store, other, t) == Holder(s.store, other, t)
  {
  }

  /** On the lock holder's way, and not yet releasing. */
  predicate OnHoldersWay(pc: Pc) {
    (pc.WaitingSlot? && pc.populate) || (pc.Querying? && pc.populate) || pc.Putting?
  }

  /** A lock holder leaves its way only for the release: answered, refused or timed out, it never skips it. */
  lemma HoldersRelease(c: Config, s: Machine, s': Machine, step: Step, f: FlightId)
    requires NextBy(c, s, s', step) && f in s.flights && OnHoldersWay(s.flights[f].pc)
    ensures f in s'.flights && (OnHoldersWay(s'.flights[f].pc) || s'.flights[f].pc.Releasing?)
  {
    if QueryStep(c, s, s', step) {
      QueriesKeepToRelease(c, s, s', step, f);
    } else if LockStep(c, s, s', step) {
      LocksLeaveHolders(c, s, s', step, f);
    } else if PollingStep(c, s, s', step) {
      PollsLeaveHolders(c, s, s', step, f);
    } else if step.CallJoin? {
      JoinLeavesOthers(c, s, s', step.i, step.anew, f);
    } else if CallStep(c, s, s', step) {
      CallsLeaveFlights(c, s, s', step);
    }
  }

  lemma QueriesKeepToRelease(c: Config, s: Machine, s': Machine, step: Step, f: FlightId)
    requires QueryStep(c, s, s', step) && f in s.flights && OnHoldersWay(s.flights[f].pc)
    ensures f in s'.flights && (OnHoldersWay(s'.flights[f].pc) || s'.flights[f].pc.Releasing?)
  {
  }

  lemma LocksLeaveHolders(c: Config, s: Machine, s': Machine, step: Step, f: FlightId)
    requires LockStep(c, s, s', step) && f in s.flights && OnHoldersWay(s.flights[f].pc)
    ensures f in s'.flights && s'.flights[f] == s.flights[f]
  {
    if step.LockServe? {
      LockServeStaysLocking(c, s, s', step.f);
    }
  }

  lemma PollsLeaveHolders(c: Config, s: Machine, s': Machine, step: Step, f: FlightId)
    requires PollingStep(c, s, s', step) && f in s.flights && OnHoldersWay(s.flights[f].pc)
    ensures f in s'.flights && s'.flights[f] == s.flights[f]
  {
  }

  lemma JoinLeavesOthers(c: Config, s: Machine, s': Machine, i: CallId, anew: FlightId, f: FlightId)
    requires CallStep(c, s, s', CallJoin(i, anew)) && f in s.flights
    ensures f in s'.flights && s'.flights[f] == s.flights[f]
  {
  }

  // ------------------------------------------------------------------------- refusals

  /** A flight waiting for a slot has the whole slot wait from the moment it begins. */
  lemma SlotWaitBegins(c: Config, s: Machine, s': Machine, step: Step, f: FlightId)
    requires NextBy(c, s, s', step) && f in s.flights && f in s'.flights
    requires s'.flights[f].pc.WaitingSlot? && !s.flights[f].pc.WaitingSlot?
    ensures s'.flights[f].pc.deadline == s'.now + c.slotWait
  {
    if step.CallJoin? {
      JoinLeavesOthers(c, s, s', step.i, step.anew, f);
    } else if CallStep(c, s, s', step) {
      CallsLeaveFlights(c, s, s', step);
    } else if step.LockServe? {
      LockServeStaysLocking(c, s, s', step.f);
    } else if LockStep(c, s, s', step) {
      LocksBeginWait(c, s, s', step, f);
    } else if PollingStep(c, s, s', step) {
      PollsBeginWait(c, s, s', step, f);
    } else if QueryStep(c, s, s', step) {
      QueriesBeginNoWait(c, s, s', step, f);
    }
  }

  lemma LocksBeginWait(c: Config, s: Machine, s': Machine, step: Step, f: FlightId)
    requires LockStep(c, s, s', step) && !step.LockServe? && f in s.flights && f in s'.flights
    requires s'.flights[f].pc.WaitingSlot? && !s.flights[f].pc.WaitingSlot?
    ensures s'.flights[f].pc.deadline == s'.now + c.slotWait
  {
  }

  lemma LockServeStaysLocking(c: Config, s: Machine, s': Machine, g: FlightId)
    requires LockStep(c, s, s', LockServe(g))
    ensures g in s'.flights && s'.flights == s.flights[g := s'.flights[g]] && s'.flights[g].pc.Locking?
  {
  }

  lemma PollsBeginWait(c: Config, s: Machine, s': Machine, step: Step, f: FlightId)
    requires PollingStep(c, s, s', step) && f in s.flights && f in s'.flights
    requires s'.flights[f].pc.WaitingSlot? && !s.flights[f].pc.WaitingSlot?
    ensures s'.flights[f].pc.deadline == s'.now + c.slotWait
  {
  }

  lemma QueriesBeginNoWait(c: Config, s: Machine, s': Machine, step: Step, f: FlightId)
    requires QueryStep(c, s, s', step) && f in s.flights && f in s'.flights
    requires s'.flights[f].pc.WaitingSlot?
    ensures s.flights[f].pc.WaitingSlot?
  {
  }

  /** Every recorded refusal is of a flight that waited for a slot to its deadline, or whose query was under way. */
  lemma RefusalHasCause(c: Config, s: Machine, s': Machine, step: Step)
    requires QueryStep(c, s, s', step) && |s'.past.log| > Here(s) && s'.past.log[Here(s)].Refused?
    ensures var e := s'.past.log[Here(s)];
      && e.flight in s.flights && e.id == s.flights[e.flight].id && e.at == s.now
      && var pc := s.flights[e.flight].pc;
         (pc.WaitingSlot? && s.now == pc.deadline) || pc.Querying?
  {
  }

  /** Only slots and queries refuse. */
  lemma OnlyQueriesRefuse(c: Config, s: Machine, s': Machine, step: Step)
    requires NextBy(c, s, s', step) && !QueryStep(c, s, s', step)
    ensures |s'.past.log| > Here(s) ==> !s'.past.log[Here(s)].Refused?
  {
    if CallStep(c, s, s', step) {
      CallsRecordNothing(c, s, s', step);
    } else if LockStep(c, s, s', step) {
      LocksRefuseNothing(c, s, s', step);
    } else if PollingStep(c, s, s', step) {
      PollsRecordNothing(c, s, s', step);
    }
  }

  lemma CallsRecordNothing(c: Config, s: Machine, s': Machine, step: Step)
    requires CallStep(c, s, s', step)
    ensures s'.past == s.past
  {
  }

  lemma PollsRecordNothing(c: Config, s: Machine, s': Machine, step: Step)
    requires PollingStep(c, s, s', step)
    ensures s'.past == s.past
  {
  }

  lemma LocksRefuseNothing(c: Config, s: Machine, s': Machine, step: Step)
    requires LockStep(c, s, s', step)
    ensures |s'.past.log| > Here(s) ==> !s'.past.log[Here(s)].Refused?
  {
  }

  // ------------------------------------------------------------------------- invalidations

  /** Attempts are counted from one, one by one; after a failure there is another until the third. */
  predicate JobMove(a: Job, b: Job) {
    match a
    case Queued => b == Deleting(1, false)
    case Deleting(attempt, _) =>
      || b == Deleting(attempt, true)
      || b == Succeeded
      || (attempt < 3 && b == Resting(attempt))
      || (attempt >= 3 && b == GivenUp(attempt))
    case Resting(attempt) => b == Deleting(attempt + 1, false)
    case Succeeded => false
    case GivenUp(_) => false
  }

  lemma InvalidationsTryOn(c: Config, s: Machine, s': Machine, step: Step, key: (Id, nat))
    requires NextBy(c, s, s', step) && key in s.jobs
    ensures key in s'.jobs && (s'.jobs[key] == s.jobs[key] || JobMove(s.jobs[key], s'.jobs[key]))
  {
    if !WriterStep(s, s', step) {
      ReadersWriteNothing(c, s, s', step);
    } else {
      WritersTryOn(s, s', step, key);
    }
  }

  lemma WritersTryOn(s: Machine, s': Machine, step: Step, key: (Id, nat))
    requires WriterStep(s, s', step) && key in s.jobs
    ensures key in s'.jobs && (s'.jobs[key] == s.jobs[key] || JobMove(s.jobs[key], s'.jobs[key]))
  {
  }

  /** In every reachable state, an invalidation that was given up had its third attempt. */
  lemma GivenUpAfterThree(c: Config, run: seq<Machine>, key: (Id, nat))
    requires IsRun(c, run) && key in Final(run).jobs && Final(run).jobs[key].GivenUp?
    ensures Final(run).jobs[key].attempt == 3
  {
    RunIsSafe(c, run);
    assert JobOk(Final(run).past, key.0, key.1, Final(run).jobs[key]);
  }

  // ------------------------------------------------------------------------- cache writes and their readers

  /** Right after the lock holder's write, a read of the key is accepted and tells the holder's own answer. */
  lemma WriteIsTold(c: Config, run: seq<Machine>, s': Machine, f: FlightId, jitter: nat)
    requires IsRun(c, run) && QueryStep(c, Final(run), s', PutServe(f, jitter))
    ensures var fl := Final(run).flights[f]; var found := Get(s'.store, fl.id, s'.now);
      && found.Some? && Accepts(fl.id, found.value) && fl.id in s'.origin
      && EnvelopeAnswer(found.value, s'.origin[fl.id].read) == fl.pc.answer
  {
    RunIsSafe(c, run);
    HeldVersion(c, Final(run), f);
    WriteEffect(c, Final(run), s', f, jitter);
  }

  /** A product about to be cached has a positive version. */
  lemma HeldVersion(c: Config, s: Machine, f: FlightId)
    requires PastOk(c, s.past, s.now) && FlightsOk(c, s) && f in s.flights && s.flights[f].pc.Putting?
    ensures s.flights[f].pc.answer.Shown? ==> s.flights[f].pc.answer.product.version >= 1
  {
    var fl := s.flights[f];
    assert FlightOk(c, s.past, s.now, f, fl);
    if fl.pc.answer.Shown? {
      VersionIsPosition(s.past, s.now, fl.id, s.past.log[fl.pc.answer.read].k);
    }
  }

  lemma WriteEffect(c: Config, s: Machine, s': Machine, f: FlightId, jitter: nat)
    requires QueryStep(c, s, s', PutServe(f, jitter))
    requires s.flights[f].pc.answer.Shown? ==> s.flights[f].pc.answer.product.version >= 1
    ensures var fl := s.flights[f]; var found := Get(s'.store, fl.id, s'.now);
      && found.Some? && Accepts(fl.id, found.value) && fl.id in s'.origin
      && EnvelopeAnswer(found.value, s'.origin[fl.id].read) == fl.pc.answer
  {
  }
}
