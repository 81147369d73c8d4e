/**
 Failure transparency: while nothing writes a product, failed commands, lost locks and bad
 cache values never change what a reader is told about it.
 */
module ReadTransparency {
  import opened Wrappers
  import opened Catalog
  import opened CacheStore
  import opened Runs
  import opened ReadProtocol
  import opened ReadInvariant
  import opened ReadFlights
  import opened ReadSteps
  import opened ReadTheorems

  // ------------------------------------------------------------------------- coherence

  /** The read at this position saw every commit of the product so far. */
  ghost predicate SeesAll(past: Past, id: Id, read: nat) {
    IsRead(past, id, read) && past.log[read].k == |History(past, id)|
  }

  ghost predicate UpToDate(past: Past, id: Id, a: Answer) {
    !a.Unavailable? ==> SeesAll(past, id, a.read)
  }

  function FetchCarries(id: Id, fetch: Fetch): Option<Answer> {
    if IsHit(id, fetch) then Some(HitAnswer(fetch)) else None
  }

  /** The answer a flight has in hand. */
  function Carries(fl: Flight): Option<Answer> {
    match fl.pc
    case Polling(fetch, _, _) => FetchCarries(fl.id, fetch)
    case Querying(_, _, got) => got
    case Putting(_, a, _) => Some(a)
    case Releasing(_, a) => Some(a)
    case Returning(a, _) => Some(a)
    case Finished(a, _) => Some(a)
    case _ => None
  }

  /** The answer a call has in hand, or finds at its finished flight. */
  function CallCarries(s: Machine, call: Call): Option<Answer> {
    match call.st
    case Fetching(fetch) => FetchCarries(call.id, fetch)
    case Waiting(f) => if f in s.flights && s.flights[f].pc.Finished? then Some(s.flights[f].pc.answer) else None
    case _ => None
  }

  ghost predicate EntryCoherent(s: Machine, id: Id) {
    id in s.store.entries && Accepts(id, s.store.entries[id].envelope) ==> id in s.origin && SeesAll(s.past, id, s.origin[id].read)
  }

  ghost predicate FlightsCoherent(s: Machine, id: Id) {
    forall f :: InFlight(s, f) && s.flights[f].id == id && Carries(s.flights[f]).Some? ==>
      UpToDate(s.past, id, Carries(s.flights[f]).value)
  }

  ghost predicate CallsCoherent(s: Machine, id: Id) {
    forall i :: i in s.calls && s.calls[i].id == id && CallCarries(s, s.calls[i]).Some? ==>
      UpToDate(s.past, id, CallCarries(s, s.calls[i]).value)
  }

  /** Everything cached or in hand for this product tells its latest committed state; bad cache values do not matter. */
  ghost predicate Coherent(s: Machine, id: Id) {
    EntryCoherent(s, id) && FlightsCoherent(s, id) && CallsCoherent(s, id)
  }

  // ------------------------------------------------------------------------- steps

  ghost predicate SameHistory(past: Past, past': Past, id: Id) {
    past.log <= past'.log && History(past', id) == History(past, id)
  }

  lemma SeesAllStays(past: Past, past': Past, id: Id, read: nat)
    requires SameHistory(past, past', id) && SeesAll(past, id, read)
    ensures SeesAll(past', id, read)
  {
  }

  /** Each answer in hand afterwards is up to date or was in hand before. */
  ghost predicate Sourced(s: Machine, s': Machine, id: Id, fl: Flight, f: FlightId) {
    Carries(fl).Some? ==>
      || UpToDate(s'.past, id, Carries(fl).value)
      || (InFlight(s, f) && s.flights[f].id == id && Carries(s.flights[f]) == Carries(fl))
  }

  lemma FlightsStayCoherent(s: Machine, s': Machine, id: Id)
    requires FlightsCoherent(s, id) && SameHistory(s.past, s'.past, id)
    requires forall f :: InFlight(s', f) && s'.flights[f].id == id ==> Sourced(s, s', id, s'.flights[f], f)
    ensures FlightsCoherent(s', id)
  {
  }

  /** Calls and finished flights stand as they were. */
  lemma CallsStayCoherent(s: Machine, s': Machine, id: Id)
    requires CallsCoherent(s, id) && SameHistory(s.past, s'.past, id) && s'.calls == s.calls
    requires forall f :: f in s'.flights && s'.flights[f].pc.Finished? ==> f in s.flights && s.flights[f] == s'.flights[f]
    ensures CallsCoherent(s', id)
  {
    forall i | i in s'.calls && s'.calls[i].id == id && CallCarries(s', s'.calls[i]).Some?
      ensures UpToDate(s'.past, id, CallCarries(s', s'.calls[i]).value)
    {
      assert CallCarries(s', s'.calls[i]) == CallCarries(s, s.calls[i]);
    }
  }

  lemma CallsMoveCoherent(s: Machine, s': Machine, id: Id, i: CallId)
    requires CallsCoherent(s, id) && s'.past == s.past && i in s'.calls && s'.calls == s.calls[i := s'.calls[i]]
    requires s'.flights == s.flights
    requires s'.calls[i].id == id && CallCarries(s', s'.calls[i]).Some? ==> UpToDate(s.past, id, CallCarries(s', s'.calls[i]).value)
    ensures CallsCoherent(s', id)
  {
    forall j | j in s'.calls && s'.calls[j].id == id && CallCarries(s', s'.calls[j]).Some?
      ensures UpToDate(s'.past, id, CallCarries(s', s'.calls[j]).value)
    {
      if j != i {
        assert CallCarries(s', s'.calls[j]) == CallCarries(s, s.calls[j]);
      }
    }
  }

  lemma CallStepCoherent(c: Config, s: Machine, s': Machine, step: Step, id: Id)
    requires Coherent(s, id) && CallStep(c, s, s', step) && !step.CallJoin?
    ensures Coherent(s', id)
  {
    if step.CallDrop? {
      CallsStayCoherent(s, s', id);
    } else {
      CallsMoveCoherent(s, s', id, step.i);
    }
  }

  lemma JoinCoherent(c: Config, s: Machine, s': Machine, i: CallId, f: FlightId, id: Id)
    requires Coherent(s, id) && CallStep(c, s, s', CallJoin(i, f))
    ensures Coherent(s', id)
  {
    var t := s.(flights := s'.flights);
    assert forall g :: g in s'.flights && g != f ==> g in s.flights && s'.flights[g] == s.flights[g];
    FlightsStayCoherent(s, t, id);
    JoinCallsCoherent(c, s, s', i, f, id);
  }

  lemma JoinCallsCoherent(c: Config, s: Machine, s': Machine, i: CallId, f: FlightId, id: Id)
    requires CallsCoherent(s, id) && CallStep(c, s, s', CallJoin(i, f))
    ensures CallsCoherent(s', id)
  {
    forall j | j in s'.calls && s'.calls[j].id == id && CallCarries(s', s'.calls[j]).Some?
      ensures UpToDate(s'.past, id, CallCarries(s', s'.calls[j]).value)
    {
      assert j != i;
      assert CallCarries(s', s'.calls[j]) == CallCarries(s, s.calls[j]);
    }
  }

  lemma LockStepCoherent(c: Config, s: Machine, s': Machine, step: Step, id: Id)
    requires Coherent(s, id) && LockStep(c, s, s', step) && !step.Finish? && !step.LockServe?
    ensures Coherent(s', id)
  {
    FlightsStayCoherent(s, s', id);
    CallsStayCoherent(s, s', id);
  }

  lemma LockServeCoherent(c: Config, s: Machine, s': Machine, f: FlightId, id: Id)
    requires Coherent(s, id) && LockStep(c, s, s', LockServe(f))
    ensures Coherent(s', id)
  {
    if Holder(s.store, s.flights[f].id, s.now).None? {
      TakeLockCoherent(c, s, f, id);
    } else {
      MissLockCoherent(s, f, id);
    }
  }

  lemma TakeLockCoherent(c: Config, s: Machine, f: FlightId, id: Id)
    requires Coherent(s, id) && f in s.flights && s.flights[f].pc.Locking?
    ensures Coherent(TakeLock(c, s, f), id)
  {
    FlightsStayCoherent(s, TakeLock(c, s, f), id);
    CallsStayCoherent(s, TakeLock(c, s, f), id);
  }

  lemma MissLockCoherent(s: Machine, f: FlightId, id: Id)
    requires Coherent(s, id) && f in s.flights && s.flights[f].pc.Locking?
    ensures Coherent(MissLock(s, f), id)
  {
    FlightsStayCoherent(s, MissLock(s, f), id);
    CallsStayCoherent(s, MissLock(s, f), id);
  }

  /** A flight's end hands its answer to its waiting calls. */
  lemma FinishCoherent(c: Config, s: Machine, s': Machine, f: FlightId, id: Id)
    requires CallsOk(c, s) && Coherent(s, id) && LockStep(c, s, s', Finish(f))
    ensures Coherent(s', id)
  {
    FlightsStayCoherent(s, s', id);
    forall i | i in s'.calls && s'.calls[i].id == id && CallCarries(s', s'.calls[i]).Some?
      ensures UpToDate(s'.past, id, CallCarries(s', s'.calls[i]).value)
    {
      assert CallOk(c, s.past, s.now, s.flights, s.calls[i]);
      if s.calls[i].st == Waiting(f) {
        assert Carries(s.flights[f]) == CallCarries(s', s'.calls[i]);
      } else {
        assert CallCarries(s', s'.calls[i]) == CallCarries(s, s.calls[i]);
      }
    }
  }

  lemma PollingStepCoherent(c: Config, s: Machine, s': Machine, step: Step, id: Id)
    requires Coherent(s, id) && PollingStep(c, s, s', step)
    ensures Coherent(s', id)
  {
    FlightsStayCoherent(s, s', id);
    CallsStayCoherent(s, s', id);
  }

  lemma QueryStepCoherent(c: Config, s: Machine, s': Machine, step: Step, id: Id)
    requires Coherent(s, id) && QueryStep(c, s, s', step) && !step.DbRead? && !step.PutServe?
    requires !step.SlotTimeout? && !step.QueryFail?
    ensures Coherent(s', id)
  {
    FlightsStayCoherent(s, s', id);
    CallsStayCoherent(s, s', id);
  }

  lemma RefusalCoherent(c: Config, s: Machine, s': Machine, step: Step, id: Id)
    requires Coherent(s, id) && QueryStep(c, s, s', step) && (step.SlotTimeout? || step.QueryFail?)
    ensures Coherent(s', id)
  {
    FlightsStayCoherent(s, s', id);
    CallsStayCoherent(s, s', id);
  }

  lemma PutServeCoherent(c: Config, s: Machine, s': Machine, f: FlightId, jitter: nat, id: Id)
    requires Coherent(s, id) && QueryStep(c, s, s', PutServe(f, jitter))
    ensures Coherent(s', id)
  {
    assert Carries(s.flights[f]) == Some(s.flights[f].pc.answer);
    FlightsStayCoherent(s, s', id);
    CallsStayCoherent(s, s', id);
  }

  lemma DbReadCoherent(c: Config, s: Machine, s': Machine, f: FlightId, id: Id)
    requires Coherent(s, id) && QueryStep(c, s, s', DbRead(f))
    ensures Coherent(s', id)
  {
    var fl := s.flights[f];
    assert fl.id == id ==> SeesAll(s'.past, id, Here(s));
    FlightsStayCoherent(s, s', id);
    CallsStayCoherent(s, s', id);
  }

  /** Commits of other products and invalidations make nothing stale. */
  lemma WriterStepCoherent(s: Machine, s': Machine, step: Step, id: Id)
    requires Coherent(s, id) && WriterStep(s, s', step) && !(step.CommitRows? && id in step.changes)
    ensures Coherent(s', id)
  {
    assert SameHistory(s.past, s'.past, id);
    FlightsStayCoherent(s, s', id);
    CallsStayCoherent(s, s', id);
  }

  lemma WorldStepCoherent(s: Machine, s': Machine, step: Step, id: Id)
    requires Coherent(s, id) && WorldStep(s, s', step)
    ensures Coherent(s', id)
  {
    FlightsStayCoherent(s, s', id);
    CallsStayCoherent(s, s', id);
  }

  predicate Writes(step: Step, id: Id) {
    step.CommitRows? && id in step.changes
  }

  lemma LockStepsCoherent(c: Config, s: Machine, s': Machine, step: Step, id: Id)
    requires CallsOk(c, s) && Coherent(s, id) && LockStep(c, s, s', step)
    ensures Coherent(s', id)
  {
    if step.Finish? {
      FinishCoherent(c, s, s', step.f, id);
    } else if step.LockServe? {
      LockServeCoherent(c, s, s', step.f, id);
    } else {
      LockStepCoherent(c, s, s', step, id);
    }
  }

  lemma QueryStepsCoherent(c: Config, s: Machine, s': Machine, step: Step, id: Id)
    requires Coherent(s, id) && QueryStep(c, s, s', step)
    ensures Coherent(s', id)
  {
    if step.DbRead? {
      DbReadCoherent(c, s, s', step.f, id);
    } else if step.PutServe? {
      PutServeCoherent(c, s, s', step.f, step.jitter, id);
    } else if step.SlotTimeout? || step.QueryFail? {
      RefusalCoherent(c, s, s', step, id);
    } else {
      QueryStepCoherent(c, s, s', step, id);
    }
  }

  lemma CoherentNext(c: Config, s: Machine, s': Machine, step: Step, id: Id)
    requires CallsOk(c, s) && Coherent(s, id) && NextBy(c, s, s', step) && !Writes(step, id)
    ensures Coherent(s', id)
  {
    if step.CallJoin? {
      JoinCoherent(c, s, s', step.i, step.anew, id);
    } else if CallStep(c, s, s', step) {
      CallStepCoherent(c, s, s', step, id);
    } else if LockStep(c, s, s', step) {
      LockStepsCoherent(c, s, s', step, id);
    } else if PollingStep(c, s, s', step) {
      PollingStepCoherent(c, s, s', step, id);
    } else if QueryStep(c, s, s', step) {
      QueryStepsCoherent(c, s, s', step, id);
    } else if WriterStep(s, s', step) {
      WriterStepCoherent(s, s', step, id);
    } else {
      WorldStepCoherent(s, s', step, id);
    }
  }

  // ------------------------------------------------------------------------- runs without writes of one product

  lemma HistoryGrows(c: Config, run: seq<Machine>, a: nat, id: Id)
    requires IsRun(c, run) && a < |run|
    ensures History(run[a].past, id) <= History(Final(run).past, id)
    decreases |run|
  {
    if a < |run| - 1 {
      var step := LastStep(c, run);
      HistoryGrows(c, run[..|run| - 1], a, id);
      LogGrows(c, run[|run| - 2], Final(run), step);
    }
  }

  /** From state `a` of the run to its end nothing commits a write of the product. */
  ghost predicate QuietSince(run: seq<Machine>, a: nat, id: Id)
    requires a < |run|
  {
    History(run[a].past, id) == History(Final(run).past, id)
  }

  lemma QuietBefore(c: Config, run: seq<Machine>, a: nat, id: Id)
    requires IsRun(c, run) && a < |run| - 1 && QuietSince(run, a, id)
    ensures QuietSince(run[..|run| - 1], a, id)
    ensures !Writes(LastStep(c, run), id)
  {
    var before, step := run[..|run| - 1], LastStep(c, run);
    HistoryGrows(c, before, a, id);
    StepGrowsHistory(c, Final(before), Final(run), step, id);
  }

  lemma StepGrowsHistory(c: Config, s: Machine, s': Machine, step: Step, id: Id)
    requires NextBy(c, s, s', step)
    ensures History(s.past, id) <= History(s'.past, id)
    ensures Writes(step, id) ==> History(s.past, id) < History(s'.past, id)
  {
    if Writes(step, id) {
      CommitLengthens(s, s', step.changes);
    } else {
      LogGrows(c, s, s', step);
    }
  }

  lemma {:induction false} CoherenceLasts(c: Config, run: seq<Machine>, a: nat, id: Id)
    requires IsRun(c, run) && a < |run| && QuietSince(run, a, id) && Coherent(run[a], id)
    ensures Coherent(Final(run), id)
    decreases |run|
  {
    if a < |run| - 1 {
      var before := run[..|run| - 1];
      QuietBefore(c, run, a, id);
      CoherenceLasts(c, before, a, id);
      RunIsSafe(c, before);
      CoherentNext(c, Final(before), Final(run), LastStep(c, run), id);
    }
  }

  /** A new answer is one the call had in hand. */
  lemma NewAnswerWasInHand(c: Config, s: Machine, s': Machine, step: Step, i: CallId)
    requires NextBy(c, s, s', step) && IsAnswered(s', i) && !IsAnswered(s, i)
    ensures i in s.calls && s.calls[i].id == s'.calls[i].id && s'.past == s.past
    ensures CallCarries(s, s.calls[i]) == Some(s'.calls[i].st.answer)
  {
    if !CallStep(c, s, s', step) {
      OthersLeaveCalls(c, s, s', step);
    }
  }

  lemma {:induction false} QuietAnswers(c: Config, run: seq<Machine>, a: nat, i: CallId)
    requires IsRun(c, run) && a < |run| && IsAnswered(Final(run), i) && !IsAnswered(run[a], i)
    requires QuietSince(run, a, Final(run).calls[i].id) && Coherent(run[a], Final(run).calls[i].id)
    ensures UpToDate(Final(run).past, Final(run).calls[i].id, Final(run).calls[i].st.answer)
    decreases |run|
  {
    var before, id := run[..|run| - 1], Final(run).calls[i].id;
    var s, s', step := Final(before), Final(run), LastStep(c, run);
    QuietBefore(c, run, a, id);
    if IsAnswered(s, i) {
      AnsweredOnce(c, s, s', step, i);
      QuietAnswers(c, before, a, i);
      LogGrows(c, s, s', step);
      if !s.calls[i].st.answer.Unavailable? {
        SeesAllStays(s.past, s'.past, id, s.calls[i].st.answer.read);
      }
    } else {
      CoherenceLasts(c, before, a, id);
      NewAnswerWasInHand(c, s, s', step, i);
    }
  }

  /**
   With no concurrent write and every cached value up to date or malformed, any schedule of
   Redis failures, lost locks and bad values leaves two outcomes: what the database holds,
   or 503, and that only within R after the flight the call waited for was refused by the
   database or its slots.
   */
  lemma FailuresAreTransparent(c: Config, run: seq<Machine>, a: nat, i: CallId)
    requires IsRun(c, run) && a < |run| && IsAnswered(Final(run), i) && !IsAnswered(run[a], i)
    requires QuietSince(run, a, Final(run).calls[i].id) && Coherent(run[a], Final(run).calls[i].id)
    ensures var past, call := Final(run).past, Final(run).calls[i];
      match call.st.answer
      case Unavailable(_) => RecentlyRefused(c, Final(run), call)
      case _ => Reflects(past, call.id, call.st.answer, |History(past, call.id)|)
  {
    if Final(run).calls[i].st.answer.Unavailable? {
      EveryFailureIsRecent(c, run, i);
    } else {
      QuietAnswers(c, run, a, i);
      RunIsSafe(c, run);
      assert CallOk(c, Final(run).past, Final(run).now, Final(run).flights, Final(run).calls[i]);
    }
  }
}
