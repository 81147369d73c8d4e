/**
 Time never stops: from every reachable state the deadlines themselves lead on, so the
 bounds on waiting are bounds on real runs.
 */
module ReadProgress {
  import opened Wrappers
  import opened Runs
  import opened ReadProtocol
  import opened ReadInvariant
  import opened ReadFlights
  import opened ReadSteps

  // ------------------------------------------------------------------------- sums over maps

  ghost function Sum(m: map<nat, nat>): nat {
    if m == map[] then 0
    else
      var k :| k in m;
      m[k] + Sum(m - {k})
  }

  lemma {:induction false} SumSplit(m: map<nat, nat>, k: nat)
    requires k in m
    ensures Sum(m) == m[k] + Sum(m - {k})
    decreases |m|
  {
    var j :| j in m && Sum(m) == m[j] + Sum(m - {j});
    if j != k {
      SumSplit(m - {j}, k);
      SumSplit(m - {k}, j);
      assert m - {j} - {k} == m - {k} - {j};
    }
  }

  lemma SumUpdate(m: map<nat, nat>, k: nat, v: nat)
    ensures Sum(m[k := v]) + (if k in m then m[k] else 0) == Sum(m) + v
  {
    SumSplit(m[k := v], k);
    assert m[k := v] - {k} == m - {k};
    if k in m {
      SumSplit(m, k);
    } else {
      assert m - {k} == m;
    }
  }

  // ------------------------------------------------------------------------- what is due

  /** How many more steps a flight can be forced to take at one instant. */
  function FlightWeight(now: nat, pc: Pc): nat {
    if pc.Finished? || now < Deadline(pc) then 0
    else match pc
      case Locking(_, _) => 8
      case Sleeping(_, _, _) => 7
      case Polling(_, _, _) => 6
      case WaitingSlot(_, _) => 5
      case Querying(_, _, _) => 4
      case Putting(_, _, _) => 3
      case Releasing(_, _) => 2
      case _ => 1
  }

  function CallWeight(st: CallState): nat {
    if st.Fetching? then 10 else if st.Waiting? then 1 else 0
  }

  function FlightWeights(s: Machine): map<nat, nat> {
    map f | f in s.flights :: FlightWeight(s.now, s.flights[f].pc)
  }

  function CallWeights(s: Machine): map<nat, nat> {
    map i | i in s.calls :: CallWeight(s.calls[i].st)
  }

  ghost function Work(s: Machine): nat {
    Sum(FlightWeights(s)) + Sum(CallWeights(s))
  }

  lemma FlightWorkFalls(s: Machine, s': Machine, f: FlightId)
    requires f in s.flights && f in s'.flights && s'.flights == s.flights[f := s'.flights[f]]
    requires s'.now == s.now && s'.calls == s.calls
    requires FlightWeight(s.now, s'.flights[f].pc) < FlightWeight(s.now, s.flights[f].pc)
    ensures Work(s') < Work(s)
  {
    SumUpdate(FlightWeights(s), f, FlightWeight(s.now, s'.flights[f].pc));
    assert FlightWeights(s') == FlightWeights(s)[f := FlightWeight(s.now, s'.flights[f].pc)];
    assert CallWeights(s') == CallWeights(s);
  }

  lemma CallWorkFalls(s: Machine, s': Machine, i: CallId)
    requires i in s.calls && i in s'.calls && s'.calls == s.calls[i := s'.calls[i]]
    requires s'.now == s.now && s'.flights == s.flights
    requires CallWeight(s'.calls[i].st) < CallWeight(s.calls[i].st)
    ensures Work(s') < Work(s)
  {
    SumUpdate(CallWeights(s), i, CallWeight(s'.calls[i].st));
    assert CallWeights(s') == CallWeights(s)[i := CallWeight(s'.calls[i].st)];
    assert FlightWeights(s') == FlightWeights(s);
  }

  // ------------------------------------------------------------------------- a deadline that has come

  predicate Due(s: Machine, f: FlightId) {
    InFlight(s, f) && Deadline(s.flights[f].pc) <= s.now
  }

  /** The step a flight takes when its deadline has come and nothing else happened. */
  function DueStep(f: FlightId, pc: Pc): Step
    requires !pc.Finished?
  {
    match pc
    case Locking(_, _) => LockFail(f)
    case Sleeping(_, _, _) => Wake(f)
    case Polling(_, _, _) => PollMiss(f)
    case WaitingSlot(_, _) => SlotTimeout(f)
    case Querying(_, _, _) => QueryFail(f)
    case Putting(_, _, _) => PutEnd(f)
    case Releasing(_, _) => ReleaseEnd(f)
    case Returning(_, _) => Finish(f)
  }

  lemma DueLocking(c: Config, s: Machine, f: FlightId) returns (s': Machine)
    requires Due(s, f) && (s.flights[f].pc.Locking? || s.flights[f].pc.Releasing? || s.flights[f].pc.Returning?)
    ensures NextBy(c, s, s', DueStep(f, s.flights[f].pc)) && Work(s') < Work(s) && s'.now == s.now
  {
    var fl := s.flights[f];
    if fl.pc.Locking? {
      s' := Goto(s, f, WaitingSlot(s.now + c.slotWait, false));
    } else if fl.pc.Releasing? {
      s' := Goto(s, f, Returning(fl.pc.answer, s.now));
    } else {
      s' := Goto(s, f, Finished(fl.pc.answer, s.now)).(reg := Unregister(s.reg, (fl.proc, fl.id), f));
    }
    assert LockStep(c, s, s', DueStep(f, fl.pc));
    FlightWorkFalls(s, s', f);
  }

  lemma DuePolling(c: Config, s: Machine, f: FlightId) returns (s': Machine)
    requires FlightsOk(c, s) && Due(s, f) && (s.flights[f].pc.Sleeping? || s.flights[f].pc.Polling?)
    ensures NextBy(c, s, s', DueStep(f, s.flights[f].pc)) && Work(s') < Work(s) && s'.now == s.now
  {
    var pc := s.flights[f].pc;
    assert FlightOk(c, s.past, s.now, f, s.flights[f]);
    if pc.Sleeping? {
      s' := Goto(s, f, Polling(Asking(s.now + c.redis), pc.end, pc.rounds));
    } else {
      s' := Goto(s, f, LoopTop(c, s.now, pc.end, pc.rounds));
    }
    assert PollingStep(c, s, s', DueStep(f, pc));
    FlightWorkFalls(s, s', f);
  }

  lemma DueRefusal(c: Config, s: Machine, f: FlightId) returns (s': Machine)
    requires SlotsOk(c, s) && Due(s, f) && (s.flights[f].pc.WaitingSlot? || s.flights[f].pc.Querying?)
    requires s.flights[f].pc.WaitingSlot? ==> s.flights[f].pc.deadline == s.now
    ensures NextBy(c, s, s', DueStep(f, s.flights[f].pc)) && Work(s') < Work(s) && s'.now == s.now
  {
    var fl := s.flights[f];
    s' := Record(Goto(s, f, AfterRefusal(c, s.now, fl.pc.populate, Unavailable(Here(s)))), Refused(fl.id, f, s.now));
    if fl.pc.Querying? {
      assert f in InDatabase(s, fl.proc);
      s' := s'.(free := s.free[fl.proc := s.free[fl.proc] + 1]);
    }
    assert QueryStep(c, s, s', DueStep(f, fl.pc));
    FlightWorkFalls(s, s', f);
  }

  lemma DuePut(c: Config, s: Machine, f: FlightId) returns (s': Machine)
    requires Due(s, f) && s.flights[f].pc.Putting?
    ensures NextBy(c, s, s', DueStep(f, s.flights[f].pc)) && Work(s') < Work(s) && s'.now == s.now
  {
    s' := Goto(s, f, Releasing(s.now + c.redis, s.flights[f].pc.answer));
    assert QueryStep(c, s, s', PutEnd(f));
    FlightWorkFalls(s, s', f);
  }

  lemma DueFlight(c: Config, s: Machine, f: FlightId) returns (s': Machine)
    requires FlightsOk(c, s) && SlotsOk(c, s) && Due(s, f)
    ensures Next(c, s, s') && Work(s') < Work(s) && s'.now == s.now
  {
    var pc := s.flights[f].pc;
    if pc.Locking? || pc.Releasing? || pc.Returning? {
      s' := DueLocking(c, s, f);
    } else if pc.Sleeping? || pc.Polling? {
      s' := DuePolling(c, s, f);
    } else if pc.Putting? {
      s' := DuePut(c, s, f);
    } else {
      assert FlightOk(c, s.past, s.now, f, s.flights[f]);
      s' := DueRefusal(c, s, f);
    }
  }

  // ------------------------------------------------------------------------- calls that are due

  ghost function AboveAll(ids: set<nat>): (n: nat)
    ensures n !in ids
  {
    Highest(ids) + 1
  }

  ghost function Highest(ids: set<nat>): (n: nat)
    ensures forall i :: i in ids ==> i <= n
  {
    if ids == {} then 0
    else
      var i :| i in ids;
      assert forall j :: j in ids ==> j == i || j in ids - {i};
      Max(i, Highest(ids - {i}))
  }

  lemma DueFetch(c: Config, s: Machine, i: CallId) returns (s': Machine)
    requires AtFetch(s, i)
    ensures Next(c, s, s') && Work(s') < Work(s) && s'.now == s.now
  {
    var f := AboveAll(s.flights.Keys);
    s' := Join(s, i, f, c);
    assert CallStep(c, s, s', CallJoin(i, f));
    assert NextBy(c, s, s', CallJoin(i, f));
    var key := (s.calls[i].proc, s.calls[i].id);
    if key in s.reg && InFlight(s, s.reg[key]) {
      CallWorkFalls(s, s', i);
    } else {
      StartWork(s, s', f);
      JoinWork(s, s', i);
    }
  }

  lemma StartWork(s: Machine, s': Machine, f: FlightId)
    requires f !in s.flights && f in s'.flights && s'.flights == s.flights[f := s'.flights[f]] && s'.now == s.now
    ensures Sum(FlightWeights(s')) <= Sum(FlightWeights(s)) + 8
  {
    SumUpdate(FlightWeights(s), f, FlightWeight(s.now, s'.flights[f].pc));
    assert FlightWeights(s') == FlightWeights(s)[f := FlightWeight(s.now, s'.flights[f].pc)];
  }

  lemma JoinWork(s: Machine, s': Machine, i: CallId)
    requires AtFetch(s, i) && i in s'.calls && s'.calls == s.calls[i := s'.calls[i]] && s'.calls[i].st.Waiting?
    ensures Sum(CallWeights(s')) + 9 == Sum(CallWeights(s))
  {
    SumUpdate(CallWeights(s), i, 1);
    assert CallWeights(s') == CallWeights(s)[i := 1];
  }

  lemma DueResume(c: Config, s: Machine, i: CallId) returns (s': Machine)
    requires CallsOk(c, s) && i in s.calls && s.calls[i].st.Waiting? && !InFlight(s, s.calls[i].st.flight)
    ensures Next(c, s, s') && Work(s') < Work(s) && s'.now == s.now
  {
    assert CallOk(c, s.past, s.now, s.flights, s.calls[i]);
    s' := CallTo(s, i, Answered(s.flights[s.calls[i].st.flight].pc.answer, s.now, Some(s.calls[i].st.flight)));
    assert NextBy(c, s, s', CallResume(i));
    CallWorkFalls(s, s', i);
  }

  // ------------------------------------------------------------------------- time goes on

  /** Either one more millisecond can pass, or something due takes a step and less remains to do at this instant. */
  lemma StepOrTick(c: Config, s: Machine) returns (s': Machine)
    requires Safe(c, s)
    ensures Next(c, s, s')
    ensures s'.now == s.now + 1 || (s'.now == s.now && Work(s') < Work(s))
  {
    if f :| f in s.flights && Due(s, f) {
      s' := DueFlight(c, s, f);
    } else if i :| CallDue(s, i) {
      s' := DueCall(c, s, i);
    } else {
      s' := TickOne(c, s);
    }
  }

  predicate CallDue(s: Machine, i: CallId) {
    && i in s.calls
    && (s.calls[i].st.Fetching? || s.calls[i].st.Waiting?)
    && (s.calls[i].st.Fetching? ==> s.calls[i].st.fetch.deadline <= s.now)
    && (s.calls[i].st.Waiting? ==> !InFlight(s, s.calls[i].st.flight))
  }

  lemma DueCall(c: Config, s: Machine, i: CallId) returns (s': Machine)
    requires CallsOk(c, s) && CallDue(s, i)
    ensures Next(c, s, s') && Work(s') < Work(s) && s'.now == s.now
  {
    if s.calls[i].st.Fetching? {
      s' := DueFetch(c, s, i);
    } else {
      s' := DueResume(c, s, i);
    }
  }

  lemma TickOne(c: Config, s: Machine) returns (s': Machine)
    requires forall f :: f in s.flights ==> !Due(s, f)
    requires forall i :: i in s.calls ==> !CallDue(s, i)
    ensures Next(c, s, s') && s'.now == s.now + 1
  {
    s' := s.(now := s.now + 1);
    assert forall i :: i in s.calls && s.calls[i].st.Fetching? ==> !CallDue(s, i);
    assert forall i :: i in s.calls && s.calls[i].st.Waiting? ==> !CallDue(s, i);
    assert forall f :: f in s.flights && !s.flights[f].pc.Finished? ==> !Due(s, f);
    assert NextBy(c, s, s', Tick(1));
  }

  /** Every run can be continued until the clock has moved. */
  lemma TimeNeverStops(c: Config, run: seq<Machine>) returns (more: seq<Machine>)
    requires IsRun(c, run)
    ensures IsRun(c, more) && run <= more && Final(more).now == Final(run).now + 1
    decreases Work(Final(run))
  {
    RunIsSafe(c, run);
    var s' := StepOrTick(c, Final(run));
    var longer := run + [s'];
    RunGrows(c, run, s');
    if s'.now > Final(run).now {
      more := longer;
    } else {
      more := TimeNeverStops(c, longer);
    }
  }
}
