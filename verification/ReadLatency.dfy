/**
 How long a call can take: the bound of five Redis timeouts, the polling loop, the slot wait
 and the query is attained, so it is also the least one.
 */
module ReadLatency {
  import opened Wrappers
  import opened CacheStore
  import opened Runs
  import opened ReadProtocol
  import opened ReadInvariant
  import opened ReadSteps
  import opened ReadTheorems
  import opened ReadScripts

  /** In every run, a call is answered within `d`. */
  ghost predicate AnswersWithin(c: Config, d: nat) {
    forall run, i :: IsRun(c, run) && IsAnswered(Final(run), i) ==> Final(run).calls[i].st.at <= Final(run).calls[i].began + d
  }

  // ------------------------------------------------------------------------- one flight under way

  /** Only flight `f` is under way, and only call `i` waits for it. */
  ghost predicate Solo(s: Machine, i: CallId, f: FlightId) {
    && InFlight(s, f) && s.flights[f].id == ID
    && (forall g :: g in s.flights && g != f ==> s.flights[g].pc.Finished?)
    && i in s.calls && s.calls[i].st == Waiting(f)
    && (forall j :: j in s.calls && j != i ==> s.calls[j].st.Answered?)
  }

  /** The flight elsewhere, at another time, and nothing else changed. */
  function Placed(s: Machine, f: FlightId, pc: Pc, now: nat): Machine
    requires f in s.flights
  {
    Goto(s, f, pc).(now := now)
  }

  lemma PlacedStaysSolo(s: Machine, i: CallId, f: FlightId, pc: Pc, now: nat)
    requires Solo(s, i, f) && !pc.Finished?
    ensures Solo(Placed(s, f, pc, now), i, f)
  {
  }

  lemma PlacedAgain(s: Machine, f: FlightId, pc: Pc, now: nat, pc': Pc, now': nat)
    requires f in s.flights
    ensures Placed(Placed(s, f, pc, now), f, pc', now') == Placed(s, f, pc', now')
  {
    assert Goto(Goto(s, f, pc), f, pc').flights == Goto(s, f, pc').flights;
  }

  lemma PlacedWhereItIs(s: Machine, f: FlightId)
    requires f in s.flights
    ensures Placed(s, f, s.flights[f].pc, s.now) == s
  {
    assert s.flights[f := s.flights[f]] == s.flights;
  }

  /** The flight lets time pass up to its deadline at most. */
  lemma Linger(c: Config, s: Machine, i: CallId, f: FlightId, until: nat)
    requires Reachable(c, s) && Solo(s, i, f) && s.now <= until <= Deadline(s.flights[f].pc)
    ensures Reachable(c, s.(now := until)) && Solo(s.(now := until), i, f)
    ensures s.(now := until) == Placed(s, f, s.flights[f].pc, until)
  {
    PlacedWhereItIs(s, f);
    ReachLater(c, s, until - s.now);
  }

  // ------------------------------------------------------------------------- the polling loop

  /** The product's key holds a bad value at least this long. */
  predicate BadUntil(s: Machine, until: nat) {
    ID in s.store.entries && s.store.entries[ID].envelope == Malformed && until <= s.store.entries[ID].expires
  }

  lemma WakeUp(c: Config, s: Machine, i: CallId, f: FlightId)
    requires Reachable(c, s) && Solo(s, i, f) && s.flights[f].pc.Sleeping? && s.now <= s.flights[f].pc.until
    ensures var pc := s.flights[f].pc;
      Reachable(c, Placed(s, f, Polling(Asking(pc.until + c.redis), pc.end, pc.rounds), pc.until))
  {
    var pc := s.flights[f].pc;
    var t := s.(now := pc.until);
    Linger(c, s, i, f, pc.until);
    var u := Placed(s, f, Polling(Asking(pc.until + c.redis), pc.end, pc.rounds), pc.until);
    assert PollingStep(c, t, u, Wake(f));
    ReachNext(c, t, u, Wake(f));
  }

  lemma AskForBad(c: Config, s: Machine, i: CallId, f: FlightId)
    requires Reachable(c, s) && Solo(s, i, f) && s.flights[f].pc.Polling? && s.flights[f].pc.fetch == Asking(s.now + c.redis)
    ensures var pc, d := s.flights[f].pc, s.now + c.redis;
      Reachable(c, Placed(s, f, Polling(ServeGet(s, ID, d), pc.end, pc.rounds), d))
  {
    var pc, d := s.flights[f].pc, s.now + c.redis;
    var replied := Polling(ServeGet(s, ID, d), pc.end, pc.rounds);
    var t := Placed(s, f, replied, s.now);
    assert PollingStep(c, s, t, PollServe(f));
    ReachNext(c, s, t, PollServe(f));
    PlacedStaysSolo(s, i, f, replied, s.now);
    Linger(c, t, i, f, d);
    PlacedAgain(s, f, replied, s.now, replied, d);
  }

  /** The bad value arrives as late as it can and is to be discarded. */
  lemma FindBad(c: Config, s: Machine, i: CallId, f: FlightId)
    requires Reachable(c, s) && Solo(s, i, f) && s.flights[f].pc.Polling? && s.flights[f].pc.fetch == Asking(s.now + c.redis)
    requires BadUntil(s, s.now)
    ensures var pc := s.flights[f].pc;
      Reachable(c, Placed(s, f, Polling(Dropping(s.now + 2 * c.redis), pc.end, pc.rounds), s.now + c.redis))
  {
    var pc, d := s.flights[f].pc, s.now + c.redis;
    var replied, dropping := Polling(ServeGet(s, ID, d), pc.end, pc.rounds), Polling(Dropping(d + c.redis), pc.end, pc.rounds);
    AskForBad(c, s, i, f);
    PlacedAgain(s, f, replied, d, dropping, d);
    assert PollingStep(c, Placed(s, f, replied, d), Placed(s, f, dropping, d), PollReject(f));
    ReachNext(c, Placed(s, f, replied, d), Placed(s, f, dropping, d), PollReject(f));
  }

  lemma GiveUpRound(c: Config, s: Machine, i: CallId, f: FlightId, until: nat)
    requires Reachable(c, s) && Solo(s, i, f) && s.flights[f].pc.Polling? && s.now <= until <= s.flights[f].pc.fetch.deadline
    ensures Reachable(c, Placed(s, f, LoopTop(c, until, s.flights[f].pc.end, s.flights[f].pc.rounds), until))
  {
    var t := s.(now := until);
    var pc := LoopTop(c, until, s.flights[f].pc.end, s.flights[f].pc.rounds);
    Linger(c, s, i, f, until);
    assert PollingStep(c, t, Placed(s, f, pc, until), PollMiss(f));
    ReachNext(c, t, Placed(s, f, pc, until), PollMiss(f));
  }

  lemma SlowRound(c: Config, s: Machine, i: CallId, f: FlightId, until: nat)
    requires Reachable(c, s) && Solo(s, i, f) && s.flights[f].pc.Polling? && s.flights[f].pc.fetch == Asking(s.now + c.redis)
    requires BadUntil(s, s.now) && s.now + c.redis <= until <= s.now + 2 * c.redis
    ensures Reachable(c, Placed(s, f, LoopTop(c, until, s.flights[f].pc.end, s.flights[f].pc.rounds), until))
  {
    var pc := s.flights[f].pc;
    var dropping := Polling(Dropping(s.now + 2 * c.redis), pc.end, pc.rounds);
    FindBad(c, s, i, f);
    PlacedStaysSolo(s, i, f, dropping, s.now + c.redis);
    GiveUpRound(c, Placed(s, f, dropping, s.now + c.redis), i, f, until);
    PlacedAgain(s, f, dropping, s.now + c.redis, LoopTop(c, until, pc.end, pc.rounds), until);
  }

  /** A round that takes any time up to two Redis timeouts after its sleep. */
  lemma OneRound(c: Config, s: Machine, i: CallId, f: FlightId, took: nat)
    requires Reachable(c, s) && Solo(s, i, f) && s.flights[f].pc.Sleeping? && s.now <= s.flights[f].pc.until
    requires took <= 2 * c.redis && BadUntil(s, s.flights[f].pc.until)
    ensures var pc := s.flights[f].pc;
      Reachable(c, Placed(s, f, LoopTop(c, pc.until + took, pc.end, pc.rounds), pc.until + took))
  {
    var Sleeping(until, end, rounds) := s.flights[f].pc;
    var asking := Polling(Asking(until + c.redis), end, rounds);
    WakeUp(c, s, i, f);
    PlacedStaysSolo(s, i, f, asking, until);
    if took <= c.redis {
      GiveUpRound(c, Placed(s, f, asking, until), i, f, until + took);
    } else {
      SlowRound(c, Placed(s, f, asking, until), i, f, until + took);
    }
    PlacedAgain(s, f, asking, until, LoopTop(c, until + took, end, rounds), until + took);
  }

  /** After `k` more rounds with this much time for their cache reads. */
  function Later(c: Config, now: nat, k: nat, extra: nat): nat {
    now + Times(k, PollStep(c)) + extra
  }

  /** The rounds can use this much time for their cache reads. */
  predicate Fits(c: Config, k: nat, extra: nat) {
    extra <= Times(k, 2 * c.redis)
  }

  lemma OneRoundLess(c: Config, now: nat, k: nat, extra: nat, took: nat)
    requires k > 0 && Fits(c, k, extra) && took == Min(extra, 2 * c.redis)
    ensures Fits(c, k - 1, extra - took)
    ensures Later(c, now + PollStep(c) + took, k - 1, extra - took) == Later(c, now, k, extra)
    ensures now + PollStep(c) + took <= Later(c, now, k, extra)
  {
  }

  lemma SleepAgain(c: Config, s: Machine, i: CallId, f: FlightId, took: nat)
    requires Reachable(c, s) && Solo(s, i, f) && s.flights[f].pc.Sleeping? && s.now <= s.flights[f].pc.until
    requires took <= 2 * c.redis && BadUntil(s, s.flights[f].pc.until) && s.flights[f].pc.until + took < s.flights[f].pc.end
    ensures var pc := s.flights[f].pc; var now := pc.until + took;
      var t := Placed(s, f, Sleeping(now + PollStep(c), pc.end, pc.rounds + 1), now);
      Reachable(c, t) && Solo(t, i, f)
  {
    var pc, now := s.flights[f].pc, s.flights[f].pc.until + took;
    OneRound(c, s, i, f, took);
    PlacedStaysSolo(s, i, f, Sleeping(now + PollStep(c), pc.end, pc.rounds + 1), now);
  }

  lemma {:induction false} Rounds(c: Config, s: Machine, i: CallId, f: FlightId, k: nat, extra: nat, t: nat)
    requires Reachable(c, s) && Solo(s, i, f) && s.flights[f].pc.Sleeping?
    requires s.flights[f].pc.until == s.now + PollStep(c)
    requires Fits(c, k, extra) && t == Later(c, s.now, k, extra) && t < s.flights[f].pc.end
    requires BadUntil(s, s.flights[f].pc.end + PollStep(c))
    ensures Reachable(c, Placed(s, f, Sleeping(t + PollStep(c), s.flights[f].pc.end, s.flights[f].pc.rounds + k), t))
    decreases k
  {
    var pc, step := s.flights[f].pc, PollStep(c);
    if k == 0 {
      PlacedWhereItIs(s, f);
    } else {
      var took := Min(extra, 2 * c.redis);
      var now := pc.until + took;
      OneRoundLess(c, s.now, k, extra, took);
      SleepAgain(c, s, i, f, took);
      var sleeping := Sleeping(now + step, pc.end, pc.rounds + 1);
      Rounds(c, Placed(s, f, sleeping, now), i, f, k - 1, extra - took, t);
      PlacedAgain(s, f, sleeping, now, Sleeping(t + step, pc.end, pc.rounds + k), t);
    }
  }

  /** The loop reaches its head as late as it can before the deadline. */
  lemma SpanIsReached(c: Config)
    requires c.budget > 0
    ensures var k := SleepsBelow(c);
      Times(k, PollStep(c)) <= LoopSpan(c) && Fits(c, k, LoopSpan(c) - Times(k, PollStep(c)))
    ensures LoopSpan(c) < c.budget <= LoopSpan(c) + RoundTime(c)
  {
    QuotientFits(c.budget - 1, PollStep(c));
    TimesAdds(SleepsBelow(c), PollStep(c), 2 * c.redis);
  }

  /** From the loop's head at its beginning to the slot wait, as slowly as possible. */
  lemma SlowLoop(c: Config, s: Machine, i: CallId, f: FlightId)
    requires c.budget > 0 && Reachable(c, s) && Solo(s, i, f)
    requires s.flights[f].pc == Sleeping(s.now + PollStep(c), s.now + c.budget, 1)
    requires BadUntil(s, s.now + c.budget + PollStep(c))
    ensures var t := s.now + LoopWait(c) + 2 * c.redis;
      Reachable(c, Placed(s, f, WaitingSlot(t + c.slotWait, false), t))
  {
    var step, end := PollStep(c), s.now + c.budget;
    var k := SleepsBelow(c);
    SpanIsReached(c);
    var last := s.now + LoopSpan(c);
    Rounds(c, s, i, f, k, LoopSpan(c) - Times(k, step), last);
    var sleeping := Sleeping(last + step, end, 1 + k);
    PlacedStaysSolo(s, i, f, sleeping, last);
    OneRound(c, Placed(s, f, sleeping, last), i, f, 2 * c.redis);
    var t := last + step + 2 * c.redis;
    PlacedAgain(s, f, sleeping, last, WaitingSlot(t + c.slotWait, false), t);
  }

  // ------------------------------------------------------------------------- the database, and the answer

  lemma GrantSlot(c: Config, s: Machine, f: FlightId) returns (t: Machine)
    requires Reachable(c, s) && f in s.flights && s.flights[f].pc.WaitingSlot?
    requires s.flights[f].proc in s.free && s.free[s.flights[f].proc] > 0
    ensures Reachable(c, t)
    ensures t == Goto(s, f, Querying(s.now + c.query, s.flights[f].pc.populate, None)).(
      free := s.free[s.flights[f].proc := s.free[s.flights[f].proc] - 1])
  {
    t := Goto(s, f, Querying(s.now + c.query, s.flights[f].pc.populate, None)).(
      free := s.free[s.flights[f].proc := s.free[s.flights[f].proc] - 1]);
    assert QueryStep(c, s, t, SlotGrant(f));
    ReachNext(c, s, t, SlotGrant(f));
  }

  lemma ReadAndLeave(c: Config, s: Machine, f: FlightId) returns (t: Machine, a: Answer)
    requires Reachable(c, s) && f in s.flights && s.flights[f].pc.Querying? && s.flights[f].pc.got.None?
    requires s.flights[f].proc in s.free
    ensures Reachable(c, t) && !a.Unavailable?
    ensures t == Goto(s, f, AfterQuery(c, s.now, s.flights[f].pc.populate, a)).(
      past := t.past, free := s.free[s.flights[f].proc := s.free[s.flights[f].proc] + 1])
  {
    var fl := s.flights[f];
    ReadDatabase(c, s, f);
    var u := HasRead(s, f);
    a := u.flights[f].pc.got.value;
    t := Goto(u, f, AfterQuery(c, s.now, fl.pc.populate, a)).(free := s.free[fl.proc := s.free[fl.proc] + 1]);
    assert QueryStep(c, u, t, QueryDone(f));
    ReachNext(c, u, t, QueryDone(f));
    assert t.flights == s.flights[f := fl.(pc := AfterQuery(c, s.now, fl.pc.populate, a))];
  }

  /** A fallback that reads the database now answers its call now. */
  lemma AnswerNow(c: Config, s: Machine, i: CallId, f: FlightId) returns (t: Machine)
    requires Reachable(c, s) && f in s.flights && s.flights[f].pc.Querying? && s.flights[f].pc.got.None? && !s.flights[f].pc.populate
    requires s.flights[f].proc in s.free && i in s.calls && s.calls[i].st == Waiting(f)
    ensures Reachable(c, t) && t.now == s.now && t.store == s.store && t.reg == Unregister(s.reg, Place(s.flights[f]), f)
    ensures f in t.flights && t.flights == s.flights[f := t.flights[f]] && t.flights[f].pc.Finished?
    ensures i in t.calls && t.calls == s.calls[i := t.calls[i]] && IsAnswered(t, i)
    ensures t.calls[i].st.at == s.now && t.calls[i].began == s.calls[i].began
    ensures t.free == s.free[s.flights[f].proc := s.free[s.flights[f].proc] + 1]
  {
    var u, a := ReadAndLeave(c, s, f);
    FinishAndResume(c, u, f, i);
    t := CallTo(Goto(u, f, Finished(a, u.now)), i, Answered(a, u.now, Some(f))).(reg := Unregister(u.reg, Place(u.flights[f]), f));
  }

  /** From the slot wait, as slowly as possible, to the answer of a fallback. */
  lemma SlowFallback(c: Config, s: Machine, i: CallId, f: FlightId) returns (t: Machine)
    requires Reachable(c, s) && Solo(s, i, f) && s.flights[f].pc == WaitingSlot(s.now + c.slotWait, false)
    requires s.flights[f].proc in s.free && s.free[s.flights[f].proc] > 0
    ensures Reachable(c, t) && IsAnswered(t, i)
    ensures t.calls[i].st.at == s.now + c.slotWait + c.query && t.calls[i].began == s.calls[i].began
  {
    Linger(c, s, i, f, s.now + c.slotWait);
    var u := GrantSlot(c, s.(now := s.now + c.slotWait), f);
    Linger(c, u, i, f, u.now + c.query);
    t := AnswerNow(c, u.(now := u.now + c.query), i, f);
  }

  // ------------------------------------------------------------------------- a call whose cache read is slow

  /** How long the bad value lasts: to the end of the last round. */
  function BadFor(c: Config): nat {
    3 * c.redis + 2 * c.budget
  }

  function Spoilt(c: Config): Machine {
    Initial(c).(store := Store(map[ID := Entry(Malformed, BadFor(c))], map[]), origin := map[ID := Origin(0, 0)])
  }

  function Reading(c: Config, p: Proc, now: nat, fetch: Fetch): Machine {
    Spoilt(c).(now := now, calls := map[1 := Call(p, ID, 0, Fetching(fetch))])
  }

  lemma ReachReading(c: Config, p: Proc)
    requires p in c.procs
    ensures Reachable(c, Reading(c, p, 0, Asking(c.redis)))
  {
    var s, t, u := Initial(c), Spoilt(c), Reading(c, p, 0, Asking(c.redis));
    assert IsRun(c, [s]) && Final([s]) == s;
    assert WorldStep(s, t, Corrupt(ID, Malformed, BadFor(c)));
    ReachNext(c, s, t, Corrupt(ID, Malformed, BadFor(c)));
    assert CallStep(c, t, u, Begin(1, p, ID));
    ReachNext(c, t, u, Begin(1, p, ID));
  }

  /** The call's own cache read takes two Redis timeouts, the second for the discarding. */
  lemma ReachDropping(c: Config, p: Proc)
    requires p in c.procs
    ensures Reachable(c, Reading(c, p, 2 * c.redis, Dropping(2 * c.redis)))
  {
    var s, replied := Reading(c, p, 0, Asking(c.redis)), Replied(c.redis, Some(Malformed), 0);
    ReachReading(c, p);
    var t, u := Reading(c, p, 0, replied), Reading(c, p, c.redis, replied);
    assert CallStep(c, s, t, CallServe(1));
    ReachNext(c, s, t, CallServe(1));
    ReachLater(c, t, c.redis);
    var v := Reading(c, p, c.redis, Dropping(2 * c.redis));
    assert CallStep(c, u, v, CallReject(1));
    ReachNext(c, u, v, CallReject(1));
    ReachLater(c, v, c.redis);
  }

  // ------------------------------------------------------------------------- without a budget: the lock's holder

  lemma SlowSlot(c: Config, s: Machine, i: CallId, f: FlightId) returns (t: Machine)
    requires Reachable(c, s) && Solo(s, i, f) && s.flights[f].pc == Locking(s.now + c.redis, Some(true))
    requires s.flights[f].proc in s.free && s.free[s.flights[f].proc] > 0
    ensures Reachable(c, t) && Solo(t, i, f) && t.calls == s.calls && t.now == s.now + c.redis + c.slotWait
    ensures t.flights[f].pc == Querying(t.now + c.query, true, None) && t.flights[f].proc in t.free
  {
    var d := s.now + c.redis;
    Linger(c, s, i, f, d);
    var u := Placed(s, f, WaitingSlot(d + c.slotWait, true), d);
    assert LockStep(c, s.(now := d), u, LockReply(f));
    ReachNext(c, s.(now := d), u, LockReply(f));
    PlacedStaysSolo(s, i, f, WaitingSlot(d + c.slotWait, true), d);
    t := SlowGrant(c, u, i, f);
  }

  lemma SlowGrant(c: Config, s: Machine, i: CallId, f: FlightId) returns (t: Machine)
    requires Reachable(c, s) && Solo(s, i, f) && s.flights[f].pc == WaitingSlot(s.now + c.slotWait, true)
    requires s.flights[f].proc in s.free && s.free[s.flights[f].proc] > 0
    ensures Reachable(c, t) && Solo(t, i, f) && t.calls == s.calls && t.now == s.now + c.slotWait
    ensures t.flights[f].pc == Querying(t.now + c.query, true, None) && t.flights[f].proc in t.free
  {
    Linger(c, s, i, f, s.now + c.slotWait);
    t := GrantSlot(c, s.(now := s.now + c.slotWait), f);
  }

  lemma SlowQuery(c: Config, s: Machine, i: CallId, f: FlightId) returns (t: Machine)
    requires Reachable(c, s) && Solo(s, i, f) && s.flights[f].pc == Querying(s.now + c.query, true, None)
    requires s.flights[f].proc in s.free
    ensures Reachable(c, t) && Solo(t, i, f) && t.calls == s.calls && t.now == s.now + c.query
    ensures t.flights[f].pc.Putting? && t.flights[f].pc.deadline == t.now + c.redis
  {
    var a;
    Linger(c, s, i, f, s.now + c.query);
    t, a := ReadAndLeave(c, s.(now := s.now + c.query), f);
  }

  /** The cache write and the release both time out. */
  lemma SlowEnd(c: Config, s: Machine, i: CallId, f: FlightId) returns (t: Machine)
    requires Reachable(c, s) && Solo(s, i, f) && s.flights[f].pc.Putting? && s.flights[f].pc.deadline == s.now + c.redis
    ensures Reachable(c, t) && IsAnswered(t, i)
    ensures t.calls[i].st.at == s.now + 2 * c.redis && t.calls[i].began == s.calls[i].began
  {
    var a, d := s.flights[f].pc.answer, s.now + c.redis;
    Linger(c, s, i, f, d);
    var u := Placed(s, f, Releasing(d + c.redis, a), d);
    assert QueryStep(c, s.(now := d), u, PutEnd(f));
    ReachNext(c, s.(now := d), u, PutEnd(f));
    PlacedStaysSolo(s, i, f, Releasing(d + c.redis, a), d);
    t := SlowRelease(c, u, i, f);
  }

  lemma SlowRelease(c: Config, s: Machine, i: CallId, f: FlightId) returns (t: Machine)
    requires Reachable(c, s) && Solo(s, i, f) && s.flights[f].pc.Releasing? && s.flights[f].pc.deadline == s.now + c.redis
    ensures Reachable(c, t) && IsAnswered(t, i)
    ensures t.calls[i].st.at == s.now + c.redis && t.calls[i].began == s.calls[i].began
  {
    var a, d := s.flights[f].pc.answer, s.now + c.redis;
    Linger(c, s, i, f, d);
    var u := Placed(s, f, Returning(a, d), d);
    assert LockStep(c, s.(now := d), u, ReleaseEnd(f));
    ReachNext(c, s.(now := d), u, ReleaseEnd(f));
    FinishAndResume(c, u, f, i);
    t := CallTo(Goto(u, f, Finished(a, d)), i, Answered(a, d, Some(f))).(reg := Unregister(u.reg, Place(u.flights[f]), f));
  }

  lemma JoinAndTakeLock(c: Config, p: Proc) returns (t: Machine)
    requires p in c.procs && c.slots > 0
    ensures Reachable(c, t) && Solo(t, 1, 1) && t.now == 2 * c.redis && t.calls[1].began == 0
    ensures t.flights[1].pc == Locking(t.now + c.redis, Some(true))
    ensures t.flights[1].proc in t.free && t.free[t.flights[1].proc] > 0
  {
    var s := Reading(c, p, 2 * c.redis, Dropping(2 * c.redis));
    ReachDropping(c, p);
    var u := Join(s, 1, 1, c);
    assert CallStep(c, s, u, CallJoin(1, 1));
    ReachNext(c, s, u, CallJoin(1, 1));
    t := TakeLock(c, u, 1);
    assert LockStep(c, u, t, LockServe(1));
    ReachNext(c, u, t, LockServe(1));
  }

  /** Without a budget the slowest call is the lock holder's. */
  lemma SlowHolder(c: Config, p: Proc) returns (t: Machine)
    requires p in c.procs && c.slots > 0 && c.budget == 0
    ensures Reachable(c, t) && IsAnswered(t, 1)
    ensures t.calls[1].st.at == t.calls[1].began + CallBound(c)
  {
    var s := JoinAndTakeLock(c, p);
    var u := SlowSlot(c, s, 1, 1);
    var v := SlowQuery(c, u, 1, 1);
    t := SlowEnd(c, v, 1, 1);
  }

  // ------------------------------------------------------------------------- with a budget: the lock's loser

  /** Another call took the lock and left it behind, all at one moment. */
  lemma LeaveLockBehind(c: Config, p: Proc) returns (t: Machine)
    requires p in c.procs && c.slots > 0
    ensures var s := Reading(c, p, 2 * c.redis, Dropping(2 * c.redis));
      && Reachable(c, t) && t.now == s.now && t.store.entries == s.store.entries && t.reg == map[] && t.free == s.free
      && Holder(t.store, ID, t.now).Some?
      && 0 in t.flights && t.flights == map[0 := t.flights[0]] && t.flights[0].pc.Finished?
      && 0 in t.calls && t.calls == s.calls[0 := t.calls[0]] && t.calls[0].st.Answered?
  {
    var s := Reading(c, p, 2 * c.redis, Dropping(2 * c.redis));
    ReachDropping(c, p);
    OpenSection(c, s, 0, p, ID);
    var u := Opened(c, s, 0, p, ID);
    var v := Goto(u, 0, WaitingSlot(u.now + c.slotWait, false));
    assert LockStep(c, u, v, LockFail(0));
    ReachNext(c, u, v, LockFail(0));
    t := FallBackAtOnce(c, v, 0, 0);
  }

  lemma FallBackAtOnce(c: Config, s: Machine, i: CallId, f: FlightId) returns (t: Machine)
    requires Reachable(c, s) && f in s.flights && s.flights[f].pc.WaitingSlot? && !s.flights[f].pc.populate
    requires s.flights[f].proc in s.free && s.free[s.flights[f].proc] > 0 && i in s.calls && s.calls[i].st == Waiting(f)
    ensures Reachable(c, t) && t.now == s.now && t.store == s.store && t.free == s.free
    ensures t.reg == Unregister(s.reg, Place(s.flights[f]), f)
    ensures f in t.flights && t.flights == s.flights[f := t.flights[f]] && t.flights[f].pc.Finished?
    ensures i in t.calls && t.calls == s.calls[i := t.calls[i]] && IsAnswered(t, i)
  {
    var u := GrantSlot(c, s, f);
    t := AnswerNow(c, u, i, f);
    assert t.flights == s.flights[f := t.flights[f]];
  }

  lemma JoinAndMissLock(c: Config, p: Proc) returns (t: Machine)
    requires p in c.procs && c.slots > 0
    ensures Reachable(c, t) && Solo(t, 1, 1) && t.now == 2 * c.redis && t.calls[1].began == 0
    ensures t.flights[1].pc == Locking(t.now + c.redis, Some(false)) && BadUntil(t, BadFor(c))
    ensures t.flights[1].proc in t.free && t.free[t.flights[1].proc] > 0
  {
    var s := LeaveLockBehind(c, p);
    var u := Join(s, 1, 1, c);
    assert CallStep(c, s, u, CallJoin(1, 1));
    ReachNext(c, s, u, CallJoin(1, 1));
    t := MissLock(u, 1);
    assert LockStep(c, u, t, LockServe(1));
    ReachNext(c, u, t, LockServe(1));
  }

  /** With a budget the slowest call is one that polls to the end and then falls back. */
  lemma SlowLoser(c: Config, p: Proc) returns (t: Machine)
    requires p in c.procs && c.slots > 0 && c.budget > 0
    ensures Reachable(c, t) && IsAnswered(t, 1)
    ensures t.calls[1].st.at == t.calls[1].began + CallBound(c)
  {
    var s := JoinAndMissLock(c, p);
    var d := s.now + c.redis;
    Linger(c, s, 1, 1, d);
    var sleeping := Sleeping(d + PollStep(c), d + c.budget, 1);
    var u := Placed(s, 1, sleeping, d);
    assert LockStep(c, s.(now := d), u, LockReply(1));
    ReachNext(c, s.(now := d), u, LockReply(1));
    PlacedStaysSolo(s, 1, 1, sleeping, d);
    SlowLoop(c, u, 1, 1);
    var e := d + LoopWait(c) + 2 * c.redis;
    PlacedAgain(s, 1, sleeping, d, WaitingSlot(e + c.slotWait, false), e);
    PlacedStaysSolo(s, 1, 1, WaitingSlot(e + c.slotWait, false), e);
    t := SlowFallback(c, Placed(s, 1, WaitingSlot(e + c.slotWait, false), e), 1, 1);
  }

  /** Every call of every run is answered within `d` if and only if `d` is no less than the bound. */
  lemma LatencyIsExact(c: Config, p: Proc, d: nat)
    requires p in c.procs && c.slots > 0
    ensures AnswersWithin(c, d) <==> 5 * c.redis + LoopWait(c) + c.slotWait + c.query <= d
  {
    if CallBound(c) <= d {
      forall run, i | IsRun(c, run) && IsAnswered(Final(run), i)
        ensures Final(run).calls[i].st.at <= Final(run).calls[i].began + d
      {
        AnswersAreTimely(c, run, i);
      }
    } else {
      var s;
      if c.budget == 0 {
        s := SlowHolder(c, p);
      } else {
        s := SlowLoser(c, p);
      }
      var run :| IsRun(c, run) && Final(run) == s;
      assert IsAnswered(Final(run), 1);
    }
  }
}
