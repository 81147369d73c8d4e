/**
 Runs in which the cache does its work: an absent product told from the cache, and a lock
 loser answered with what the winner wrote.
 */
module ReadReuse {
  import opened Wrappers
  import opened Domain
  import opened Catalog
  import opened CacheStore
  import opened Runs
  import opened ReadProtocol
  import opened ReadInvariant
  import opened ReadTheorems
  import opened ReadScripts
  import opened ReadLatency

  // ------------------------------------------------------------------------- a cached 404

  lemma ReachInitial(c: Config)
    ensures Reachable(c, Initial(c))
  {
    var s := Initial(c);
    assert IsRun(c, [s]) && Final([s]) == s;
  }

  /** A reader of an absent product has found nothing in the database and cached that. */
  lemma AbsenceIsCached(c: Config, p: Proc) returns (s: Machine)
    requires p in c.procs && c.slots > 0
    ensures Reachable(c, s) && Idle(s) && 1 !in s.calls && s.now == 0
    ensures s.past == Past(map[], [Granted(ID, 0, 0), ReadDb(ID, 0, 0, 0), Stored(ID, 1, 0, 0)])
    ensures ID in s.store.entries && s.store.entries[ID] == Entry(Missing, c.ttl.negative) && ID in s.origin
  {
    ReachInitial(c);
    OpenSection(c, Initial(c), 0, p, ID);
    var t := PassDatabase(c, Opened(c, Initial(c), 0, p, ID), 0);
    assert t.flights[0].pc.answer == Hidden(1);
    WriteCache(c, t, 0, 0);
    var u := CacheWritten(c, t, 0, 0);
    EndFlight(c, u, 0, 0);
    s := Ended(u, 0, 0);
  }

  /** The next reader is answered 404 from the cache, without a flight and without another database read. */
  lemma AbsenceToldFromCache(c: Config, p: Proc) returns (s: Machine)
    requires p in c.procs && c.slots > 0
    ensures Reachable(c, s) && IsAnswered(s, 1)
    ensures s.calls[1].st.answer.Hidden? && s.calls[1].st.via == None
    ensures s.past.log == [Granted(ID, 0, 0), ReadDb(ID, 0, 0, 0), Stored(ID, 1, 0, 0)]
  {
    var t := AbsenceIsCached(c, p);
    s := AnswerFromCache(c, t, 1, p, ID);
  }

  // ------------------------------------------------------------------------- the winner's entry

  /** The second process's flight has lost the lock and sleeps. */
  function Contended(c: Config, p: Proc, q: Proc): Machine {
    var s := Joined(c, Opened(c, OnSale(c), 0, p, ID), 1, q, ID);
    s.(flights := s.flights[1 := Flight(q, ID, 0, None, Sleeping(PollStep(c), c.budget, 1))])
  }

  lemma ReachContended(c: Config, p: Proc, q: Proc)
    requires p in c.procs && q in c.procs && p != q && c.budget > 0
    ensures Reachable(c, Contended(c, p, q))
  {
    var s := Opened(c, OnSale(c), 0, p, ID);
    ReachOnSale(c);
    OpenSection(c, OnSale(c), 0, p, ID);
    JoinAlone(c, s, 1, q, ID);
    var t := Joined(c, s, 1, q, ID);
    assert LockStep(c, t, MissLock(t, 1), LockServe(1));
    ReachNext(c, t, MissLock(t, 1), LockServe(1));
    var u := Goto(MissLock(t, 1), 1, Sleeping(PollStep(c), c.budget, 1));
    assert LockStep(c, MissLock(t, 1), u, LockReply(1));
    ReachNext(c, MissLock(t, 1), u, LockReply(1));
    assert u.flights == Contended(c, p, q).flights;
  }

  function WinnersLog(): seq<Event> {
    [Committed({ID}, 0), Granted(ID, 0, 0), ReadDb(ID, 1, 0, 0), Stored(ID, 2, 0, 0)]
  }

  /** The winner has written the product and is done; the loser still sleeps. */
  lemma WinnerIsDone(c: Config, p: Proc, q: Proc) returns (s: Machine)
    requires p in c.procs && q in c.procs && p != q && c.budget > 0 && c.slots > 0
    ensures Reachable(c, s) && Solo(s, 1, 1) && s.now == 0 && s.past.log == WinnersLog()
    ensures s.flights[1].pc == Sleeping(PollStep(c), c.budget, 1)
    ensures ID in s.store.entries && s.store.entries[ID] == Entry(Snapshot(ID, FIRST, 1), c.ttl.base + c.ttl.jitter)
    ensures ID in s.origin && s.origin[ID].read == 2
  {
    ReachContended(c, p, q);
    var t := PassDatabase(c, Contended(c, p, q), 0);
    assert t.flights[0].pc.answer == Shown(FIRST, 2);
    WriteCache(c, t, 0, c.ttl.jitter);
    var u := CacheWritten(c, t, 0, c.ttl.jitter);
    EndFlight(c, u, 0, 0);
    s := Ended(u, 0, 0);
  }

  lemma PollFinds(c: Config, s: Machine, f: FlightId) returns (t: Machine)
    requires Reachable(c, s) && f in s.flights && s.flights[f].id == ID && s.flights[f].pc.Polling? && s.flights[f].pc.fetch.Asking?
    requires ID in s.store.entries && ID in s.origin && Live(s.store.entries[ID].expires, s.now)
    requires Accepts(ID, s.store.entries[ID].envelope)
    ensures Reachable(c, t)
    ensures t == Placed(s, f, Returning(EnvelopeAnswer(s.store.entries[ID].envelope, s.origin[ID].read), s.now), s.now)
  {
    var pc := s.flights[f].pc;
    var replied := pc.(fetch := ServeGet(s, ID, pc.fetch.deadline));
    var u := Goto(s, f, replied);
    assert PollingStep(c, s, u, PollServe(f));
    ReachNext(c, s, u, PollServe(f));
    t := Goto(u, f, Returning(HitAnswer(replied.fetch), s.now));
    assert PollingStep(c, u, t, PollHit(f));
    ReachNext(c, u, t, PollHit(f));
    PlacedAgain(s, f, replied, s.now, Returning(HitAnswer(replied.fetch), s.now), s.now);
  }

  /** The loser wakes, finds the winner's entry and answers with it: only the winner read the database. */
  lemma LoserToldFromCache(c: Config, p: Proc, q: Proc) returns (s: Machine)
    requires p in c.procs && q in c.procs && p != q && c.budget > 0 && c.slots > 0
    requires PollStep(c) <= c.ttl.base + c.ttl.jitter
    ensures Reachable(c, s) && IsAnswered(s, 1) && s.calls[1].st.via == Some(1)
    ensures s.calls[1].st.answer == Shown(FIRST, 2) && s.calls[1].st.at == Min(25, c.budget)
    ensures s.past.log == WinnersLog()
  {
    var t := WinnerIsDone(c, p, q);
    var asking := Polling(Asking(PollStep(c) + c.redis), c.budget, 1);
    WakeUp(c, t, 1, 1);
    var u := Placed(t, 1, asking, PollStep(c));
    var v := PollFinds(c, u, 1);
    FinishAndResume(c, v, 1, 1);
    s := CallTo(Goto(v, 1, Finished(Shown(FIRST, 2), v.now)), 1, Answered(Shown(FIRST, 2), v.now, Some(1))).(
      reg := Unregister(v.reg, Place(v.flights[1]), 1));
  }
}
