/**
 How long a penalized product can still be shown: exactly base lifetime, jitter, one query
 and two Redis timeouts. A run attains the bound, so it is also the least one.
 */
module ReadTightness {
  import opened Wrappers
  import opened Domain
  import opened Catalog
  import opened CacheStore
  import opened Runs
  import opened ReadProtocol
  import opened ReadScripts
  import opened ReadTheorems

  const PENALIZED: Product := FIRST.(status := Penalized, version := 2)

  /** In every run, a call answered more than `d` after a product was penalized is not shown it. */
  ghost predicate HiddenAfter(c: Config, d: nat) {
    forall run, i, n: nat ::
      IsRun(c, run) && IsAnswered(Final(run), i) && PenalizedBy(Final(run), Final(run).calls[i], n, d) ==>
        !Final(run).calls[i].st.answer.Shown?
  }

  /** The call's answer came more than `d` after commit `n` penalized its product. */
  ghost predicate PenalizedBy(s: Machine, call: Call, n: nat, d: nat) {
    var h := History(s.past, call.id);
    && call.st.Answered?
    && 0 < n <= |h| && h[n - 1].product.status == Penalized && h[n - 1].at + d < call.st.at
  }

  // ------------------------------------------------------------------------- a run that attains the bound

  function Asked(c: Config, p: Proc): Machine {
    Goto(Opened(c, OnSale(c), 0, p, ID), 0, WaitingSlot(c.slotWait, true))
  }

  function Querier(c: Config, p: Proc): Machine
    requires p in c.procs && c.slots > 0
  {
    InQuery(c, Asked(c, p), 0)
  }

  lemma ReachQuerier(c: Config, p: Proc)
    requires p in c.procs && c.slots > 0
    ensures Reachable(c, Querier(c, p))
  {
    ReachOnSale(c);
    OpenSection(c, OnSale(c), 0, p, ID);
    var s := Opened(c, OnSale(c), 0, p, ID);
    assert LockStep(c, s, Asked(c, p), LockReply(0));
    ReachNext(c, s, Asked(c, p), LockReply(0));
    EnterDatabase(c, Asked(c, p), 0);
  }

  function PastPenalty(): Past {
    Past(map[ID := [Commit(FIRST, 0, 0), Commit(PENALIZED, 0, 3)]],
      [Committed({ID}, 0), Granted(ID, 0, 0), ReadDb(ID, 1, 0, 0), Committed({ID}, 0)])
  }

  /** The flight has read the product on the shelf, and at the same moment it is penalized. */
  function Overtaken(c: Config, p: Proc): Machine
    requires p in c.procs && c.slots > 0
  {
    Machine(0, PastPenalty(), Store(map[], map[ID := Lock(0, c.ttl.lock)]), map[], AllFree(c)[p := c.slots - 1], map[(p, ID) := 0],
      map[0 := Flight(p, ID, 0, Some(1), Querying(c.query, true, Some(Shown(FIRST, 2))))],
      map[0 := Call(p, ID, 0, Waiting(0))], map[(ID, 1) := Queued, (ID, 2) := Queued])
  }

  lemma ReachOvertaken(c: Config, p: Proc)
    requires p in c.procs && c.slots > 0
    ensures Reachable(c, Overtaken(c, p))
  {
    var s := HasRead(Querier(c, p), 0);
    ReachQuerier(c, p);
    ReadDatabase(c, Querier(c, p), 0);
    QuerierReads(c, p);
    AllowedIff(OnShelf, Penalized);
    ReachCommit(c, s, PENALIZED);
    PenaltyCommitted(c, p, s);
  }

  lemma PenaltyCommitted(c: Config, p: Proc, s: Machine)
    requires p in c.procs && c.slots > 0 && s == Unpenalized(c, p)
    ensures Committing(s, PENALIZED) == Overtaken(c, p)
  {
    assert Committing(s, PENALIZED).past.hist[ID] == PastPenalty().hist[ID];
    assert Committing(s, PENALIZED).past.log == PastPenalty().log;
    assert Committing(s, PENALIZED).jobs == Overtaken(c, p).jobs;
  }

  /** The same moment, just before the penalty. */
  function Unpenalized(c: Config, p: Proc): Machine
    requires p in c.procs && c.slots > 0
  {
    Overtaken(c, p).(past := Past(map[ID := [Commit(FIRST, 0, 0)]], PastPenalty().log[..3]), jobs := map[(ID, 1) := Queued])
  }

  lemma QuerierReads(c: Config, p: Proc)
    requires p in c.procs && c.slots > 0
    ensures HasRead(Querier(c, p), 0) == Unpenalized(c, p)
  {
    var s := Querier(c, p);
    assert s.flights[0] == Flight(p, ID, 0, Some(1), Querying(c.query, true, None));
    assert History(s.past, ID) == [Commit(FIRST, 0, 0)];
    assert HasRead(s, 0).flights == Overtaken(c, p).flights;
    assert HasRead(s, 0).past.log == PastPenalty().log[..3];
  }

  /** The holder has its answer late and turns to the cache write. */
  function Holding(c: Config, p: Proc): Machine
    requires p in c.procs && c.slots > 0
  {
    Departed(c, Overtaken(c, p).(now := c.query), 0)
  }

  lemma ReachHolding(c: Config, p: Proc)
    requires p in c.procs && c.slots > 0
    ensures Reachable(c, Holding(c, p).(now := c.query + c.redis))
  {
    ReachOvertaken(c, p);
    ReachLater(c, Overtaken(c, p), c.query);
    LeaveDatabase(c, Overtaken(c, p).(now := c.query), 0);
    ReachLater(c, Holding(c, p), c.redis);
  }

  /** The late write of the product is cached for as long as it may be, and all is quiet. */
  lemma ReachCached(c: Config, p: Proc) returns (s: Machine)
    requires p in c.procs && c.slots > 0
    ensures Reachable(c, s) && Idle(s) && 1 !in s.calls && s.past.hist == PastPenalty().hist
    ensures s.now == c.query + c.redis
    ensures ID in s.origin && ID in s.store.entries
    ensures s.store.entries[ID] == Entry(Snapshot(ID, FIRST, 1), s.now + c.ttl.base + c.ttl.jitter)
  {
    ReachHolding(c, p);
    var t := Holding(c, p).(now := c.query + c.redis);
    WriteCache(c, t, 0, c.ttl.jitter);
    var u := CacheWritten(c, t, 0, c.ttl.jitter);
    EndFlight(c, u, 0, 0);
    s := Ended(u, 0, 0);
  }

  /** A call answered 200 for a penalized product, T + Q + 2R after the penalty. */
  lemma ShownAtTheBound(c: Config, p: Proc) returns (s: Machine)
    requires p in c.procs && c.slots > 0
    ensures Reachable(c, s) && IsAnswered(s, 1) && s.calls[1].st.answer.Shown?
    ensures s.calls[1].id == ID && s.calls[1].st.at == ShownAge(c)
    ensures History(s.past, ID) == [Commit(FIRST, 0, 0), Commit(PENALIZED, 0, 3)]
  {
    var t := ReachCached(c, p);
    ReachLater(c, t, c.ttl.base + c.ttl.jitter);
    s := AnswerFromCache(c, t.(now := t.now + c.ttl.base + c.ttl.jitter), 1, p, ID);
  }

  /** The bound on showing a penalized product is exact: it holds with `d` if and only if `d` is no less. */
  lemma PenaltyBoundIsExact(c: Config, p: Proc, d: nat)
    requires p in c.procs && c.slots > 0
    ensures HiddenAfter(c, d) <==> c.ttl.base + c.ttl.jitter + c.query + 2 * c.redis <= d
  {
    if ShownAge(c) <= d {
      forall run, i, n: nat |
        IsRun(c, run) && IsAnswered(Final(run), i) && PenalizedBy(Final(run), Final(run).calls[i], n, d)
        ensures !Final(run).calls[i].st.answer.Shown?
      {
        PenalizedIsNeverShown(c, run, i, n);
      }
    } else {
      var s := ShownAtTheBound(c, p);
      var run :| IsRun(c, run) && Final(run) == s;
      assert PenalizedBy(s, s.calls[1], 2, d);
    }
  }
}
