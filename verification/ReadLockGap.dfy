/**
 How long the rebuild lock must live when there are several processes: exactly as long as its
 holder's section can last. With less, a late holder overwrites a newer snapshot.
 */
module ReadLockGap {
  import opened Wrappers
  import opened Domain
  import opened Catalog
  import opened CacheStore
  import opened Runs
  import opened ReadProtocol
  import opened ReadInvariant
  import opened ReadLocks
  import opened ReadScripts

  ghost predicate IsWrite(past: Past, id: Id, p: nat) {
    p < |past.log| && past.log[p].Stored? && past.log[p].id == id && IsRead(past, id, past.log[p].read)
  }

  /** The cache writes recorded for each product carry ever later commits. */
  ghost predicate InCommitOrder(past: Past) {
    forall id, p: nat, q: nat :: IsWrite(past, id, p) && IsWrite(past, id, q) && p <= q ==>
      WrittenCommits(past, p) <= WrittenCommits(past, q)
  }

  // ------------------------------------------------------------------------- the late holder

  /** When the first holder has read the database as late as its waits allow. */
  function ReadMoment(c: Config): nat {
    c.redis + c.slotWait + c.query
  }

  /** The product taken off the shelf, as its second commit leaves it. */
  const TAKEN: Product := FIRST.(status := OffShelf, version := 2)

  /** The first holder is about to write the product it read on the shelf. */
  function Holding(c: Config, p: Proc, now: nat, past: Past, jobs: map<(Id, nat), Job>): Machine {
    Machine(now, past, Store(map[], map[ID := Lock(0, c.ttl.lock)]), map[], AllFree(c), map[(p, ID) := 0],
      map[0 := Flight(p, ID, 0, Some(1), Putting(ReadMoment(c) + c.redis, Shown(FIRST, 2), false))],
      map[0 := Call(p, ID, 0, Waiting(0))], jobs)
  }

  function EarlyLog(c: Config): seq<Event> {
    [Committed({ID}, 0), Granted(ID, 0, 0), ReadDb(ID, 1, 0, ReadMoment(c))]
  }

  /** The first holder in that state, with nothing else committed yet. */
  function EarlyHolding(c: Config, p: Proc): Machine {
    Holding(c, p, ReadMoment(c), Past(map[ID := [Commit(FIRST, 0, 0)]], EarlyLog(c)), map[(ID, 1) := Queued])
  }

  /** The first holder after the product was taken off the shelf. */
  function LateHolding(c: Config, p: Proc, now: nat): Machine {
    Holding(c, p, now, CommittedPast(c), map[(ID, 1) := Queued, (ID, 2) := Queued])
  }

  function Waited(c: Config, p: Proc): Machine {
    Opened(c, OnSale(c), 0, p, ID).(now := c.redis)
  }

  lemma FirstHolderWaits(c: Config, p: Proc)
    requires p in c.procs
    ensures Reachable(c, Waited(c, p))
  {
    ReachOnSale(c);
    OpenSection(c, OnSale(c), 0, p, ID);
    ReachLater(c, Opened(c, OnSale(c), 0, p, ID), c.redis);
  }

  function InLine(c: Config, p: Proc): Machine {
    Goto(Waited(c, p), 0, WaitingSlot(c.redis + c.slotWait, true)).(now := c.redis + c.slotWait)
  }

  function Slotted(c: Config, p: Proc): Machine
    requires p in c.procs && c.slots > 0
  {
    InQuery(c, InLine(c, p), 0)
  }

  lemma FirstHolderQueues(c: Config, p: Proc)
    requires p in c.procs && c.slots > 0
    ensures Reachable(c, InLine(c, p))
  {
    FirstHolderWaits(c, p);
    AwaitSlot(c, Waited(c, p), 0, c.slotWait);
  }

  lemma FirstHolderQueries(c: Config, p: Proc)
    requires p in c.procs && c.slots > 0
    ensures Reachable(c, Slotted(c, p).(now := ReadMoment(c)))
  {
    FirstHolderQueues(c, p);
    EnterDatabase(c, InLine(c, p), 0);
    ReachLater(c, Slotted(c, p), c.query);
  }

  lemma FirstHolderReads(c: Config, p: Proc)
    requires p in c.procs && c.slots > 0
    ensures Reachable(c, EarlyHolding(c, p))
  {
    var s := Slotted(c, p).(now := ReadMoment(c));
    FirstHolderQueries(c, p);
    ReadDatabase(c, s, 0);
    LeaveDatabase(c, HasRead(s, 0), 0);
    FirstHolderHolds(c, p);
  }

  lemma FirstHolderHolds(c: Config, p: Proc)
    requires p in c.procs && c.slots > 0
    ensures Departed(c, HasRead(Slotted(c, p).(now := ReadMoment(c)), 0), 0) == EarlyHolding(c, p)
  {
    var s := Slotted(c, p).(now := ReadMoment(c));
    assert s.flights[0] == Flight(p, ID, 0, Some(1), Querying(ReadMoment(c), true, None));
    assert History(s.past, ID) == [Commit(FIRST, 0, 0)];
    var d, h := Departed(c, HasRead(s, 0), 0), EarlyHolding(c, p);
    assert d.free == h.free;
    assert d.flights == h.flights;
    assert d.past.log == h.past.log;
  }

  function CommittedPast(c: Config): Past {
    Past(map[ID := [Commit(FIRST, 0, 0), Commit(TAKEN, ReadMoment(c), 3)]], EarlyLog(c) + [Committed({ID}, ReadMoment(c))])
  }

  lemma ProductIsTaken(c: Config, p: Proc)
    requires p in c.procs && c.slots > 0
    ensures Reachable(c, LateHolding(c, p, ReadMoment(c)))
  {
    var s := EarlyHolding(c, p);
    FirstHolderReads(c, p);
    AllowedIff(OnShelf, OffShelf);
    ReachCommit(c, s, TAKEN);
    TakenEffects(c, p);
  }

  lemma TakenEffects(c: Config, p: Proc)
    ensures Committing(EarlyHolding(c, p), TAKEN) == LateHolding(c, p, ReadMoment(c))
  {
    var s, t := Committing(EarlyHolding(c, p), TAKEN), LateHolding(c, p, ReadMoment(c));
    assert s.past.hist[ID] == t.past.hist[ID];
    assert s.past == t.past;
    assert s.jobs == t.jobs;
  }

  lemma HolderIsLate(c: Config, p: Proc)
    requires p in c.procs && c.slots > 0
    ensures Reachable(c, LateHolding(c, p, ReadMoment(c) + c.redis))
  {
    ProductIsTaken(c, p);
    ReachLater(c, LateHolding(c, p, ReadMoment(c)), c.redis);
  }

  // ------------------------------------------------------------------------- the next holder overtakes it

  /** The second process opens its section once the first lock has expired. */
  function Overlapping(c: Config, p: Proc, q: Proc): Machine {
    Opened(c, LateHolding(c, p, ReadMoment(c) + c.redis), 1, q, ID)
  }

  lemma SecondHolderEnters(c: Config, p: Proc, q: Proc)
    requires p in c.procs && q in c.procs && p != q && c.slots > 0 && !Roomy(c)
    ensures Reachable(c, Overlapping(c, p, q))
  {
    HolderIsLate(c, p);
    OpenSection(c, LateHolding(c, p, ReadMoment(c) + c.redis), 1, q, ID);
  }

  /** The log after the second holder has written that the product is off the shelf, and the first, late, the product. */
  function LateLog(c: Config): seq<Event> {
    var e := ReadMoment(c) + c.redis;
    CommittedPast(c).log + [Granted(ID, 1, e), ReadDb(ID, 2, 1, e), Stored(ID, 5, 1, e), Stored(ID, 2, 0, e)]
  }

  lemma LateWrite(c: Config, p: Proc, q: Proc) returns (s: Machine)
    requires p in c.procs && q in c.procs && p != q && c.slots > 0 && !Roomy(c)
    ensures Reachable(c, s) && s.past == Past(CommittedPast(c).hist, LateLog(c))
  {
    SecondHolderEnters(c, p, q);
    var t := PassDatabase(c, Overlapping(c, p, q), 1);
    assert t.flights[1].pc.answer == Hidden(5);
    WriteCache(c, t, 1, 0);
    var u := CacheWritten(c, t, 1, 0);
    assert u.flights[0].pc.answer == Shown(FIRST, 2);
    WriteCache(c, u, 0, 0);
    s := CacheWritten(c, u, 0, 0);
  }

  lemma LateWriteIsOutOfOrder(c: Config, past: Past)
    requires past == Past(CommittedPast(c).hist, LateLog(c))
    ensures !InCommitOrder(past)
  {
    assert |History(past, ID)| == 2;
    assert IsWrite(past, ID, 6) && IsWrite(past, ID, 7);
    assert WrittenCommits(past, 6) == 2 && WrittenCommits(past, 7) == 1;
  }

  /**
   Every run writes the cache in commit order if and only if the lock's lifetime covers two
   Redis timeouts, the slot wait and the query, or there is one process only.
   */
  lemma LockLifetimeIsExact(c: Config)
    requires c.slots > 0
    ensures 2 * c.redis + c.slotWait + c.query <= c.ttl.lock || |c.procs| <= 1 <==>
      forall run :: IsRun(c, run) ==> InCommitOrder(Final(run).past)
  {
    if Roomy(c) || |c.procs| <= 1 {
      forall run | IsRun(c, run)
        ensures InCommitOrder(Final(run).past)
      {
        forall id, a: nat, b: nat | IsWrite(Final(run).past, id, a) && IsWrite(Final(run).past, id, b) && a <= b
          ensures WrittenCommits(Final(run).past, a) <= WrittenCommits(Final(run).past, b)
        {
          CacheWritesInCommitOrder(c, run, a, b);
        }
      }
    } else {
      var p :| p in c.procs;
      assert |c.procs - {p}| > 0;
      var q :| q in c.procs - {p};
      var s := LateWrite(c, p, q);
      LateWriteIsOutOfOrder(c, s.past);
    }
  }

  /** What the settings demand of these timeouts: the query timeout below the lock's lifetime. */
  predicate SettingsAccept(c: Config) {
    && c.query < c.ttl.lock && 100 <= c.ttl.lock
    && 1 <= c.slots && 1 <= c.slotWait && 1 <= c.query && 0 < c.redis
  }

  /** Two processes with the default timeouts, but a lock that lives only 600 ms. */
  const SHORT_LOCK: Config := Config({0, 1}, 10, 200, 100, 500, 250, Ttl(300000, 30000, 30000, 600))

  /** The settings accept a configuration under which a run writes the cache out of order. */
  lemma SettingsAreNotEnough() returns (run: seq<Machine>)
    ensures SettingsAccept(SHORT_LOCK) && IsRun(SHORT_LOCK, run) && !InCommitOrder(Final(run).past)
  {
    assert 0 in SHORT_LOCK.procs && 1 in SHORT_LOCK.procs;
    LockLifetimeIsExact(SHORT_LOCK);
    run :| IsRun(SHORT_LOCK, run) && !InCommitOrder(Final(run).past);
  }
}
