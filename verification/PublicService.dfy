/**
 `PublicProductService` of one process in its own imperative form: the flight table and the
 database slots that its atomic sections change in place, and the polling loop of a flight
 that lost the lock. The read protocol's steps act on each process as these sections do.
 */
module PublicService {
  import opened Wrappers
  import opened Catalog
  import opened Runs
  import opened ReadProtocol
  import opened ReadInvariant
  import opened ReadFlights
  import opened ReadSteps

  // ------------------------------------------------------------------------- one process as a value

  /** The registered flight of each product, the flights not yet done, and the free database slots. */
  datatype Part = Part(table: map<Id, FlightId>, running: set<FlightId>, free: nat)

  /** The section of `detail` under the flights lock: the flight to wait for, and the new state. */
  function Joining(part: Part, id: Id, anew: FlightId): (Part, FlightId) {
    if id in part.table && part.table[id] in part.running then (part, part.table[id])
    else (part.(table := part.table[id := anew], running := part.running + {anew}), anew)
  }

  /** The cleanup section of `_run_flight`. */
  function Ending(part: Part, id: Id, f: FlightId): Part {
    part.(table := if id in part.table && part.table[id] == f then part.table - {id} else part.table,
          running := part.running - {f})
  }

  function SlotTaken(part: Part): Part
    requires part.free > 0
  {
    part.(free := part.free - 1)
  }

  function SlotReturned(part: Part): Part {
    part.(free := part.free + 1)
  }

  /** Every flight not yet done is in the table, once, and nothing else is. */
  ghost predicate Tidy(part: Part) {
    && part.table.Values == part.running
    && forall i, j :: i in part.table && j in part.table && part.table[i] == part.table[j] ==> i == j
  }

  lemma JoiningKeepsTidy(part: Part, id: Id, anew: FlightId)
    requires Tidy(part) && anew !in part.running
    ensures Tidy(Joining(part, id, anew).0) && Joining(part, id, anew).1 in Joining(part, id, anew).0.running
    ensures id in part.table ==> Joining(part, id, anew) == (part, part.table[id])
  {
    if id !in part.table {
      var t := part.table[id := anew];
      assert forall f :: f in t.Values <==> f in part.running + {anew} by {
        forall f | f in part.running
          ensures f in t.Values
        {
          var i :| i in part.table && part.table[i] == f;
          assert t[i] == f;
        }
        assert t[id] == anew;
      }
    }
  }

  /** If the table has this flight at all, it has it under this product: what `_run_flight` knows of its own task. */
  ghost predicate RunsFor(part: Part, id: Id, f: FlightId) {
    forall i :: i in part.table && part.table[i] == f ==> i == id
  }

  /** A finishing flight removes itself: no other product's flight, and no successor of its own. */
  lemma EndingKeepsTidy(part: Part, id: Id, f: FlightId)
    requires Tidy(part) && RunsFor(part, id, f)
    ensures Tidy(Ending(part, id, f)) && f !in Ending(part, id, f).running
    ensures if Lookup(part.table, id) == Some(f) then Ending(part, id, f).table == part.table - {id}
      else Ending(part, id, f) == part
  {
    var t := Ending(part, id, f).table;
    forall g | g in part.running - {f}
      ensures g in t.Values
    {
      var i :| i in part.table && part.table[i] == g;
      assert t[i] == g;
    }
    if Lookup(part.table, id) != Some(f) {
      assert f !in part.table.Values;
    }
  }

  // ------------------------------------------------------------------------- the class

  class PublicProductService {
    const config: Config
    var flights: map<Id, FlightId>
    var running: set<FlightId>
    var free: nat

    ghost function Contents(): Part
      reads this
    {
      Part(flights, running, free)
    }

    ghost predicate Valid()
      reads this
    {
      Tidy(Contents())
    }

    constructor (config: Config)
      ensures Valid() && this.config == config && Contents() == Part(map[], {}, config.slots)
    {
      this.config := config;
      flights, running, free := map[], {}, config.slots;
    }

    /** `detail` after a cache miss: join the product's flight, or start one. */
    method JoinFlight(id: Id, anew: FlightId) returns (task: FlightId)
      requires Valid() && anew !in running
      modifies this`flights, this`running
      ensures Valid() && (Contents(), task) == Joining(old(Contents()), id, anew)
      ensures task in running && (old(id in flights) ==> task == old(flights)[id] && flights == old(flights))
    {
      JoiningKeepsTidy(Contents(), id, anew);
      if id in flights && flights[id] in running {
        return flights[id];
      }
      flights, running := flights[id := anew], running + {anew};
      return anew;
    }

    /** The end of `_run_flight`: another flight registered for the product stays. */
    method EndFlight(id: Id, f: FlightId)
      requires Valid() && RunsFor(Contents(), id, f)
      modifies this`flights, this`running
      ensures Valid() && Contents() == Ending(old(Contents()), id, f) && f !in running
      ensures if old(Lookup(flights, id)) == Some(f) then flights == old(flights) - {id} else flights == old(flights)
    {
      EndingKeepsTidy(Contents(), id, f);
      if id in flights && flights[id] == f {
        flights := flights - {id};
      }
      running := running - {f};
    }

    /** `_db_slots.acquire()` when a slot is free at once. */
    method TakeSlot() returns (ok: bool)
      modifies this`free
      ensures ok == (old(free) > 0)
      ensures Contents() == if ok then SlotTaken(old(Contents())) else old(Contents())
    {
      ok := free > 0;
      if ok {
        free := free - 1;
      }
    }

    method ReturnSlot()
      modifies this`free
      ensures Contents() == SlotReturned(old(Contents()))
    {
      free := free + 1;
    }

    /**
     `_query_db` up to its answer: whatever becomes of the query, the slot it took is back
     afterwards, and the answer is 503 only without a slot or after a failure.
     */
    method QueryDb(outcome: Outcome, at: nat) returns (answer: Answer)
      modifies this`free
      ensures Contents() == old(Contents())
      ensures answer.Unavailable? <==> old(free) == 0 || outcome.Failed?
      ensures answer.Unavailable? || answer == AnswerOf(PublicView(outcome.row), at)
    {
      var ok := TakeSlot();
      if !ok {
        return Unavailable(at);
      }
      answer := if outcome.Failed? then Unavailable(at) else AnswerOf(PublicView(outcome.row), at);
      ReturnSlot();
    }

    /**
     The polling loop: the flight's own rounds, each a sleep and a cache read that takes some
     time and may find an answer. It stops at the first answer, or at the first round that
     would begin at or after the deadline; it goes on exactly where the state machine's
     loop sleeps again.
     */
    method Poll(start: nat, world: nat -> Round) returns (found: Option<Answer>, rounds: nat, now: nat)
      requires forall n :: world(n).took <= 2 * config.redis
      ensures rounds <= MaxRounds(config) && (config.budget == 0 ==> rounds == 0)
      ensures now == ClockAfter(config, start, world, rounds)
      ensures now <= start + LoopWait(config) + (if config.budget == 0 then 0 else 2 * config.redis)
      ensures forall n :: 0 <= n < rounds ==> ClockAfter(config, start, world, n) < start + config.budget
      ensures forall n :: 0 <= n < rounds - 1 ==> world(n).seen.None?
      ensures found.Some? ==> rounds > 0 && world(rounds - 1).seen == found
      ensures found.None? ==> start + config.budget <= now && (rounds > 0 ==> world(rounds - 1).seen.None?)
      ensures forall n :: 0 <= n < rounds ==> LoopTop(config, ClockAfter(config, start, world, n), start + config.budget, n).Sleeping?
      ensures found.None? ==> LoopTop(config, now, start + config.budget, rounds).WaitingSlot?
    {
      var deadline := start + config.budget;
      found, rounds, now := None, 0, start;
      while now < deadline
        invariant now == ClockAfter(config, start, world, rounds)
        invariant now <= start + LoopWait(config) + (if config.budget == 0 then 0 else 2 * config.redis)
        invariant start + Times(rounds, PollStep(config)) <= now <= start + Times(rounds, RoundTime(config))
        invariant rounds <= MaxRounds(config)
        invariant forall n :: 0 <= n < rounds ==> ClockAfter(config, start, world, n) < deadline
        invariant forall n :: 0 <= n < rounds ==> world(n).seen.None?
        invariant found.None?
        decreases if now < deadline then deadline - now else 0
      {
        AnotherRound(config, rounds);
        RoundsFit(config, rounds, now - start);
        now := now + PollStep(config);
        now, found := now + world(rounds).took, world(rounds).seen;
        rounds := rounds + 1;
        if found.Some? {
          return;
        }
      }
    }
  }

  /** What becomes of a database query: the product's row, if any, or a timeout or error. */
  datatype Outcome = Fetched(row: Option<Product>) | Failed

  /** What a round's cache read takes and finds. */
  datatype Round = Round(took: nat, seen: Option<Answer>)

  /** The time after so many rounds. */
  ghost function ClockAfter(c: Config, start: nat, world: nat -> Round, n: nat): nat {
    if n == 0 then start else ClockAfter(c, start, world, n - 1) + PollStep(c) + world(n - 1).took
  }

  // ------------------------------------------------------------------------- the machine's steps on one process

  /** The flights registered in one process of the machine. */
  ghost function TableOf(s: Machine, p: Proc): map<Id, FlightId> {
    map key | key in s.reg && key.0 == p :: key.1 := s.reg[key]
  }

  ghost function RunningOf(s: Machine, p: Proc): set<FlightId> {
    set f | f in s.flights && InFlight(s, f) && s.flights[f].proc == p
  }

  ghost function PartOf(s: Machine, p: Proc): Part
    requires p in s.free
  {
    Part(TableOf(s, p), RunningOf(s, p), s.free[p])
  }

  ghost predicate PartStep(part: Part, part': Part) {
    || part' == part
    || (exists id, f :: f !in part.running && part' == Joining(part, id, f).0)
    || (exists id, f :: Lookup(part.table, id) == Some(f) && part' == Ending(part, id, f))
    || (part.free > 0 && part' == SlotTaken(part))
    || part' == SlotReturned(part)
  }

  /** Whatever step the machine takes, each process does nothing or one of its sections. */
  lemma StepsAreSections(c: Config, s: Machine, s': Machine, p: Proc)
    requires Registered(s) && SlotsOk(c, s) && OneFlightAtMost(s, s') && p in c.procs
    ensures p in s.free && p in s'.free && PartStep(PartOf(s, p), PartOf(s', p))
  {
    if Rests(s, s') {
      assert PartOf(s', p) == PartOf(s, p);
    } else {
      var f :| Walks(s, s', f) || Enters(s, s', f) || Leaves(s, s', f) || Starts(s, s', f) || Ends(s, s', f);
      if Starts(s, s', f) {
        StartIsJoining(s, s', f, p);
      } else if Ends(s, s', f) {
        EndIsEnding(s, s', f, p);
      } else {
        MoveIsSlotSection(s, s', f, p);
      }
    }
  }

  lemma MoveIsSlotSection(s: Machine, s': Machine, f: FlightId, p: Proc)
    requires Walks(s, s', f) || Enters(s, s', f) || Leaves(s, s', f)
    requires p in s.free
    ensures PartStep(PartOf(s, p), PartOf(s', p))
  {
    MovesKeepTable(s, s', f, p);
  }

  lemma MovesKeepTable(s: Machine, s': Machine, f: FlightId, p: Proc)
    requires Moves(s, s', f)
    ensures TableOf(s', p) == TableOf(s, p) && RunningOf(s', p) == RunningOf(s, p)
  {
  }

  lemma StartIsJoining(s: Machine, s': Machine, f: FlightId, p: Proc)
    requires Registered(s) && Starts(s, s', f) && p in s.free
    ensures PartStep(PartOf(s, p), PartOf(s', p))
  {
    var id := s'.flights[f].id;
    StartedParts(s, s', f, p);
    if s'.flights[f].proc == p {
      assert f !in RunningOf(s, p);
      assert PartOf(s', p) == Joining(PartOf(s, p), id, f).0;
    }
  }

  lemma StartedParts(s: Machine, s': Machine, f: FlightId, p: Proc)
    requires Registered(s) && Starts(s, s', f)
    ensures s'.flights[f].proc == p ==>
      && s'.flights[f].id !in TableOf(s, p)
      && TableOf(s', p) == TableOf(s, p)[s'.flights[f].id := f] && RunningOf(s', p) == RunningOf(s, p) + {f}
    ensures s'.flights[f].proc != p ==> TableOf(s', p) == TableOf(s, p) && RunningOf(s', p) == RunningOf(s, p)
  {
    StartedRunning(s, s', f, p);
    StartedTable(s, s', f, p);
  }

  lemma StartedRunning(s: Machine, s': Machine, f: FlightId, p: Proc)
    requires Starts(s, s', f)
    ensures RunningOf(s', p) == if s'.flights[f].proc == p then RunningOf(s, p) + {f} else RunningOf(s, p)
  {
  }

  lemma StartedTable(s: Machine, s': Machine, f: FlightId, p: Proc)
    requires Registered(s) && Starts(s, s', f)
    ensures s'.flights[f].proc == p ==> s'.flights[f].id !in TableOf(s, p)
    ensures TableOf(s', p) == if s'.flights[f].proc == p then TableOf(s, p)[s'.flights[f].id := f] else TableOf(s, p)
  {
  }

  lemma EndIsEnding(s: Machine, s': Machine, f: FlightId, p: Proc)
    requires Registered(s) && Ends(s, s', f) && p in s.free
    ensures PartStep(PartOf(s, p), PartOf(s', p))
  {
    var id := s.flights[f].id;
    EndedParts(s, s', f, p);
    if s.flights[f].proc == p {
      assert Lookup(TableOf(s, p), id) == Some(f);
      assert PartOf(s', p) == Ending(PartOf(s, p), id, f);
    }
  }

  lemma EndedParts(s: Machine, s': Machine, f: FlightId, p: Proc)
    requires Registered(s) && Ends(s, s', f)
    ensures s.flights[f].proc == p ==>
      && Lookup(TableOf(s, p), s.flights[f].id) == Some(f)
      && TableOf(s', p) == TableOf(s, p) - {s.flights[f].id} && RunningOf(s', p) == RunningOf(s, p) - {f}
    ensures s.flights[f].proc != p ==> TableOf(s', p) == TableOf(s, p) && RunningOf(s', p) == RunningOf(s, p)
  {
    EndedTable(s, s', f, p);
    EndedRunning(s, s', f, p);
  }

  lemma EndedTable(s: Machine, s': Machine, f: FlightId, p: Proc)
    requires Registered(s) && Ends(s, s', f)
    ensures s.flights[f].proc == p ==> Lookup(TableOf(s, p), s.flights[f].id) == Some(f)
    ensures TableOf(s', p) == if s.flights[f].proc == p then TableOf(s, p) - {s.flights[f].id} else TableOf(s, p)
  {
    assert s.reg[Place(s.flights[f])] == f;
  }

  lemma EndedRunning(s: Machine, s': Machine, f: FlightId, p: Proc)
    requires Ends(s, s', f)
    ensures RunningOf(s', p) == if s.flights[f].proc == p then RunningOf(s, p) - {f} else RunningOf(s, p)
  {
  }

  /** In every reachable state each process's table is exactly its unfinished flights. */
  lemma ReachableTablesAreTidy(c: Config, run: seq<Machine>, p: Proc)
    requires IsRun(c, run) && p in c.procs
    ensures p in Final(run).free && Tidy(PartOf(Final(run), p))
  {
    var s := Final(run);
    RunIsSafe(c, run);
    forall f | f in RunningOf(s, p)
      ensures f in TableOf(s, p).Values
    {
      assert s.reg[Place(s.flights[f])] == f;
      assert TableOf(s, p)[s.flights[f].id] == f;
    }
  }
}
