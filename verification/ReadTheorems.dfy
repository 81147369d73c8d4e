/**
 What holds of every run of the read protocol: how stale an answer can be, where cached
 data comes from, and how long a call can take.
 */
module ReadTheorems {
  import opened Wrappers
  import opened Domain
  import opened Catalog
  import opened CacheStore
  import opened Runs
  import opened ReadProtocol
  import opened ReadInvariant
  import opened ReadFlights
  import opened ReadSteps
  import opened ReadLocks

  // ------------------------------------------------------------------------- answers are given once, after their cause

  predicate IsAnswered(s: Machine, i: CallId) {
    i in s.calls && s.calls[i].st.Answered?
  }

  /** An answered call stays as it is; a new answer is given now. */
  lemma CallsAnswerOnce(c: Config, s: Machine, s': Machine, step: Step, i: CallId)
    requires CallStep(c, s, s', step) && IsAnswered(s', i)
    ensures if IsAnswered(s, i) then s'.calls[i] == s.calls[i] else s'.calls[i].st.at == s'.now
  {
  }

  lemma AnsweredOnce(c: Config, s: Machine, s': Machine, step: Step, i: CallId)
    requires NextBy(c, s, s', step) && IsAnswered(s', i)
    ensures if IsAnswered(s, i) then s'.calls[i] == s.calls[i] else s'.calls[i].st.at == s'.now
  {
    if CallStep(c, s, s', step) {
      CallsAnswerOnce(c, s, s', step, i);
    } else {
      OthersLeaveCalls(c, s, s', step);
    }
  }

  /** The database read, or the refusal, behind the answer is recorded, and no later than `t`. */
  ghost predicate CausedBefore(past: Past, id: Id, a: Answer, t: nat) {
    AnswerOk(past, id, a) && MomentOf(past, id, a) <= t
  }

  lemma {:induction false} NoAnswerBeforeItsCause(c: Config, run: seq<Machine>, i: CallId)
    requires IsRun(c, run) && IsAnswered(Final(run), i)
    ensures var call := Final(run).calls[i];
      CausedBefore(Final(run).past, call.id, call.st.answer, call.st.at)
  {
    RunIsSafe(c, run);
    if |run| > 1 {
      var step := LastStep(c, run);
      var s, s' := Final(run[..|run| - 1]), Final(run);
      AnsweredOnce(c, s, s', step, i);
      if IsAnswered(s, i) {
        NoAnswerBeforeItsCause(c, run[..|run| - 1], i);
        LogGrows(c, s, s', step);
        AnswerStays(s.past, s'.past, s.calls[i].id, s.calls[i].st.answer);
      } else {
        AnswerCausedByNow(c, s', i);
      }
    }
  }

  lemma AnswerCausedByNow(c: Config, s: Machine, i: CallId)
    requires Inv(c, s) && IsAnswered(s, i)
    ensures CausedBefore(s.past, s.calls[i].id, s.calls[i].st.answer, s.now)
  {
    var a := s.calls[i].st.answer;
    assert CallOk(c, s.past, s.now, s.flights, s.calls[i]);
    assert EventOk(c, s.past, s.now, if a.Unavailable? then a.cause else a.read);
  }

  /**
   Every 503 is the refusal of the very flight the call waited for, a query failure or a
   slot timeout, and it is at most one Redis timeout old: failures are never kept.
   */
  lemma EveryFailureIsRecent(c: Config, run: seq<Machine>, i: CallId)
    requires IsRun(c, run) && IsAnswered(Final(run), i) && Final(run).calls[i].st.answer.Unavailable?
    ensures RecentlyRefused(c, Final(run), Final(run).calls[i])
  {
    RunIsSafe(c, run);
    NoAnswerBeforeItsCause(c, run, i);
    assert CallOk(c, Final(run).past, Final(run).now, Final(run).flights, Final(run).calls[i]);
  }

  ghost predicate RecentlyRefused(c: Config, s: Machine, call: Call)
    requires call.st.Answered? && call.st.answer.Unavailable?
  {
    && call.st.via.Some? && call.st.via.value in s.flights
    && Place(s.flights[call.st.via.value]) == (call.proc, call.id)
    && IsRefusal(s.past, call.id, call.st.via.value, call.st.answer.cause)
    && s.past.log[call.st.answer.cause].at <= call.st.at <= s.past.log[call.st.answer.cause].at + c.redis
  }

  lemma LogGrows(c: Config, s: Machine, s': Machine, step: Step)
    requires NextBy(c, s, s', step)
    ensures Grows(s.past, s'.past)
  {
    if step.CommitRows? {
      CommitGrows(s, s', step.changes);
    } else if WriterStep(s, s', step) {
      JobsGrow(s, s', step);
    } else {
      ReadersWriteNothing(c, s, s', step);
      NoWriteGrows(s, s');
    }
  }

  lemma NoWriteGrows(s: Machine, s': Machine)
    requires NoWrite(s, s')
    ensures Grows(s.past, s'.past)
  {
  }

  lemma JobsGrow(s: Machine, s': Machine, step: Step)
    requires WriterStep(s, s', step) && !step.CommitRows?
    ensures Grows(s.past, s'.past)
  {
  }

  // ------------------------------------------------------------------------- bounded staleness

  /** After `k` commits and not yet after the next, at moment `m`. */
  ghost predicate CurrentAt(past: Past, id: Id, k: nat, m: nat) {
    var h := History(past, id);
    && k <= |h|
    && (k > 0 ==> h[k - 1].at <= m)
    && (k < |h| ==> m <= h[k].at)
  }

  /** What a reader of the product's row would be told after `k` commits. */
  ghost predicate Reflects(past: Past, id: Id, a: Answer, k: nat) {
    && k <= |History(past, id)|
    && match PublicView(RowAt(past, id, k))
       case Some(p) => a.Shown? && a.product == p
       case None => a.Hidden?
  }

  /**
   Every 200 or 404, from the cache, a joined flight or the database, tells a committed
   state of the product that was current at some moment of the last T + Q + 2R; T is the
   longest lifetime of a cached answer of that kind, so no more than the longest of any.
   */
  lemma BoundedStaleness(c: Config, run: seq<Machine>, i: CallId) returns (k: nat, m: nat)
    requires IsRun(c, run) && IsAnswered(Final(run), i) && !Final(run).calls[i].st.answer.Unavailable?
    ensures var call, past := Final(run).calls[i], Final(run).past;
      && m <= call.st.at <= m + AgeOf(c, call.st.answer) <= m + AgeBound(c)
      && CurrentAt(past, call.id, k, m)
      && Reflects(past, call.id, call.st.answer, k)
    ensures var call, h := Final(run).calls[i], History(Final(run).past, Final(run).calls[i].id);
      && m <= call.st.at <= m + (if call.st.answer.Shown? then c.ttl.base + c.ttl.jitter else c.ttl.negative) + c.query + 2 * c.redis
      && k <= |h| && (k > 0 ==> h[k - 1].at <= m) && (k < |h| ==> m <= h[k].at)
      && (call.st.answer.Shown? <==> k > 0 && h[k - 1].product.status == OnShelf)
      && (call.st.answer.Shown? ==> call.st.answer.product == h[k - 1].product)
  {
    var s := Final(run);
    RunIsSafe(c, run);
    NoAnswerBeforeItsCause(c, run, i);
    var read := s.calls[i].st.answer.read;
    assert CallOk(c, s.past, s.now, s.flights, s.calls[i]);
    assert EventOk(c, s.past, s.now, read);
    k, m := s.past.log[read].k, s.past.log[read].at;
    AgeOfBounded(c, s.calls[i].st.answer);
  }

  /** An answer given more than T + Q + 2R after the `n`-th commit tells that commit or a later one. */
  lemma OldCommitsAreSeen(c: Config, run: seq<Machine>, i: CallId, n: nat) returns (k: nat)
    requires IsRun(c, run) && IsAnswered(Final(run), i) && !Final(run).calls[i].st.answer.Unavailable?
    requires var call := Final(run).calls[i]; var h := History(Final(run).past, call.id);
      0 < n <= |h| && h[n - 1].at + AgeOf(c, call.st.answer) < call.st.at
    ensures n <= k && Reflects(Final(run).past, Final(run).calls[i].id, Final(run).calls[i].st.answer, k)
  {
    var m;
    k, m := BoundedStaleness(c, run, i);
    RunIsSafe(c, run);
    if k < n {
      CommitsAscend(Final(run).past, Final(run).now, Final(run).calls[i].id, k, n - 1);
    }
  }

  /** Once penalized, a product stays penalized in every later committed state. */
  lemma {:induction false} PenalizedForGood(past: Past, now: nat, id: Id, n: nat, k: nat)
    requires forall i :: 0 <= i < |History(past, id)| ==> CommitOk(past, now, id, i)
    requires 0 < n <= k <= |History(past, id)| && RowAt(past, id, n).value.status == Penalized
    ensures RowAt(past, id, k).value.status == Penalized
    decreases k
  {
    if n < k {
      PenalizedForGood(past, now, id, n, k - 1);
      assert CommitOk(past, now, id, k - 1);
      AllowedIff(Penalized, RowAt(past, id, k).value.status);
    }
  }

  /** How old a 200 can be. */
  function ShownAge(c: Config): nat {
    c.ttl.base + c.ttl.jitter + c.query + 2 * c.redis
  }

  /**
   End to end: a product committed as penalized at time t is never answered with 200 after
   t + T + Q + 2R, whatever the interleaving, failed deletions and late cache writes.
   */
  lemma PenalizedIsNeverShown(c: Config, run: seq<Machine>, i: CallId, n: nat)
    requires IsRun(c, run) && IsAnswered(Final(run), i)
    requires var call := Final(run).calls[i]; var h := History(Final(run).past, call.id);
      0 < n <= |h| && h[n - 1].product.status == Penalized && h[n - 1].at + ShownAge(c) < call.st.at
    ensures !Final(run).calls[i].st.answer.Shown?
  {
    var call := Final(run).calls[i];
    if call.st.answer.Shown? {
      var k := OldCommitsAreSeen(c, run, i, n);
      RunIsSafe(c, run);
      PenalizedForGood(Final(run).past, Final(run).now, call.id, n, k);
    }
  }

  // ------------------------------------------------------------------------- provenance

  /** The `k`-th committed state of a product has version `k`. */
  lemma {:induction false} VersionIsPosition(past: Past, now: nat, id: Id, k: nat)
    requires forall i :: 0 <= i < |History(past, id)| ==> CommitOk(past, now, id, i)
    requires 0 < k <= |History(past, id)|
    ensures RowAt(past, id, k).value.version == k
  {
    assert CommitOk(past, now, id, k - 1);
    if k > 1 {
      VersionIsPosition(past, now, id, k - 1);
    }
  }

  ghost predicate HasSnapshot(s: Machine, id: Id) {
    id in s.store.entries && id in s.origin && Accepts(id, s.store.entries[id].envelope)
  }

  /** A cached product is the committed on-shelf row of its version; a cached "missing" is a committed absent or off-shelf state. */
  lemma CachedDataWasCommitted(c: Config, run: seq<Machine>, id: Id) returns (k: nat)
    requires IsRun(c, run) && id in Final(run).store.entries && Accepts(id, Final(run).store.entries[id].envelope)
    ensures HasSnapshot(Final(run), id) && k <= |History(Final(run).past, id)|
    ensures IsRead(Final(run).past, id, Final(run).origin[id].read) && Final(run).past.log[Final(run).origin[id].read].k == k
    ensures var e, row := Final(run).store.entries[id].envelope, RowAt(Final(run).past, id, k);
      match e
      case Snapshot(_, p, version) => row == Some(p) && p.status == OnShelf && p.version == version == k
      case _ => row.None? || row.value.status != OnShelf
  {
    var s := Final(run);
    RunIsSafe(c, run);
    assert EntryOk(c, s.past, id, s.store.entries[id], s.origin[id]);
    k := s.past.log[s.origin[id].read].k;
    if k > 0 {
      VersionIsPosition(s.past, s.now, id, k);
    }
  }

  /**
   A cached value older than the latest commit is explained: that commit's deletion has not
   taken effect, or one flight read before the commit and wrote after the deletion.
   */
  lemma StaleEntryIsExplained(c: Config, run: seq<Machine>, id: Id)
    requires IsRun(c, run) && HasSnapshot(Final(run), id)
    requires var s := Final(run);
      IsRead(s.past, id, s.origin[id].read) && s.past.log[s.origin[id].read].k < |History(s.past, id)|
    ensures var s := Final(run); var o, n := s.origin[id], |History(s.past, id)|;
      && o.stored < Here(s) && s.past.log[o.stored].Stored? && s.past.log[o.stored].read == o.read
      && s.past.log[o.stored].flight == s.past.log[o.read].flight
      && (forall q: nat :: IsRemoval(s.past, id, n, q) ==> o.read < History(s.past, id)[n - 1].pos < q < o.stored)
      && (id, n) in s.jobs
      && (s.jobs[(id, n)].Succeeded? ==> exists q: nat :: IsRemoval(s.past, id, n, q))
  {
    var s := Final(run);
    RunIsSafe(c, run);
    ExplainStaleness(c, s, id);
    assert JobOk(s.past, id, |History(s.past, id)|, s.jobs[(id, |History(s.past, id)|)]);
  }

  lemma ExplainStaleness(c: Config, s: Machine, id: Id)
    requires PastOk(c, s.past, s.now) && EntriesOk(c, s) && HasSnapshot(s, id)
    requires IsRead(s.past, id, s.origin[id].read) && s.past.log[s.origin[id].read].k < |History(s.past, id)|
    ensures var o, n := s.origin[id], |History(s.past, id)|;
      && o.stored < Here(s) && s.past.log[o.stored].Stored? && s.past.log[o.stored].read == o.read
      && s.past.log[o.stored].flight == s.past.log[o.read].flight
      && (forall q: nat :: IsRemoval(s.past, id, n, q) ==> o.read < History(s.past, id)[n - 1].pos < q < o.stored)
  {
    var o, n, h := s.origin[id], |History(s.past, id)|, History(s.past, id);
    assert EntryOk(c, s.past, id, s.store.entries[id], o);
    assert EventOk(c, s.past, s.now, o.stored) && EventOk(c, s.past, s.now, o.read);
    CommitsAscend(s.past, s.now, id, s.past.log[o.read].k, n - 1);
    forall q: nat | IsRemoval(s.past, id, n, q)
      ensures o.read < h[n - 1].pos < q < o.stored
    {
      assert EventOk(c, s.past, s.now, q);
    }
  }

  // ------------------------------------------------------------------------- time

  /** A call that has no answer yet is younger than the bound; so is every answer. */
  lemma AnswersAreTimely(c: Config, run: seq<Machine>, i: CallId)
    requires IsRun(c, run) && i in Final(run).calls
    ensures var s := Final(run);
      match s.calls[i].st
      case Answered(_, at, _) => at <= s.calls[i].began + CallBound(c)
      case Cancelled => true
      case _ => s.now <= s.calls[i].began + CallBound(c)
  {
    var s := Final(run);
    RunIsSafe(c, run);
    assert CallOk(c, s.past, s.now, s.flights, s.calls[i]);
    if s.calls[i].st.Waiting? {
      FlightIsYoung(c, s, s.calls[i].st.flight);
    }
  }

  lemma FlightIsYoung(c: Config, s: Machine, f: FlightId)
    requires FlightsOk(c, s) && f in s.flights
    ensures (if InFlight(s, f) then s.now else s.flights[f].pc.at) <= s.flights[f].started + FlightBound(c)
  {
    assert FlightOk(c, s.past, s.now, f, s.flights[f]);
  }

  /** The contention loop takes at most ceil(B / min(25, B)) rounds, and none without a budget. */
  lemma PollingIsBounded(c: Config, run: seq<Machine>, f: FlightId)
    requires IsRun(c, run) && f in Final(run).flights
    ensures var pc := Final(run).flights[f].pc;
      pc.Sleeping? || pc.Polling? ==> 0 < c.budget && pc.rounds <= (c.budget + Min(25, c.budget) - 1) / Min(25, c.budget)
  {
    RunIsSafe(c, run);
    RoundsAreBounded(c, Final(run), f);
    if c.budget > 0 {
      MaxRoundsIsCeiling(c);
    }
  }

  lemma RoundsAreBounded(c: Config, s: Machine, f: FlightId)
    requires FlightsOk(c, s) && f in s.flights
    ensures var pc := s.flights[f].pc;
      pc.Sleeping? || pc.Polling? ==> 0 < c.budget && pc.rounds <= MaxRounds(c)
  {
    assert FlightOk(c, s.past, s.now, f, s.flights[f]);
  }

  // ------------------------------------------------------------------------- one process

  /** In every reachable state: one unfinished flight for a product in a process, and it is the registered one. */
  lemma FlightsAreSingle(c: Config, run: seq<Machine>, f: FlightId, g: FlightId)
    requires IsRun(c, run) && InFlight(Final(run), f) && InFlight(Final(run), g)
    ensures Lookup(Final(run).reg, Place(Final(run).flights[f])) == Some(f)
    ensures Place(Final(run).flights[f]) == Place(Final(run).flights[g]) ==> f == g
  {
    RunIsSafe(c, run);
  }

  /** In every reachable state: free slots and database reads add up to the configured number. */
  lemma SlotsAreConserved(c: Config, run: seq<Machine>, p: Proc)
    requires IsRun(c, run) && p in c.procs
    ensures p in Final(run).free && Final(run).free[p] + |InDatabase(Final(run), p)| == c.slots
  {
    RunIsSafe(c, run);
  }
}
