/**
 What every reachable state of the read protocol satisfies: where each cached or answered
 value comes from, how old it is, and how long every wait can still take.
 */
module ReadInvariant {
  import opened Wrappers
  import opened Catalog
  import opened CacheStore
  import opened ReadProtocol

  // ------------------------------------------------------------------------- bounds

  /** One polling round takes at most a sleep, a cache read and the discarding of a bad value. */
  function RoundTime(c: Config): nat {
    PollStep(c) + 2 * c.redis
  }

  /** How many sleeps fit below the deadline. */
  function SleepsBelow(c: Config): nat
    requires c.budget > 0
  {
    Quotient(c.budget - 1, PollStep(c))
  }

  /** The latest, after the loop began, that its head can be reached before the deadline. */
  function LoopSpan(c: Config): nat {
    if c.budget == 0 then 0 else Min(c.budget - 1, Times(SleepsBelow(c), RoundTime(c)))
  }

  /** How long after the loop began its last sleep can end. */
  function LoopWait(c: Config): nat {
    if c.budget == 0 then 0 else LoopSpan(c) + PollStep(c)
  }

  /** The latest a polling round may wake. */
  function LastWake(c: Config, started: nat): nat {
    started + c.redis + LoopWait(c)
  }

  /** The latest this round may wake: in time for a last round, and after rounds no longer than they can be. */
  function WakeLimit(c: Config, started: nat, end: nat, rounds: nat): int
    requires rounds > 0
  {
    Min(LastWake(c, started), end - c.budget + Times(rounds - 1, RoundTime(c)) + PollStep(c))
  }

  /** How long one flight can take. */
  function FlightBound(c: Config): nat {
    3 * c.redis + LoopWait(c) + c.slotWait + c.query
  }

  /** How long one call of `detail` can take. */
  function CallBound(c: Config): nat {
    5 * c.redis + LoopWait(c) + c.slotWait + c.query
  }

  /** How old the committed state behind an answer can be: T + Q + 2R. */
  function AgeBound(c: Config): nat {
    Longest(c.ttl) + c.query + 2 * c.redis
  }

  /** How long an answer of this kind stays cached at most. */
  function Lifetime(ttl: Ttl, a: Answer): nat {
    match a
    case Shown(_, _) => ttl.base + ttl.jitter
    case Hidden(_) => ttl.negative
    case Unavailable(_) => 0
  }

  /** The same for one kind of answer; a 503 is kept only while its flight releases the lock. */
  function AgeOf(c: Config, a: Answer): nat {
    if a.Unavailable? then c.redis else Lifetime(c.ttl, a) + c.query + 2 * c.redis
  }

  /** The same for an answer whose flight has still to release the lock. */
  function ReleaseAge(c: Config, a: Answer): nat {
    if a.Unavailable? then c.redis else c.query + 2 * c.redis
  }

  lemma AgeOfBounded(c: Config, a: Answer)
    ensures AgeOf(c, a) <= AgeBound(c)
  {
  }

  /** How many rounds the polling loop can take. */
  function MaxRounds(c: Config): nat {
    if c.budget == 0 then 0 else SleepsBelow(c) + 1
  }

  // ------------------------------------------------------------------------- history

  ghost predicate CommitOk(past: Past, now: nat, id: Id, i: nat)
    requires i < |History(past, id)|
  {
    var h := History(past, id);
    && h[i].pos < |past.log| && h[i].at <= now
    && past.log[h[i].pos].Committed? && past.log[h[i].pos].at == h[i].at && id in past.log[h[i].pos].ids
    && (i > 0 ==> h[i - 1].pos < h[i].pos && h[i - 1].at <= h[i].at)
    && LegalChange(RowAt(past, id, i), h[i].product)
  }

  /** Position `p` of the log is a read of this product. */
  ghost predicate IsRead(past: Past, id: Id, p: nat) {
    p < |past.log| && past.log[p].ReadDb? && past.log[p].id == id && past.log[p].k <= |History(past, id)|
  }

  /** A moment before commit `k + 1` and not before commit `k`. */
  ghost predicate Between(past: Past, id: Id, k: nat, pos: nat, at: nat) {
    var h := History(past, id);
    && k <= |h|
    && (k > 0 ==> h[k - 1].pos < pos && h[k - 1].at <= at)
    && (k < |h| ==> pos < h[k].pos && at <= h[k].at)
  }

  ghost predicate EventOk(c: Config, past: Past, now: nat, p: nat)
    requires p < |past.log|
  {
    match past.log[p]
    case Committed(_, at) => at <= now
    case Granted(_, _, at) => at <= now
    case ReadDb(id, k, _, at) => at <= now && Between(past, id, k, p, at)
    case Stored(id, read, flight, at) =>
      && at <= now && read < p && IsRead(past, id, read) && past.log[read].flight == flight
      && at <= past.log[read].at + c.query + c.redis
    case Removed(id, k) => 0 < k <= |History(past, id)| && History(past, id)[k - 1].pos < p
    case Refused(_, _, at) => at <= now
  }

  ghost predicate PastOk(c: Config, past: Past, now: nat) {
    && (forall id, i :: 0 <= i < |History(past, id)| ==> CommitOk(past, now, id, i))
    && (forall p :: 0 <= p < |past.log| ==> EventOk(c, past, now, p))
  }

  /** Everything recorded stays recorded. */
  ghost predicate Grows(past: Past, past': Past) {
    && past.log <= past'.log
    && forall id :: History(past, id) <= History(past', id)
  }

  // ------------------------------------------------------------------------- answers

  function ReadTime(past: Past, p: nat): nat
    requires p < |past.log| && past.log[p].ReadDb?
  {
    past.log[p].at
  }

  /** A 200 or 404 is what a recorded database read saw; a 503 has a recorded refusal. */
  ghost predicate AnswerOk(past: Past, id: Id, a: Answer) {
    match a
    case Shown(p, read) => IsRead(past, id, read) && PublicView(RowAt(past, id, past.log[read].k)) == Some(p)
    case Hidden(read) => IsRead(past, id, read) && PublicView(RowAt(past, id, past.log[read].k)) == None
    case Unavailable(cause) => cause < |past.log| && past.log[cause].Refused? && past.log[cause].id == id
  }

  /** When the answer came about: its database read, or its refusal. */
  ghost function MomentOf(past: Past, id: Id, a: Answer): nat
    requires AnswerOk(past, id, a)
  {
    past.log[if a.Unavailable? then a.cause else a.read].at
  }

  /** The answer came about at most `bound` before `t`. */
  ghost predicate Fresh(past: Past, id: Id, a: Answer, t: nat, bound: nat) {
    AnswerOk(past, id, a) && t <= MomentOf(past, id, a) + bound
  }

  /** Position `p` of the log is a refusal of this flight: no slot in time, or its query failed. */
  ghost predicate IsRefusal(past: Past, id: Id, f: FlightId, p: nat) {
    p < |past.log| && past.log[p].Refused? && past.log[p].id == id && past.log[p].flight == f
  }

  /** A 503 is the flight's own refusal. */
  ghost predicate OwnFailure(past: Past, id: Id, f: FlightId, a: Answer) {
    a.Unavailable? ==> IsRefusal(past, id, f, a.cause)
  }

  ghost predicate ReadBy(past: Past, id: Id, a: Answer, f: FlightId) {
    AnswerOk(past, id, a) && !a.Unavailable? && past.log[a.read].flight == f
  }

  // ------------------------------------------------------------------------- cache entries

  /** No invalidation of this product is recorded after position `p`. */
  ghost predicate NotRemovedSince(past: Past, id: Id, p: nat) {
    forall q :: p < q < |past.log| ==> !(past.log[q].Removed? && past.log[q].id == id)
  }

  /** An acceptable entry was stored by a flight from its own recorded read, and expires in time. */
  ghost predicate EntryOk(c: Config, past: Past, id: Id, e: Entry, o: Origin) {
    Accepts(id, e.envelope) ==>
      && AnswerOk(past, id, EnvelopeAnswer(e.envelope, o.read))
      && o.stored < |past.log| && past.log[o.stored].Stored?
      && past.log[o.stored].id == id && past.log[o.stored].read == o.read
      && NotRemovedSince(past, id, o.stored)
      && e.expires <= ReadTime(past, o.read) + c.query + c.redis + Lifetime(c.ttl, EnvelopeAnswer(e.envelope, o.read))
  }

  ghost predicate EntriesOk(c: Config, s: Machine) {
    forall id :: id in s.store.entries ==> id in s.origin && EntryOk(c, s.past, id, s.store.entries[id], s.origin[id])
  }

  // ------------------------------------------------------------------------- fetches, flights, calls

  ghost predicate FetchOk(c: Config, past: Past, now: nat, id: Id, fetch: Fetch, latest: int) {
    match fetch
    case Asking(d) => now <= d <= now + c.redis && d <= latest
    case Replied(d, _, read) =>
      && now <= d <= latest
      && (IsHit(id, fetch) ==> Fresh(past, id, HitAnswer(fetch), d, AgeOf(c, HitAnswer(fetch))))
    case Dropping(d) => now <= d <= latest + c.redis
  }

  ghost predicate LoopOk(c: Config, started: nat, end: nat, rounds: nat, reached: nat) {
    && c.budget <= end <= started + c.redis + c.budget
    && end - c.budget + Times(rounds, PollStep(c)) <= reached
    && rounds <= MaxRounds(c)
  }

  ghost predicate PcOk(c: Config, past: Past, now: nat, f: FlightId, fl: Flight) {
    var t0 := fl.started;
    match fl.pc
    case Locking(d, reply) => now <= d == t0 + c.redis && (reply == Some(true) ==> fl.grant.Some?)
    case Sleeping(until, end, rounds) =>
      0 < rounds && LoopOk(c, t0, end, rounds, until) && now <= until <= WakeLimit(c, t0, end, rounds)
    case Polling(fetch, end, rounds) =>
      && 0 < rounds && LoopOk(c, t0, end, rounds, now)
      && FetchOk(c, past, now, fl.id, fetch, WakeLimit(c, t0, end, rounds) + c.redis)
    case WaitingSlot(d, populate) =>
      && now <= d
      && if populate then fl.grant.Some? && d <= t0 + c.redis + c.slotWait
         else d <= LastWake(c, t0) + 2 * c.redis + c.slotWait
    case Querying(d, populate, got) =>
      && now <= d <= now + c.query
      && (if populate then fl.grant.Some? && d <= t0 + c.redis + c.slotWait + c.query
          else d <= LastWake(c, t0) + 2 * c.redis + c.slotWait + c.query)
      && (got.Some? ==> ReadBy(past, fl.id, got.value, f) && Fresh(past, fl.id, got.value, d, c.query))
      && (populate && got.Some? ==> fl.grant.value < got.value.read)
    case Putting(d, a, _) =>
      && now <= d <= t0 + 2 * c.redis + c.slotWait + c.query
      && fl.grant.Some? && ReadBy(past, fl.id, a, f) && fl.grant.value < a.read
      && Fresh(past, fl.id, a, d, c.query + c.redis)
    case Releasing(d, a) =>
      && now <= d <= t0 + 3 * c.redis + c.slotWait + c.query
      && Fresh(past, fl.id, a, d, ReleaseAge(c, a)) && OwnFailure(past, fl.id, f, a)
    case Returning(a, at) =>
      at == now <= t0 + FlightBound(c) && Fresh(past, fl.id, a, at, AgeOf(c, a)) && OwnFailure(past, fl.id, f, a)
    case Finished(a, at) =>
      at <= now && at <= t0 + FlightBound(c) && Fresh(past, fl.id, a, at, AgeOf(c, a)) && OwnFailure(past, fl.id, f, a)
  }

  ghost predicate IsGrant(past: Past, id: Id, f: FlightId, p: nat) {
    p < |past.log| && past.log[p].Granted? && past.log[p].id == id && past.log[p].flight == f
  }

  ghost predicate FlightOk(c: Config, past: Past, now: nat, f: FlightId, fl: Flight) {
    && fl.started <= now
    && (fl.grant.Some? ==> IsGrant(past, fl.id, f, fl.grant.value))
    && PcOk(c, past, now, f, fl)
  }

  /** A cached answer is no failure, and a flight's failure is its own. */
  ghost predicate AnsweredBy(past: Past, flights: map<FlightId, Flight>, call: Call, a: Answer, via: Option<FlightId>) {
    match via
    case None => !a.Unavailable?
    case Some(f) => f in flights && Place(flights[f]) == (call.proc, call.id) && OwnFailure(past, call.id, f, a)
  }

  ghost predicate CallOk(c: Config, past: Past, now: nat, flights: map<FlightId, Flight>, call: Call) {
    && call.began <= now
    && match call.st
       case Fetching(fetch) => FetchOk(c, past, now, call.id, fetch, call.began + c.redis)
       case Waiting(f) =>
         && f in flights && flights[f].proc == call.proc && flights[f].id == call.id
         && flights[f].started <= call.began + 2 * c.redis
         && (flights[f].pc.Finished? ==> flights[f].pc.at == now)
       case Answered(a, at, via) =>
         && at <= now && at <= call.began + CallBound(c) && Fresh(past, call.id, a, at, AgeOf(c, a))
         && AnsweredBy(past, flights, call, a, via)
       case Cancelled => true
  }

  ghost predicate FlightsOk(c: Config, s: Machine) {
    forall f :: f in s.flights ==> FlightOk(c, s.past, s.now, f, s.flights[f])
  }

  ghost predicate CallsOk(c: Config, s: Machine) {
    forall i :: i in s.calls ==> CallOk(c, s.past, s.now, s.flights, s.calls[i])
  }

  ghost predicate Inv(c: Config, s: Machine) {
    && PastOk(c, s.past, s.now)
    && EntriesOk(c, s)
    && FlightsOk(c, s)
    && CallsOk(c, s)
  }

  // ------------------------------------------------------------------------- growth

  lemma ReadStays(past: Past, past': Past, id: Id, p: nat)
    requires Grows(past, past') && IsRead(past, id, p)
    ensures IsRead(past', id, p) && past'.log[p] == past.log[p]
    ensures RowAt(past', id, past.log[p].k) == RowAt(past, id, past.log[p].k)
  {
    assert History(past, id) <= History(past', id);
  }

  lemma AnswerStays(past: Past, past': Past, id: Id, a: Answer)
    requires Grows(past, past') && AnswerOk(past, id, a)
    ensures AnswerOk(past', id, a)
    ensures MomentOf(past', id, a) == MomentOf(past, id, a)
    ensures !a.Unavailable? ==> past'.log[a.read] == past.log[a.read]
  {
    if !a.Unavailable? {
      ReadStays(past, past', id, a.read);
    }
  }

  lemma FreshStays(past: Past, past': Past, id: Id, a: Answer, t: nat, bound: nat)
    requires Grows(past, past') && Fresh(past, id, a, t, bound)
    ensures Fresh(past', id, a, t, bound)
  {
    AnswerStays(past, past', id, a);
  }

  lemma EntryStays(c: Config, past: Past, past': Past, id: Id, e: Entry, o: Origin)
    requires Grows(past, past') && EntryOk(c, past, id, e, o)
    requires forall q :: |past.log| <= q < |past'.log| ==> !(past'.log[q].Removed? && past'.log[q].id == id)
    ensures EntryOk(c, past', id, e, o)
  {
    if Accepts(id, e.envelope) {
      AnswerStays(past, past', id, EnvelopeAnswer(e.envelope, o.read));
    }
  }

  lemma FetchStays(c: Config, past: Past, past': Past, now: nat, id: Id, fetch: Fetch, latest: int)
    requires Grows(past, past') && FetchOk(c, past, now, id, fetch, latest)
    ensures FetchOk(c, past', now, id, fetch, latest)
  {
    if IsHit(id, fetch) {
      FreshStays(past, past', id, HitAnswer(fetch), fetch.deadline, AgeOf(c, HitAnswer(fetch)));
    }
  }

  lemma FlightStays(c: Config, past: Past, past': Past, now: nat, f: FlightId, fl: Flight)
    requires Grows(past, past') && FlightOk(c, past, now, f, fl)
    ensures FlightOk(c, past', now, f, fl)
  {
    if fl.pc.Querying? || fl.pc.Putting? {
      PopulatorStays(c, past, past', now, f, fl);
    } else if fl.pc.Releasing? || fl.pc.Returning? || fl.pc.Finished? {
      AnsweringStays(c, past, past', now, f, fl);
    } else if fl.pc.Polling? {
      FetchStays(c, past, past', now, fl.id, fl.pc.fetch, WakeLimit(c, fl.started, fl.pc.end, fl.pc.rounds) + c.redis);
    }
  }

  lemma PopulatorStays(c: Config, past: Past, past': Past, now: nat, f: FlightId, fl: Flight)
    requires Grows(past, past') && FlightOk(c, past, now, f, fl) && (fl.pc.Querying? || fl.pc.Putting?)
    ensures FlightOk(c, past', now, f, fl)
  {
    if fl.pc.Putting? {
      AnswerStays(past, past', fl.id, fl.pc.answer);
    } else if fl.pc.got.Some? {
      AnswerStays(past, past', fl.id, fl.pc.got.value);
    }
  }

  lemma AnsweringStays(c: Config, past: Past, past': Past, now: nat, f: FlightId, fl: Flight)
    requires Grows(past, past') && FlightOk(c, past, now, f, fl)
    requires fl.pc.Releasing? || fl.pc.Returning? || fl.pc.Finished?
    ensures FlightOk(c, past', now, f, fl)
  {
    AnswerStays(past, past', fl.id, fl.pc.answer);
  }

  lemma CallStays(c: Config, past: Past, past': Past, now: nat, flights: map<FlightId, Flight>, call: Call)
    requires Grows(past, past') && CallOk(c, past, now, flights, call)
    ensures CallOk(c, past', now, flights, call)
  {
    match call.st
    case Fetching(fetch) => FetchStays(c, past, past', now, call.id, fetch, call.began + c.redis);
    case Answered(a, at, _) => FreshStays(past, past', call.id, a, at, AgeOf(c, a));
    case _ =>
  }

  // ------------------------------------------------------------------------- frames

  /** All flights and calls but the named ones stand as they were; what is recorded only grows. */
  ghost predicate Framed(s: Machine, s': Machine) {
    s'.now == s.now && Grows(s.past, s'.past)
  }

  lemma FlightsKept(c: Config, s: Machine, s': Machine, f: FlightId)
    requires FlightsOk(c, s) && Framed(s, s')
    requires f in s'.flights && s'.flights == s.flights[f := s'.flights[f]]
    requires FlightOk(c, s'.past, s'.now, f, s'.flights[f])
    ensures FlightsOk(c, s')
  {
    forall g | g in s'.flights
      ensures FlightOk(c, s'.past, s'.now, g, s'.flights[g])
    {
      if g != f {
        FlightStays(c, s.past, s'.past, s.now, g, s.flights[g]);
      }
    }
  }

  /** Calls see a flight only by its place, its start and its end. */
  lemma CallsKept(c: Config, s: Machine, s': Machine, f: FlightId)
    requires CallsOk(c, s) && Framed(s, s') && s'.calls == s.calls
    requires f in s'.flights && s'.flights == s.flights[f := s'.flights[f]]
    requires f in s.flights ==>
      var a, b := s.flights[f], s'.flights[f];
      a.proc == b.proc && a.id == b.id && a.started == b.started && (b.pc.Finished? ==> b.pc.at == s.now)
    ensures CallsOk(c, s')
  {
    forall i | i in s'.calls
      ensures CallOk(c, s'.past, s'.now, s'.flights, s'.calls[i])
    {
      CallStays(c, s.past, s'.past, s.now, s.flights, s.calls[i]);
    }
  }

  lemma EntriesKept(c: Config, s: Machine, s': Machine)
    requires EntriesOk(c, s) && Grows(s.past, s'.past)
    requires forall q :: |s.past.log| <= q < |s'.past.log| ==> !s'.past.log[q].Removed?
    requires forall id :: id in s'.store.entries ==>
      id in s.store.entries && s'.store.entries[id] == s.store.entries[id] && id in s'.origin && s'.origin[id] == s.origin[id]
    ensures EntriesOk(c, s')
  {
    forall id | id in s'.store.entries
      ensures id in s'.origin && EntryOk(c, s'.past, id, s'.store.entries[id], s'.origin[id])
    {
      EntryStays(c, s.past, s'.past, id, s.store.entries[id], s.origin[id]);
    }
  }

  lemma Grown(past: Past, e: Event)
    ensures Grows(past, past.(log := past.log + [e]))
  {
  }

  /** One more event that is in order keeps the history in order. */
  lemma OneMoreEvent(c: Config, past: Past, now: nat, e: Event)
    requires PastOk(c, past, now)
    requires EventOk(c, past.(log := past.log + [e]), now, |past.log|)
    ensures PastOk(c, past.(log := past.log + [e]), now)
  {
    var past' := past.(log := past.log + [e]);
    forall id, i | 0 <= i < |History(past', id)|
      ensures CommitOk(past', now, id, i)
    {
      assert CommitOk(past, now, id, i);
    }
    forall p | 0 <= p < |past'.log|
      ensures EventOk(c, past', now, p)
    {
      if p < |past.log| {
        EventStays(c, past, past', now, p);
      }
    }
  }

  lemma EventStays(c: Config, past: Past, past': Past, now: nat, p: nat)
    requires p < |past.log| && EventOk(c, past, now, p)
    requires past.log <= past'.log && past'.hist == past.hist
    ensures EventOk(c, past', now, p)
  {
    assert past'.log[p] == past.log[p];
    if past.log[p].Stored? {
      assert past'.log[past.log[p].read] == past.log[past.log[p].read];
    }
  }
}
