/**
 The public read protocol as a timed state machine.

 Time is discrete milliseconds. Several processes answer calls; each has its own table of
 flights and its own database slots. They share one Redis and one database; writers
 commit and then delete cache entries. Every wait has a deadline that time cannot pass,
 local computation takes no time, and a Redis command takes effect before its caller's
 timeout, or never.

 `past` records what happened: it never influences a step.
 */
module ReadProtocol {
  import opened Wrappers
  import opened Domain
  import opened Catalog
  import opened CacheStore
  import opened Runs

  type Proc = nat
  type CallId = nat
  type FlightId = nat

  datatype Config = Config(
    procs: set<Proc>,
    slots: nat,        // database concurrency of one process
    redis: nat,        // R: timeout of one Redis command
    slotWait: nat,     // S: wait for a database slot
    query: nat,        // Q: database query timeout
    budget: nat,       // B: time a lock loser may poll
    ttl: Ttl)

  /** The sleep of one polling round. */
  function PollStep(c: Config): nat {
    Min(25, c.budget)
  }

  // ------------------------------------------------------------------------- history

  datatype Event =
    | Committed(ids: set<Id>, at: nat)
    | Granted(id: Id, flight: FlightId, at: nat)
    | ReadDb(id: Id, k: nat, flight: FlightId, at: nat)             // saw the first k commits of the product
    | Stored(id: Id, read: nat, flight: FlightId, at: nat)          // wrote the snapshot of the read at that position
    | Removed(id: Id, k: nat)                                   // the invalidation of commit k deleted the key
    | Refused(id: Id, flight: FlightId, at: nat)                    // no slot in time, or the query failed

  /** One committed state of a product, when it was committed, and where the log says so. */
  datatype Commit = Commit(product: Product, at: nat, pos: nat)

  datatype Past = Past(hist: map<Id, seq<Commit>>, log: seq<Event>)

  function History(past: Past, id: Id): seq<Commit> {
    if id in past.hist then past.hist[id] else []
  }

  /** The product's row after its first `k` commits. */
  function RowAt(past: Past, id: Id, k: nat): Option<Product>
    requires k <= |History(past, id)|
  {
    if k == 0 then None else Some(History(past, id)[k - 1].product)
  }

  /** `get_public`: the row if it is on the shelf. */
  function PublicView(row: Option<Product>): Option<Product> {
    if row.Some? && row.value.status == OnShelf then row else None
  }

  /** 200, 404 or 503, with the log position of the database read, or of the refusal, behind it. */
  datatype Answer =
    | Shown(product: Product, read: nat)
    | Hidden(read: nat)
    | Unavailable(cause: nat)

  function AnswerOf(view: Option<Product>, read: nat): Answer {
    match view
    case Some(p) => Shown(p, read)
    case None => Hidden(read)
  }

  function EnvelopeAnswer(e: Envelope, read: nat): Answer {
    if e.Snapshot? then Shown(e.product, read) else Hidden(read)
  }

  // ------------------------------------------------------------------------- state

  /** One `_cache_get`: the command on its way, answered, or the discarding of a bad value. */
  datatype Fetch =
    | Asking(deadline: nat)
    | Replied(deadline: nat, seen: Option<Envelope>, read: nat)
    | Dropping(deadline: nat)

  datatype Pc =
    | Locking(deadline: nat, reply: Option<bool>)
    | Sleeping(until: nat, end: nat, rounds: nat)
    | Polling(fetch: Fetch, end: nat, rounds: nat)
    | WaitingSlot(deadline: nat, populate: bool)
    | Querying(deadline: nat, populate: bool, got: Option<Answer>)
    | Putting(deadline: nat, answer: Answer, served: bool)
    | Releasing(deadline: nat, answer: Answer)
    | Returning(answer: Answer, at: nat)
    | Finished(answer: Answer, at: nat)

  /** A flight; its own number is its lock token, unique by construction. `grant` is the position of its lock grant. */
  datatype Flight = Flight(proc: Proc, id: Id, started: nat, grant: Option<nat>, pc: Pc)

  function Place(fl: Flight): (Proc, Id) {
    (fl.proc, fl.id)
  }

  datatype CallState =
    | Fetching(fetch: Fetch)
    | Waiting(flight: FlightId)
    | Answered(answer: Answer, at: nat, via: Option<FlightId>)   // from the cache, or by the flight it waited for
    | Cancelled

  datatype Call = Call(proc: Proc, id: Id, began: nat, st: CallState)

  /** The invalidation of one commit: up to three delete attempts. */
  datatype Job = Queued | Deleting(attempt: nat, served: bool) | Resting(attempt: nat) | Succeeded | GivenUp(attempt: nat)

  /** The log positions behind a cache entry: the database read and the write. */
  datatype Origin = Origin(read: nat, stored: nat)

  datatype Machine = Machine(
    now: nat,
    past: Past,
    store: Store,
    origin: map<Id, Origin>,
    free: map<Proc, nat>,
    reg: map<(Proc, Id), FlightId>,
    flights: map<FlightId, Flight>,
    calls: map<CallId, Call>,
    jobs: map<(Id, nat), Job>)

  function Initial(c: Config): Machine {
    Machine(0, Past(map[], []), EMPTY_STORE, map[], map p | p in c.procs :: c.slots, map[], map[], map[], map[])
  }

  // ------------------------------------------------------------------------- local moves

  function Deadline(pc: Pc): nat {
    match pc
    case Locking(d, _) => d
    case Sleeping(until, _, _) => until
    case Polling(fetch, _, _) => fetch.deadline
    case WaitingSlot(d, _) => d
    case Querying(d, _, _) => d
    case Putting(d, _, _) => d
    case Releasing(d, _) => d
    case Returning(_, at) => at
    case Finished(_, at) => at
  }

  /** The head of the polling loop. */
  function LoopTop(c: Config, now: nat, end: nat, rounds: nat): Pc {
    if now < end then Sleeping(now + PollStep(c), end, rounds + 1) else WaitingSlot(now + c.slotWait, false)
  }

  /** What the reply to `SET NX PX` leads to: the query, or the polling loop. */
  function AfterLock(c: Config, now: nat, granted: bool): Pc {
    if granted then WaitingSlot(now + c.slotWait, true) else LoopTop(c, now, now + c.budget, 0)
  }

  /** The lock holder writes the cache before it answers; a fallback answers at once. */
  function AfterQuery(c: Config, now: nat, populate: bool, answer: Answer): Pc {
    if populate then Putting(now + c.redis, answer, false) else Returning(answer, now)
  }

  /** After a refusal there is nothing to cache, but a held lock is released. */
  function AfterRefusal(c: Config, now: nat, populate: bool, answer: Answer): Pc {
    if populate then Releasing(now + c.redis, answer) else Returning(answer, now)
  }

  predicate IsHit(id: Id, fetch: Fetch) {
    fetch.Replied? && fetch.seen.Some? && Accepts(id, fetch.seen.value)
  }

  predicate IsBad(id: Id, fetch: Fetch) {
    fetch.Replied? && fetch.seen.Some? && !Accepts(id, fetch.seen.value)
  }

  function HitAnswer(fetch: Fetch): Answer
    requires fetch.Replied? && fetch.seen.Some?
  {
    EnvelopeAnswer(fetch.seen.value, fetch.read)
  }

  /** Redis runs a GET. */
  function ServeGet(s: Machine, id: Id, deadline: nat): Fetch {
    Replied(deadline, Get(s.store, id, s.now), if id in s.origin then s.origin[id].read else 0)
  }

  predicate InFlight(s: Machine, f: FlightId) {
    f in s.flights && !s.flights[f].pc.Finished?
  }

  function Goto(s: Machine, f: FlightId, pc: Pc): Machine
    requires f in s.flights
  {
    s.(flights := s.flights[f := s.flights[f].(pc := pc)])
  }

  function Record(s: Machine, e: Event): Machine {
    s.(past := s.past.(log := s.past.log + [e]))
  }

  function Here(s: Machine): nat {
    |s.past.log|
  }

  function CallTo(s: Machine, i: CallId, st: CallState): Machine
    requires i in s.calls
  {
    s.(calls := s.calls[i := s.calls[i].(st := st)])
  }

  /** The single-flight section of `detail`: join the registered flight unless it is done, else start `anew`. */
  function Join(s: Machine, i: CallId, anew: FlightId, c: Config): Machine
    requires i in s.calls
  {
    var call := s.calls[i];
    var key := (call.proc, call.id);
    if key in s.reg && InFlight(s, s.reg[key]) then CallTo(s, i, Waiting(s.reg[key]))
    else
      CallTo(s, i, Waiting(anew)).(
        reg := s.reg[key := anew],
        flights := s.flights[anew := Flight(call.proc, call.id, s.now, None, Locking(s.now + c.redis, None))])
  }

  function LockAnswered(fl: Flight, grant: Option<nat>): Flight
    requires fl.pc.Locking?
  {
    Flight(fl.proc, fl.id, fl.started, grant, Locking(fl.pc.deadline, Some(grant.Some?)))
  }

  /** Redis sets the lock. */
  function TakeLock(c: Config, s: Machine, f: FlightId): Machine
    requires f in s.flights && s.flights[f].pc.Locking?
  {
    var fl := s.flights[f];
    Record(
      s.(store := TryLock(s.store, c.ttl, fl.id, f, s.now), flights := s.flights[f := LockAnswered(fl, Some(Here(s)))]),
      Granted(fl.id, f, s.now))
  }

  /** Redis finds the lock taken. */
  function MissLock(s: Machine, f: FlightId): Machine
    requires f in s.flights && s.flights[f].pc.Locking?
  {
    s.(flights := s.flights[f := LockAnswered(s.flights[f], None)])
  }

  /** The cleanup section of `_run_flight`: unregister only oneself. */
  function Unregister(reg: map<(Proc, Id), FlightId>, key: (Proc, Id), f: FlightId): map<(Proc, Id), FlightId> {
    if key in reg && reg[key] == f then reg - {key} else reg
  }

  // ------------------------------------------------------------------------- steps

  datatype Step =
    // a call of `detail`
    | Begin(i: CallId, p: Proc, id: Id)
    | CallServe(i: CallId)
    | CallReject(i: CallId)
    | CallDrop(i: CallId)
    | CallHit(i: CallId)
    | CallJoin(i: CallId, anew: FlightId)
    | CallResume(i: CallId)
    | CallCancel(i: CallId)
    // a flight
    | LockServe(f: FlightId)
    | LockReply(f: FlightId)
    | LockFail(f: FlightId)
    | Wake(f: FlightId)
    | PollServe(f: FlightId)
    | PollReject(f: FlightId)
    | PollDrop(f: FlightId)
    | PollHit(f: FlightId)
    | PollMiss(f: FlightId)
    | SlotGrant(f: FlightId)
    | SlotTimeout(f: FlightId)
    | DbRead(f: FlightId)
    | QueryDone(f: FlightId)
    | QueryFail(f: FlightId)
    | PutServe(f: FlightId, jitter: nat)
    | PutEnd(f: FlightId)
    | ReleaseServe(f: FlightId)
    | ReleaseEnd(f: FlightId)
    | Finish(f: FlightId)
    // writers
    | CommitRows(changes: map<Id, Product>)
    | JobStart(id: Id, k: nat)
    | JobServe(id: Id, k: nat)
    | JobEnd(id: Id, k: nat, ok: bool)
    | JobRetry(id: Id, k: nat)
    // the environment
    | Corrupt(id: Id, e: Envelope, expires: nat)
    | Evict(id: Id)
    | Tick(d: nat)

  predicate AtFetch(s: Machine, i: CallId) {
    i in s.calls && s.calls[i].st.Fetching?
  }

  predicate AtPoll(s: Machine, f: FlightId) {
    f in s.flights && s.flights[f].pc.Polling?
  }

  ghost predicate CallStep(c: Config, s: Machine, s': Machine, step: Step) {
    match step
    case Begin(i, p, id) =>
      && i !in s.calls && p in c.procs
      && s' == s.(calls := s.calls[i := Call(p, id, s.now, Fetching(Asking(s.now + c.redis)))])
    case CallServe(i) =>
      && AtFetch(s, i) && s.calls[i].st.fetch.Asking?
      && s' == CallTo(s, i, Fetching(ServeGet(s, s.calls[i].id, s.calls[i].st.fetch.deadline)))
    case CallReject(i) =>
      && AtFetch(s, i) && IsBad(s.calls[i].id, s.calls[i].st.fetch)
      && s' == CallTo(s, i, Fetching(Dropping(s.now + c.redis)))
    case CallDrop(i) =>
      && AtFetch(s, i) && s.calls[i].st.fetch.Dropping?
      && s' == s.(store := Delete(s.store, s.calls[i].id))
    case CallHit(i) =>
      && AtFetch(s, i) && IsHit(s.calls[i].id, s.calls[i].st.fetch)
      && s' == CallTo(s, i, Answered(HitAnswer(s.calls[i].st.fetch), s.now, None))
    // a miss, a failed or timed-out command, or the end of a discard
    case CallJoin(i, anew) =>
      && AtFetch(s, i) && anew !in s.flights
      && s' == Join(s, i, anew, c)
    case CallResume(i) =>
      && i in s.calls && s.calls[i].st.Waiting?
      && s.calls[i].st.flight in s.flights && s.flights[s.calls[i].st.flight].pc.Finished?
      && s' == CallTo(s, i, Answered(s.flights[s.calls[i].st.flight].pc.answer, s.now, Some(s.calls[i].st.flight)))
    case CallCancel(i) =>
      && i in s.calls && (s.calls[i].st.Fetching? || s.calls[i].st.Waiting?)
      && s' == CallTo(s, i, Cancelled)
    case _ => false
  }

  ghost predicate LockStep(c: Config, s: Machine, s': Machine, step: Step) {
    match step
    case LockServe(f) =>
      && f in s.flights && s.flights[f].pc.Locking? && s.flights[f].pc.reply.None?
      && s' == (if Holder(s.store, s.flights[f].id, s.now).None? then TakeLock(c, s, f) else MissLock(s, f))
    case LockReply(f) =>
      && f in s.flights && s.flights[f].pc.Locking? && s.flights[f].pc.reply.Some?
      && s' == Goto(s, f, AfterLock(c, s.now, s.flights[f].pc.reply.value))
    case LockFail(f) =>
      && f in s.flights && s.flights[f].pc.Locking?
      && s' == Goto(s, f, WaitingSlot(s.now + c.slotWait, false))
    case ReleaseServe(f) =>
      && f in s.flights && s.flights[f].pc.Releasing?
      && s' == s.(store := Release(s.store, s.flights[f].id, f, s.now))
    case ReleaseEnd(f) =>
      && f in s.flights && s.flights[f].pc.Releasing?
      && s' == Goto(s, f, Returning(s.flights[f].pc.answer, s.now))
    case Finish(f) =>
      && f in s.flights && s.flights[f].pc.Returning?
      && var fl := s.flights[f];
      && s' == Goto(s, f, Finished(fl.pc.answer, s.now)).(reg := Unregister(s.reg, (fl.proc, fl.id), f))
    case _ => false
  }

  ghost predicate PollingStep(c: Config, s: Machine, s': Machine, step: Step) {
    match step
    case Wake(f) =>
      && f in s.flights && s.flights[f].pc.Sleeping? && s.now == s.flights[f].pc.until
      && s' == Goto(s, f, Polling(Asking(s.now + c.redis), s.flights[f].pc.end, s.flights[f].pc.rounds))
    case PollServe(f) =>
      && AtPoll(s, f) && s.flights[f].pc.fetch.Asking?
      && s' == Goto(s, f, s.flights[f].pc.(fetch := ServeGet(s, s.flights[f].id, s.flights[f].pc.fetch.deadline)))
    case PollReject(f) =>
      && AtPoll(s, f) && IsBad(s.flights[f].id, s.flights[f].pc.fetch)
      && s' == Goto(s, f, s.flights[f].pc.(fetch := Dropping(s.now + c.redis)))
    case PollDrop(f) =>
      && AtPoll(s, f) && s.flights[f].pc.fetch.Dropping?
      && s' == s.(store := Delete(s.store, s.flights[f].id))
    case PollHit(f) =>
      && AtPoll(s, f) && IsHit(s.flights[f].id, s.flights[f].pc.fetch)
      && s' == Goto(s, f, Returning(HitAnswer(s.flights[f].pc.fetch), s.now))
    case PollMiss(f) =>
      && AtPoll(s, f)
      && s' == Goto(s, f, LoopTop(c, s.now, s.flights[f].pc.end, s.flights[f].pc.rounds))
    case _ => false
  }

  ghost predicate QueryStep(c: Config, s: Machine, s': Machine, step: Step) {
    match step
    case SlotGrant(f) =>
      && f in s.flights && s.flights[f].pc.WaitingSlot?
      && var fl := s.flights[f];
      && fl.proc in s.free && s.free[fl.proc] > 0
      && s' == Goto(s, f, Querying(s.now + c.query, fl.pc.populate, None)).(free := s.free[fl.proc := s.free[fl.proc] - 1])
    case SlotTimeout(f) =>
      && f in s.flights && s.flights[f].pc.WaitingSlot? && s.now == s.flights[f].pc.deadline
      && var fl := s.flights[f];
      && s' == Record(Goto(s, f, AfterRefusal(c, s.now, fl.pc.populate, Unavailable(Here(s)))), Refused(fl.id, f, s.now))
    case DbRead(f) =>
      && f in s.flights && s.flights[f].pc.Querying? && s.flights[f].pc.got.None?
      && var fl := s.flights[f];
      && var k := |History(s.past, fl.id)|;
      && var answer := AnswerOf(PublicView(RowAt(s.past, fl.id, k)), Here(s));
      && s' == Record(Goto(s, f, fl.pc.(got := Some(answer))), ReadDb(fl.id, k, f, s.now))
    case QueryDone(f) =>
      && f in s.flights && s.flights[f].pc.Querying? && s.flights[f].pc.got.Some?
      && var fl := s.flights[f];
      && fl.proc in s.free
      && s' == Goto(s, f, AfterQuery(c, s.now, fl.pc.populate, fl.pc.got.value)).(free := s.free[fl.proc := s.free[fl.proc] + 1])
    case QueryFail(f) =>
      && f in s.flights && s.flights[f].pc.Querying?
      && var fl := s.flights[f];
      && fl.proc in s.free
      && s' == Record(
           Goto(s, f, AfterRefusal(c, s.now, fl.pc.populate, Unavailable(Here(s)))).(free := s.free[fl.proc := s.free[fl.proc] + 1]),
           Refused(fl.id, f, s.now))
    case PutServe(f, jitter) =>
      && f in s.flights && s.flights[f].pc.Putting? && !s.flights[f].pc.served && jitter <= c.ttl.jitter
      && var fl := s.flights[f];
      && !fl.pc.answer.Unavailable?
      && s' == Record(
           Goto(s, f, fl.pc.(served := true)).(
             store := if fl.pc.answer.Shown? then PutProduct(s.store, c.ttl, fl.id, fl.pc.answer.product, jitter, s.now)
                      else PutMissing(s.store, c.ttl, fl.id, s.now),
             origin := s.origin[fl.id := Origin(fl.pc.answer.read, Here(s))]),
           Stored(fl.id, fl.pc.answer.read, f, s.now))
    case PutEnd(f) =>
      && f in s.flights && s.flights[f].pc.Putting?
      && s' == Goto(s, f, Releasing(s.now + c.redis, s.flights[f].pc.answer))
    case _ => false
  }

  /** A transaction's commit: legal changes to some products, then one invalidation for each. */
  ghost predicate WriterStep(s: Machine, s': Machine, step: Step) {
    match step
    case CommitRows(changes) =>
      && (forall id :: id in changes ==> LegalChange(RowAt(s.past, id, |History(s.past, id)|), changes[id]))
      && s' == s.(
           past := Past(Extended(s, changes), s.past.log + [Committed(changes.Keys, s.now)]),
           jobs := map key | key in s.jobs.Keys + NewJobs(s, changes) :: if key in s.jobs then s.jobs[key] else Queued)
    case JobStart(id, k) =>
      && (id, k) in s.jobs && s.jobs[(id, k)].Queued?
      && s' == s.(jobs := s.jobs[(id, k) := Deleting(1, false)])
    case JobServe(id, k) =>
      && (id, k) in s.jobs && s.jobs[(id, k)].Deleting? && !s.jobs[(id, k)].served
      && s' == Record(
           s.(store := Delete(s.store, id), jobs := s.jobs[(id, k) := s.jobs[(id, k)].(served := true)]),
           Removed(id, k))
    case JobEnd(id, k, ok) =>
      && (id, k) in s.jobs && s.jobs[(id, k)].Deleting?
      && var job := s.jobs[(id, k)];
      && (ok ==> job.served)
      && s' == s.(jobs := s.jobs[(id, k) := if ok then Succeeded else if job.attempt < 3 then Resting(job.attempt) else GivenUp(job.attempt)])
    case JobRetry(id, k) =>
      && (id, k) in s.jobs && s.jobs[(id, k)].Resting?
      && s' == s.(jobs := s.jobs[(id, k) := Deleting(s.jobs[(id, k)].attempt + 1, false)])
    case _ => false
  }

  function Extended(s: Machine, changes: map<Id, Product>): map<Id, seq<Commit>> {
    map id | id in s.past.hist.Keys + changes.Keys ::
      if id in changes then History(s.past, id) + [Commit(changes[id], s.now, Here(s))] else s.past.hist[id]
  }

  function Lengthened(s: Machine, changes: map<Id, Product>, id: Id): seq<Commit> {
    if id in changes then History(s.past, id) + [Commit(changes[id], s.now, Here(s))] else History(s.past, id)
  }

  lemma CommitLengthens(s: Machine, s': Machine, changes: map<Id, Product>)
    requires s'.past.hist == Extended(s, changes)
    ensures forall id :: History(s'.past, id) == Lengthened(s, changes, id)
  {
  }

  function NewJobs(s: Machine, changes: map<Id, Product>): set<(Id, nat)> {
    set id | id in changes :: (id, |History(s.past, id)| + 1)
  }

  /** Nothing whose deadline is near is left waiting. */
  ghost predicate MayWait(s: Machine, until: nat) {
    && (forall f :: f in s.flights && !s.flights[f].pc.Finished? ==> until <= Deadline(s.flights[f].pc))
    && (forall i :: i in s.calls && s.calls[i].st.Fetching? ==> until <= s.calls[i].st.fetch.deadline)
    && (forall i :: i in s.calls && s.calls[i].st.Waiting? ==> InFlight(s, s.calls[i].st.flight))
  }

  ghost predicate WorldStep(s: Machine, s': Machine, step: Step) {
    match step
    // any foreign value that `_cache_get` would not accept
    case Corrupt(id, e, expires) =>
      && !Accepts(id, e)
      && s' == s.(store := Put(s.store, id, e, expires), origin := s.origin[id := Origin(0, 0)])
    case Evict(id) =>
      s' == s.(store := Delete(s.store, id))
    case Tick(d) =>
      && d > 0 && MayWait(s, s.now + d)
      && s' == s.(now := s.now + d)
    case _ => false
  }

  ghost predicate NextBy(c: Config, s: Machine, s': Machine, step: Step) {
    || CallStep(c, s, s', step)
    || LockStep(c, s, s', step)
    || PollingStep(c, s, s', step)
    || QueryStep(c, s, s', step)
    || WriterStep(s, s', step)
    || WorldStep(s, s', step)
  }

  ghost predicate Next(c: Config, s: Machine, s': Machine) {
    exists step :: NextBy(c, s, s', step)
  }

  ghost function Successor(c: Config): (Machine, Machine) -> bool {
    (s, s') => Next(c, s, s')
  }

  /** A run: any interleaving of steps from the initial state. */
  ghost predicate IsRun(c: Config, run: seq<Machine>) {
    IsPath(Initial(c), Successor(c), run)
  }

  /** The step a run ends with; what comes before it is a run. */
  ghost function LastStep(c: Config, run: seq<Machine>): (step: Step)
    requires IsRun(c, run) && |run| > 1
    ensures IsRun(c, run[..|run| - 1]) && NextBy(c, Final(run[..|run| - 1]), Final(run), step)
  {
    PathPrefix(Initial(c), Successor(c), run);
    var step :| NextBy(c, Final(run[..|run| - 1]), Final(run), step);
    step
  }

  lemma RunGrows(c: Config, run: seq<Machine>, s: Machine)
    requires IsRun(c, run) && Next(c, Final(run), s)
    ensures IsRun(c, run + [s]) && Final(run + [s]) == s
  {
    PathGrows(Initial(c), Successor(c), run, s);
  }
}
