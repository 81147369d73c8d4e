/**
 The sliding-window limiter: one Redis sorted set per client, pruned and refilled by a
 script that runs atomically, with a PEXPIRE on the key.

 Two clocks appear. `stamp` is the caller's own millisecond clock, used as score and as
 pruning bound; `clock` is Redis's clock when the script runs, used only by PEXPIRE.
 */
module RateLimit {
  import opened Wrappers

  type Member = nat

  datatype Call = Call(stamp: int, clock: int, member: Member)

  datatype Quota = Quota(limit: nat, window: nat)

  /** The key as Redis holds it: members with their scores, and the instant it expires. */
  datatype Key = Key(members: map<Member, int>, expires: int)

  const EMPTY := Key(map[], 0)

  datatype Verdict = Verdict(key: Key, allowed: bool, count: nat)

  /** What the script finds: nothing once the key has expired. */
  function Live(key: Key, clock: int): map<Member, int> {
    if clock > key.expires then map[] else key.members
  }

  /** ZREMRANGEBYSCORE key 0 bound. */
  function Pruned(members: map<Member, int>, bound: int): map<Member, int> {
    map m | m in members && !(0 <= members[m] <= bound) :: members[m]
  }

  /** What is left of the key once the script has pruned it. */
  function View(q: Quota, key: Key, call: Call): map<Member, int> {
    Pruned(Live(key, call.clock), call.stamp - q.window)
  }

  function Script(q: Quota, key: Key, call: Call): Verdict {
    var kept := View(q, key, call);
    if |kept| >= q.limit then Verdict(Key(kept, key.expires), false, |kept|)
    else Verdict(Key(kept[call.member := call.stamp], call.clock + q.window), true, |kept| + 1)
  }

  /** The client's sorted set, changed in place by each call. */
  class SlidingWindow {
    var members: map<Member, int>
    var expires: int

    ghost function Contents(): Key
      reads this
    {
      Key(members, expires)
    }

    constructor ()
      ensures Contents() == EMPTY
    {
      members, expires := map[], 0;
    }

    method RateLimit(q: Quota, call: Call) returns (allowed: bool, count: nat)
      modifies this
      ensures Verdict(Contents(), allowed, count) == Script(q, old(Contents()), call)
    {
      if call.clock > expires {
        members := map[];
      }
      members := Pruned(members, call.stamp - q.window);
      count := |members|;
      if count >= q.limit {
        return false, count;
      }
      members := members[call.member := call.stamp];
      expires := call.clock + q.window;
      return true, count + 1;
    }
  }

  // ---------------------------------------------------------------- whole call sequences

  ghost function After(q: Quota, calls: seq<Call>): Key {
    if calls == [] then EMPTY
    else Script(q, After(q, Front(calls)), Last(calls)).key
  }

  /** The decisions the script takes, call by call. */
  ghost function Decisions(q: Quota, calls: seq<Call>): (d: seq<bool>)
    ensures |d| == |calls|
  {
    if calls == [] then []
    else Decisions(q, Front(calls)) + [Script(q, After(q, Front(calls)), Last(calls)).allowed]
  }

  ghost function Front<T>(s: seq<T>): seq<T>
    requires s != []
  {
    s[..|s| - 1]
  }

  ghost function Last<T>(s: seq<T>): T
    requires s != []
  {
    s[|s| - 1]
  }

  /** How many of the admitted calls carry a stamp in (above, upTo]. */
  ghost function Admitted(calls: seq<Call>, d: seq<bool>, above: int, upTo: int): nat
    requires |d| == |calls|
  {
    if calls == [] then 0
    else
      var last := if Last(d) && above < Last(calls).stamp <= upTo then 1 else 0;
      Admitted(Front(calls), Front(d), above, upTo) + last
  }

  /** The reference limiter: it remembers every call ever made and never forgets. */
  ghost function FullHistory(q: Quota, calls: seq<Call>): (d: seq<bool>)
    ensures |d| == |calls|
  {
    if calls == [] then []
    else
      var d := FullHistory(q, Front(calls));
      d + [Room(q, Front(calls), d, Last(calls).stamp)]
  }

  /** A later call: its stamp is no lower, its member is new. */
  ghost predicate Follows(earlier: Call, later: Call) {
    earlier.stamp <= later.stamp && earlier.member != later.member
  }

  ghost predicate Sequenced(calls: seq<Call>) {
    calls != [] ==>
      && Sequenced(Front(calls))
      && 0 <= Last(calls).stamp
      && forall c :: c in Front(calls) ==> Follows(c, Last(calls))
  }

  /** Every admitted member with its stamp. */
  ghost function Book(calls: seq<Call>, d: seq<bool>): map<Member, int>
    requires |d| == |calls|
  {
    if calls == [] then map[]
    else
      var before := Book(Front(calls), Front(d));
      if Last(d) then before[Last(calls).member := Last(calls).stamp] else before
  }

  /** The latest admitted call. */
  ghost function Latest(calls: seq<Call>, d: seq<bool>): (r: Option<Call>)
    requires |d| == |calls|
    ensures r.Some? ==> r.value in calls
  {
    if calls == [] then None
    else if Last(d) then Some(Last(calls))
    else Latest(Front(calls), Front(d))
  }

  /**
   Redis's clock has not outrun the caller's since the latest admitted call, which is the
   one that set the key's expiry: if the key has expired, that call is out of the window.
   */
  ghost predicate OnTime(q: Quota, past: seq<Call>, d: seq<bool>, call: Call)
    requires |d| == |past|
  {
    var latest := Latest(past, d);
    latest.Some? && call.clock > latest.value.clock + q.window ==> call.stamp >= latest.value.stamp + q.window
  }

  ghost predicate AllOnTime(q: Quota, calls: seq<Call>) {
    calls != [] ==>
      AllOnTime(q, Front(calls)) && OnTime(q, Front(calls), Decisions(q, Front(calls)), Last(calls))
  }

  lemma {:induction false} BookedByACall(calls: seq<Call>, d: seq<bool>, m: Member) returns (c: Call)
    requires |d| == |calls| && m in Book(calls, d)
    ensures c in calls && c.member == m && c.stamp == Book(calls, d)[m]
  {
    if Last(d) && m == Last(calls).member {
      c := Last(calls);
    } else {
      c := BookedByACall(Front(calls), Front(d), m);
    }
  }

  lemma {:induction false} BookBounds(calls: seq<Call>, d: seq<bool>)
    requires |d| == |calls| && Sequenced(calls)
    ensures forall m :: m in Book(calls, d) ==> Latest(calls, d).Some? && 0 <= Book(calls, d)[m] <= Latest(calls, d).value.stamp
  {
    if calls != [] {
      BookBounds(Front(calls), Front(d));
      if Last(d) && Latest(Front(calls), Front(d)).Some? {
        assert Follows(Latest(Front(calls), Front(d)).value, Last(calls));
      }
    }
  }

  lemma NewMember(calls: seq<Call>, d: seq<bool>)
    requires Sequenced(calls) && calls != [] && |d| == |calls| - 1
    ensures Last(calls).member !in Book(Front(calls), d)
  {
    if Last(calls).member in Book(Front(calls), d) {
      var c := BookedByACall(Front(calls), d, Last(calls).member);
    }
  }

  /** The members booked above a stamp. */
  ghost function Above(book: map<Member, int>, bound: int): set<Member> {
    set m | m in book && book[m] > bound
  }

  lemma {:induction false} BookCounts(calls: seq<Call>, d: seq<bool>, bound: int, upTo: int)
    requires |d| == |calls| && Sequenced(calls)
    requires forall c :: c in calls ==> c.stamp <= upTo
    ensures |Above(Book(calls, d), bound)| == Admitted(calls, d, bound, upTo)
  {
    if calls != [] {
      var call := Last(calls);
      assert call in calls && forall c :: c in Front(calls) ==> c in calls;
      BookCounts(Front(calls), Front(d), bound, upTo);
      NewMember(calls, Front(d));
      var before := Book(Front(calls), Front(d));
      if Last(d) && call.stamp > bound {
        assert Above(Book(calls, d), bound) == Above(before, bound) + {call.member};
      } else {
        assert Above(Book(calls, d), bound) == Above(before, bound);
      }
    }
  }

  lemma WindowCount(q: Quota, calls: seq<Call>, d: seq<bool>)
    requires Sequenced(calls) && calls != [] && |d| == |calls| - 1
    ensures |Above(Book(Front(calls), d), Last(calls).stamp - q.window)| == InWindow(q, Front(calls), d, Last(calls).stamp)
  {
    assert forall c :: c in Front(calls) ==> Follows(c, Last(calls));
    BookCounts(Front(calls), d, Last(calls).stamp - q.window, Last(calls).stamp);
  }

  /** What the stored key is worth once the calls so far reached `stamp`. */
  ghost predicate Faithful(q: Quota, key: Key, book: map<Member, int>, latest: Option<Call>, stamp: int) {
    && (forall m :: m in key.members ==> m in book && key.members[m] == book[m])
    && (forall m :: m in book && book[m] > stamp - q.window ==> m in key.members)
    && (latest.Some? ==> key.expires == latest.value.clock + q.window)
  }

  /** The script's own view at a call is the reference's: pruned, or wiped, exactly the calls out of the window. */
  lemma ViewIsWindow(q: Quota, key: Key, book: map<Member, int>, latest: Option<Call>, stamp: int, call: Call)
    requires Faithful(q, key, book, latest, stamp) && stamp <= call.stamp
    requires forall m :: m in book ==> 0 <= book[m] && latest.Some? && book[m] <= latest.value.stamp
    requires latest.Some? && call.clock > latest.value.clock + q.window ==> call.stamp >= latest.value.stamp + q.window
    ensures View(q, key, call).Keys == Above(book, call.stamp - q.window)
  {
    var bound := call.stamp - q.window;
    var kept := View(q, key, call);
    if call.clock > key.expires && latest.Some? {
      assert Above(book, bound) == {};
    }
    assert forall m :: m in kept.Keys <==> m in Above(book, bound);
  }

  /** The script's step keeps the key faithful to the book. */
  lemma StepFaithful(q: Quota, key: Key, book: map<Member, int>, latest: Option<Call>, call: Call)
    requires View(q, key, call).Keys == Above(book, call.stamp - q.window)
    requires forall m :: m in key.members ==> m in book && key.members[m] == book[m]
    requires latest.Some? ==> key.expires == latest.value.clock + q.window
    requires call.member !in book
    ensures var v := Script(q, key, call);
      if v.allowed then Faithful(q, v.key, book[call.member := call.stamp], Some(call), call.stamp)
      else Faithful(q, v.key, book, latest, call.stamp)
  {
    var kept := View(q, key, call);
    assert forall m :: m in kept ==> m in key.members && kept[m] == key.members[m];
    assert forall m :: m in book && book[m] > call.stamp - q.window ==> m in kept.Keys;
  }

  /** The stored key after these calls against the book of them. */
  ghost predicate Tracks(q: Quota, calls: seq<Call>) {
    var key, d := After(q, calls), Decisions(q, calls);
    if calls == [] then key == EMPTY
    else Faithful(q, key, Book(calls, d), Latest(calls, d), Last(calls).stamp)
  }

  /** One call seen by the script and by the reference. */
  lemma ScriptView(q: Quota, calls: seq<Call>)
    requires Sequenced(calls) && calls != [] && Tracks(q, Front(calls))
    requires OnTime(q, Front(calls), Decisions(q, Front(calls)), Last(calls))
    ensures View(q, After(q, Front(calls)), Last(calls)).Keys
         == Above(Book(Front(calls), Decisions(q, Front(calls))), Last(calls).stamp - q.window)
  {
    var past, d, call := Front(calls), Decisions(q, Front(calls)), Last(calls);
    if past != [] {
      BookBounds(past, d);
      assert Last(past) in past && Follows(Last(past), call);
      ViewIsWindow(q, After(q, past), Book(past, d), Latest(past, d), Last(past).stamp, call);
    }
  }

  lemma {:induction false} ScriptTracks(q: Quota, calls: seq<Call>)
    requires Sequenced(calls) && AllOnTime(q, calls)
    ensures Tracks(q, calls)
  {
    if calls != [] {
      var past, call := Front(calls), Last(calls);
      var key, d := After(q, past), Decisions(q, past);
      ScriptTracks(q, past);
      ScriptView(q, calls);
      NewMember(calls, d);
      StepFaithful(q, key, Book(past, d), Latest(past, d), call);
      assert Front(Decisions(q, calls)) == d;
    }
  }

  /** The admitted calls of the past that a call stamped `now` still finds in its window. */
  ghost function InWindow(q: Quota, past: seq<Call>, d: seq<bool>, now: int): nat
    requires |d| == |past|
  {
    Admitted(past, d, now - q.window, now)
  }

  /** The reference's decision on a call, from the decisions before it. */
  ghost predicate Room(q: Quota, past: seq<Call>, d: seq<bool>, now: int)
    requires |d| == |past|
  {
    InWindow(q, past, d, now) < q.limit
  }

  /** The script counts what the reference counts, whatever came before. */
  lemma SameCount(q: Quota, calls: seq<Call>)
    requires Sequenced(calls) && AllOnTime(q, calls) && calls != []
    ensures |View(q, After(q, Front(calls)), Last(calls))| == InWindow(q, Front(calls), Decisions(q, Front(calls)), Last(calls).stamp)
  {
    ScriptTracks(q, Front(calls));
    ScriptView(q, calls);
    WindowCount(q, calls, Decisions(q, Front(calls)));
    KeysCount(View(q, After(q, Front(calls)), Last(calls)));
  }

  lemma KeysCount(m: map<Member, int>)
    ensures |m| == |m.Keys|
  {
  }

  lemma ScriptDecides(q: Quota, calls: seq<Call>)
    requires calls != []
    ensures Decisions(q, calls) == Decisions(q, Front(calls)) + [|View(q, After(q, Front(calls)), Last(calls))| < q.limit]
  {
  }

  lemma {:induction false} SameDecisions(q: Quota, calls: seq<Call>)
    requires Sequenced(calls) && AllOnTime(q, calls)
    ensures Decisions(q, calls) == FullHistory(q, calls)
  {
    if calls != [] {
      SameDecisions(q, Front(calls));
      ScriptDecides(q, calls);
      SameCount(q, calls);
    }
  }

  /**
   Pruning and the key's PEXPIRE never change a decision: the script decides like a
   counter of all calls ever admitted.
   */
  lemma ScriptMatchesFullHistory(q: Quota, calls: seq<Call>)
    requires Sequenced(calls) && AllOnTime(q, calls)
    ensures Decisions(q, calls) == FullHistory(q, calls)
  {
    SameDecisions(q, calls);
  }

  /** ... and the count it returns is the reference's count, itself included when admitted. */
  lemma ReturnedCount(q: Quota, calls: seq<Call>)
    requires Sequenced(calls) && AllOnTime(q, calls) && calls != []
    ensures var v := Script(q, After(q, Front(calls)), Last(calls));
      v.count == InWindow(q, Front(calls), Decisions(q, Front(calls)), Last(calls).stamp) + (if v.allowed then 1 else 0)
  {
    SameCount(q, calls);
  }

  lemma {:induction false} NarrowerCountsLess(calls: seq<Call>, d: seq<bool>, above: int, upTo: int, above': int, upTo': int)
    requires |d| == |calls| && above' <= above && upTo <= upTo'
    ensures Admitted(calls, d, above, upTo) <= Admitted(calls, d, above', upTo')
  {
    if calls != [] {
      NarrowerCountsLess(Front(calls), Front(d), above, upTo, above', upTo');
    }
  }

  lemma {:induction false} NothingLater(calls: seq<Call>, d: seq<bool>, above: int, end: int, now: int)
    requires |d| == |calls| && now <= end
    requires forall c :: c in calls ==> c.stamp <= now
    ensures Admitted(calls, d, above, end) == Admitted(calls, d, above, now)
  {
    if calls != [] {
      assert Last(calls) in calls && forall c :: c in Front(calls) ==> c in calls;
      NothingLater(Front(calls), Front(d), above, end, now);
    }
  }

  lemma HistoryDecides(q: Quota, calls: seq<Call>)
    requires calls != []
    ensures var d := FullHistory(q, Front(calls));
      FullHistory(q, calls) == d + [Room(q, Front(calls), d, Last(calls).stamp)]
  {
  }

  lemma OneMore(calls: seq<Call>, d: seq<bool>, b: bool, above: int, upTo: int)
    requires calls != [] && |d| == |calls| - 1
    ensures Admitted(calls, d + [b], above, upTo)
         == Admitted(Front(calls), d, above, upTo) + (if b && above < Last(calls).stamp <= upTo then 1 else 0)
  {
    assert Front(d + [b]) == d && Last(d + [b]) == b;
  }

  /** An admitted call is the last of at most `limit` in any window it falls in. */
  lemma RoomMeansRoom(q: Quota, calls: seq<Call>, d: seq<bool>, start: int)
    requires Sequenced(calls) && calls != [] && |d| == |calls| - 1
    requires Room(q, Front(calls), d, Last(calls).stamp) && start < Last(calls).stamp <= start + q.window
    ensures Admitted(Front(calls), d, start, start + q.window) < q.limit
  {
    var past, now := Front(calls), Last(calls).stamp;
    assert forall c :: c in past ==> Follows(c, Last(calls));
    NothingLater(past, d, start, start + q.window, now);
    NarrowerCountsLess(past, d, start, now, now - q.window, now);
  }

  lemma {:induction false} HistoryKeepsLimit(q: Quota, calls: seq<Call>, start: int)
    requires Sequenced(calls)
    ensures Admitted(calls, FullHistory(q, calls), start, start + q.window) <= q.limit
  {
    if calls != [] {
      HistoryKeepsLimit(q, Front(calls), start);
      var d, now := FullHistory(q, Front(calls)), Last(calls).stamp;
      var b := Room(q, Front(calls), d, now);
      HistoryDecides(q, calls);
      OneMore(calls, d, b, start, start + q.window);
      if b && start < now <= start + q.window {
        RoomMeansRoom(q, calls, d, start);
      }
    }
  }

  /** No window of `q.window` milliseconds, wherever it starts, admits more than the limit. */
  lemma NoWindowExceedsLimit(q: Quota, calls: seq<Call>, start: int)
    requires Sequenced(calls) && AllOnTime(q, calls)
    ensures Admitted(calls, Decisions(q, calls), start, start + q.window) <= q.limit
    ensures |set i: nat | i < |calls| && Decisions(q, calls)[i] && start < calls[i].stamp <= start + q.window| <= q.limit
  {
    ScriptMatchesFullHistory(q, calls);
    HistoryKeepsLimit(q, calls, start);
    AdmittedIsSize(calls, Decisions(q, calls), start, start + q.window);
    assert (set i: nat | i < |calls| && Decisions(q, calls)[i] && start < calls[i].stamp <= start + q.window)
      == AdmittedAt(calls, Decisions(q, calls), start, start + q.window);
  }

  /** The positions of the admitted calls stamped in (above, upTo]. */
  ghost function AdmittedAt(calls: seq<Call>, d: seq<bool>, above: int, upTo: int): set<nat>
    requires |d| == |calls|
  {
    set i: nat | i < |calls| && d[i] && above < calls[i].stamp <= upTo
  }

  lemma {:induction false} AdmittedIsSize(calls: seq<Call>, d: seq<bool>, above: int, upTo: int)
    requires |d| == |calls|
    ensures Admitted(calls, d, above, upTo) == |AdmittedAt(calls, d, above, upTo)|
  {
    if calls != [] {
      var n := |calls| - 1;
      AdmittedIsSize(Front(calls), Front(d), above, upTo);
      assert AdmittedAt(calls, d, above, upTo)
        == AdmittedAt(Front(calls), Front(d), above, upTo) + (if d[n] && above < calls[n].stamp <= upTo then {n} else {});
    }
  }

  /** The positions of the calls admitted before call `i` and less than a window ago. */
  ghost function StillCounted(q: Quota, calls: seq<Call>, d: seq<bool>, i: nat): set<nat>
    requires |d| == |calls| && i < |calls|
  {
    set j: nat | j < i && d[j] && calls[i].stamp - q.window < calls[j].stamp
  }

  /** A call on time is admitted if and only if fewer than `limit` earlier calls were admitted less than a window ago. */
  lemma {:induction false} AdmittedIffRoom(q: Quota, calls: seq<Call>, i: nat)
    requires Sequenced(calls) && AllOnTime(q, calls) && i < |calls|
    ensures Decisions(q, calls)[i] <==> |StillCounted(q, calls, Decisions(q, calls), i)| < q.limit
    decreases |calls|
  {
    DecisionsGoOn(q, calls);
    if i < |calls| - 1 {
      AdmittedIffRoom(q, Front(calls), i);
      assert StillCounted(q, calls, Decisions(q, calls), i) == StillCounted(q, Front(calls), Decisions(q, Front(calls)), i);
    } else {
      LastAdmittedIffRoom(q, calls);
    }
  }

  lemma DecisionsGoOn(q: Quota, calls: seq<Call>)
    requires calls != []
    ensures forall j :: 0 <= j < |calls| - 1 ==> Decisions(q, calls)[j] == Decisions(q, Front(calls))[j]
  {
  }

  lemma LastAdmittedIffRoom(q: Quota, calls: seq<Call>)
    requires Sequenced(calls) && AllOnTime(q, calls) && calls != []
    ensures Decisions(q, calls)[|calls| - 1] <==> |StillCounted(q, calls, Decisions(q, calls), |calls| - 1)| < q.limit
  {
    LastDecision(q, calls);
    DecisionsGoOn(q, calls);
    CountedLast(q, calls, Decisions(q, calls), Decisions(q, Front(calls)));
  }

  lemma CountedLast(q: Quota, calls: seq<Call>, d: seq<bool>, before: seq<bool>)
    requires Sequenced(calls) && calls != [] && |d| == |calls| && |before| == |calls| - 1
    requires forall j :: 0 <= j < |calls| - 1 ==> d[j] == before[j]
    ensures |StillCounted(q, calls, d, |calls| - 1)| == InWindow(q, Front(calls), before, Last(calls).stamp)
  {
    StillCountedLast(q, calls, d, before);
    AdmittedIsSize(Front(calls), before, Last(calls).stamp - q.window, Last(calls).stamp);
  }

  lemma LastDecision(q: Quota, calls: seq<Call>)
    requires Sequenced(calls) && AllOnTime(q, calls) && calls != []
    ensures Decisions(q, calls)[|calls| - 1] <==> InWindow(q, Front(calls), Decisions(q, Front(calls)), Last(calls).stamp) < q.limit
  {
    ScriptDecides(q, calls);
    SameCount(q, calls);
  }

  lemma StillCountedLast(q: Quota, calls: seq<Call>, d: seq<bool>, before: seq<bool>)
    requires Sequenced(calls) && calls != [] && |d| == |calls| && |before| == |calls| - 1
    requires forall j :: 0 <= j < |calls| - 1 ==> d[j] == before[j]
    ensures StillCounted(q, calls, d, |calls| - 1)
      == AdmittedAt(Front(calls), before, Last(calls).stamp - q.window, Last(calls).stamp)
  {
    forall j | 0 <= j < |calls| - 1
      ensures calls[j].stamp <= Last(calls).stamp
    {
      assert Front(calls)[j] in Front(calls) && Follows(Front(calls)[j], Last(calls));
    }
  }

  lemma {:induction false} WithoutRejected(pre: seq<Call>, x: Call, post: seq<Call>, d: seq<bool>, above: int, upTo: int)
    requires |d| == |pre| + 1 + |post| && !d[|pre|]
    ensures Admitted(pre + [x] + post, d, above, upTo) == Admitted(pre + post, d[..|pre|] + d[|pre| + 1..], above, upTo)
  {
    var all, rest := pre + [x] + post, d[..|pre|] + d[|pre| + 1..];
    if post == [] {
      assert Front(all) == pre && Front(d) == d[..|pre|] == rest && pre + post == pre;
    } else {
      WithoutRejected(pre, x, Front(post), Front(d), above, upTo);
      assert Front(all) == pre + [x] + Front(post) && Front(pre + post) == pre + Front(post);
      assert Front(rest) == Front(d)[..|pre|] + Front(d)[|pre| + 1..];
    }
  }

  lemma {:induction false} SubSequenced(pre: seq<Call>, x: Call, post: seq<Call>)
    requires Sequenced(pre + [x] + post)
    ensures Sequenced(pre + post)
  {
    var all := pre + [x] + post;
    if post == [] {
      assert Front(all) == pre && pre + post == pre;
    } else {
      assert Front(all) == pre + [x] + Front(post) && Front(pre + post) == pre + Front(post);
      SubSequenced(pre, x, Front(post));
      assert forall c :: c in pre + Front(post) ==> c in Front(all);
    }
  }

  lemma {:induction false} LatestWithout(pre: seq<Call>, x: Call, post: seq<Call>, d: seq<bool>)
    requires |d| == |pre| + 1 + |post| && !d[|pre|]
    ensures Latest(pre + [x] + post, d) == Latest(pre + post, d[..|pre|] + d[|pre| + 1..])
  {
    var all, rest := pre + [x] + post, d[..|pre|] + d[|pre| + 1..];
    if post == [] {
      assert Front(all) == pre && Front(d) == d[..|pre|] == rest && pre + post == pre;
    } else {
      LatestWithout(pre, x, Front(post), Front(d));
      assert Front(all) == pre + [x] + Front(post) && Front(pre + post) == pre + Front(post);
      assert Front(rest) == Front(d)[..|pre|] + Front(d)[|pre| + 1..];
    }
  }

  /** A rejected call uses no quota: every other call is decided, and is as timely, as if it had not been made. */
  lemma {:induction false} RejectedCallsAreFree(q: Quota, pre: seq<Call>, x: Call, post: seq<Call>)
    requires Sequenced(pre + [x] + post) && AllOnTime(q, pre + [x] + post) && !Decisions(q, pre + [x] + post)[|pre|]
    ensures AllOnTime(q, pre + post)
    ensures var d := Decisions(q, pre + [x] + post);
      Decisions(q, pre + post) == d[..|pre|] + d[|pre| + 1..]
  {
    var all := pre + [x] + post;
    if post == [] {
      assert Front(all) == pre && pre + post == pre;
    } else {
      var front := Front(post);
      assert Front(all) == pre + [x] + front && Front(pre + post) == pre + front && Last(all) == Last(pre + post);
      RejectedCallsAreFree(q, pre, x, front);
      LatestWithout(pre, x, front, Decisions(q, Front(all)));
    }
    SubSequenced(pre, x, post);
    ScriptMatchesFullHistory(q, all);
    ScriptMatchesFullHistory(q, pre + post);
    RejectedFreeInHistory(q, pre, x, post);
  }

  lemma CutBeforeLast(d: seq<bool>, r: bool, i: nat)
    requires i < |d|
    ensures (d + [r])[..i] + (d + [r])[i + 1..] == d[..i] + d[i + 1..] + [r]
  {
  }

  lemma {:induction false} RejectedFreeInHistory(q: Quota, pre: seq<Call>, x: Call, post: seq<Call>)
    requires !FullHistory(q, pre + [x] + post)[|pre|]
    ensures var d := FullHistory(q, pre + [x] + post);
      FullHistory(q, pre + post) == d[..|pre|] + d[|pre| + 1..]
  {
    var all := pre + [x] + post;
    var d := FullHistory(q, Front(all));
    HistoryDecides(q, all);
    if post == [] {
      assert Front(all) == pre && pre + post == pre;
    } else {
      var front, last := Front(post), Last(post);
      assert Front(all) == pre + [x] + front && Front(pre + post) == pre + front && Last(all) == Last(pre + post) == last;
      RejectedFreeInHistory(q, pre, x, front);
      HistoryDecides(q, pre + post);
      SameRoomWithout(q, pre, x, front, d, last.stamp);
      CutBeforeLast(d, Room(q, Front(all), d, last.stamp), |pre|);
    }
  }

  lemma SameRoomWithout(q: Quota, pre: seq<Call>, x: Call, post: seq<Call>, d: seq<bool>, now: int)
    requires |d| == |pre| + 1 + |post| && !d[|pre|]
    ensures Room(q, pre + [x] + post, d, now) == Room(q, pre + post, d[..|pre|] + d[|pre| + 1..], now)
  {
    WithoutRejected(pre, x, post, d, now - q.window, now);
  }

  // ------------------------------------------------------------------------- exactly when expiry changes nothing

  /** What the script counts at the last call, and what the reference counts. */
  ghost function ScriptCount(q: Quota, calls: seq<Call>): nat
    requires calls != []
  {
    |View(q, After(q, Front(calls)), Last(calls))|
  }

  ghost function HistoryCount(q: Quota, calls: seq<Call>): nat
    requires calls != []
  {
    InWindow(q, Front(calls), FullHistory(q, Front(calls)), Last(calls).stamp)
  }

  ghost predicate CountsAgree(q: Quota, calls: seq<Call>) {
    calls != [] ==> CountsAgree(q, Front(calls)) && ScriptCount(q, calls) == HistoryCount(q, calls)
  }

  lemma {:induction false} LatestIsBooked(calls: seq<Call>, d: seq<bool>)
    requires |d| == |calls| && Latest(calls, d).Some?
    ensures var l := Latest(calls, d).value;
      l.member in Book(calls, d) && Book(calls, d)[l.member] == l.stamp
  {
    if !Last(d) {
      LatestIsBooked(Front(calls), Front(d));
    }
  }

  /** At a late call the script finds nothing, although the reference still counts the latest admitted call. */
  lemma LateCount(q: Quota, calls: seq<Call>)
    requires Sequenced(calls) && calls != [] && AllOnTime(q, Front(calls))
    requires !OnTime(q, Front(calls), Decisions(q, Front(calls)), Last(calls))
    ensures ScriptCount(q, calls) == 0 < HistoryCount(q, calls)
  {
    var past, d, call := Front(calls), Decisions(q, Front(calls)), Last(calls);
    ScriptTracks(q, past);
    ScriptMatchesFullHistory(q, past);
    assert View(q, After(q, past), call).Keys == {};
    KeysCount(View(q, After(q, past), call));
    LatestIsBooked(past, d);
    WindowCount(q, calls, d);
    assert Latest(past, d).value.member in Above(Book(past, d), call.stamp - q.window);
  }

  /**
   The script counts what the reference counts, at every call, if and only if every call is
   on time.
   */
  lemma {:induction false} CountsAgreeIffOnTime(q: Quota, calls: seq<Call>)
    requires Sequenced(calls)
    ensures CountsAgree(q, calls) <==> AllOnTime(q, calls)
  {
    if calls != [] {
      CountsAgreeIffOnTime(q, Front(calls));
      if AllOnTime(q, calls) {
        SameCount(q, calls);
        ScriptMatchesFullHistory(q, Front(calls));
      } else if AllOnTime(q, Front(calls)) {
        LateCount(q, calls);
      }
    }
  }

  lemma {:induction false} AdmittingNeedsQuota(q: Quota, calls: seq<Call>)
    requires Latest(calls, Decisions(q, calls)).Some?
    ensures q.limit > 0
  {
    ScriptDecides(q, calls);
    if !Last(Decisions(q, calls)) {
      assert Front(Decisions(q, calls)) == Decisions(q, Front(calls));
      AdmittingNeedsQuota(q, Front(calls));
    }
  }

  ghost predicate OnTimeOrRoom(q: Quota, calls: seq<Call>)
    requires calls != []
  {
    || OnTime(q, Front(calls), Decisions(q, Front(calls)), Last(calls))
    || Room(q, Front(calls), FullHistory(q, Front(calls)), Last(calls).stamp)
  }

  /**
   One more call after calls on time is decided as the reference decides it if and only if
   it is on time or the reference would admit it anyway.
   */
  lemma DecisionAgreesIff(q: Quota, calls: seq<Call>)
    requires Sequenced(calls) && calls != [] && AllOnTime(q, Front(calls))
    ensures Last(Decisions(q, calls)) == Last(FullHistory(q, calls)) <==> OnTimeOrRoom(q, calls)
  {
    ScriptMatchesFullHistory(q, Front(calls));
    ScriptDecides(q, calls);
    HistoryDecides(q, calls);
    if OnTime(q, Front(calls), Decisions(q, Front(calls)), Last(calls)) {
      SameCount(q, calls);
    } else {
      LateCount(q, calls);
      AdmittingNeedsQuota(q, Front(calls));
    }
  }

  /**
   A late call: whatever the window, a call stamped inside it but run by Redis after more
   than one window since the first finds the key gone and is admitted, two within one
   window under a limit of one.
   */
  lemma LateScriptForgets(w: nat)
    requires w >= 1
    ensures var q := Quota(1, w);
      var calls := [Call(0, 0, 0), Call(w - 1, w + 1, 1)];
      && Sequenced(calls)
      && Decisions(q, calls) == [true, true] && FullHistory(q, calls) == [true, false]
      && Admitted(calls, Decisions(q, calls), -1, -1 + w) == 2
  {
    var q := Quota(1, w);
    var a, b := Call(0, 0, 0), Call(w - 1, w + 1, 1);
    assert Front([a, b]) == [a] && Front([a]) == [];
    FirstCall(q, a);
    assert View(q, Key(map[0 := 0], w), b).Keys == {};
    KeysCount(View(q, Key(map[0 := 0], w), b));
    ScriptDecides(q, [a, b]);
    HistoryDecides(q, [a, b]);
    OneMore([a], [], true, -1, w - 1);
    OneMore([a, b], [true], true, -1, w - 1);
  }

  lemma FirstCall(q: Quota, a: Call)
    requires q.limit > 0
    ensures Decisions(q, [a]) == [true] == FullHistory(q, [a])
    ensures After(q, [a]) == Key(map[a.member := a.stamp], a.clock + q.window)
  {
    assert Front([a]) == [];
    assert View(q, EMPTY, a) == map[];
    KeysCount(View(q, EMPTY, a));
    ScriptDecides(q, [a]);
    HistoryDecides(q, [a]);
  }
}
