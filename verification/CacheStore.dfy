/**
 The public detail cache in Redis: snapshot envelopes and rebuild locks, both with an
 expiry, as values and as the class that changes them in place.
 */
module CacheStore {
  import opened Wrappers
  import opened Catalog

  type Token = nat

  /** A cached value: the missing marker, a product with its version, or anything else. */
  datatype Envelope = Missing | Snapshot(id: Id, product: Product, version: int) | Malformed

  /** What `_cache_get` accepts under a product's key; everything else is discarded. */
  predicate Accepts(id: Id, e: Envelope) {
    e.Missing? || (e.Snapshot? && e.version >= 1 && e.id == id && e.product.version == e.version)
  }

  /** The missing marker is accepted; of the rest only a snapshot of this very product, under its own positive version. */
  lemma AcceptsIff(id: Id, e: Envelope)
    ensures match e
      case Missing => Accepts(id, e)
      case Malformed => !Accepts(id, e)
      case Snapshot(of, p, version) => Accepts(id, e) <==> of == id && p.version == version && 1 <= version
  {
  }

  datatype Entry = Entry(envelope: Envelope, expires: nat)

  datatype Lock = Lock(token: Token, expires: nat)

  datatype Store = Store(entries: map<Id, Entry>, locks: map<Id, Lock>)

  const EMPTY_STORE := Store(map[], map[])

  /** Lifetimes in milliseconds; `jitter` is the greatest one drawn. */
  datatype Ttl = Ttl(base: nat, jitter: nat, negative: nat, lock: nat)

  /** The longest any entry can live. */
  function Longest(ttl: Ttl): nat {
    Max(ttl.base + ttl.jitter, ttl.negative)
  }

  /** A key answers up to and including its expiry instant. */
  predicate Live(expires: nat, now: nat) {
    now <= expires
  }

  function Get(s: Store, id: Id, now: nat): Option<Envelope> {
    if id in s.entries && Live(s.entries[id].expires, now) then Some(s.entries[id].envelope) else None
  }

  function Put(s: Store, id: Id, e: Envelope, expires: nat): Store {
    s.(entries := s.entries[id := Entry(e, expires)])
  }

  function PutProduct(s: Store, ttl: Ttl, id: Id, p: Product, jitter: nat, now: nat): Store {
    Put(s, id, Snapshot(id, p, p.version), now + ttl.base + jitter)
  }

  function PutMissing(s: Store, ttl: Ttl, id: Id, now: nat): Store {
    Put(s, id, Missing, now + ttl.negative)
  }

  function Delete(s: Store, id: Id): Store {
    s.(entries := s.entries - {id})
  }

  /** Who holds the lock, if its key is live. */
  function Holder(s: Store, id: Id, now: nat): Option<Token> {
    if id in s.locks && Live(s.locks[id].expires, now) then Some(s.locks[id].token) else None
  }

  /** SET NX PX. */
  function TryLock(s: Store, ttl: Ttl, id: Id, token: Token, now: nat): Store {
    if Holder(s, id, now).Some? then s else s.(locks := s.locks[id := Lock(token, now + ttl.lock)])
  }

  /** The release script: delete only when the stored token is one's own. */
  function Release(s: Store, id: Id, token: Token, now: nat): Store {
    if Holder(s, id, now) == Some(token) then s.(locks := s.locks - {id}) else s
  }

  /** A granted lock stays its owner's until it expires, whatever other owners do. */
  lemma OnlyTheOwnerReleases(s: Store, ttl: Ttl, id: Id, owner: Token, other: Token, now: nat, later: nat)
    requires Holder(s, id, now) == Some(owner) && other != owner
    requires Live(s.locks[id].expires, later)
    ensures Holder(Release(s, id, other, now), id, later) == Some(owner)
    ensures Holder(TryLock(s, ttl, id, other, now), id, later) == Some(owner)
    ensures Holder(Release(s, id, owner, now), id, later) == None
  {
  }

  class ProductCache {
    const ttl: Ttl
    var entries: map<Id, Entry>
    var locks: map<Id, Lock>

    ghost function Contents(): Store
      reads this
    {
      Store(entries, locks)
    }

    constructor (ttl: Ttl)
      ensures Contents() == EMPTY_STORE && this.ttl == ttl
    {
      this.ttl := ttl;
      entries, locks := map[], map[];
    }

    method Fetch(id: Id, now: nat) returns (r: Option<Envelope>)
      ensures r == Get(Contents(), id, now)
    {
      if id !in entries || entries[id].expires < now {
        return None;
      }
      return Some(entries[id].envelope);
    }

    method StoreProduct(id: Id, p: Product, jitter: nat, now: nat)
      requires jitter <= ttl.jitter
      modifies this`entries
      ensures Contents() == PutProduct(old(Contents()), ttl, id, p, jitter, now)
      ensures entries[id].expires <= now + Longest(ttl)
      ensures forall t: nat :: Get(Contents(), id, t) == (if t <= now + ttl.base + jitter then Some(Snapshot(id, p, p.version)) else None)
      ensures forall other, t :: other != id ==> Get(Contents(), other, t) == Get(old(Contents()), other, t)
    {
      entries := entries[id := Entry(Snapshot(id, p, p.version), now + ttl.base + jitter)];
    }

    method StoreMissing(id: Id, now: nat)
      modifies this`entries
      ensures Contents() == PutMissing(old(Contents()), ttl, id, now)
      ensures entries[id].expires <= now + Longest(ttl)
      ensures forall t: nat :: Get(Contents(), id, t) == if t <= now + ttl.negative then Some(Missing) else None
      ensures forall other, t :: other != id ==> Get(Contents(), other, t) == Get(old(Contents()), other, t)
    {
      entries := entries[id := Entry(Missing, now + ttl.negative)];
    }

    /** Afterwards no read finds the product, and every other read finds what it found before. */
    method Drop(id: Id)
      modifies this`entries
      ensures Contents() == Delete(old(Contents()), id)
      ensures forall now :: Get(Contents(), id, now) == None
      ensures forall other, now :: other != id ==> Get(Contents(), other, now) == Get(old(Contents()), other, now)
      ensures locks == old(locks)
    {
      entries := entries - {id};
    }

    method AcquireLock(id: Id, token: Token, now: nat) returns (granted: bool)
      modifies this`locks
      ensures Contents() == TryLock(old(Contents()), ttl, id, token, now)
      ensures granted <==> Holder(old(Contents()), id, now).None?
      ensures granted ==> Holder(Contents(), id, now) == Some(token)
    {
      if id in locks && now <= locks[id].expires {
        return false;
      }
      locks := locks[id := Lock(token, now + ttl.lock)];
      return true;
    }

    method ReleaseLock(id: Id, token: Token, now: nat) returns (released: bool)
      modifies this`locks
      ensures Contents() == Release(old(Contents()), id, token, now)
      ensures released <==> Holder(old(Contents()), id, now) == Some(token)
    {
      released := id in locks && now <= locks[id].expires && locks[id].token == token;
      if released {
        locks := locks - {id};
      }
    }
  }
}
