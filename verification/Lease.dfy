/** The token lease that guards one schedule across workers (core/cloud_hunt_scheduler.py, `DistributedScheduleLease`).
    Redis is a map of keys to a token and an expiry. */
module Lease {
  datatype Entry = Entry(token: nat, expires: int)

  type Keys = map<nat, Entry>

  predicate Live(keys: Keys, key: nat, now: int) {
    key in keys && now < keys[key].expires
  }

  /** `SET key token NX EX ttl`. */
  function AcquireIn(keys: Keys, key: nat, token: nat, ttl: nat, now: int): Keys {
    if Live(keys, key, now) then keys else keys[key := Entry(token, now + ttl)]
  }

  /** The compare-and-delete script. */
  function ReleaseIn(keys: Keys, key: nat, token: nat, now: int): Keys {
    if Live(keys, key, now) && keys[key].token == token then keys - {key} else keys
  }

  class Redis {
    var keys: Keys

    constructor ()
      ensures keys == map[]
    {
      keys := map[];
    }
  }

  class DistributedScheduleLease {
    const key: nat
    const token: nat
    const ttl: nat
    const redis: Redis?

    constructor (redis: Redis?, key: nat, token: nat, ttl: nat)
      ensures this.redis == redis && this.key == key && this.token == token && this.ttl == ttl
    {
      this.redis, this.key, this.token, this.ttl := redis, key, token, ttl;
    }

    /** Without Redis there is nothing to hold; an unreachable Redis counts as not acquired. */
    method Acquire(now: int, reachable: bool) returns (acquired: bool)
      modifies redis
      ensures redis == null ==> acquired
      ensures redis != null && !reachable ==> !acquired && redis.keys == old(redis.keys)
      ensures redis != null && reachable ==>
        (acquired <==> !Live(old(redis.keys), key, now))
        && redis.keys == AcquireIn(old(redis.keys), key, token, ttl, now)
    {
      if redis == null { return true; }
      if !reachable || Live(redis.keys, key, now) { return false; }
      redis.keys := redis.keys[key := Entry(token, now + ttl)];
      return true;
    }

    method Release(now: int, reachable: bool)
      modifies redis
      ensures redis != null ==>
                redis.keys == if reachable then ReleaseIn(old(redis.keys), key, token, now) else old(redis.keys)
    {
      if redis != null && reachable && Live(redis.keys, key, now) && redis.keys[key].token == token {
        redis.keys := redis.keys - {key};
      }
    }
  }

  // ----- every interleaving of workers -----

  datatype Event = TryAcquire(key: nat, token: nat, ttl: nat, at: int) | TryRelease(key: nat, token: nat, at: int)

  function Next(keys: Keys, e: Event): Keys {
    match e
    case TryAcquire(key, token, ttl, at) => AcquireIn(keys, key, token, ttl, at)
    case TryRelease(key, token, at) => ReleaseIn(keys, key, token, at)
  }

  function Run(keys: Keys, events: seq<Event>): Keys {
    if events == [] then keys else Next(Run(keys, events[..|events| - 1]), events[|events| - 1])
  }

  /** A holder keeps its lease until it expires, whatever other workers try: their acquisitions fail, and releases by
      holders whose own lease ran out delete nothing. Other workers' tokens differ, being fresh identifiers. */
  lemma {:induction false} HolderKeepsLease(keys: Keys, key: nat, token: nat, ttl: nat, start: int, events: seq<Event>)
    requires !Live(keys, key, start)
    requires forall e <- events :: e.token != token && start <= e.at < start + ttl
    ensures var held := Run(AcquireIn(keys, key, token, ttl, start), events);
            key in held && held[key] == Entry(token, start + ttl)
  {
    if events != [] {
      var prefix, last := events[..|events| - 1], events[|events| - 1];
      assert last in events && forall e <- prefix :: e in events;
      HolderKeepsLease(keys, key, token, ttl, start, prefix);
    }
  }

  /** Two acquisitions of one key that both succeed, with no release by the first holder in between, are at least the
      first lease's lifetime apart. */
  lemma AcquisitionsAreApart(keys: Keys, key: nat, first: nat, ttl: nat, start: int, events: seq<Event>, at: int)
    requires !Live(keys, key, start)
    requires forall e <- events :: e.token != first && start <= e.at <= at
    requires !Live(Run(AcquireIn(keys, key, first, ttl, start), events), key, at)
    ensures start + ttl <= at
  {
    if at < start + ttl {
      HolderKeepsLease(keys, key, first, ttl, start, events);
    }
  }

  /** A worker whose lease expired cannot delete its successor's: its release after the takeover changes nothing. */
  lemma ExpiredReleaseIsHarmless(keys: Keys, key: nat, late: nat, successor: nat, ttl: nat, taken: int,
                                 between: seq<Event>, at: int)
    requires late != successor && !Live(keys, key, taken) && taken <= at < taken + ttl
    requires forall e <- between :: e.token != successor && taken <= e.at < taken + ttl
    ensures var held := Run(AcquireIn(keys, key, successor, ttl, taken), between);
            Next(held, TryRelease(key, late, at)) == held && Live(held, key, at) && held[key].token == successor
  {
    HolderKeepsLease(keys, key, successor, ttl, taken, between);
  }

  /** A lease lasts exactly its lifetime, unless its holder releases it: for another worker the key is free from the
      moment of expiry, and at once after the release. */
  lemma LeaseLastsItsLifetime(keys: Keys, key: nat, token: nat, ttl: nat, start: int, other: nat, at: int)
    requires forall e | key in keys && e == keys[key] :: e.expires <= start
    requires other != token && start <= at
    ensures var held := AcquireIn(keys, key, token, ttl, start);
            && (AcquireIn(held, key, other, ttl, at) != held <==> start + ttl <= at)
            && (start + ttl <= at ==> AcquireIn(held, key, other, ttl, at)[key] == Entry(other, at + ttl))
            && (at < start + ttl ==>
                  ReleaseIn(held, key, token, at) == keys - {key} && ReleaseIn(held, key, other, at) == held)
  {
  }
}
