/** The cache object: the linked recency list with its policy and counters, proved against the
    state machine (internal/cache/cache.go:81-244, 509-535). The clock is a parameter. */
module AnswerCache {
  import opened Text
  import opened Recency
  import opened Ttl
  import opened Cache

  class Shared {
    var policy: Policy
    var generation: nat
    var observed: bool
    var hits: nat
    var misses: nat
    var evicts: nat
    const list: Lru<Key, Entry>

    ghost predicate Valid()
      reads this, list, list.repr
    {
      list.Valid()
    }

    ghost function Abs(): State
      reads this, list
    {
      State(policy, generation, observed, list.contents, hits, misses, evicts)
    }

    constructor (p: Policy)
      ensures Valid() && Abs() == New(p) && fresh(list) && list.repr == {}
    {
      policy, generation, observed, hits, misses, evicts := p, 0, false, 0, 0, 0;
      list := new Lru();
    }

    method CountMiss()
      requires Valid()
      modifies this`misses
      ensures Valid() && Abs() == Missed(old(Abs()))
    {
      misses := misses + 1;
    }

    method CountHit()
      requires Valid()
      modifies this`hits
      ensures Valid() && Abs() == old(Abs()).(hits := old(hits) + 1)
    {
      hits := hits + 1;
    }

    /** Evict from the tail down to the policy's bound. */
    method EvictExcess()
      requires Valid() && Active(policy)
      modifies this`evicts, list, list.repr`prev, list.repr`next
      ensures Valid() && list.repr == old(list.repr)
      ensures var kept := Trim(old(list.contents), policy.maxEntries);
              Abs() == old(Abs()).(slots := kept, evicts := old(evicts) + (|old(list.contents)| - |kept|))
    {
      var dropped := list.Evict(policy.maxEntries);
      evicts := evicts + dropped;
    }

    /** An expired entry is removed and counts as a miss. */
    method Discard(key: Key)
      requires Valid() && Place(list.contents, key) >= 0
      modifies this`misses, list, list.repr`prev, list.repr`next
      ensures Valid() && list.repr == old(list.repr)
      ensures Abs() == Missed(old(Abs()).(slots := Without(old(list.contents), Place(old(list.contents), key))))
    {
      CountMiss();
      list.Delete(key);
    }

    /** A served entry moves to the front and counts as a hit. */
    method Use(key: Key)
      requires Valid() && Place(list.contents, key) >= 0
      modifies this`hits, list, list.repr`prev, list.repr`next
      ensures Valid() && list.repr == old(list.repr)
      ensures Abs() == Used(old(Abs()), Place(old(list.contents), key))
    {
      CountHit();
      list.Use(key);
    }

    /** Get on a key that is present with value `e`. */
    method GetPresent(key: Key, e: Entry, opts: GetOpts, now: int, p: Policy) returns (ent: Option<Entry>)
      requires Valid() && Place(list.contents, key) >= 0 && list.contents[Place(list.contents, key)].val == e
      modifies this, list, list.repr`prev, list.repr`next
      ensures Valid() && list.repr == old(list.repr)
      ensures Abs() == GetAt(old(Abs()), Place(old(list.contents), key), opts, now, p).st
      ensures ent == Answered(GetAt(old(Abs()), Place(old(list.contents), key), opts, now, p))
    {
      var serveStale := opts.serveStale || p.staleServing;
      if opts.treatExpired {
        CountMiss();
        if !serveStale || opts.forceMiss {
          return None;
        }
        var out := Serve(e, now, true);
        return Some(out);
      }
      var expired := Expired(e, now);
      if expired && !serveStale {
        Discard(key);
        return None;
      }
      if opts.forceMiss {
        CountMiss();
        return None;
      }
      Use(key);
      var out := Serve(e, now, expired);
      return Some(out);
    }

    method Get(key: Key, opts: GetOpts, now: int) returns (ent: Option<Entry>)
      requires Valid()
      modifies this, list, list.repr`prev, list.repr`next
      ensures Valid() && list.repr == old(list.repr)
      ensures Abs() == Fetch(old(Abs()), key, opts, now).st
      ensures ent == Answered(Fetch(old(Abs()), key, opts, now))
    {
      if opts.bypass {
        return None;
      }
      var p := if opts.snapshot.Some? then opts.snapshot.value.policy else policy;
      if !p.enabled || p.maxEntries <= 0 {
        return None;
      }
      var found := list.Find(key);
      if found.Absent? {
        CountMiss();
        return None;
      }
      assert Fetch(Abs(), key, opts, now) == GetAt(Abs(), Place(list.contents, key), opts, now, p);
      ent := GetPresent(key, found.val, opts, now, p);
    }

    /** Insert a new key and evict from the tail. */
    method Admit(key: Key, e: Entry)
      requires Valid() && Active(policy) && Place(list.contents, key) < 0
      modifies this`evicts, list, list.repr
      ensures Valid() && Abs() == Inserted(old(Abs()), key, e)
      ensures fresh(list.repr - old(list.repr))
    {
      list.Insert(key, e);
      EvictExcess();
    }

    /** Replace a key that is present. */
    method Renew(key: Key, e: Entry)
      requires Valid() && Place(list.contents, key) >= 0
      modifies list, list.repr
      ensures Valid() && Abs() == Inserted(old(Abs()), key, e)
      ensures list.repr == old(list.repr)
    {
      list.Replace(key, e);
    }

    /** Store a stamped entry. */
    method Keep(key: Key, e: Entry)
      requires Valid() && Active(policy)
      modifies this`evicts, list, list.repr
      ensures Valid() && Abs() == Inserted(old(Abs()), key, e)
      ensures fresh(list.repr - old(list.repr))
    {
      var found := list.Find(key);
      if found.Present? {
        Renew(key, e);
      } else {
        Admit(key, e);
      }
    }

    /** The entry to store, with its times, if it may be stored. */
    method Prepare(key: Key, ent: Entry, opts: PutOpts, now: int) returns (e: Option<Entry>)
      ensures e.Some? <==> Stores(Abs(), key, ent, opts)
      ensures e.Some? ==> e.value == Stamped(Abs(), key, ent, opts, now)
    {
      if opts.skip {
        return None;
      }
      var p := policy;
      if opts.snapshot.Some? {
        if observed && opts.snapshot.value.generation < generation {
          return None;
        }
        p := opts.snapshot.value.policy;
      }
      if !p.enabled || p.maxEntries <= 0 || !policy.enabled || policy.maxEntries <= 0 {
        return None;
      }
      var negative := NegativeResult(ent.result, key.typ);
      var c := ent.(negative := ent.negative || negative);
      var ttl := EntryTTL(c);
      var life := Clamp(ttl, c.negative, p);
      if life <= 0 {
        return None;
      }
      return Some(c.(storedAt := Some(now), expireAt := Some(now + life)));
    }

    method Put(key: Key, ent: Entry, opts: PutOpts, now: int)
      requires Valid()
      modifies this, list, list.repr
      ensures Valid() && Abs() == Store(old(Abs()), key, ent, opts, now)
      ensures fresh(list.repr - old(list.repr))
    {
      var e := Prepare(key, ent, opts, now);
      if e.Some? {
        Keep(key, e.value);
      }
    }

    method ObservePolicy(r: RequestPolicy)
      requires Valid()
      modifies this, list, list.repr`prev, list.repr`next
      ensures Valid() && Abs() == Observe(old(Abs()), r)
      ensures list.repr <= old(list.repr)
    {
      if observed && r.generation <= generation {
        return;
      }
      Adopt(r);
      if !policy.enabled || policy.maxEntries <= 0 {
        list.Clear();
      } else {
        EvictExcess();
      }
    }

    method Adopt(r: RequestPolicy)
      requires Valid()
      modifies this`observed, this`generation, this`policy
      ensures Valid() && Abs() == old(Abs()).(observed := true, generation := r.generation, policy := r.policy)
    {
      observed, generation, policy := true, r.generation, r.policy;
    }

    method Flush()
      requires Valid()
      modifies list
      ensures Valid() && Abs() == old(Abs()).(slots := []) && list.repr == {}
    {
      list.Clear();
    }
  }

  function Answered(f: Found): Option<Entry> {
    if f.Hit? then Some(f.ent) else None
  }
}
