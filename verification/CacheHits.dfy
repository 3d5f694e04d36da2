/** When the cache answers: what is stored is served until it expires, as long as fewer other keys than
    the cache has room for have been used since (internal/cache/cache.go:135-244, 340-379). */
module CacheHits {
  import opened Text
  import opened Resolver
  import opened Recency
  import opened Ttl
  import opened Cache

  /** A Get without the options that keep it from serving what is there. */
  predicate Normal(opts: GetOpts) {
    !opts.bypass && !opts.forceMiss && !opts.treatExpired
  }

  // ---------------------------------------------------------------- one Get

  /** An entry that has not expired is served, counted as a hit, and is the most recent now. */
  lemma LiveEntryHits(st: State, key: Key, opts: GetOpts, now: int)
    requires Normal(opts) && Active(PolicyFor(st, opts.snapshot)) && Place(st.slots, key) >= 0
    requires !Expired(st.slots[Place(st.slots, key)].val, now)
    ensures var i, f := Place(st.slots, key), Fetch(st, key, opts, now);
            && f == Hit(f.st, Served(st.slots[i].val, now, false))
            && f.st == st.(slots := Touch(st.slots, i), hits := st.hits + 1)
  {
  }

  /** One that has is not, unless stale answers are wanted, and it goes. */
  lemma ExpiredEntryMisses(st: State, key: Key, opts: GetOpts, now: int)
    requires Normal(opts) && Active(PolicyFor(st, opts.snapshot)) && Place(st.slots, key) >= 0
    requires Expired(st.slots[Place(st.slots, key)].val, now)
    ensures var i, f := Place(st.slots, key), Fetch(st, key, opts, now);
            if opts.serveStale || PolicyFor(st, opts.snapshot).staleServing
            then f.Hit? && f.ent.stale && f.st.hits == st.hits + 1
            else f == Miss(st.(slots := Without(st.slots, i), misses := st.misses + 1))
  {
  }

  lemma AbsentKeyMisses(st: State, key: Key, opts: GetOpts, now: int)
    requires Place(st.slots, key) < 0 && !opts.bypass && Active(PolicyFor(st, opts.snapshot))
    ensures Fetch(st, key, opts, now) == Miss(st.(misses := st.misses + 1))
  {
  }

  /** The options that keep a Get from serving: bypass touches nothing, a forced miss and an entry to be
      treated as expired count a miss and leave the entry. */
  lemma OptionsKeepOut(st: State, key: Key, opts: GetOpts, now: int)
    requires Active(PolicyFor(st, opts.snapshot)) && Place(st.slots, key) >= 0
    ensures opts.bypass ==> Fetch(st, key, opts, now) == Miss(st)
    ensures !opts.bypass && opts.forceMiss && !Expired(st.slots[Place(st.slots, key)].val, now) ==>
              Fetch(st, key, opts, now) == Miss(st.(misses := st.misses + 1))
    ensures !opts.bypass && opts.treatExpired && !opts.serveStale && !PolicyFor(st, opts.snapshot).staleServing ==>
              Fetch(st, key, opts, now) == Miss(st.(misses := st.misses + 1))
  {
  }

  // ---------------------------------------------------------------- one Put

  /** The lifetime: the natural one, raised to the minimum for positive answers and cut to the maximum. */
  lemma ClampExactly(ttl: int, negative: bool, p: Policy)
    ensures ttl > 0 ==> Clamp(ttl, negative, p) > 0
    ensures var max := if negative then p.maximumNegativeTTL else p.maximumTTL;
            var raised := if !negative && 0 < p.minimumTTL && ttl < p.minimumTTL then p.minimumTTL else ttl;
            && (max > 0 && raised > max ==> Clamp(ttl, negative, p) == max)
            && (raised >= 0 && (max <= 0 || raised <= max) ==> Clamp(ttl, negative, p) == raised)
            && (raised < 0 ==> Clamp(ttl, negative, p) == 0)
  {
  }

  /** A positive answer with records that have time left is stored, by every Put that is not skipped and
      does not come from an older snapshot, into a cache that is on. */
  lemma PositivePutStores(st: State, key: Key, ent: Entry, opts: PutOpts)
    requires !opts.skip && Active(st.policy) && Active(PolicyFor(st, opts.snapshot))
    requires st.observed && opts.snapshot.Some? ==> opts.snapshot.value.generation >= st.generation
    requires !ent.negative && !IsNegative(ent.result, key.typ) && ent.storedAt.None? && ent.result.answers != []
    requires forall i :: 0 <= i < |ent.result.answers| ==> ent.result.answers[i].ttl > 0
    ensures Stores(st, key, ent, opts)
  {
    var e := Classified(key, ent);
    assert Considered(e) == e.result.answers;
    ClampExactly(NaturalTTL(e), false, PolicyFor(st, opts.snapshot));
  }

  /** A Put that is skipped, or meets a cache that is off, changes nothing. */
  lemma UnwantedPutIsIgnored(st: State, key: Key, ent: Entry, opts: PutOpts, now: int)
    requires opts.skip || !Active(st.policy) || !Active(PolicyFor(st, opts.snapshot))
    ensures Store(st, key, ent, opts, now) == st
  {
  }

  /** Without preset times an entry lives as long as the least TTL among its answers, and a negative one
      also among its authority records, where an SOA counts with its MINIMUM too. */
  lemma NaturalIsLeast(e: Entry)
    requires Preset(e).None?
    ensures !e.negative && e.result.answers != [] ==> IsLeastTTL(e.result.answers, false, NaturalTTL(e))
    ensures !e.negative && e.result.answers == [] ==> NaturalTTL(e) == 0
    ensures e.negative && HasSOA(e.result.authority) ==>
              IsLeastTTL(e.result.answers + e.result.authority, true, NaturalTTL(e))
    ensures e.negative && !HasSOA(e.result.authority) ==> NaturalTTL(e) == 0
  {
    if !e.negative { assert Considered(e) == e.result.answers; }
  }

  lemma {:induction false} OneField(s: string)
    requires s != "" && forall i :: 0 <= i < |s| ==> !IsSpace(s[i])
    ensures FieldCount(s) == 1
  {
    if |s| > 1 {
      assert forall i :: 0 <= i < |s| - 1 ==> s[1..][i] == s[i + 1];
      OneField(s[1..]);
      assert !IsSpace(s[1]);
    } else {
      assert FieldCount(s[1..]) == 0;
    }
  }

  ghost predicate Word(s: string) {
    s != "" && forall i :: 0 <= i < |s| ==> !IsSpace(s[i])
  }

  /** An ordinary SOA record counts in a negative entry with the lesser of its TTL and its MINIMUM. */
  lemma SoaCounts(rr: RR)
    requires rr.typ == "SOA" && rr.data.SoaData? && 0 <= rr.data.minimum < 0x1_0000_0000
    requires Word(rr.data.primary) && Word(rr.data.administrator) && Word(rr.data.serial)
    ensures var minimum := rr.data.minimum * 1_000_000_000;
            CountedTTL(rr, true) == (if minimum < rr.ttl then minimum else rr.ttl) && CountedTTL(rr, false) == rr.ttl
  {
    OneField(rr.data.primary);
    OneField(rr.data.administrator);
    OneField(rr.data.serial);
  }

  /** A denial with an SOA is negative, and an answer with a record that is no CNAME is not. */
  lemma NegativeExactly(r: Answer, t: string)
    ensures r.rcode == NXDomain ==> IsNegative(r, t)
    ensures r.rcode == NoError && r.answers == [] && HasSOA(r.authority) && t !in {"CNAME", "ANY"} ==> IsNegative(r, t)
    ensures r.rcode != NXDomain && (exists i :: 0 <= i < |r.answers| && r.answers[i].typ != "CNAME") ==>
              !IsNegative(r, t)
    ensures r.rcode != NXDomain && !HasSOA(r.authority) ==> !IsNegative(r, t)
  {
  }

  /** A newer snapshot's policy takes effect, and the most recent entries that it has room for stay. */
  lemma NewerPolicyRules(st: State, r: RequestPolicy)
    requires !st.observed || r.generation > st.generation
    ensures var st' := Observe(st, r);
            && st'.policy == r.policy && st'.generation == r.generation && st'.observed
            && st'.slots == st.slots[..if |st.slots| < Capacity(r.policy) then |st.slots| else Capacity(r.policy)]
  {
  }

  // ---------------------------------------------------------------- runs

  /** What is there under a key is what the latest storing Put stored. */
  lemma SlotIsWritten(p: Policy, ops: seq<Op>, n: nat, key: Key, e: Entry)
    requires WrittenAt(p, ops, n, key, e) && Place(Run(p, ops).slots, key) >= 0
    ensures var slots := Run(p, ops).slots; slots[Place(slots, key)] == Slot(key, e)
  {
    var slots := Run(p, ops).slots;
    var slot := slots[Place(slots, key)];
    var m := SlotsWereWritten(p, ops, slot);
    assert slot.key == key;
    assert !(m < n) && !(n < m);
  }

  /** In every run a Get of what is still there is a hit until it expires, and serves that Put, aged. */
  lemma WrittenIsHit(p: Policy, ops: seq<Op>, n: nat, key: Key, e: Entry, opts: GetOpts, now: int)
    requires WrittenAt(p, ops, n, key, e) && Place(Run(p, ops).slots, key) >= 0 && e.expireAt.Some?
    requires Normal(opts) && Active(PolicyFor(Run(p, ops), opts.snapshot)) && now < e.expireAt.value
    ensures var f := Fetch(Run(p, ops), key, opts, now);
            f.Hit? && AgedFrom(f.ent.result, ops[n].ent.result, ops[n].now, now, e.expireAt.value)
  {
    SlotIsWritten(p, ops, n, key, e);
    LiveEntryHits(Run(p, ops), key, opts, now);
    ServedIsAged(e, now, false);
  }

  /** The keys used after the n-th operation. */
  ghost function UsedSince(p: Policy, ops: seq<Op>, n: nat): set<Key> {
    if |ops| <= n + 1 then {}
    else
      var before := ops[..|ops| - 1];
      UsedSince(p, before, n) +
        match Uses(Run(p, before), ops[|ops| - 1]) { case Some(k) => {k} case None => {} }
  }

  /** After the n-th operation nothing flushes the cache, writes the key again, or asks for it too late. */
  ghost predicate Undisturbed(p: Policy, ops: seq<Op>, n: nat, key: Key, expiry: int) {
    forall m :: n < m < |ops| ==>
      !ops[m].OpFlush? && !Writes(p, ops, m, key) && (ops[m].OpGet? && ops[m].key == key ==> ops[m].now < expiry)
  }

  /** Under every policy since, the cache has room for the key beside `others`. */
  ghost predicate Roomy(p: Policy, ops: seq<Op>, n: nat, others: nat) {
    forall m :: n < m <= |ops| ==> others < Capacity(Run(p, ops[..m]).policy)
  }

  /** The key is there, behind only keys of `used`. */
  ghost predicate Ahead(slots: seq<Slot<Key, Entry>>, key: Key, used: set<Key>) {
    Place(slots, key) >= 0 && forall j :: 0 <= j < Place(slots, key) ==> slots[j].key in used
  }

  lemma SubsetCard<T>(a: set<T>, b: set<T>)
    requires a <= b
    ensures |a| <= |b|
  {
    assert b == a + (b - a);
  }

  /** Distinct keys of a set are no more than its elements. */
  lemma PrefixCard(slots: seq<Slot<Key, Entry>>, i: nat, used: set<Key>)
    requires Keyed(slots) && i <= |slots| && forall j :: 0 <= j < i ==> slots[j].key in used
    ensures i <= |used|
  {
    var keys := seq(i, j requires 0 <= j < i => slots[j].key);
    DistinctCount(keys);
    SubsetCard((set k | k in keys), used);
  }

  /** Using another key moves this one back by one place at most. */
  lemma AheadAfterUse(before: seq<Slot<Key, Entry>>, after: seq<Slot<Key, Entry>>, k: Key, key: Key, used: set<Key>)
    requires Keyed(before) && Keyed(after) && Promotes(before, after, k) && k != key && k in used
    requires Ahead(before, key, used) && (Place(before, k) >= 0 || Place(before, key) + 1 < |after|)
    ensures Ahead(after, key, used)
  {
    var i, at := Place(before, key), Place(before, k);
    if at >= 0 {
      var less := Without(before, at);
      assert after[1..] == less;
      var j := if i < at then i else i - 1;
      assert less[j] == before[i] && after[j + 1] == less[j];
      PlaceIs(after, key, j + 1);
      forall x | 0 <= x < j + 1 ensures after[x].key in used {
        if x > 0 { assert after[x] == less[x - 1] == before[if x - 1 < at then x - 1 else x]; }
      }
    } else {
      assert after[i + 1] == after[1..][i] == before[i];
      PlaceIs(after, key, i + 1);
      forall x | 0 <= x < i + 1 ensures after[x].key in used {
        if x > 0 { assert after[x] == after[1..][x - 1] == before[x - 1]; }
      }
    }
  }

  /** Dropping another slot, or slots behind it, leaves the key ahead. */
  lemma AheadAfterDrop(before: seq<Slot<Key, Entry>>, c: nat, key: Key, used: set<Key>)
    requires Keyed(before) && c < |before| && before[c].key != key && Ahead(before, key, used)
    ensures Ahead(Without(before, c), key, used)
  {
    var i, less := Place(before, key), Without(before, c);
    var j := if i < c then i else i - 1;
    WithoutKeyed(before, c);
    assert less[j] == before[i];
    PlaceIs(less, key, j);
    forall x | 0 <= x < j ensures less[x].key in used { assert less[x] == before[if x < c then x else x + 1]; }
  }

  lemma AheadAfterTrim(before: seq<Slot<Key, Entry>>, c: nat, key: Key, used: set<Key>)
    requires Keyed(before) && c <= |before| && Ahead(before, key, used) && Place(before, key) < c
    ensures Ahead(before[..c], key, used)
  {
    PlaceIs(before[..c], key, Place(before, key));
  }

  lemma AheadMore(slots: seq<Slot<Key, Entry>>, key: Key, used: set<Key>, more: set<Key>)
    requires Ahead(slots, key, used) && used <= more
    ensures Ahead(slots, key, more)
  {
  }

  // ---------------------------------------------------------------- one step

  /** A Get of another key, or one of this key in time. */
  lemma GetKeepsAhead(st: State, op: Op, key: Key, used: set<Key>)
    requires Good(st) && op.OpGet? && Ahead(st.slots, key, used)
    requires op.key == key ==> !Expired(st.slots[Place(st.slots, key)].val, op.now)
    requires forall k :: Uses(st, op) == Some(k) ==> k in used || k == key
    ensures Ahead(Step(st, op).slots, key, used)
  {
    GetChanges(st, op.key, op.gopts, op.now);
    if Uses(st, op).Some? {
      UseKeepsAhead(st.slots, Step(st, op).slots, Uses(st, op).value, key, used);
    } else {
      MissDropsAtMost(st, op);
      if Step(st, op).slots != st.slots { AheadAfterDrop(st.slots, Place(st.slots, op.key), key, used); }
    }
  }

  lemma UseKeepsAhead(before: seq<Slot<Key, Entry>>, after: seq<Slot<Key, Entry>>, k: Key, key: Key, used: set<Key>)
    requires Keyed(before) && Keyed(after) && Promotes(before, after, k) && Place(before, k) >= 0
    requires Ahead(before, key, used) && (k == key || k in used)
    ensures Ahead(after, key, used)
  {
    if k == key { PlaceIs(after, key, 0); } else { AheadAfterUse(before, after, k, key, used); }
  }

  /** A Get that is no use of its key drops at most that key's slot, and only if it has expired. */
  lemma MissDropsAtMost(st: State, op: Op)
    requires op.OpGet? && Uses(st, op).None?
    ensures var i, after := Place(st.slots, op.key), Step(st, op).slots;
            after == st.slots || (i >= 0 && Expired(st.slots[i].val, op.now) && after == Without(st.slots, i))
  {
  }

  /** A Put of another key, with room for one more. */
  lemma PutKeepsAhead(st: State, op: Op, key: Key, used: set<Key>)
    requires Good(st) && op.OpPut? && Ahead(st.slots, key, used) && |used| < Capacity(st.policy)
    requires Stores(st, op.key, op.ent, op.popts) ==> op.key != key && op.key in used
    ensures Ahead(Step(st, op).slots, key, used)
  {
    if Stores(st, op.key, op.ent, op.popts) {
      var e := Stamped(st, op.key, op.ent, op.popts, op.now);
      InsertPromotes(st, op.key, e);
      if Place(st.slots, op.key) < 0 { InsertHasRoom(st, op.key, e, key, used); }
      AheadAfterUse(st.slots, Step(st, op).slots, op.key, key, used);
    }
  }

  lemma InsertHasRoom(st: State, k: Key, e: Entry, key: Key, used: set<Key>)
    requires Good(st) && Ahead(st.slots, key, used) && |used| < Capacity(st.policy)
    requires Place(st.slots, k) < 0 && k in used
    ensures Place(st.slots, key) + 1 < |Inserted(st, k, e).slots|
  {
    var all, i := [Slot(k, e)] + st.slots, Place(st.slots, key);
    assert Keyed(all);
    forall j | 0 <= j < i + 1 ensures all[j].key in used {
      if j > 0 { assert all[j] == st.slots[j - 1]; }
    }
    PrefixCard(all, i + 1, used);
  }

  lemma ObserveKeepsAhead(st: State, op: Op, key: Key, used: set<Key>)
    requires Good(st) && op.OpObserve? && Ahead(st.slots, key, used) && |used| < Capacity(Step(st, op).policy)
    ensures Ahead(Step(st, op).slots, key, used)
  {
    var after := Step(st, op).slots;
    PrefixCard(st.slots, Place(st.slots, key), used);
    if after != st.slots { AheadAfterTrim(st.slots, |after|, key, used); }
  }

  // ---------------------------------------------------------------- the guarantee

  /** What is stored stays while fewer other keys than there is room for are used. */
  lemma {:induction false} Survives(p: Policy, ops: seq<Op>, n: nat, key: Key, e: Entry)
    requires n < |ops| && Writes(p, ops, n, key) && e.expireAt.Some?
    requires e == Stamped(Run(p, ops[..n]), key, ops[n].ent, ops[n].popts, ops[n].now)
    requires Undisturbed(p, ops, n, key, e.expireAt.value)
    requires Roomy(p, ops, n, |UsedSince(p, ops, n) - {key}|)
    ensures Ahead(Run(p, ops).slots, key, UsedSince(p, ops, n) - {key}) && WrittenAt(p, ops, n, key, e)
    decreases |ops|
  {
    var before, op := ops[..|ops| - 1], ops[|ops| - 1];
    var st := Run(p, before);
    RunIsGood(p, before);
    RunIsGood(p, ops);
    StillWritten(p, ops, n, key, e);
    if |ops| == n + 1 {
      assert before == ops[..n];
      InsertPromotes(st, key, e);
      PlaceIs(Run(p, ops).slots, key, 0);
    } else {
      ShorterHolds(p, ops, n, key, e);
      Survives(p, before, n, key, e);
      var used, more := UsedSince(p, before, n) - {key}, UsedSince(p, ops, n) - {key};
      AheadMore(st.slots, key, used, more);
      SurvivesStep(p, ops, n, key, e, more);
    }
  }

  lemma StillWritten(p: Policy, ops: seq<Op>, n: nat, key: Key, e: Entry)
    requires n < |ops| && Writes(p, ops, n, key) && e.expireAt.Some?
    requires e == Stamped(Run(p, ops[..n]), key, ops[n].ent, ops[n].popts, ops[n].now)
    requires Undisturbed(p, ops, n, key, e.expireAt.value)
    ensures WrittenAt(p, ops, n, key, e)
  {
    forall m: nat | n < m ensures !Writes(p, ops, m, key) {}
  }

  /** The hypotheses hold of the run without its last operation. */
  lemma ShorterHolds(p: Policy, ops: seq<Op>, n: nat, key: Key, e: Entry)
    requires n + 1 < |ops| && Writes(p, ops, n, key) && e.expireAt.Some?
    requires e == Stamped(Run(p, ops[..n]), key, ops[n].ent, ops[n].popts, ops[n].now)
    requires Undisturbed(p, ops, n, key, e.expireAt.value) && Roomy(p, ops, n, |UsedSince(p, ops, n) - {key}|)
    ensures var before := ops[..|ops| - 1];
            && Writes(p, before, n, key) && before[..n] == ops[..n] && before[n] == ops[n]
            && Undisturbed(p, before, n, key, e.expireAt.value)
            && Roomy(p, before, n, |UsedSince(p, before, n) - {key}|)
  {
    var before := ops[..|ops| - 1];
    assert before[..n] == ops[..n];
    forall m | n < m < |before| ensures !Writes(p, before, m, key) { WritesEarlier(p, ops, m, key); }
    SubsetCard(UsedSince(p, before, n) - {key}, UsedSince(p, ops, n) - {key});
    forall m | n < m <= |before|
      ensures |UsedSince(p, before, n) - {key}| < Capacity(Run(p, before[..m]).policy)
    {
      assert before[..m] == ops[..m];
    }
  }

  lemma SurvivesStep(p: Policy, ops: seq<Op>, n: nat, key: Key, e: Entry, more: set<Key>)
    requires n + 1 < |ops| && e.expireAt.Some? && Undisturbed(p, ops, n, key, e.expireAt.value)
    requires Roomy(p, ops, n, |more|) && more == UsedSince(p, ops, n) - {key}
    requires WrittenAt(p, ops[..|ops| - 1], n, key, e) && Ahead(Run(p, ops[..|ops| - 1]).slots, key, more)
    ensures Ahead(Run(p, ops).slots, key, more)
  {
    var before, op := ops[..|ops| - 1], ops[|ops| - 1];
    var st := Run(p, before);
    RunIsGood(p, before);
    assert ops[..|ops|] == ops;
    match op
    case OpGet(k, _, _) =>
      if k == key { SlotIsWritten(p, before, n, key, e); }
      GetKeepsAhead(st, op, key, more);
    case OpPut(k, _, _, _) =>
      assert !Writes(p, ops, |ops| - 1, key);
      assert |more| < Capacity(Run(p, ops[..|ops| - 1]).policy);
      PutKeepsAhead(st, op, key, more);
    case OpObserve(_) => ObserveKeepsAhead(st, op, key, more);
    case OpFlush => assert false;
  }

  /** A cache that is on keeps its promise: after a Put that stores, every normal Get of the key until the
      entry expires is a hit that serves that Put, aged, as long as fewer other keys have been used since
      than the cache has room for. */
  lemma StoredIsServed(p: Policy, ops: seq<Op>, n: nat, key: Key, opts: GetOpts, now: int)
    requires n < |ops| && Writes(p, ops, n, key) && Normal(opts) && Active(PolicyFor(Run(p, ops), opts.snapshot))
    requires var e := Stamped(Run(p, ops[..n]), key, ops[n].ent, ops[n].popts, ops[n].now);
             Undisturbed(p, ops, n, key, e.expireAt.value) && now < e.expireAt.value
    requires Roomy(p, ops, n, |UsedSince(p, ops, n) - {key}|)
    ensures var f := Fetch(Run(p, ops), key, opts, now);
            var life := Lifetime(Classified(key, ops[n].ent), PolicyFor(Run(p, ops[..n]), ops[n].popts.snapshot));
            f.Hit? && AgedFrom(f.ent.result, ops[n].ent.result, ops[n].now, now, ops[n].now + life)
  {
    var e := Stamped(Run(p, ops[..n]), key, ops[n].ent, ops[n].popts, ops[n].now);
    Survives(p, ops, n, key, e);
    WrittenIsHit(p, ops, n, key, e, opts, now);
  }
}
