/** The answer cache as a state machine over a recency list, and what every run of it keeps
    (internal/cache/cache.go:36-244, 509-535). */
module Cache {
  import opened Text
  import opened Names
  import opened Resolver
  import opened Recency
  import opened Ttl

  datatype Key = Key(revision: string, name: Name, typ: string, dnsClass: string, cd: bool,
                     forwardingID: string, local: bool)

  datatype RequestPolicy = RequestPolicy(generation: nat, policy: Policy)

  datatype GetOpts = GetOpts(snapshot: Option<RequestPolicy>, bypass: bool, forceMiss: bool,
                             serveStale: bool, treatExpired: bool)

  datatype PutOpts = PutOpts(snapshot: Option<RequestPolicy>, skip: bool)

  /** `slots` is most recently used first. */
  datatype State = State(policy: Policy, generation: nat, observed: bool, slots: seq<Slot<Key, Entry>>,
                         hits: nat, misses: nat, evicts: nat)

  predicate Active(p: Policy) {
    p.enabled && p.maxEntries > 0
  }

  function Capacity(p: Policy): nat {
    if Active(p) then p.maxEntries else 0
  }

  function PolicyFor(st: State, snapshot: Option<RequestPolicy>): Policy {
    if snapshot.Some? then snapshot.value.policy else st.policy
  }

  predicate Expired(e: Entry, now: int) {
    e.expireAt.Some? && now >= e.expireAt.value
  }

  // ---------------------------------------------------------------- the operations on states

  datatype Found = Miss(st: State) | Hit(st: State, ent: Entry)

  function Missed(st: State): State {
    st.(misses := st.misses + 1)
  }

  function Used(st: State, i: nat): State
    requires i < |st.slots|
  {
    st.(slots := Touch(st.slots, i), hits := st.hits + 1)
  }

  function GetAt(st: State, i: nat, opts: GetOpts, now: int, policy: Policy): Found
    requires i < |st.slots|
  {
    var e := st.slots[i].val;
    var serveStale := opts.serveStale || policy.staleServing;
    if opts.treatExpired then
      (if !serveStale || opts.forceMiss then Miss(Missed(st)) else Hit(Missed(st), Served(e, now, true)))
    else if Expired(e, now) then
      (if !serveStale then Miss(Missed(st.(slots := Without(st.slots, i))))
       else if opts.forceMiss then Miss(Missed(st))
       else Hit(Used(st, i), Served(e, now, true)))
    else if opts.forceMiss then Miss(Missed(st))
    else Hit(Used(st, i), Served(e, now, false))
  }

  function Fetch(st: State, key: Key, opts: GetOpts, now: int): Found {
    var policy := PolicyFor(st, opts.snapshot);
    if opts.bypass || !Active(policy) then Miss(st)
    else if Place(st.slots, key) < 0 then Miss(Missed(st))
    else GetAt(st, Place(st.slots, key), opts, now, policy)
  }

  /** The entry as stored, before its times are set. */
  ghost function Classified(key: Key, ent: Entry): Entry {
    ent.(negative := ent.negative || IsNegative(ent.result, key.typ))
  }

  ghost predicate Stores(st: State, key: Key, ent: Entry, opts: PutOpts) {
    && !opts.skip
    && !(opts.snapshot.Some? && st.observed && opts.snapshot.value.generation < st.generation)
    && Active(PolicyFor(st, opts.snapshot)) && Active(st.policy)
    && Lifetime(Classified(key, ent), PolicyFor(st, opts.snapshot)) > 0
  }

  ghost function Stamped(st: State, key: Key, ent: Entry, opts: PutOpts, now: int): Entry {
    var e := Classified(key, ent);
    e.(storedAt := Some(now), expireAt := Some(now + Lifetime(e, PolicyFor(st, opts.snapshot))))
  }

  function Inserted(st: State, key: Key, e: Entry): State {
    var i := Place(st.slots, key);
    if i >= 0 then st.(slots := Touch(st.slots[i := Slot(key, e)], i))
    else
      var all := [Slot(key, e)] + st.slots;
      var kept := Trim(all, Capacity(st.policy));
      st.(slots := kept, evicts := st.evicts + (|all| - |kept|))
  }

  ghost function Store(st: State, key: Key, ent: Entry, opts: PutOpts, now: int): State {
    if Stores(st, key, ent, opts) then Inserted(st, key, Stamped(st, key, ent, opts, now)) else st
  }

  function Observe(st: State, r: RequestPolicy): State {
    if st.observed && r.generation <= st.generation then st
    else
      var kept := Trim(st.slots, Capacity(r.policy));
      State(r.policy, r.generation, true, kept, st.hits, st.misses,
            st.evicts + if Active(r.policy) then |st.slots| - |kept| else 0)
  }

  // ---------------------------------------------------------------- runs

  datatype Op =
    | OpGet(key: Key, gopts: GetOpts, now: int)
    | OpPut(key: Key, ent: Entry, popts: PutOpts, now: int)
    | OpObserve(request: RequestPolicy)
    | OpFlush

  ghost function Step(st: State, op: Op): State {
    match op
    case OpGet(key, opts, now) => Fetch(st, key, opts, now).st
    case OpPut(key, ent, opts, now) => Store(st, key, ent, opts, now)
    case OpObserve(r) => Observe(st, r)
    case OpFlush => st.(slots := [])
  }

  function New(p: Policy): State {
    State(p, 0, false, [], 0, 0, 0)
  }

  /** The state after a run from a new cache. */
  ghost function Run(p: Policy, ops: seq<Op>): State {
    if ops == [] then New(p) else Step(Run(p, ops[..|ops| - 1]), ops[|ops| - 1])
  }

  /** What a step does to the list: nothing but removal, or the use of one key. */
  ghost predicate Shrinks(before: seq<Slot<Key, Entry>>, after: seq<Slot<Key, Entry>>) {
    exists i: nat :: i <= |before| && (after == before[..i] || (i < |before| && after == Without(before, i)))
  }

  /** `key` is now first; the other slots kept are the most recent others, in their old order. */
  ghost predicate Promotes(before: seq<Slot<Key, Entry>>, after: seq<Slot<Key, Entry>>, key: Key) {
    && after != [] && after[0].key == key
    && if Place(before, key) >= 0 then after[1..] == Without(before, Place(before, key)) else after[1..] <= before
  }

  /** The key an operation uses: a hit that is not treated as expired, or a Put that stores. */
  ghost function Uses(st: State, op: Op): Option<Key> {
    match op
    case OpGet(key, opts, now) => if Fetch(st, key, opts, now).Hit? && !opts.treatExpired then Some(key) else None
    case OpPut(key, ent, opts, _) => if Stores(st, key, ent, opts) then Some(key) else None
    case OpObserve(_) => None
    case OpFlush => None
  }

  ghost predicate Good(st: State) {
    Keyed(st.slots) && |st.slots| <= Capacity(st.policy)
  }

  lemma InsertPromotes(st: State, key: Key, e: Entry)
    requires Good(st) && Active(st.policy)
    ensures var st' := Inserted(st, key, e);
            Good(st') && Promotes(st.slots, st'.slots, key) && st'.slots[0] == Slot(key, e)
  {
    var i := Place(st.slots, key);
    if i >= 0 {
      var renewed := st.slots[i := Slot(key, e)];
      WithoutKeyed(st.slots, i);
      assert Without(renewed, i) == Without(st.slots, i);
    }
  }

  lemma GetChanges(st: State, key: Key, opts: GetOpts, now: int)
    requires Good(st)
    ensures var st' := Fetch(st, key, opts, now).st;
            && Good(st') && st'.policy == st.policy
            && match Uses(st, OpGet(key, opts, now))
               case Some(k) => Promotes(st.slots, st'.slots, k) && Place(st.slots, k) >= 0
                 && st'.slots[0] == st.slots[Place(st.slots, k)]
               case None => Shrinks(st.slots, st'.slots)
  {
    var i, st' := Place(st.slots, key), Fetch(st, key, opts, now).st;
    if i >= 0 { WithoutKeyed(st.slots, i); }
    assert st.slots[..|st.slots|] == st.slots;
    if Uses(st, OpGet(key, opts, now)).None? {
      if st'.slots == st.slots {
        assert st'.slots == st.slots[..|st.slots|];
      } else {
        assert i < |st.slots| && st'.slots == Without(st.slots, i);
      }
    }
  }

  /** Every step keeps the list keyed and within the current policy, and moves at most one key. */
  lemma StepKeeps(st: State, op: Op)
    requires Good(st)
    ensures Good(Step(st, op))
    ensures match Uses(st, op)
            case Some(k) => Promotes(st.slots, Step(st, op).slots, k)
            case None => Shrinks(st.slots, Step(st, op).slots)
  {
    assert st.slots[..|st.slots|] == st.slots;
    match op
    case OpGet(key, opts, now) => GetChanges(st, key, opts, now);
    case OpPut(key, ent, opts, now) =>
      if Stores(st, key, ent, opts) { InsertPromotes(st, key, Stamped(st, key, ent, opts, now)); }
    case OpObserve(r) =>
      var kept := Observe(st, r).slots;
      assert kept == st.slots[..|kept|];
    case OpFlush => assert Step(st, op).slots == st.slots[..0];
  }

  lemma {:induction false} RunIsGood(p: Policy, ops: seq<Op>)
    ensures Good(Run(p, ops))
  {
    if ops != [] {
      RunIsGood(p, ops[..|ops| - 1]);
      StepKeeps(Run(p, ops[..|ops| - 1]), ops[|ops| - 1]);
    }
  }

  // ---------------------------------------------------------------- generations

  /** A Put from a snapshot older than the observed one changes nothing. */
  lemma OlderPutIsIgnored(st: State, key: Key, ent: Entry, opts: PutOpts, now: int)
    requires st.observed && opts.snapshot.Some? && opts.snapshot.value.generation < st.generation
    ensures Store(st, key, ent, opts, now) == st
  {
  }

  lemma StepGeneration(st: State, op: Op)
    ensures st.observed ==> Step(st, op).observed && st.generation <= Step(st, op).generation
    ensures st.policy == Step(st, op).policy || !st.observed || st.generation < Step(st, op).generation
  {
  }

  /** The observed generation only grows along a run, and the policy changes only with it. */
  lemma {:induction false} GenerationGrows(p: Policy, ops: seq<Op>, n: nat)
    requires n <= |ops|
    ensures Run(p, ops[..n]).observed ==> Run(p, ops).observed && Run(p, ops[..n]).generation <= Run(p, ops).generation
    ensures Run(p, ops[..n]).policy == Run(p, ops).policy || !Run(p, ops[..n]).observed
            || Run(p, ops[..n]).generation < Run(p, ops).generation
  {
    if n < |ops| {
      var before := ops[..|ops| - 1];
      assert before[..n] == ops[..n];
      GenerationGrows(p, before, n);
      StepGeneration(Run(p, before), ops[|ops| - 1]);
    } else {
      assert ops[..n] == ops;
    }
  }

  // ---------------------------------------------------------------- recency

  /** The index of the last operation that used `k`, or -1. */
  ghost function LastUse(p: Policy, ops: seq<Op>, k: Key): int {
    if ops == [] then -1
    else
      var before := ops[..|ops| - 1];
      if Uses(Run(p, before), ops[|ops| - 1]) == Some(k) then |ops| - 1 else LastUse(p, before, k)
  }

  lemma {:induction false} LastUseBound(p: Policy, ops: seq<Op>, k: Key)
    ensures -1 <= LastUse(p, ops, k) < |ops|
  {
    if ops != [] { LastUseBound(p, ops[..|ops| - 1], k); }
  }

  ghost predicate ByRecency(slots: seq<Slot<Key, Entry>>, last: Key -> int) {
    forall i, j :: 0 <= i < j < |slots| ==> last(slots[i].key) > last(slots[j].key)
  }

  /** Every slot of `after` beyond the first stands in `before`, in the same order. */
  lemma PromotesKeepsOrder(before: seq<Slot<Key, Entry>>, after: seq<Slot<Key, Entry>>, key: Key, last: Key -> int,
                           last': Key -> int)
    requires Keyed(before) && Promotes(before, after, key) && ByRecency(before, last)
    requires forall k :: k != key ==> last'(k) == last(k)
    requires forall k :: k != key ==> last'(key) > last(k)
    ensures ByRecency(after, last')
  {
    var i := Place(before, key);
    forall a, b | 0 <= a < b < |after| ensures last'(after[a].key) > last'(after[b].key) {
      var from := if i >= 0 && b - 1 >= i then b else b - 1;
      assert after[b] == after[1..][b - 1] == before[from];
      assert before[from].key != key;
      if a > 0 {
        var fromA := if i >= 0 && a - 1 >= i then a else a - 1;
        assert after[a] == after[1..][a - 1] == before[fromA];
        assert before[fromA].key != key;
      }
    }
  }

  lemma ShrinkKeepsOrder(before: seq<Slot<Key, Entry>>, after: seq<Slot<Key, Entry>>, last: Key -> int)
    requires Shrinks(before, after) && ByRecency(before, last)
    ensures ByRecency(after, last)
  {
    var i: nat :| i <= |before| && (after == before[..i] || (i < |before| && after == Without(before, i)));
  }

  /** After every run the list is ordered by last use, so what eviction cuts off its end is what
      was used longest ago. */
  lemma {:induction false} RunIsByRecency(p: Policy, ops: seq<Op>)
    ensures ByRecency(Run(p, ops).slots, k => LastUse(p, ops, k))
  {
    if ops != [] {
      var before, op := ops[..|ops| - 1], ops[|ops| - 1];
      var st := Run(p, before);
      RunIsByRecency(p, before);
      RunIsGood(p, before);
      StepKeeps(st, op);
      var last, last' := k => LastUse(p, before, k), k => LastUse(p, ops, k);
      assert ByRecency(st.slots, last);
      match Uses(st, op)
      case Some(key) =>
        forall k ensures last(k) < |ops| - 1 { LastUseBound(p, before, k); }
        PromotesKeepsOrder(st.slots, Step(st, op).slots, key, last, last');
      case None =>
        ShrinkKeepsOrder(st.slots, Step(st, op).slots, last);
    }
  }

  /** A Put that stores a new key keeps that key, and drops only keys used before every key it keeps. */
  lemma EvictionIsLRU(p: Policy, ops: seq<Op>, key: Key, ent: Entry, opts: PutOpts, now: int)
    requires Stores(Run(p, ops), key, ent, opts)
    ensures var st := Run(p, ops); var after := Store(st, key, ent, opts, now).slots;
            && after != [] && after[0] == Slot(key, Stamped(st, key, ent, opts, now))
            && forall i, j ::
                 0 <= i < |st.slots| && st.slots[i] !in after && st.slots[i].key != key && 1 <= j < |after| ==>
                 LastUse(p, ops, st.slots[i].key) < LastUse(p, ops, after[j].key)
  {
    var st := Run(p, ops);
    var after := Store(st, key, ent, opts, now).slots;
    RunIsGood(p, ops);
    RunIsByRecency(p, ops);
    InsertPromotes(st, key, Stamped(st, key, ent, opts, now));
    var at := Place(st.slots, key);
    forall i, j | 0 <= i < |st.slots| && st.slots[i] !in after && st.slots[i].key != key && 1 <= j < |after|
      ensures LastUse(p, ops, st.slots[i].key) < LastUse(p, ops, after[j].key)
    {
      assert after[j] == after[1..][j - 1];
      if at >= 0 || i < |after| - 1 { KeptByPromotion(st.slots, after, key, i); }
      assert after[j] == st.slots[j - 1];
    }
  }

  lemma KeptByPromotion(before: seq<Slot<Key, Entry>>, after: seq<Slot<Key, Entry>>, key: Key, i: nat)
    requires Promotes(before, after, key) && i < |before| && before[i].key != key
    requires Place(before, key) >= 0 || i < |after| - 1
    ensures before[i] in after
  {
    var at := Place(before, key);
    if at >= 0 {
      assert Without(before, at)[if i < at then i else i - 1] == before[i];
      assert after[1..][if i < at then i else i - 1] == before[i];
    } else {
      assert after[1..][i] == before[i];
    }
  }

  // ---------------------------------------------------------------- where a hit comes from

  ghost predicate Writes(p: Policy, ops: seq<Op>, n: nat, key: Key) {
    n < |ops| && ops[n].OpPut? && ops[n].key == key && Stores(Run(p, ops[..n]), key, ops[n].ent, ops[n].popts)
  }

  /** `e` is what the latest storing Put on `key`, the n-th operation, stored. */
  ghost predicate WrittenAt(p: Policy, ops: seq<Op>, n: nat, key: Key, e: Entry) {
    && Writes(p, ops, n, key)
    && e == Stamped(Run(p, ops[..n]), key, ops[n].ent, ops[n].popts, ops[n].now)
    && forall m: nat :: n < m ==> !Writes(p, ops, m, key)
  }

  lemma WritesEarlier(p: Policy, ops: seq<Op>, n: nat, key: Key)
    requires ops != [] && n < |ops| - 1
    ensures Writes(p, ops, n, key) <==> Writes(p, ops[..|ops| - 1], n, key)
  {
    assert ops[..|ops| - 1][..n] == ops[..n];
  }

  /** A slot after a step stood there before, unless the step wrote it. */
  lemma StepSlots(st: State, op: Op, slot: Slot<Key, Entry>)
    requires Good(st) && slot in Step(st, op).slots
    ensures if op.OpPut? && Stores(st, op.key, op.ent, op.popts) && slot.key == op.key
            then slot.val == Stamped(st, op.key, op.ent, op.popts, op.now)
            else slot in st.slots
  {
    StepKeeps(st, op);
    var before, after := st.slots, Step(st, op).slots;
    match Uses(st, op)
    case None => ShrunkWasThere(before, after, slot);
    case Some(k) =>
      if op.OpPut? {
        InsertPromotes(st, k, Stamped(st, op.key, op.ent, op.popts, op.now));
      } else {
        GetChanges(st, op.key, op.gopts, op.now);
      }
      PromotedWasThere(before, after, k, slot);
  }

  lemma ShrunkWasThere(before: seq<Slot<Key, Entry>>, after: seq<Slot<Key, Entry>>, slot: Slot<Key, Entry>)
    requires Shrinks(before, after) && slot in after
    ensures slot in before
  {
    var c: nat :| c <= |before| && (after == before[..c] || (c < |before| && after == Without(before, c)));
  }

  lemma PromotedWasThere(before: seq<Slot<Key, Entry>>, after: seq<Slot<Key, Entry>>, key: Key, slot: Slot<Key, Entry>)
    requires Keyed(before) && Promotes(before, after, key) && slot in after
    ensures slot == after[0] || (slot in before && slot.key != key)
  {
    var i :| 0 <= i < |after| && after[i] == slot;
    if i > 0 { RestWasThere(before, after, key, i); }
  }

  lemma RestWasThere(before: seq<Slot<Key, Entry>>, after: seq<Slot<Key, Entry>>, key: Key, i: nat)
    requires Keyed(before) && Promotes(before, after, key) && 0 < i < |after|
    ensures after[i] in before && after[i].key != key
  {
    var at := Place(before, key);
    var from := if at >= 0 && i - 1 >= at then i else i - 1;
    assert after[i] == after[1..][i - 1] == before[from];
  }

  /** Every slot was written by the latest storing Put on its key. */
  lemma {:induction false} SlotsWereWritten(p: Policy, ops: seq<Op>, slot: Slot<Key, Entry>) returns (n: nat)
    requires slot in Run(p, ops).slots
    ensures WrittenAt(p, ops, n, slot.key, slot.val)
  {
    var before, op := ops[..|ops| - 1], ops[|ops| - 1];
    var st := Run(p, before);
    RunIsGood(p, before);
    StepSlots(st, op, slot);
    if op.OpPut? && Stores(st, op.key, op.ent, op.popts) && slot.key == op.key {
      n := |ops| - 1;
    } else {
      n := SlotsWereWritten(p, before, slot);
      assert before[..n] == ops[..n];
      forall m: nat | n < m ensures !Writes(p, ops, m, slot.key) {
        if m < |ops| - 1 { WritesEarlier(p, ops, m, slot.key); }
      }
    }
  }

  /** The bounds on what was stored: its lifetime under the policy of the Put, and its expiry. */
  ghost predicate WithinPolicy(st: State, put: Op, e: Entry)
    requires put.OpPut?
  {
    var policy := PolicyFor(st, put.popts.snapshot);
    && e.storedAt == Some(put.now) && e.expireAt.Some? && e.expireAt.value > put.now
    && (!e.negative && policy.maximumTTL > 0 ==> e.expireAt.value - put.now <= policy.maximumTTL)
    && (e.negative && policy.maximumNegativeTTL > 0 ==> e.expireAt.value - put.now <= policy.maximumNegativeTTL)
    && (e.negative && Preset(put.ent).None? ==> HasSOA(put.ent.result.authority))
    && (e.negative && Preset(put.ent).None? ==> forall i :: 0 <= i < |put.ent.result.authority| ==>
          WithinSOA(put.ent.result.authority[i], e.expireAt.value - put.now))
  }

  lemma StampIsWithinPolicy(st: State, put: Op)
    requires put.OpPut? && Stores(st, put.key, put.ent, put.popts)
    ensures WithinPolicy(st, put, Stamped(st, put.key, put.ent, put.popts, put.now))
  {
    var e := Classified(put.key, put.ent);
    var policy := PolicyFor(st, put.popts.snapshot);
    if e.negative && Preset(put.ent).None? {
      assert Preset(e).None?;
      NegativeLifetime(e, policy, 0);
      forall i | 0 <= i < |put.ent.result.authority|
        ensures WithinSOA(put.ent.result.authority[i], Lifetime(e, policy))
      {
        NegativeLifetime(e, policy, i);
      }
    }
  }

  /** The served sections are the stored ones, aged. */
  ghost predicate AgedFrom(r: Answer, stored: Answer, from: int, now: int, expiry: int) {
    && r == stored.(source := FromCache, answers := r.answers, authority := r.authority, additional := r.additional)
    && Aged(r.answers, stored.answers, from, now, expiry)
    && Aged(r.authority, stored.authority, from, now, expiry)
    && Aged(r.additional, stored.additional, from, now, expiry)
  }

  /** In every run, a hit serves the answer of the latest storing Put on its key, with TTLs counted
      down since that Put and ended by its clamped lifetime. */
  lemma HitIsAgedPut(p: Policy, ops: seq<Op>, key: Key, opts: GetOpts, now: int)
    requires Fetch(Run(p, ops), key, opts, now).Hit?
    ensures exists n: nat, e :: WrittenAt(p, ops, n, key, e) && WithinPolicy(Run(p, ops[..n]), ops[n], e)
              && AgedFrom(Fetch(Run(p, ops), key, opts, now).ent.result, ops[n].ent.result, ops[n].now, now,
                          e.expireAt.value)
  {
    var st := Run(p, ops);
    var slot := st.slots[Place(st.slots, key)];
    var n := SlotsWereWritten(p, ops, slot);
    StampIsWithinPolicy(Run(p, ops[..n]), ops[n]);
    ServedIsAged(slot.val, now, true);
    ServedIsAged(slot.val, now, false);
    assert slot.val.result == ops[n].ent.result;
  }
}
