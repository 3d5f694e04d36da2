/** Asking again: a question that was answered and may be cached is answered from the cache the next time,
    without an exchange (internal/dnsquery/handler.go:472-520). */
module Again {
  import opened Text
  import opened Names
  import opened Zones
  import opened Lookup
  import opened Resolver
  import opened Recency
  import opened Ttl
  import opened Cache
  import opened CacheHits
  import opened Query
  import opened Handler

  /** What the server may cache: a final or cut answer of a zone unless it is SERVFAIL, and what an upstream
      answers with NOERROR or NXDOMAIN; a refusal never. */
  lemma CacheableExactly(c: Content, s: Settings, q: Question, allow: bool, up: Answer)
    requires !up.fallthrough
    ensures var plan := Decide(c, s, q, allow);
            && (plan.Final? || plan.Cut? ==> (Cacheable(ReplyOf(plan, up)) <==> plan.r.rcode != ServFail))
            && (plan.Forward? ==> (Cacheable(ReplyOf(plan, up)) <==> up.rcode == NoError || up.rcode == NXDomain))
            && (plan.Refuse? ==> !Cacheable(ReplyOf(plan, up)))
  {
    LocalRcodes(c, s, q);
    CacheableFrom(c, q.name, allow, LocalAnswer(c, s, q), up);
  }

  lemma LocalRcodes(c: Content, s: Settings, q: Question)
    ensures LocalAnswer(c, s, q).Some? ==> LocalAnswer(c, s, q).value.rcode in {NoError, NXDomain, ServFail}
  {
    if ZoneFor(c, q.name).Some? { RcodesOf(ZoneFor(c, q.name).value, c.ttl, s, q.name, q.typ); }
  }

  lemma RcodesOf(z: Zone, ttl: int, s: Settings, q: Name, t: string)
    ensures InZoneAnswer(z, ttl, s, q, t).rcode in {NoError, NXDomain, ServFail}
  {
    var v := ViewOf(z, ttl, s, t);
    if z.mode == Overlay {
      OverlayIsTransparent(v, s, t, q, {}, 0, Start());
    } else {
      AuthoritativeIsFinal(v, s, t, q, {}, 0, Start());
    }
  }

  lemma CacheableFrom(c: Content, name: Name, allow: bool, local: Option<Answer>, up: Answer)
    requires !up.fallthrough && (local.Some? ==> local.value.rcode in {NoError, NXDomain, ServFail})
    ensures var plan := PlanFrom(c, name, allow, local);
            && (plan.Final? || plan.Cut? ==> (Cacheable(ReplyOf(plan, up)) <==> plan.r.rcode != ServFail))
            && (plan.Forward? ==> (Cacheable(ReplyOf(plan, up)) <==> up.rcode == NoError || up.rcode == NXDomain))
            && (plan.Refuse? ==> !Cacheable(ReplyOf(plan, up)))
  {
  }

  /** The key a plan's answer is stored under. */
  function StoreKey(sn: Snap, q: Question, fid: string, plan: Plan): Key {
    if plan.Forward? then UpstreamKey(sn, q, fid) else LocalKey(sn, q)
  }

  /** How long it is kept. */
  ghost function KeptFor(sn: Snap, key: Key, r: Answer): int {
    Lifetime(Classified(key, EntryOf(r)), sn.content.cachePolicy)
  }

  /** Lookups leave the policy alone and bring no key. */
  lemma GetKeeps(st: State, key: Key, opts: GetOpts, now: int, other: Key)
    requires Good(st)
    ensures var st' := Fetch(st, key, opts, now).st;
            && Good(st') && st'.policy == st.policy && st'.generation == st.generation && st'.observed == st.observed
            && (Place(st.slots, other) < 0 ==> Place(st'.slots, other) < 0)
  {
    var op := OpGet(key, opts, now);
    GetChanges(st, key, opts, now);
    var st' := Fetch(st, key, opts, now).st;
    if Place(st.slots, other) < 0 && Place(st'.slots, other) >= 0 {
      StepSlots(st, op, st'.slots[Place(st'.slots, other)]);
    }
  }

  lemma LookKeeps(st: State, sn: Snap, q: Question, fid: string, now: int)
    requires Good(st)
    ensures var st' := Steps(st, LookIn(st, sn, q, fid, now).ops);
            && Good(st') && st'.policy == st.policy && st'.generation == st.generation && st'.observed == st.observed
            && (Place(st.slots, LocalKey(sn, q)) < 0 ==> Place(st'.slots, LocalKey(sn, q)) < 0)
  {
    var k1, k2, opts := LocalKey(sn, q), UpstreamKey(sn, q, fid), NormalGet(sn);
    StepsTwo(st, OpGet(k1, opts, now), OpGet(k2, opts, now));
    GetKeeps(st, k1, opts, now, k1);
    GetKeeps(Fetch(st, k1, opts, now).st, k2, opts, now, k1);
  }

  /** The state after a Put that stores has the entry in front. */
  lemma PutIsFirst(st: State, key: Key, ent: Entry, opts: PutOpts, now: int)
    requires Good(st) && Stores(st, key, ent, opts)
    ensures var st' := Store(st, key, ent, opts, now);
            && Good(st') && st'.slots != [] && st'.slots[0] == Slot(key, Stamped(st, key, ent, opts, now))
            && Place(st'.slots, key) == 0
  {
    InsertPromotes(st, key, Stamped(st, key, ent, opts, now));
    PlaceIs(Store(st, key, ent, opts, now).slots, key, 0);
  }

  lemma OtherStaysAbsent(st: State, op: Op, other: Key)
    requires Good(st) && op.OpPut? && op.key != other && Place(st.slots, other) < 0
    ensures Place(Step(st, op).slots, other) < 0
  {
    var st' := Step(st, op);
    if Place(st'.slots, other) >= 0 { StepSlots(st, op, st'.slots[Place(st'.slots, other)]); }
  }

  /** A query looks under this key: the local one, or the upstream one if there is no local entry. */
  ghost predicate LooksUnder(st: State, sn: Snap, q: Question, fid: string, key: Key) {
    || key == LocalKey(sn, q)
    || (key == UpstreamKey(sn, q, fid) && fid != "" && Place(st.slots, LocalKey(sn, q)) < 0)
  }

  /** A usable entry under the key, in front, is what lookupCache finds. */
  lemma FrontIsFound(st: State, sn: Snap, q: Question, fid: string, key: Key, e: Entry, now: int)
    requires Good(st) && st.slots != [] && st.slots[0] == Slot(key, e) && Active(sn.content.cachePolicy)
    requires e.storedAt.Some? && e.expireAt.Some? && now < e.expireAt.value && Cacheable(e.result)
    requires LooksUnder(st, sn, q, fid, key)
    ensures LookIn(st, sn, q, fid, now).hit == Some(Served(e, now, false).result)
  {
    var opts := NormalGet(sn);
    PlaceIs(st.slots, key, 0);
    if key == LocalKey(sn, q) {
      LiveEntryHits(st, key, opts, now);
    } else {
      AbsentKeyMisses(st, LocalKey(sn, q), opts, now);
      LiveEntryHits(st.(misses := st.misses + 1), key, opts, now);
    }
  }

  /** The plan's answer may be stored, for a while, by this client. */
  ghost predicate Keeping(sn: Snap, q: Question, allow: bool, fid: string, plan: Plan, up: Answer) {
    && Cacheable(ReplyOf(plan, up)) && (plan.Final? || (plan.Cut? && allow) || (plan.Forward? && fid != ""))
    && KeptFor(sn, StoreKey(sn, q, fid, plan), ReplyOf(plan, up)) > 0
  }

  /** The cache is on and does not know a newer snapshot. */
  ghost predicate Willing(st: State, sn: Snap) {
    && Good(st) && Active(st.policy) && Active(sn.content.cachePolicy)
    && (st.observed ==> sn.generation >= st.generation)
  }

  function PutOf(sn: Snap, q: Question, fid: string, plan: Plan, up: Answer, now: int): Op {
    OpPut(StoreKey(sn, q, fid, plan), EntryOf(ReplyOf(plan, up)), PutOpts(Request(sn), false), now)
  }

  lemma DirectPuts(sn: Snap, q: Question, allow: bool, fid: string, plan: Plan, up: Answer, now: int)
    requires Keeping(sn, q, allow, fid, plan, up)
    ensures Direct(sn, q, allow, fid, plan, up, now).ops == [PutOf(sn, q, fid, plan, up, now)]
  {
  }

  /** The entry of an answer is in front. */
  ghost predicate InFront(st: State, sn: Snap, key: Key, r: Answer, now: int) {
    && Good(st) && st.slots != [] && st.slots[0].key == key
    && (var e := st.slots[0].val;
        e.result == r && e.storedAt == Some(now) && e.expireAt == Some(now + KeptFor(sn, key, r)))
  }

  lemma PutGoesInFront(st: State, sn: Snap, q: Question, allow: bool, fid: string, plan: Plan, up: Answer, now: int)
    requires Willing(st, sn) && Keeping(sn, q, allow, fid, plan, up)
    ensures InFront(Step(st, PutOf(sn, q, fid, plan, up, now)), sn, StoreKey(sn, q, fid, plan), ReplyOf(plan, up), now)
  {
    var key, ent := StoreKey(sn, q, fid, plan), EntryOf(ReplyOf(plan, up));
    assert Stores(st, key, ent, PutOpts(Request(sn), false));
    PutIsFirst(st, key, ent, PutOpts(Request(sn), false), now);
  }

  /** A query that misses leaves its answer in front. */
  lemma MissStores(st: State, sn: Snap, q: Question, allow: bool, fid: string, plan: Plan, up: Answer, now: int)
    requires Willing(st, sn) && Keeping(sn, q, allow, fid, plan, up) && LookIn(st, sn, q, fid, now).hit.None?
    ensures var h := Through(st, sn, q, fid, Direct(sn, q, allow, fid, plan, up, now), now);
            && h.reply == ReplyOf(plan, up) && InFront(Steps(st, h.ops), sn, StoreKey(sn, q, fid, plan), h.reply, now)
            && (plan.Forward? && Place(st.slots, LocalKey(sn, q)) < 0 ==>
                  Place(Steps(st, h.ops).slots, LocalKey(sn, q)) < 0)
  {
    var direct, put := Direct(sn, q, allow, fid, plan, up, now), PutOf(sn, q, fid, plan, up, now);
    var st1 := Steps(st, LookIn(st, sn, q, fid, now).ops);
    ThroughSplits(st, sn, q, fid, direct, now);
    LookKeeps(st, sn, q, fid, now);
    DirectPuts(sn, q, allow, fid, plan, up, now);
    StepsOne(st1, put);
    PutGoesInFront(st1, sn, q, allow, fid, plan, up, now);
    if plan.Forward? && Place(st1.slots, LocalKey(sn, q)) < 0 { OtherStaysAbsent(st1, put, LocalKey(sn, q)); }
  }

  /** What is in front is what the next query gets. */
  lemma FrontIsServed(st: State, sn: Snap, q: Question, fid: string, key: Key, r: Answer, now: int, direct: Handled,
                      now2: int)
    requires InFront(st, sn, key, r, now) && LooksUnder(st, sn, q, fid, key)
    requires Active(sn.content.cachePolicy) && Cacheable(r) && now2 < now + KeptFor(sn, key, r)
    ensures var h := Through(st, sn, q, fid, direct, now2);
            h.sent == None && !h.denied && AgedFrom(h.reply, r, now, now2, now + KeptFor(sn, key, r))
  {
    var e := st.slots[0].val;
    FrontIsFound(st, sn, q, fid, key, e, now2);
    ServedIsAged(e, now2, false);
  }

  /** A query that misses leaves its answer in the cache, if it may be kept. */
  lemma AnswerIsKept(st: State, sn: Snap, q: Question, allow: bool, up: Answer, now: int)
    requires Willing(st, sn) && LookIn(st, sn, q, OriginalPolicy(sn, q, allow), now).hit.None?
    requires Keeping(sn, q, allow, OriginalPolicy(sn, q, allow), Decide(sn.content, SettingsOf(sn), q, allow), up)
    ensures var plan, h := Decide(sn.content, SettingsOf(sn), q, allow), Handle(st, sn, q, allow, up, now);
            && h.reply == ReplyOf(plan, up)
            && InFront(Steps(st, h.ops), sn, StoreKey(sn, q, OriginalPolicy(sn, q, allow), plan), h.reply, now)
            && (plan.Forward? && Place(st.slots, LocalKey(sn, q)) < 0 ==>
                  Place(Steps(st, h.ops).slots, LocalKey(sn, q)) < 0)
  {
    var fid, plan := OriginalPolicy(sn, q, allow), Decide(sn.content, SettingsOf(sn), q, allow);
    MissStores(st, sn, q, allow, fid, plan, up, now);
  }

  /** The same client asks the same question again before that answer `r` expires: nothing is sent, and the
      reply is `r`, aged. */
  lemma KeptIsServed(st: State, sn: Snap, q: Question, allow: bool, key: Key, r: Answer, now: int, up: Answer,
                     now2: int)
    requires InFront(st, sn, key, r, now) && LooksUnder(st, sn, q, OriginalPolicy(sn, q, allow), key)
    requires Active(sn.content.cachePolicy) && Cacheable(r) && now2 < now + KeptFor(sn, key, r)
    ensures var h := Handle(st, sn, q, allow, up, now2);
            h.sent == None && !h.denied && AgedFrom(h.reply, r, now, now2, now + KeptFor(sn, key, r))
  {
    var fid, plan := OriginalPolicy(sn, q, allow), Decide(sn.content, SettingsOf(sn), q, allow);
    FrontIsServed(st, sn, q, fid, key, r, now, Direct(sn, q, allow, fid, plan, up, now2), now2);
  }
}
