/** The handler object: one query over the shared cache and the compiled index, and what a client
    that may not forward can get from it (internal/dnsquery/handler.go:293-439, 472-520;
    internal/app/query.go:182-211). */
module Handler {
  import opened Text
  import opened Names
  import opened Zones
  import opened Lookup
  import opened Resolver
  import opened Provenance
  import opened Recency
  import opened Ttl
  import opened Cache
  import opened Query
  import opened AnswerCache
  import ZoneIndex

  // ---------------------------------------------------------------- one query, as a function

  datatype Sent = Sent(name: Name, policy: string)

  /** The reply, the exchange it took, and the cache operations it made, in order. */
  datatype Handled = Handled(reply: Answer, sent: Option<Sent>, ops: seq<Op>, denied: bool)

  function NormalGet(sn: Snap): GetOpts {
    GetOpts(Request(sn), false, false, false, false)
  }

  ghost function Steps(st: State, ops: seq<Op>): State {
    if ops == [] then st else Step(Steps(st, ops[..|ops| - 1]), ops[|ops| - 1])
  }

  predicate Usable(f: Found) {
    f.Hit? && Cacheable(f.ent.result)
  }

  function SentBy(plan: Plan): Option<Sent> {
    if plan.Forward? then Some(Sent(plan.to, plan.policy)) else None
  }

  /** The path after a cache miss. */
  function Direct(sn: Snap, q: Question, allow: bool, fid: string, plan: Plan, up: Answer, now: int): Handled {
    Handled(ReplyOf(plan, up), SentBy(plan), StoreOf(sn, q, allow, fid, plan, up, now), plan.Refuse?)
  }

  /** What lookupCache finds, and the operations it makes. */
  datatype CacheLook = CacheLook(hit: Option<Answer>, ops: seq<Op>)

  function HitOf(f: Found): Option<Answer> {
    if Usable(f) then Some(f.ent.result) else None
  }

  /** lookupCache: the local key, then the upstream key if a policy is selected. */
  function LookIn(st: State, sn: Snap, q: Question, fid: string, now: int): CacheLook {
    var get1 := OpGet(LocalKey(sn, q), NormalGet(sn), now);
    var f1 := Fetch(st, LocalKey(sn, q), NormalGet(sn), now);
    if Usable(f1) || fid == "" then CacheLook(HitOf(f1), [get1])
    else
      var get2 := OpGet(UpstreamKey(sn, q, fid), NormalGet(sn), now);
      CacheLook(HitOf(Fetch(f1.st, UpstreamKey(sn, q, fid), NormalGet(sn), now)), [get1, get2])
  }

  /** lookupCache, then `direct` on a miss. */
  function Through(st: State, sn: Snap, q: Question, fid: string, direct: Handled, now: int): Handled {
    var look := LookIn(st, sn, q, fid, now);
    match look.hit
    case Some(r) => Handled(r, None, look.ops, false)
    case None => direct.(ops := look.ops + direct.ops)
  }

  /** answer, with lookupCache and storeCache */
  ghost function Handle(st: State, sn: Snap, q: Question, allow: bool, up: Answer, now: int): Handled {
    var fid := OriginalPolicy(sn, q, allow);
    Through(st, sn, q, fid, Direct(sn, q, allow, fid, Decide(sn.content, SettingsOf(sn), q, allow), up, now), now)
  }

  // ---------------------------------------------------------------- what a query does to the run

  lemma StoreIsPut(sn: Snap, q: Question, allow: bool, fid: string, plan: Plan, up: Answer, now: int)
    ensures var put := StoreOf(sn, q, allow, fid, plan, up, now);
            put != [] ==> |put| == 1 && PutFor(sn, q, allow, fid, plan, up, put[0])
  {
    var put := StoreOf(sn, q, allow, fid, plan, up, now);
    if put != [] {
      assert put[0].now == now && put == [put[0].(popts := PutOpts(Request(sn), false))];
    }
  }

  lemma HandlerPutIsIssued(snaps: set<Snap>, sn: Snap, q: Question, allow: bool, up: Answer, op: Op)
    requires sn in snaps && HandlerPut(sn, q, allow, up, op)
    ensures Issued(snaps, op)
  {
  }

  lemma StoreIsIssued(snaps: set<Snap>, sn: Snap, q: Question, allow: bool, fid: string, plan: Plan, up: Answer,
                      now: int)
    requires forall op :: PutFor(sn, q, allow, fid, plan, up, op) ==> Issued(snaps, op)
    ensures AllIssued(snaps, StoreOf(sn, q, allow, fid, plan, up, now))
  {
    StoreIsPut(sn, q, allow, fid, plan, up, now);
  }

  lemma ThroughIsIssued(st: State, snaps: set<Snap>, sn: Snap, q: Question, fid: string, direct: Handled, now: int)
    requires AllIssued(snaps, direct.ops)
    ensures AllIssued(snaps, Through(st, sn, q, fid, direct, now).ops)
  {
    IssuedAfterGets(snaps, LookIn(st, sn, q, fid, now).ops, direct.ops);
  }

  lemma IssuedAfterGets(snaps: set<Snap>, gets: seq<Op>, puts: seq<Op>)
    requires AllIssued(snaps, puts) && forall i :: 0 <= i < |gets| ==> gets[i].OpGet?
    ensures AllIssued(snaps, gets) && AllIssued(snaps, gets + puts)
  {
  }

  /** A query adds only operations that keep the run issued. */
  lemma HandleIsIssued(st: State, snaps: set<Snap>, sn: Snap, q: Question, allow: bool, up: Answer, now: int)
    requires sn in snaps
    ensures AllIssued(snaps, Handle(st, sn, q, allow, up, now).ops)
  {
    var fid, plan := OriginalPolicy(sn, q, allow), Decide(sn.content, SettingsOf(sn), q, allow);
    forall op | PutFor(sn, q, allow, fid, plan, up, op) ensures Issued(snaps, op) {
      HandlerPutIsIssued(snaps, sn, q, allow, up, op);
    }
    StoreIsIssued(snaps, sn, q, allow, fid, plan, up, now);
    ThroughIsIssued(st, snaps, sn, q, fid, Direct(sn, q, allow, fid, plan, up, now), now);
  }

  /** resolveBaseAgainst with the cache, given the zone's answer: it observes the policy, looks under
      the local key, and stores a cacheable zone answer. */
  function Managed(st: State, sn: Snap, q: Question, local: Option<Answer>, now: int): Handled {
    var observe := OpObserve(Request(sn).value);
    var get := OpGet(LocalKey(sn, q), NormalGet(sn), now);
    var f := Fetch(Observe(st, Request(sn).value), LocalKey(sn, q), NormalGet(sn), now);
    var r := if local.Some? then local.value else Fallthrough("", None);
    if Usable(f) then Handled(f.ent.result, None, [observe, get], false)
    else Handled(r, None, [observe, get] + ManagedStore(sn, q, r, now), false)
  }

  function ManagedStore(sn: Snap, q: Question, r: Answer, now: int): seq<Op> {
    if !Cacheable(r) then []
    else [OpPut(LocalKey(sn, q), Entry(r, None, None, false, false), PutOpts(Request(sn), false), now)]
  }

  lemma ManagementPutIsIssued(snaps: set<Snap>, sn: Snap, q: Question, op: Op)
    requires sn in snaps && ManagementPut(sn, q, op)
    ensures Issued(snaps, op)
  {
  }

  lemma ManagedOpsIssued(st: State, snaps: set<Snap>, sn: Snap, q: Question, local: Option<Answer>, now: int)
    requires local.Some? && Cacheable(local.value) ==> AllIssued(snaps, ManagedStore(sn, q, local.value, now))
    ensures AllIssued(snaps, Managed(st, sn, q, local, now).ops)
  {
  }

  /** A management resolve keeps the run issued, although it never knows who may forward. */
  lemma ManagedIsIssued(st: State, snaps: set<Snap>, sn: Snap, q: Question, now: int)
    requires sn in snaps
    ensures AllIssued(snaps, Managed(st, sn, q, LocalAnswer(sn.content, SettingsOf(sn), q), now).ops)
  {
    var local := LocalAnswer(sn.content, SettingsOf(sn), q);
    if local.Some? && Cacheable(local.value) {
      var put := ManagedStore(sn, q, local.value, now);
      assert put == [put[0]] && put[0].OpPut? && put[0].ent.result == local.value;
      ManagementPutIsIssued(snaps, sn, q, put[0]);
    }
    ManagedOpsIssued(st, snaps, sn, q, local, now);
  }

  // ---------------------------------------------------------------- clients that may not forward

  /** A record of the zone up to its TTL. */
  ghost predicate Owned(z: Zone, ttl: int, s: Settings, rr: RR) {
    exists o :: FromZone(z, Entries(z, ttl), s, o) && rr == o.(ttl := rr.ttl)
  }

  ghost predicate AllOwned(z: Zone, ttl: int, s: Settings, rrs: seq<RR>) {
    forall i :: 0 <= i < |rrs| ==> Owned(z, ttl, s, rrs[i])
  }

  /** Every record is data of the zone selected for the question. */
  ghost predicate HoldsZoneData(c: Content, q: Question, s: Settings, r: Answer) {
    && r.additional == []
    && ((r.answers == [] && r.authority == [])
        || (ZoneFor(c, q.name).Some?
            && AllOwned(ZoneFor(c, q.name).value, c.ttl, s, r.answers)
            && AllOwned(ZoneFor(c, q.name).value, c.ttl, s, r.authority)))
  }

  lemma AgedIsOwned(z: Zone, ttl: int, s: Settings, served: seq<RR>, stored: seq<RR>, from: int, now: int, expiry: int)
    requires Aged(served, stored, from, now, expiry) && AllFromZone(z, Entries(z, ttl), s, stored)
    ensures AllOwned(z, ttl, s, served)
  {
    forall i | 0 <= i < |served| ensures Owned(z, ttl, s, served[i]) {
      assert FromZone(z, Entries(z, ttl), s, stored[i]) && served[i] == stored[i].(ttl := served[i].ttl);
    }
  }

  lemma SelfOwned(z: Zone, ttl: int, s: Settings, rrs: seq<RR>)
    requires AllFromZone(z, Entries(z, ttl), s, rrs)
    ensures AllOwned(z, ttl, s, rrs)
  {
    forall i | 0 <= i < |rrs| ensures Owned(z, ttl, s, rrs[i]) {
      assert FromZone(z, Entries(z, ttl), s, rrs[i]) && rrs[i] == rrs[i].(ttl := rrs[i].ttl);
    }
  }

  lemma KeptIsLocal(c: Content, q: Question, allow: bool, local: Option<Answer>, r: Answer)
    requires Keeps(PlanFrom(c, q.name, allow, local), r)
    ensures local.Some? && r.answers == local.value.answers && r.authority == local.value.authority
    ensures r.additional == local.value.additional
  {
  }

  /** What a plan keeps local is zone data. */
  lemma KeptIsFromZone(c: Content, s: Settings, q: Question, allow: bool, r: Answer)
    requires Keeps(Decide(c, s, q, allow), r)
    ensures ZoneFor(c, q.name).Some? && r.additional == []
    ensures var z := ZoneFor(c, q.name).value;
            AllFromZone(z, Entries(z, c.ttl), s, r.answers) && AllFromZone(z, Entries(z, c.ttl), s, r.authority)
  {
    KeptIsLocal(c, q, allow, LocalAnswer(c, s, q), r);
    var z := ZoneFor(c, q.name).value;
    AnswerIsFromZone(z, c.ttl, s, q.name, q.typ);
    SoaIsFromZone(z, Entries(z, c.ttl), s);
  }

  /** A hit on a local key is zone data of its snapshot's content. */
  lemma LocalHitIsZoneData(p: Policy, ops: seq<Op>, snaps: set<Snap>, sn: Snap, q: Question, opts: GetOpts, now: int)
    requires AllIssued(snaps, ops) && Coherent(snaps) && sn in snaps
    requires Fetch(Run(p, ops), LocalKey(sn, q), opts, now).Hit?
    ensures var r := Fetch(Run(p, ops), LocalKey(sn, q), opts, now).ent.result;
            exists s :: SameButGeneration(s, SettingsOf(sn)) && HoldsZoneData(sn.content, q, s, r)
  {
    HitIsAgedPut(p, ops, LocalKey(sn, q), opts, now);
    var served := Fetch(Run(p, ops), LocalKey(sn, q), opts, now).ent.result;
    var n: nat, e :| WrittenAt(p, ops, n, LocalKey(sn, q), e) && WithinPolicy(Run(p, ops[..n]), ops[n], e)
      && AgedFrom(served, ops[n].ent.result, ops[n].now, now, e.expireAt.value);
    LocalSlotOrigin(p, ops, snaps, sn, q, n, e);
    var s :| SameButGeneration(s, SettingsOf(sn)) && Keeps(Decide(sn.content, s, q, true), ops[n].ent.result);
    KeptIsFromZone(sn.content, s, q, true, ops[n].ent.result);
    var z, stored := ZoneFor(sn.content, q.name).value, ops[n].ent.result;
    AgedIsOwned(z, sn.content.ttl, s, served.answers, stored.answers, ops[n].now, now, e.expireAt.value);
    AgedIsOwned(z, sn.content.ttl, s, served.authority, stored.authority, ops[n].now, now, e.expireAt.value);
    assert served.additional == [];
  }

  /** In every run, a query of a client that may not forward is never sent upstream, its reply does
      not depend on any upstream, and every record it gets is zone data. */
  lemma LocalClientsStayLocal(p: Policy, ops: seq<Op>, snaps: set<Snap>, sn: Snap, q: Question, up: Answer,
                              up': Answer, now: int)
    requires AllIssued(snaps, ops) && Coherent(snaps) && sn in snaps
    ensures var h := Handle(Run(p, ops), sn, q, false, up, now);
            && h.sent == None && h == Handle(Run(p, ops), sn, q, false, up', now)
            && exists s :: SameButGeneration(s, SettingsOf(sn)) && HoldsZoneData(sn.content, q, s, h.reply)
  {
    var st, s := Run(p, ops), SettingsOf(sn);
    var plan := Decide(sn.content, s, q, false);
    DeniedPlan(sn.content, q, LocalAnswer(sn.content, s, q));
    DeniedReply(st, sn, q, plan, up, up', now);
    if Usable(Fetch(st, LocalKey(sn, q), NormalGet(sn), now)) {
      LocalHitIsZoneData(p, ops, snaps, sn, q, NormalGet(sn), now);
    } else {
      DeniedIsZoneData(sn.content, s, q, plan, up);
      assert SameButGeneration(s, s);
    }
  }

  lemma DeniedPlan(c: Content, q: Question, local: Option<Answer>)
    ensures !PlanFrom(c, q.name, false, local).Forward?
  {
  }

  /** Without a policy and without forwarding, the reply is a local hit or the plan's own. */
  lemma DeniedReply(st: State, sn: Snap, q: Question, plan: Plan, up: Answer, up': Answer, now: int)
    requires !plan.Forward?
    ensures var h := Through(st, sn, q, "", Direct(sn, q, false, "", plan, up, now), now);
            && h.sent == None && h == Through(st, sn, q, "", Direct(sn, q, false, "", plan, up', now), now)
            && h.reply == if Usable(Fetch(st, LocalKey(sn, q), NormalGet(sn), now))
                          then Fetch(st, LocalKey(sn, q), NormalGet(sn), now).ent.result else ReplyOf(plan, up)
  {
  }

  lemma DeniedIsZoneData(c: Content, s: Settings, q: Question, plan: Plan, up: Answer)
    requires plan == Decide(c, s, q, false) && !plan.Forward?
    ensures HoldsZoneData(c, q, s, ReplyOf(plan, up))
  {
    if plan.Final? || plan.Cut? {
      KeptIsFromZone(c, s, q, false, plan.r);
      SelfOwned(ZoneFor(c, q.name).value, c.ttl, s, plan.r.answers);
      SelfOwned(ZoneFor(c, q.name).value, c.ttl, s, plan.r.authority);
    }
  }

  // ---------------------------------------------------------------- selection on the compiled index

  /** The snapshot's index compiled: names are well formed, suffixes distinct, zones represented. */
  ghost predicate Ready(c: Content, idx: map<string, ZoneData>) {
    && Distinct(ZoneNames(c.zones)) && Distinct(c.forwarding)
    && ZoneIndex.AllRepresented(c.zones, |c.zones|, c.ttl, idx) && ZoneIndex.OnlyZones(c.zones, idx)
    && forall i :: 0 <= i < |c.zones| ==> HostsWellFormed(Entries(c.zones[i], c.ttl))
  }

  ghost predicate HostsWellFormed(sets: seq<RRset>) {
    forall e, d :: e in sets && d in e.data && d.Host? ==> WellFormed(d.n)
  }

  /** Compile's duplicate checks make the zone names distinct. */
  lemma CompiledIsDistinct(zs: seq<Zone>, ttl: int)
    requires ZoneIndex.IndexCompiles(zs, ttl) && forall i :: 0 <= i < |zs| ==> WellFormed(zs[i].origin)
    ensures Distinct(ZoneNames(zs))
  {
    var names := ZoneNames(zs);
    forall a, b | a in names && b in names && names[a] == names[b] ensures a == b {
      var i :| 0 <= i < |zs| && zs[i] == ZoneByID(zs, a).value;
      var j :| 0 <= j < |zs| && zs[j] == ZoneByID(zs, b).value;
      assert zs[i].origin == zs[j].origin;
      assert i == j;
    }
  }

  /** Select, on a name. */
  method SelectName(zones: map<string, Name>, n: Name) returns (id: string)
    requires Distinct(zones) && WellFormed(n)
    ensures id == Selected(zones, n)
  {
    var found;
    id, found := Select(Texts(zones), Presented(n));
    if found {
      SelectedIsDeepest(zones, n, id);
      assert Deepest(zones, n, id);
      DeepestIsChosen(zones, n, id);
    } else {
      id := "";
      NothingSelected(zones, n);
    }
  }

  lemma DeepestIsChosen(zones: map<string, Name>, n: Name, id: string)
    requires Distinct(zones) && Deepest(zones, n, id)
    ensures Chosen(zones, n) == Some(id)
  {
    var other := Chosen(zones, n).value;
    DeepestUnique(zones, n, other, id);
  }

  lemma NothingSelected(zones: map<string, Name>, n: Name)
    requires Distinct(zones) && WellFormed(n) && !exists id :: Matches(Texts(zones), Presented(n), id)
    ensures Chosen(zones, n) == None
  {
    forall id | id in zones ensures !InZone(n, zones[id]) {
      assert !Matches(Texts(zones), Presented(n), id);
      InZoneTextIsInZone(n, zones[id]);
    }
  }

  lemma {:induction false} TargetIsWellFormed(z: Zone, sets: seq<RRset>, s: Settings, rrs: seq<RR>)
    requires HostsWellFormed(sets) && AllFromZone(z, sets, s, rrs)
    ensures LastTarget(rrs).Some? ==> WellFormed(LastTarget(rrs).value)
    decreases |rrs|
  {
    if rrs != [] {
      var rr := rrs[|rrs| - 1];
      assert FromZone(z, sets, s, rr);
      TargetIsWellFormed(z, sets, s, rrs[..|rrs| - 1]);
    }
  }

  /** classify's zone, then resolver.Resolve on it. */
  method ResolveLocal(sn: Snap, idx: map<string, ZoneData>, q: Question) returns (local: Option<Answer>)
    requires Ready(sn.content, idx) && WellFormed(q.name)
    ensures local == LocalAnswer(sn.content, SettingsOf(sn), q)
    ensures local.Some? && LastTarget(local.value.answers).Some? ==> WellFormed(LastTarget(local.value.answers).value)
  {
    var c := sn.content;
    var zid := SelectName(ZoneNames(c.zones), q.name);
    if zid == "" {
      return None;
    }
    var r := Resolve(idx, SettingsOf(sn), q.name, q.typ, zid, c.zones, c.ttl);
    ghost var z := ZoneFor(c, q.name).value;
    ghost var i :| 0 <= i < |c.zones| && c.zones[i] == z;
    assert r == Ok(InZoneAnswer(z, c.ttl, SettingsOf(sn), q.name, q.typ));
    AnswerIsFromZone(z, c.ttl, SettingsOf(sn), q.name, q.typ);
    TargetIsWellFormed(z, Entries(z, c.ttl), SettingsOf(sn), r.value.answers);
    return Some(r.value);
  }

  /** lastCNAMETarget, scanning forward */
  method LastCNAMETarget(rrs: seq<RR>) returns (last: Option<Name>)
    ensures last == LastTarget(rrs)
  {
    last := None;
    for i := 0 to |rrs|
      invariant last == LastTarget(rrs[..i])
    {
      assert rrs[..i + 1][..i] == rrs[..i];
      if rrs[i].typ == "CNAME" && rrs[i].data.Host? {
        last := Some(rrs[i].data.n);
      }
    }
    assert rrs[..|rrs|] == rrs;
  }

  /** The uncached path up to the exchange. */
  method MakePlan(sn: Snap, idx: map<string, ZoneData>, q: Question, allow: bool) returns (plan: Plan)
    requires Ready(sn.content, idx) && WellFormed(q.name)
    ensures plan == Decide(sn.content, SettingsOf(sn), q, allow)
  {
    var local := ResolveLocal(sn, idx, q);
    if local.Some? && !local.value.fallthrough {
      return Final(local.value);
    }
    if !allow {
      return CutOrRefuse(local);
    }
    var to := q.name;
    if local.Some? {
      var target := LastCNAMETarget(local.value.answers);
      if target.Some? {
        to := target.value;
      }
    }
    var policy := SelectName(sn.content.forwarding, to);
    if policy == "" {
      return CutOrRefuse(local);
    }
    return Forward(to, policy, local);
  }

  // ---------------------------------------------------------------- the object

  lemma StepsOne(st: State, op: Op)
    ensures Steps(st, [op]) == Step(st, op)
  {
    assert [op][..0] == [];
  }

  lemma {:induction false} StepsConcat(st: State, a: seq<Op>, b: seq<Op>)
    ensures Steps(st, a + b) == Steps(Steps(st, a), b)
    decreases |b|
  {
    if b == [] {
      assert a + b == a;
    } else {
      assert (a + b)[..|a + b| - 1] == a + b[..|b| - 1];
      StepsConcat(st, a, b[..|b| - 1]);
    }
  }

  /** Runs of a handler's operations are runs of the cache. */
  lemma {:induction false} StepsExtendRun(p: Policy, before: seq<Op>, ops: seq<Op>)
    ensures Steps(Run(p, before), ops) == Run(p, before + ops)
    decreases |ops|
  {
    if ops == [] {
      assert before + ops == before;
    } else {
      var all := before + ops;
      assert all[..|all| - 1] == before + ops[..|ops| - 1];
      StepsExtendRun(p, before, ops[..|ops| - 1]);
    }
  }

  class Responder {
    const cache: Shared
    var denied: nat

    ghost predicate Valid()
      reads this, cache, cache.list, cache.list.repr
    {
      cache.Valid()
    }

    constructor (p: Policy)
      ensures Valid() && cache.Abs() == New(p) && denied == 0
    {
      cache := new Shared(p);
      denied := 0;
    }

    /** One cache lookup; only a cacheable result is used. */
    method Probe(key: Key, sn: Snap, now: int) returns (hit: Option<Answer>)
      requires Valid()
      modifies cache, cache.list, cache.list.repr`prev, cache.list.repr`next
      ensures Valid() && cache.list.repr == old(cache.list.repr)
      ensures var f := Fetch(old(cache.Abs()), key, NormalGet(sn), now);
              cache.Abs() == f.st && hit == if Usable(f) then Some(f.ent.result) else None
    {
      var ent := cache.Get(key, NormalGet(sn), now);
      if ent.Some? && Cacheable(ent.value.result) {
        return Some(ent.value.result);
      }
      return None;
    }

    /** storeCache */
    method StoreCache(sn: Snap, q: Question, allow: bool, fid: string, plan: Plan, up: Answer, now: int)
      requires Valid()
      modifies cache, cache.list, cache.list.repr
      ensures Valid() && cache.Abs() == Steps(old(cache.Abs()), StoreOf(sn, q, allow, fid, plan, up, now))
    {
      var r := ReplyOf(plan, up);
      if !Cacheable(r) {
        return;
      }
      if plan.Final? || (plan.Cut? && allow) {
        StepsOne(cache.Abs(), OpPut(LocalKey(sn, q), EntryOf(r), PutOpts(Request(sn), false), now));
        cache.Put(LocalKey(sn, q), EntryOf(r), PutOpts(Request(sn), false), now);
      } else if plan.Forward? && fid != "" {
        StepsOne(cache.Abs(), OpPut(UpstreamKey(sn, q, fid), EntryOf(r), PutOpts(Request(sn), false), now));
        cache.Put(UpstreamKey(sn, q, fid), EntryOf(r), PutOpts(Request(sn), false), now);
      }
    }

    /** The path after a miss: plan, exchange, store. */
    method AnswerDirect(sn: Snap, idx: map<string, ZoneData>, q: Question, allow: bool, fid: string, up: Answer,
                        now: int) returns (r: Answer, sent: Option<Sent>)
      requires Valid() && Ready(sn.content, idx) && WellFormed(q.name)
      modifies this`denied, cache, cache.list, cache.list.repr
      ensures var d := Direct(sn, q, allow, fid, Decide(sn.content, SettingsOf(sn), q, allow), up, now);
              && Valid() && r == d.reply && sent == d.sent && denied == old(denied) + (if d.denied then 1 else 0)
              && cache.Abs() == Steps(old(cache.Abs()), d.ops)
    {
      var plan := MakePlan(sn, idx, q, allow);
      if plan.Refuse? {
        denied := denied + 1;
      }
      StoreCache(sn, q, allow, fid, plan, up, now);
      return ReplyOf(plan, up), SentBy(plan);
    }

    /** lookupCache: the local key, then the upstream key if a policy is selected. */
    method LookupCache(sn: Snap, q: Question, fid: string, now: int) returns (hit: Option<Answer>)
      requires Valid()
      modifies cache, cache.list, cache.list.repr`prev, cache.list.repr`next
      ensures Valid() && cache.list.repr == old(cache.list.repr)
      ensures var look := LookIn(old(cache.Abs()), sn, q, fid, now);
              cache.Abs() == Steps(old(cache.Abs()), look.ops) && hit == look.hit
    {
      ghost var st := cache.Abs();
      ghost var get1, get2 := OpGet(LocalKey(sn, q), NormalGet(sn), now),
          OpGet(UpstreamKey(sn, q, fid), NormalGet(sn), now);
      StepsTwo(st, get1, get2);
      hit := Probe(LocalKey(sn, q), sn, now);
      if hit.None? && fid != "" {
        hit := Probe(UpstreamKey(sn, q, fid), sn, now);
      }
    }

    /** The forwarding policy of the question's own name. */
    method SelectOriginal(sn: Snap, ghost idx: map<string, ZoneData>, q: Question, allow: bool) returns (fid: string)
      requires Ready(sn.content, idx) && WellFormed(q.name)
      ensures fid == OriginalPolicy(sn, q, allow)
    {
      fid := "";
      if allow {
        fid := SelectName(sn.content.forwarding, q.name);
      }
    }

    /** answer */
    method Answer(sn: Snap, idx: map<string, ZoneData>, q: Question, allow: bool, up: Answer, now: int)
      returns (r: Answer, sent: Option<Sent>)
      requires Valid() && Ready(sn.content, idx) && WellFormed(q.name)
      modifies this`denied, cache, cache.list, cache.list.repr
      ensures var h := Handle(old(cache.Abs()), sn, q, allow, up, now);
              && Valid() && r == h.reply && sent == h.sent && denied == old(denied) + (if h.denied then 1 else 0)
              && cache.Abs() == Steps(old(cache.Abs()), h.ops)
    {
      ghost var st := cache.Abs();
      var fid := SelectOriginal(sn, idx, q, allow);
      var hit := LookupCache(sn, q, fid, now);
      ghost var plan := Decide(sn.content, SettingsOf(sn), q, allow);
      ThroughSplits(st, sn, q, fid, Direct(sn, q, allow, fid, plan, up, now), now);
      if hit.Some? {
        return hit.value, None;
      }
      r, sent := AnswerDirect(sn, idx, q, allow, fid, up, now);
    }

    /** ServeDNS with chaos off: observe the snapshot's policy, answer, set RA. */
    method Serve(sn: Snap, idx: map<string, ZoneData>, q: Question, allow: bool, up: Answer, now: int)
      returns (r: Answer, sent: Option<Sent>)
      requires Valid() && Ready(sn.content, idx) && WellFormed(q.name)
      modifies this`denied, cache, cache.list, cache.list.repr
      ensures var h := Handle(Observe(old(cache.Abs()), Request(sn).value), sn, q, allow, up, now);
              && Valid() && r == h.reply.(ra := allow && OriginalPolicy(sn, q, allow) != "") && sent == h.sent
              && denied == old(denied) + (if h.denied then 1 else 0)
              && cache.Abs() == Steps(Observe(old(cache.Abs()), Request(sn).value), h.ops)
    {
      var fid := SelectOriginal(sn, idx, q, allow);
      cache.ObservePolicy(Request(sn).value);
      r, sent := Answer(sn, idx, q, allow, up, now);
      r := r.(ra := allow && fid != "");
    }

    /** The store of a management resolve. */
    method StoreManaged(sn: Snap, q: Question, r: Answer, now: int)
      requires Valid()
      modifies cache, cache.list, cache.list.repr
      ensures Valid() && cache.Abs() == Steps(old(cache.Abs()), ManagedStore(sn, q, r, now))
    {
      if Cacheable(r) {
        StepsOne(cache.Abs(), ManagedStore(sn, q, r, now)[0]);
        cache.Put(LocalKey(sn, q), Entry(r, None, None, false, false), PutOpts(Request(sn), false), now);
      }
    }

    /** Observe the policy, then look under the local key. */
    method LookupManaged(sn: Snap, q: Question, now: int) returns (hit: Option<Answer>)
      requires Valid()
      modifies cache, cache.list, cache.list.repr`prev, cache.list.repr`next
      ensures Valid() && cache.list.repr <= old(cache.list.repr)
      ensures var f := Fetch(Observe(old(cache.Abs()), Request(sn).value), LocalKey(sn, q), NormalGet(sn), now);
              cache.Abs() == f.st && hit == if Usable(f) then Some(f.ent.result) else None
    {
      cache.ObservePolicy(Request(sn).value);
      hit := Probe(LocalKey(sn, q), sn, now);
    }

    /** resolveBaseAgainst */
    method ManagementResolve(sn: Snap, idx: map<string, ZoneData>, q: Question, now: int) returns (r: Answer)
      requires Valid() && Ready(sn.content, idx) && WellFormed(q.name)
      modifies cache, cache.list, cache.list.repr
      ensures var h := Managed(old(cache.Abs()), sn, q, LocalAnswer(sn.content, SettingsOf(sn), q), now);
              Valid() && r == h.reply && cache.Abs() == Steps(old(cache.Abs()), h.ops)
    {
      ManagedSplits(cache.Abs(), sn, q, LocalAnswer(sn.content, SettingsOf(sn), q), now);
      var hit := LookupManaged(sn, q, now);
      if hit.Some? {
        return hit.value;
      }
      var local := ResolveLocal(sn, idx, q);
      r := if local.Some? then local.value else Fallthrough("", None);
      StoreManaged(sn, q, r, now);
    }
  }

  /** A management resolve is the lookup, then on a miss the store. */
  lemma ManagedSplits(st: State, sn: Snap, q: Question, local: Option<Answer>, now: int)
    ensures var h := Managed(st, sn, q, local, now);
            var f := Fetch(Observe(st, Request(sn).value), LocalKey(sn, q), NormalGet(sn), now);
            var r := if local.Some? then local.value else Fallthrough("", None);
            if Usable(f) then h.reply == f.ent.result && Steps(st, h.ops) == f.st
            else h.reply == r && Steps(st, h.ops) == Steps(f.st, ManagedStore(sn, q, r, now))
  {
    var observe, get := OpObserve(Request(sn).value), OpGet(LocalKey(sn, q), NormalGet(sn), now);
    var r := if local.Some? then local.value else Fallthrough("", None);
    StepsTwo(st, observe, get);
    StepsConcat(st, [observe, get], ManagedStore(sn, q, r, now));
  }

  lemma StepsTwo(st: State, a: Op, b: Op)
    ensures Steps(st, [a]) == Step(st, a) && Steps(st, [a, b]) == Step(Step(st, a), b)
    ensures [a] + [] == [a] && [a, b] + [] == [a, b]
  {
    StepsOne(st, a);
    assert [a, b][..1] == [a];
  }

  /** A query that misses is the lookups, then the direct path from the state they leave. */
  lemma ThroughSplits(st: State, sn: Snap, q: Question, fid: string, direct: Handled, now: int)
    ensures var look := LookIn(st, sn, q, fid, now);
            look.hit.None? ==>
              Steps(st, Through(st, sn, q, fid, direct, now).ops) == Steps(Steps(st, look.ops), direct.ops)
  {
    StepsConcat(st, LookIn(st, sn, q, fid, now).ops, direct.ops);
  }
}
