/** The query path: classify, look in the shared cache, resolve locally, forward or refuse, store
    (internal/dnsquery/handler.go:293-439, 472-520; internal/dnsquery/classify.go:20-36;
    internal/app/query.go:182-211), with chaos off. The client's group is reduced to whether it may
    forward, and the upstream reply is a parameter. */
module Query {
  import opened Text
  import opened Names
  import opened Zones
  import opened Lookup
  import opened Resolver
  import opened Provenance
  import opened Recency
  import opened Ttl
  import opened Cache

  /** What a revision determines. */
  datatype Content = Content(zones: seq<Zone>, ttl: int, negativeTTL: int, cnameDepth: int,
                             forwarding: map<string, Name>, cachePolicy: Policy)

  datatype Snap = Snap(revision: string, generation: nat, content: Content)

  datatype Question = Question(name: Name, typ: string, dnsClass: string, cd: bool)

  function SettingsOf(sn: Snap): Settings {
    Settings(sn.content.negativeTTL, sn.content.cnameDepth, sn.generation)
  }

  // ---------------------------------------------------------------- selection

  function ZoneNames(zs: seq<Zone>): map<string, Name> {
    var ids := set i | 0 <= i < |zs| :: zs[i].id;
    map id | id in ids && ZoneByID(zs, id).Some? :: ZoneByID(zs, id).value.origin
  }

  /** The selected ID, or "" for none. */
  ghost function Selected(zones: map<string, Name>, n: Name): string {
    match Chosen(zones, n)
    case None => ""
    case Some(id) => id
  }

  /** The zone selected for a name. */
  ghost function ZoneFor(c: Content, n: Name): (r: Option<Zone>)
    ensures r.Some? ==>
              r.value in c.zones && InZone(n, r.value.origin) && r.value.id == Selected(ZoneNames(c.zones), n) != ""
    ensures r.None? ==> Selected(ZoneNames(c.zones), n) == ""
  {
    var id := Selected(ZoneNames(c.zones), n);
    if id == "" then None else ZoneByID(c.zones, id)
  }

  ghost function ForwardingFor(c: Content, n: Name): string {
    Selected(c.forwarding, n)
  }

  // ---------------------------------------------------------------- the path without a cache

  /** lastCNAMETarget */
  function LastTarget(rrs: seq<RR>): Option<Name> {
    if rrs == [] then None
    else
      var rr := rrs[|rrs| - 1];
      if rr.typ == "CNAME" && rr.data.Host? then Some(rr.data.n) else LastTarget(rrs[..|rrs| - 1])
  }

  /** Final and Cut are local answers, Cut one whose overlay chain nobody completes. */
  datatype Plan = Final(r: Answer) | Cut(r: Answer) | Refuse | Forward(to: Name, policy: string, local: Option<Answer>)

  ghost function LocalAnswer(c: Content, s: Settings, q: Question): Option<Answer> {
    LocalFor(c, s, q.name, q.typ)
  }

  ghost function LocalFor(c: Content, s: Settings, name: Name, typ: string): Option<Answer> {
    match ZoneFor(c, name)
    case None => None
    case Some(z) => Some(InZoneAnswer(z, c.ttl, s, name, typ))
  }

  /** localOverlayOrRefused, without its store */
  function CutOrRefuse(local: Option<Answer>): Plan {
    if local.Some? && local.value.answers != [] then Cut(local.value.(fallthrough := false)) else Refuse
  }

  ghost function PlanFrom(c: Content, name: Name, allow: bool, local: Option<Answer>): Plan {
    if local.Some? && !local.value.fallthrough then Final(local.value)
    else if !allow then CutOrRefuse(local)
    else
      var target := if local.Some? then LastTarget(local.value.answers) else None;
      var to := if target.Some? then target.value else name;
      var policy := ForwardingFor(c, to);
      if policy == "" then CutOrRefuse(local) else Forward(to, policy, local)
  }

  /** What the uncached path does for a client that may or may not forward. */
  ghost function Decide(c: Content, s: Settings, q: Question, allow: bool): Plan {
    PlanFrom(c, q.name, allow, LocalAnswer(c, s, q))
  }

  function Refusal(): Answer {
    Answer(Refused, [], [], [], false, false, NoOrigin, "", None, None, None, false, "")
  }

  /** An overlay chain goes before the upstream answers. */
  function Joined(local: Option<Answer>, up: Answer): Answer {
    if local.None? then up
    else
      var prefix := if LastTarget(local.value.answers).Some? then local.value.answers else [];
      up.(answers := prefix + up.answers, zoneID := local.value.zoneID, mode := local.value.mode)
  }

  function ReplyOf(plan: Plan, up: Answer): Answer {
    match plan
    case Final(r) => r
    case Cut(r) => r
    case Refuse => Refusal()
    case Forward(_, _, local) => Joined(local, up)
  }

  // ---------------------------------------------------------------- keys and stores

  function LocalKey(sn: Snap, q: Question): Key {
    Key(sn.revision, q.name, q.typ, q.dnsClass, false, "", true)
  }

  function UpstreamKey(sn: Snap, q: Question, policy: string): Key {
    Key(sn.revision, q.name, q.typ, q.dnsClass, q.cd, policy, false)
  }

  function Request(sn: Snap): Option<RequestPolicy> {
    Some(RequestPolicy(sn.generation, sn.content.cachePolicy))
  }

  function EntryOf(r: Answer): Entry {
    Entry(r, None, None, r.rcode == NXDomain || (r.rcode == NoError && r.answers == []), false)
  }

  /** The Put the uncached path issues, if any. `fid` is the policy selected for the original name. */
  function StoreOf(sn: Snap, q: Question, allow: bool, fid: string, plan: Plan, up: Answer, now: int): seq<Op> {
    var r, opts := ReplyOf(plan, up), PutOpts(Request(sn), false);
    if !Cacheable(r) then []
    else if plan.Final? || (plan.Cut? && allow) then [OpPut(LocalKey(sn, q), EntryOf(r), opts, now)]
    else if plan.Forward? && fid != "" then [OpPut(UpstreamKey(sn, q, fid), EntryOf(r), opts, now)]
    else []
  }

  /** A Put on this plan, whatever the request options. */
  predicate PutFor(sn: Snap, q: Question, allow: bool, fid: string, plan: Plan, up: Answer, op: Op) {
    op.OpPut? && StoreOf(sn, q, allow, fid, plan, up, op.now) == [op.(popts := PutOpts(Request(sn), false))]
  }

  /** The policy selected for the original name. */
  ghost function OriginalPolicy(sn: Snap, q: Question, allow: bool): string {
    if allow then ForwardingFor(sn.content, q.name) else ""
  }

  /** A Put of the handler. */
  ghost predicate HandlerPut(sn: Snap, q: Question, allow: bool, up: Answer, op: Op) {
    PutFor(sn, q, allow, OriginalPolicy(sn, q, allow), Decide(sn.content, SettingsOf(sn), q, allow), up, op)
  }

  /** A Put of a management resolve, which never forwards and stores cacheable zone answers only. */
  ghost predicate ManagementPut(sn: Snap, q: Question, op: Op) {
    && op.OpPut? && op.key == LocalKey(sn, q)
    && LocalAnswer(sn.content, SettingsOf(sn), q) == Some(op.ent.result) && Cacheable(op.ent.result)
  }

  /** Snapshots with equal revisions have equal content. */
  ghost predicate Coherent(snaps: set<Snap>) {
    forall a, b :: a in snaps && b in snaps && a.revision == b.revision ==> a.content == b.content
  }

  /** Every Put of the run was issued for one of the snapshots; the other operations are free. */
  ghost predicate Issued(snaps: set<Snap>, op: Op) {
    op.OpPut? ==>
      || (exists sn, q, allow, up :: sn in snaps && HandlerPut(sn, q, allow, up, op))
      || (exists sn, q :: sn in snaps && ManagementPut(sn, q, op))
  }

  ghost predicate AllIssued(snaps: set<Snap>, ops: seq<Op>) {
    forall i :: 0 <= i < |ops| ==> Issued(snaps, ops[i])
  }

  // ---------------------------------------------------------------- local entries are local answers

  /** The plan keeps the answer local, with this result. */
  predicate Keeps(plan: Plan, r: Answer) {
    (plan.Final? || plan.Cut?) && plan.r == r
  }

  ghost predicate WrittenFor(sn: Snap, q: Question, op: Op) {
    && op.OpPut? && op.key == LocalKey(sn, q)
    && Keeps(Decide(sn.content, SettingsOf(sn), q, true), op.ent.result)
  }

  /** Every Put on a local key stores what a forwarding client's uncached path answers locally. */
  lemma LocalPutIsLocal(snaps: set<Snap>, op: Op) returns (sn: Snap, q: Question)
    requires Issued(snaps, op) && op.OpPut? && op.key.local
    ensures sn in snaps && WrittenFor(sn, q, op)
  {
    if exists sn, q :: sn in snaps && ManagementPut(sn, q, op) {
      sn, q :| sn in snaps && ManagementPut(sn, q, op);
    } else {
      var allow, up;
      sn, q, allow, up :| sn in snaps && HandlerPut(sn, q, allow, up, op);
      HandlerPutIsLocal(sn, q, allow, up, op);
    }
  }

  lemma PutForIsLocal(sn: Snap, q: Question, allow: bool, fid: string, plan: Plan, up: Answer, op: Op)
    requires PutFor(sn, q, allow, fid, plan, up, op) && op.key.local
    ensures op.key == LocalKey(sn, q) && Keeps(plan, op.ent.result) && (plan.Cut? ==> allow)
  {
    assert op.(popts := PutOpts(Request(sn), false)) == StoreOf(sn, q, allow, fid, plan, up, op.now)[0];
  }

  lemma KeptForAll(c: Content, q: Question, allow: bool, local: Option<Answer>, r: Answer)
    requires Keeps(PlanFrom(c, q.name, allow, local), r) && (PlanFrom(c, q.name, allow, local).Cut? ==> allow)
    ensures Keeps(PlanFrom(c, q.name, true, local), r)
  {
  }

  lemma HandlerPutIsLocal(sn: Snap, q: Question, allow: bool, up: Answer, op: Op)
    requires HandlerPut(sn, q, allow, up, op) && op.key.local
    ensures WrittenFor(sn, q, op)
  {
    PutForIsLocal(sn, q, allow, OriginalPolicy(sn, q, allow), Decide(sn.content, SettingsOf(sn), q, allow), up, op);
    KeptForAll(sn.content, q, allow, LocalAnswer(sn.content, SettingsOf(sn), q), op.ent.result);
  }

  // ---------------------------------------------------------------- plans depend on content only

  lemma {:induction false} LikeTargets(a: seq<RR>, b: seq<RR>)
    requires LikeRRs(a, b)
    ensures LastTarget(a) == LastTarget(b)
    decreases |a|
  {
    if a != [] {
      assert LikeRR(a[|a| - 1], b[|b| - 1]);
      LikeTargets(a[..|a| - 1], b[..|b| - 1]);
    }
  }

  ghost predicate AgreeOn(c: Content, q: Question, a: Answer, b: Answer) {
    ZoneFor(c, q.name).Some? && Agree(ZoneFor(c, q.name).value, a, b)
  }

  /** What one snapshot's forwarding clients keep local, every client keeps local under any other
      snapshot with the same content, with the same answer up to automatic serials. */
  lemma PlansAgree(c: Content, s1: Settings, s2: Settings, q: Question, allow: bool, r: Answer)
    requires SameButGeneration(s1, s2) && Keeps(Decide(c, s1, q, true), r)
    ensures var plan := Decide(c, s2, q, allow); (plan.Final? || plan.Cut?) && AgreeOn(c, q, r, plan.r)
  {
    var z := ZoneFor(c, q.name).value;
    AnswerIgnoresGeneration(z, c.ttl, s1, s2, q.name, q.typ);
    var a, b := InZoneAnswer(z, c.ttl, s1, q.name, q.typ), InZoneAnswer(z, c.ttl, s2, q.name, q.typ);
    LikeTargets(a.answers, b.answers);
    PlanKeepsLike(c, q, allow, a, b);
  }

  lemma PlanKeepsLike(c: Content, q: Question, allow: bool, a: Answer, b: Answer)
    requires Like(a, b) && LastTarget(a.answers) == LastTarget(b.answers)
    requires var plan := PlanFrom(c, q.name, true, Some(a)); plan.Final? || plan.Cut?
    ensures var plan, plan' := PlanFrom(c, q.name, true, Some(a)), PlanFrom(c, q.name, allow, Some(b));
            && (plan'.Final? || plan'.Cut?) && Like(plan.r, plan'.r) && (a == b ==> plan.r == plan'.r)
  {
  }

  // ---------------------------------------------------------------- the theorems

  /** The same records up to TTLs, and up to automatic serials. */
  ghost predicate SameRecords(auto: bool, a: seq<RR>, b: seq<RR>) {
    |a| == |b| && forall i :: 0 <= i < |a| ==>
      a[i].name == b[i].name && a[i].typ == b[i].typ
        && (a[i].data == b[i].data || (auto && LikeData(a[i].data, b[i].data)))
  }

  ghost predicate SameReply(auto: bool, served: Answer, direct: Answer) {
    && served.rcode == direct.rcode && served.aa == direct.aa && served.fallthrough == direct.fallthrough
    && SameRecords(auto, served.answers, direct.answers) && SameRecords(auto, served.authority, direct.authority)
  }

  lemma AgedAgree(z: Zone, served: Answer, stored: Answer, direct: Answer, from: int, now: int, expiry: int)
    requires AgedFrom(served, stored, from, now, expiry) && Agree(z, stored, direct)
    ensures SameReply(Automatic(z), served, direct)
  {
    AgedRecords(Automatic(z), served.answers, stored.answers, direct.answers, from, now, expiry);
    AgedRecords(Automatic(z), served.authority, stored.authority, direct.authority, from, now, expiry);
  }

  lemma AgedRecords(auto: bool, served: seq<RR>, stored: seq<RR>, direct: seq<RR>, from: int, now: int, expiry: int)
    requires Aged(served, stored, from, now, expiry) && LikeRRs(stored, direct) && (!auto ==> stored == direct)
    ensures SameRecords(auto, served, direct)
  {
    forall i | 0 <= i < |served| ensures served[i].name == direct[i].name && served[i].typ == direct[i].typ {
      assert LikeRR(stored[i], direct[i]);
    }
  }

  lemma PlanIgnoresCD(c: Content, s: Settings, q: Question, cd: bool)
    ensures Decide(c, s, q.(cd := cd), true) == Decide(c, s, q, true)
  {
    var q' := q.(cd := cd);
    assert q'.name == q.name && q'.typ == q.typ;
  }

  /** Where a slot under a local key came from. */
  lemma LocalSlotOrigin(p: Policy, ops: seq<Op>, snaps: set<Snap>, sn: Snap, q: Question, n: nat, e: Entry)
    requires AllIssued(snaps, ops) && Coherent(snaps) && sn in snaps && WrittenAt(p, ops, n, LocalKey(sn, q), e)
    ensures var r := ops[n].ent.result;
            exists s1 :: SameButGeneration(s1, SettingsOf(sn)) && Keeps(Decide(sn.content, s1, q, true), r)
  {
    assert Issued(snaps, ops[n]);
    var sn', q' := LocalPutIsLocal(snaps, ops[n]);
    assert sn'.content == sn.content && q'.(cd := q.cd) == q;
    PlanIgnoresCD(sn.content, SettingsOf(sn'), q', q.cd);
    assert SameButGeneration(SettingsOf(sn'), SettingsOf(sn));
  }

  /** Cache transparency. In every run whose Puts were issued by queries and management resolves, a
      hit on a local key is, for every client, the reply of the uncached path on the same content. */
  lemma CacheIsTransparent(p: Policy, ops: seq<Op>, snaps: set<Snap>, sn: Snap, q: Question, allow: bool,
                           opts: GetOpts, now: int)
    requires AllIssued(snaps, ops) && Coherent(snaps) && sn in snaps
    requires Fetch(Run(p, ops), LocalKey(sn, q), opts, now).Hit?
    ensures var plan := Decide(sn.content, SettingsOf(sn), q, allow);
            && (plan.Final? || plan.Cut?) && ZoneFor(sn.content, q.name).Some?
            && SameReply(Automatic(ZoneFor(sn.content, q.name).value),
                         Fetch(Run(p, ops), LocalKey(sn, q), opts, now).ent.result, plan.r)
  {
    HitIsAgedPut(p, ops, LocalKey(sn, q), opts, now);
    var served := Fetch(Run(p, ops), LocalKey(sn, q), opts, now).ent.result;
    var n: nat, e :| WrittenAt(p, ops, n, LocalKey(sn, q), e) && WithinPolicy(Run(p, ops[..n]), ops[n], e)
      && AgedFrom(served, ops[n].ent.result, ops[n].now, now, e.expireAt.value);
    LocalSlotOrigin(p, ops, snaps, sn, q, n, e);
    var s1 :| SameButGeneration(s1, SettingsOf(sn)) && Keeps(Decide(sn.content, s1, q, true), ops[n].ent.result);
    PlansAgree(sn.content, s1, SettingsOf(sn), q, allow, ops[n].ent.result);
    var plan := Decide(sn.content, SettingsOf(sn), q, allow);
    AgedAgree(ZoneFor(sn.content, q.name).value, served, ops[n].ent.result, plan.r, ops[n].now, now, e.expireAt.value);
  }

  /** No run leaves a local entry for a question that some client's uncached path forwards. */
  lemma NoLocalEntryForForwarded(p: Policy, ops: seq<Op>, snaps: set<Snap>, sn: Snap, q: Question,
                                 slot: Slot<Key, Entry>)
    requires AllIssued(snaps, ops) && Coherent(snaps) && sn in snaps
    requires Decide(sn.content, SettingsOf(sn), q, true).Forward? && slot in Run(p, ops).slots
    ensures slot.key != LocalKey(sn, q)
  {
    if slot.key == LocalKey(sn, q) {
      var n := SlotsWereWritten(p, ops, slot);
      LocalSlotOrigin(p, ops, snaps, sn, q, n, slot.val);
      var s1 :| SameButGeneration(s1, SettingsOf(sn)) && Keeps(Decide(sn.content, s1, q, true), ops[n].ent.result);
      PlansAgree(sn.content, s1, SettingsOf(sn), q, true, ops[n].ent.result);
    }
  }
}
