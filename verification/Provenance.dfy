/** Two facts about every local answer that the shared cache relies on: its records come from the
    zone, and it depends on the snapshot's generation only through an automatic SOA serial. */
module Provenance {
  import opened Text
  import opened Names
  import opened Zones
  import opened Lookup
  import opened Resolver

  // ---------------------------------------------------------------- records come from the zone

  /** The RRsets a zone can answer with: the configured ones and its SOA. */
  ghost predicate Configured(z: Zone, sets: seq<RRset>, s: Settings, e: RRset) {
    e in sets || (z.soa.Some? && e == SoaSet(z.soa.value, z.origin, s))
  }

  /** `e` answers for the name `n`: it is owned by `n`, or `n` does not exist and `e` is owned by the
      wildcard at the closest encloser of `n`. */
  ghost predicate Provides(z: Zone, sets: seq<RRset>, s: Settings, e: RRset, n: Name) {
    && Configured(z, sets, s, e)
    && (e.owner == n
        || (InZone(n, z.origin) && n != z.origin && !Exists(sets, z.origin, n) && e.owner == Source(sets, z.origin, n)))
  }

  /** `rr` carries type, TTL and data of an RRset of the zone that answers for its name. */
  ghost predicate FromZone(z: Zone, sets: seq<RRset>, s: Settings, rr: RR) {
    exists e :: Provides(z, sets, s, e, rr.name) && rr.typ == e.typ && rr.ttl == e.ttl && rr.data in e.data
  }

  ghost predicate AllFromZone(z: Zone, sets: seq<RRset>, s: Settings, rrs: seq<RR>) {
    forall i :: 0 <= i < |rrs| ==> FromZone(z, sets, s, rrs[i])
  }

  /** The RRsets are configured at this owner. */
  ghost predicate SetsOwned(z: Zone, sets: seq<RRset>, s: Settings, es: seq<RRset>, owner: Name) {
    forall i :: 0 <= i < |es| ==> Configured(z, sets, s, es[i]) && es[i].owner == owner
  }

  ghost predicate OutcomeOwned(z: Zone, sets: seq<RRset>, s: Settings, o: Outcome, owner: Name) {
    && (o.Matched? ==> SetsOwned(z, sets, s, o.sets, owner))
    && (o.Alias? ==> SetsOwned(z, sets, s, [o.cname], owner))
  }

  ghost predicate SetsProvide(z: Zone, sets: seq<RRset>, s: Settings, es: seq<RRset>, n: Name) {
    forall i :: 0 <= i < |es| ==> Provides(z, sets, s, es[i], n)
  }

  ghost predicate OutcomeProvides(z: Zone, sets: seq<RRset>, s: Settings, o: Outcome, n: Name) {
    && (o.Matched? ==> SetsProvide(z, sets, s, o.sets, n))
    && (o.Alias? ==> Provides(z, sets, s, o.cname, n))
  }

  lemma {:induction false} PickedAreOwned(z: Zone, sets: seq<RRset>, s: Settings, owner: Name, types: seq<string>)
    ensures SetsOwned(z, sets, s, Pick(sets, owner, types), owner)
    decreases |types|
  {
    if types != [] { PickedAreOwned(z, sets, s, owner, types[..|types| - 1]); }
  }

  lemma SoaIsOwned(z: Zone, sets: seq<RRset>, s: Settings, owner: Name)
    ensures SetsOwned(z, sets, s, SoaAt(z.soa, z.origin, s, owner), owner)
  {
  }

  lemma OwnedConcat(z: Zone, sets: seq<RRset>, s: Settings, a: seq<RRset>, b: seq<RRset>, owner: Name)
    requires SetsOwned(z, sets, s, a, owner) && SetsOwned(z, sets, s, b, owner)
    ensures SetsOwned(z, sets, s, a + b, owner)
  {
  }

  lemma FoundIsOwned(z: Zone, sets: seq<RRset>, s: Settings, owner: Name, t: string)
    requires Find(sets, owner, t).Some?
    ensures SetsOwned(z, sets, s, [Find(sets, owner, t).value], owner)
  {
  }

  lemma OutcomeIsOwned(z: Zone, sets: seq<RRset>, s: Settings, owner: Name, source: Option<Name>, t: string)
    ensures OutcomeOwned(z, sets, s, AtOwner(z, sets, s, owner, source, t), owner)
  {
    SoaIsOwned(z, sets, s, owner);
    var soa := if source.None? then SoaAt(z.soa, z.origin, s, owner) else [];
    if t == "ANY" {
      PickedAreOwned(z, sets, s, owner, Listing(TypesAt(sets, owner)));
      OwnedConcat(z, sets, s, soa, SetsAt(sets, owner), owner);
    } else {
      if Find(sets, owner, t).Some? { FoundIsOwned(z, sets, s, owner, t); }
      if Find(sets, owner, "CNAME").Some? { FoundIsOwned(z, sets, s, owner, "CNAME"); }
    }
  }

  lemma LookProvides(z: Zone, ttl: int, s: Settings, t: string, n: Name)
    requires InZone(n, z.origin)
    ensures OutcomeProvides(z, Entries(z, ttl), s, ViewOf(z, ttl, s, t).look(n), n)
  {
    var sets := Entries(z, ttl);
    if Exists(sets, z.origin, n) {
      OutcomeIsOwned(z, sets, s, n, None, t);
      OwnedProvides(z, sets, s, AtOwner(z, sets, s, n, None, t), n, n);
    } else {
      var wc := Source(sets, z.origin, n);
      OutcomeIsOwned(z, sets, s, wc, Some(wc), t);
      OwnedProvides(z, sets, s, AtOwner(z, sets, s, wc, Some(wc), t), wc, n);
    }
  }

  lemma OwnedProvides(z: Zone, sets: seq<RRset>, s: Settings, o: Outcome, owner: Name, n: Name)
    requires OutcomeOwned(z, sets, s, o, owner)
    requires || owner == n
             || (InZone(n, z.origin) && n != z.origin && !Exists(sets, z.origin, n)
                 && owner == Source(sets, z.origin, n))
    ensures OutcomeProvides(z, sets, s, o, n)
  {
    if o.Alias? { assert [o.cname][0] == o.cname; }
  }

  lemma RRsFromZone(z: Zone, sets: seq<RRset>, s: Settings, e: RRset, n: Name)
    requires Provides(z, sets, s, e, n)
    ensures AllFromZone(z, sets, s, RRs(e, n))
  {
    forall i | 0 <= i < |e.data| ensures FromZone(z, sets, s, RRs(e, n)[i]) {
      assert RRs(e, n)[i].data in e.data;
    }
  }

  lemma {:induction false} AllRRsFromZone(z: Zone, sets: seq<RRset>, s: Settings, es: seq<RRset>, n: Name)
    requires SetsProvide(z, sets, s, es, n)
    ensures AllFromZone(z, sets, s, AllRRs(es, n))
    decreases |es|
  {
    if es != [] {
      RRsFromZone(z, sets, s, es[0], n);
      AllRRsFromZone(z, sets, s, es[1..], n);
    }
  }

  lemma ExtendFromZone(z: Zone, sets: seq<RRset>, s: Settings, tr: Trail, o: Outcome, current: Name, t: string)
    requires AllFromZone(z, sets, s, tr.answers) && OutcomeProvides(z, sets, s, o, current)
    ensures AllFromZone(z, sets, s, Extend(tr, o, current, t).answers)
  {
    match o
    case Matched(es, _) => AllRRsFromZone(z, sets, s, es, current);
    case Alias(c, _) => RRsFromZone(z, sets, s, c, current);
    case Missing(_, _) =>
    case Nonexistent(_) =>
  }

  /** All records of an answer are configured in the zone. */
  ghost predicate Local(z: Zone, sets: seq<RRset>, s: Settings, r: Answer) {
    AllFromZone(z, sets, s, r.answers) && (r.authority == [] || r.authority == SoaRRs(ApexOf(z), s))
      && r.additional == []
  }

  lemma TakeFromZone(z: Zone, sets: seq<RRset>, s: Settings, t: string, o: Outcome, current: Name, depth: nat,
                     tr: Trail)
    requires AllFromZone(z, sets, s, tr.answers) && OutcomeProvides(z, sets, s, o, current)
    ensures var turn := Take(ApexOf(z), s, t, o, current, depth, tr);
            if turn.Done? then Local(z, sets, s, turn.r) else AllFromZone(z, sets, s, turn.tr.answers)
  {
    ExtendFromZone(z, sets, s, tr, o, current, t);
  }

  lemma {:induction false} WalkFromZone(z: Zone, sets: seq<RRset>, v: View, s: Settings, t: string, current: Name,
                                        seen: set<Name>, depth: nat, tr: Trail)
    requires v.apex == ApexOf(z) && forall n :: InZone(n, z.origin) ==> OutcomeProvides(z, sets, s, v.look(n), n)
    requires depth <= MaxDepth(s) && AllFromZone(z, sets, s, tr.answers)
    ensures Local(z, sets, s, Walk(v, s, t, current, seen, depth, tr))
    decreases MaxDepth(s) - depth
  {
    if current !in seen && InZone(current, z.origin) {
      TakeFromZone(z, sets, s, t, v.look(current), current, depth, tr);
      var turn := Take(v.apex, s, t, v.look(current), current, depth, tr);
      if turn.Follow? { WalkFromZone(z, sets, v, s, t, turn.next, seen + {current}, depth + 1, turn.tr); }
    }
  }

  lemma SoaIsFromZone(z: Zone, sets: seq<RRset>, s: Settings)
    ensures AllFromZone(z, sets, s, SoaRRs(ApexOf(z), s))
  {
    if z.soa.Some? { RRsFromZone(z, sets, s, SoaSet(z.soa.value, z.origin, s), z.origin); }
  }

  /** Every record of a zone's answer is configured in that zone. */
  lemma AnswerIsFromZone(z: Zone, ttl: int, s: Settings, qname: Name, t: string)
    ensures Local(z, Entries(z, ttl), s, InZoneAnswer(z, ttl, s, qname, t))
  {
    var sets, v := Entries(z, ttl), ViewOf(z, ttl, s, t);
    forall n | InZone(n, z.origin) ensures OutcomeProvides(z, sets, s, v.look(n), n) { LookProvides(z, ttl, s, t, n); }
    WalkFromZone(z, sets, v, s, t, qname, {}, 0, Start());
  }

  // ---------------------------------------------------------------- generations matter only for serials

  predicate LikeData(a: RData, b: RData) {
    a == b || (a.SoaData? && b.SoaData? && a.(serial := "") == b.(serial := ""))
  }

  predicate LikeRR(a: RR, b: RR) {
    a.(data := NoData) == b.(data := NoData) && LikeData(a.data, b.data)
  }

  predicate LikeRRs(a: seq<RR>, b: seq<RR>) {
    |a| == |b| && forall i :: 0 <= i < |a| ==> LikeRR(a[i], b[i])
  }

  predicate LikeSet(a: RRset, b: RRset) {
    && a.(data := []) == b.(data := []) && |a.data| == |b.data|
    && forall i :: 0 <= i < |a.data| ==> LikeData(a.data[i], b.data[i])
  }

  predicate LikeSets(a: seq<RRset>, b: seq<RRset>) {
    |a| == |b| && forall i :: 0 <= i < |a| ==> LikeSet(a[i], b[i])
  }

  predicate LikeOutcome(a: Outcome, b: Outcome) {
    a == b || (a.Matched? && b.Matched? && a.source == b.source && LikeSets(a.sets, b.sets))
  }

  predicate LikeTrail(a: Trail, b: Trail) {
    a.(answers := []) == b.(answers := []) && LikeRRs(a.answers, b.answers)
  }

  /** Equal answers but for SOA serials. */
  predicate Like(a: Answer, b: Answer) {
    && a.(answers := [], authority := []) == b.(answers := [], authority := [])
    && LikeRRs(a.answers, b.answers) && LikeRRs(a.authority, b.authority)
  }

  predicate SameButGeneration(s1: Settings, s2: Settings) {
    s1.(generation := 0) == s2.(generation := 0)
  }

  lemma LikeSoa(soa: Soa, origin: Name, s1: Settings, s2: Settings)
    requires SameButGeneration(s1, s2)
    ensures LikeSet(SoaSet(soa, origin, s1), SoaSet(soa, origin, s2))
  {
  }

  lemma LikeSoaAt(z: Zone, s1: Settings, s2: Settings, owner: Name)
    requires SameButGeneration(s1, s2)
    ensures LikeSets(SoaAt(z.soa, z.origin, s1, owner), SoaAt(z.soa, z.origin, s2, owner))
  {
    if z.soa.Some? { LikeSoa(z.soa.value, z.origin, s1, s2); }
  }

  lemma LikeJoined(a: seq<RRset>, b: seq<RRset>, rest: seq<RRset>)
    requires LikeSets(a, b)
    ensures LikeSets(a + rest, b + rest)
  {
  }

  lemma LikeAtOwner(z: Zone, sets: seq<RRset>, s1: Settings, s2: Settings, owner: Name, source: Option<Name>, t: string)
    requires SameButGeneration(s1, s2)
    ensures LikeOutcome(AtOwner(z, sets, s1, owner, source, t), AtOwner(z, sets, s2, owner, source, t))
  {
    LikeSoaAt(z, s1, s2, owner);
    LikeJoined(SoaAt(z.soa, z.origin, s1, owner), SoaAt(z.soa, z.origin, s2, owner), SetsAt(sets, owner));
  }

  lemma LikeLook(z: Zone, ttl: int, s1: Settings, s2: Settings, t: string, n: Name)
    requires SameButGeneration(s1, s2) && InZone(n, z.origin)
    ensures LikeOutcome(ViewOf(z, ttl, s1, t).look(n), ViewOf(z, ttl, s2, t).look(n))
  {
    var sets := Entries(z, ttl);
    if Exists(sets, z.origin, n) {
      LikeAtOwner(z, sets, s1, s2, n, None, t);
    } else {
      var wc := Source(sets, z.origin, n);
      LikeAtOwner(z, sets, s1, s2, wc, Some(wc), t);
    }
  }

  lemma LikeConcat(a: seq<RR>, b: seq<RR>, c: seq<RR>, d: seq<RR>)
    requires LikeRRs(a, b) && LikeRRs(c, d)
    ensures LikeRRs(a + c, b + d)
  {
  }

  lemma {:induction false} LikeAllRRs(a: seq<RRset>, b: seq<RRset>, owner: Name)
    requires LikeSets(a, b)
    ensures LikeRRs(AllRRs(a, owner), AllRRs(b, owner))
    decreases |a|
  {
    if a != [] {
      assert LikeSet(a[0], b[0]);
      LikeAllRRs(a[1..], b[1..], owner);
      assert LikeRRs(RRs(a[0], owner), RRs(b[0], owner));
      LikeConcat(RRs(a[0], owner), RRs(b[0], owner), AllRRs(a[1..], owner), AllRRs(b[1..], owner));
    }
  }

  lemma LikeExtend(a: Trail, b: Trail, o: Outcome, p: Outcome, current: Name, t: string)
    requires LikeTrail(a, b) && LikeOutcome(o, p)
    ensures LikeTrail(Extend(a, o, current, t), Extend(b, p, current, t))
  {
    if o.Matched? {
      assert LikeSets(o.sets, p.sets);
      LikeAllRRs(o.sets, p.sets, current);
      LikeConcat(a.answers, b.answers, AllRRs(o.sets, current), AllRRs(p.sets, current));
      if o.sets != [] { assert LikeSet(o.sets[0], p.sets[0]); }
    } else if o.Alias? {
      LikeConcat(a.answers, b.answers, RRs(o.cname, current), RRs(p.cname, current));
    }
  }

  lemma LikeSoaRRs(x: Apex, s1: Settings, s2: Settings)
    requires SameButGeneration(s1, s2)
    ensures LikeRRs(SoaRRs(x, s1), SoaRRs(x, s2))
  {
    if x.soa.Some? { LikeSoa(x.soa.value, x.name, s1, s2); }
  }

  lemma LikeNegative(x: Apex, s1: Settings, s2: Settings, rcode: RCode, a: Trail, b: Trail)
    requires SameButGeneration(s1, s2) && LikeTrail(a, b)
    ensures Like(Negative(x, s1, rcode, a), Negative(x, s2, rcode, b))
  {
    LikeSoaRRs(x, s1, s2);
  }

  lemma LikeMiss(x: Apex, s1: Settings, s2: Settings, rcode: RCode, a: Trail, b: Trail)
    requires SameButGeneration(s1, s2) && LikeTrail(a, b)
    ensures Like(Miss(x, s1, rcode, a), Miss(x, s2, rcode, b))
  {
    LikeNegative(x, s1, s2, rcode, a, b);
  }

  predicate LikeTurn(a: Turn, b: Turn) {
    || (a.Done? && b.Done? && Like(a.r, b.r))
    || (a.Follow? && b.Follow? && a.next == b.next && LikeTrail(a.tr, b.tr))
  }

  lemma LikeTake(x: Apex, s1: Settings, s2: Settings, t: string, o: Outcome, p: Outcome, current: Name, depth: nat,
                 a: Trail, b: Trail)
    requires SameButGeneration(s1, s2) && LikeTrail(a, b) && LikeOutcome(o, p)
    ensures LikeTurn(Take(x, s1, t, o, current, depth, a), Take(x, s2, t, p, current, depth, b))
  {
    LikeExtend(a, b, o, p, current, t);
    var a', b' := Extend(a, o, current, t), Extend(b, p, current, t);
    LikeMiss(x, s1, s2, NoError, a', b');
    LikeMiss(x, s1, s2, NXDomain, a', b');
  }

  ghost predicate LikeViews(v1: View, v2: View) {
    v1.apex == v2.apex && forall n :: InZone(n, v1.apex.name) ==> LikeOutcome(v1.look(n), v2.look(n))
  }

  lemma {:induction false} LikeWalk(v1: View, v2: View, s1: Settings, s2: Settings, t: string, current: Name,
                                    seen: set<Name>, depth: nat, a: Trail, b: Trail)
    requires SameButGeneration(s1, s2) && depth <= MaxDepth(s1) && LikeTrail(a, b) && LikeViews(v1, v2)
    ensures Like(Walk(v1, s1, t, current, seen, depth, a), Walk(v2, s2, t, current, seen, depth, b))
    decreases MaxDepth(s1) - depth
  {
    if current !in seen && InZone(current, v1.apex.name) {
      LikeTake(v1.apex, s1, s2, t, v1.look(current), v2.look(current), current, depth, a, b);
      var turn1 := Take(v1.apex, s1, t, v1.look(current), current, depth, a);
      var turn2 := Take(v2.apex, s2, t, v2.look(current), current, depth, b);
      if turn1.Follow? { LikeWalk(v1, v2, s1, s2, t, turn1.next, seen + {current}, depth + 1, turn1.tr, turn2.tr); }
    }
  }

  // ---------------------------------------------------------------- a configured serial is exact

  predicate Automatic(z: Zone) {
    z.soa.Some? && (z.soa.value.serial == "" || z.soa.value.serial == "auto")
  }

  lemma SameLook(z: Zone, ttl: int, s1: Settings, s2: Settings, t: string, n: Name)
    requires SameButGeneration(s1, s2) && InZone(n, z.origin) && !Automatic(z)
    ensures ViewOf(z, ttl, s1, t).look(n) == ViewOf(z, ttl, s2, t).look(n)
  {
    assert forall owner :: SoaAt(z.soa, z.origin, s1, owner) == SoaAt(z.soa, z.origin, s2, owner);
    var sets := Entries(z, ttl);
    if Exists(sets, z.origin, n) {
      assert AtOwner(z, sets, s1, n, None, t) == AtOwner(z, sets, s2, n, None, t);
    } else {
      var wc := Source(sets, z.origin, n);
      assert AtOwner(z, sets, s1, wc, Some(wc), t) == AtOwner(z, sets, s2, wc, Some(wc), t);
    }
  }

  lemma SameTake(x: Apex, s1: Settings, s2: Settings, t: string, o: Outcome, current: Name, depth: nat, tr: Trail)
    requires SameButGeneration(s1, s2) && SoaRRs(x, s1) == SoaRRs(x, s2)
    ensures Take(x, s1, t, o, current, depth, tr) == Take(x, s2, t, o, current, depth, tr)
  {
  }

  lemma {:induction false} SameWalk(v1: View, v2: View, s1: Settings, s2: Settings, t: string, current: Name,
                                    seen: set<Name>, depth: nat, tr: Trail)
    requires SameButGeneration(s1, s2) && depth <= MaxDepth(s1)
    requires v1.apex == v2.apex && SoaRRs(v1.apex, s1) == SoaRRs(v1.apex, s2)
    requires forall n :: InZone(n, v1.apex.name) ==> v1.look(n) == v2.look(n)
    ensures Walk(v1, s1, t, current, seen, depth, tr) == Walk(v2, s2, t, current, seen, depth, tr)
    decreases MaxDepth(s1) - depth
  {
    if current !in seen && InZone(current, v1.apex.name) {
      SameTake(v1.apex, s1, s2, t, v1.look(current), current, depth, tr);
      var turn := Take(v1.apex, s1, t, v1.look(current), current, depth, tr);
      if turn.Follow? { SameWalk(v1, v2, s1, s2, t, turn.next, seen + {current}, depth + 1, turn.tr); }
    }
  }

  /** Equal, but for SOA serials when the zone has an automatic one. */
  ghost predicate Agree(z: Zone, a: Answer, b: Answer) {
    Like(a, b) && (!Automatic(z) ==> a == b)
  }

  /** Snapshots with the same content give the same answers, up to automatic SOA serials. */
  lemma AnswerIgnoresGeneration(z: Zone, ttl: int, s1: Settings, s2: Settings, qname: Name, t: string)
    requires SameButGeneration(s1, s2)
    ensures Agree(z, InZoneAnswer(z, ttl, s1, qname, t), InZoneAnswer(z, ttl, s2, qname, t))
  {
    var v1, v2 := ViewOf(z, ttl, s1, t), ViewOf(z, ttl, s2, t);
    forall n | InZone(n, z.origin) ensures LikeOutcome(v1.look(n), v2.look(n)) { LikeLook(z, ttl, s1, s2, t, n); }
    LikeWalk(v1, v2, s1, s2, t, qname, {}, 0, Start(), Start());
    if !Automatic(z) {
      forall n | InZone(n, z.origin) ensures v1.look(n) == v2.look(n) { SameLook(z, ttl, s1, s2, t, n); }
      SameWalk(v1, v2, s1, s2, t, qname, {}, 0, Start());
    }
  }
}
