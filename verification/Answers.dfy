/** What a zone answers, said from its configured records alone: data that is there is answered,
    names that are not are denied, and a CNAME hands over to its target
    (internal/resolver/resolve.go:113-252, 254-475). */
module Answers {
  import opened Text
  import opened Names
  import opened Zones
  import opened Lookup
  import opened Resolver
  import Loops

  // ---------------------------------------------------------------- one lookup

  /** The RRset of an owner and type is the configured one. */
  lemma FindIs(z: Zone, ttl: int, i: nat)
    requires Compiles(z, ttl) && i < |Entries(z, ttl)|
    ensures var e := Entries(z, ttl)[i]; Find(Entries(z, ttl), e.owner, e.typ) == Some(e)
  {
    var sets := Entries(z, ttl);
    var e := sets[i];
    var f := Find(sets, e.owner, e.typ).value;
    var j :| 0 <= j < |sets| && sets[j] == f;
    SamePlace(sets, i, j);
  }

  /** Owner and type determine the place. */
  lemma SamePlace(sets: seq<RRset>, i: nat, j: nat)
    requires NoClash(sets) && i < |sets| && j < |sets| && sets[i].owner == sets[j].owner && sets[i].typ == sets[j].typ
    ensures i == j
  {
  }

  lemma EntryInZone(z: Zone, ttl: int, i: nat)
    requires Compiles(z, ttl) && i < |Entries(z, ttl)|
    ensures InZone(Entries(z, ttl)[i].owner, z.origin)
  {
    var ns := NameserverSets(z, ttl);
    if i < |ns| {
      assert Entries(z, ttl)[i] == ns[i];
      assert z.origin[0..] == z.origin;
    } else {
      assert RecordOk(z, Records(z)[i - |ns|]);
      assert Entries(z, ttl)[i] == ToRRset(Records(z)[i - |ns|]);
    }
  }

  lemma EntryExists(z: Zone, ttl: int, i: nat)
    requires Compiles(z, ttl) && i < |Entries(z, ttl)|
    ensures Exists(Entries(z, ttl), z.origin, Entries(z, ttl)[i].owner)
  {
    EntryInZone(z, ttl, i);
    var e := Entries(z, ttl)[i];
    assert e.owner[0..] == e.owner;
    assert InZone(Entries(z, ttl)[i].owner, e.owner);
  }

  /** The types that are not data of a name: ANY, and SOA where the zone's own SOA answers. */
  predicate Special(z: Zone, q: Name, t: string) {
    t == "ANY" || (t == "SOA" && z.soa.Some? && q == z.origin)
  }

  lemma ExactMatch(z: Zone, sets: seq<RRset>, s: Settings, q: Name, t: string, e: RRset)
    requires Exists(sets, z.origin, q) && !Special(z, q, t) && Find(sets, q, t) == Some(e)
    ensures Coded(z, sets, s, q, t) == Matched([e], None)
  {
  }

  lemma WildMatch(z: Zone, sets: seq<RRset>, s: Settings, q: Name, t: string, e: RRset)
    requires InZone(q, z.origin) && q != z.origin && !Exists(sets, z.origin, q) && t != "ANY"
    requires var wc := Source(sets, z.origin, q); Exists(sets, z.origin, wc) && Find(sets, wc, t) == Some(e)
    ensures Coded(z, sets, s, q, t) == Matched([e], Some(Source(sets, z.origin, q)))
  {
  }

  /** A question that one lookup answers. */
  lemma OneLookup(z: Zone, ttl: int, s: Settings, q: Name, t: string)
    requires InZone(q, z.origin) && !Coded(z, Entries(z, ttl), s, q, t).Alias?
    ensures var o := Coded(z, Entries(z, ttl), s, q, t);
            Done(InZoneAnswer(z, ttl, s, q, t)) == Take(ApexOf(z), s, t, o, q, 0, Start())
  {
    var v := ViewOf(z, ttl, s, t);
    WalkFollows(v, s, t, q, {}, 0, Start());
    assert v.look(q) == Coded(z, Entries(z, ttl), s, q, t);
  }

  lemma OneSet(e: RRset, q: Name)
    ensures AllRRs([e], q) == RRs(e, q)
  {
    assert [e][1..] == [];
  }

  /** A positive answer of the zone: these records and nothing else. */
  ghost predicate Positively(z: Zone, r: Answer, rrs: seq<RR>) {
    && r.rcode == NoError && r.answers == rrs && r.authority == [] && r.additional == [] && !r.fallthrough
    && (r.aa <==> z.mode == Authoritative) && r.zoneID == z.id && r.mode == Some(z.mode)
  }

  /** A match is a positive answer with the records of the RRsets, and says where they were synthesized. */
  lemma MatchAnswers(z: Zone, s: Settings, t: string, es: seq<RRset>, source: Option<Name>, q: Name)
    ensures var turn := Take(ApexOf(z), s, t, Matched(es, source), q, 0, Start());
            && turn.Done? && Positively(z, turn.r, AllRRs(es, q))
            && (source.None? ==>
                  turn.r.source == FromExact && turn.r.wildcardSource == None && turn.r.encloser == None)
            && (source.Some? && source.value != [] && es != [] ==>
                  && turn.r.source == FromWildcard && turn.r.wildcardSource == PtrID(es[0].id)
                  && turn.r.encloser == Some(source.value[1..]))
  {
    assert [] + AllRRs(es, q) == AllRRs(es, q);
  }

  /** Data at the name is answered: every record of the RRset, under the name, with its TTL. */
  lemma DataIsAnswered(z: Zone, ttl: int, s: Settings, i: nat)
    requires Compiles(z, ttl) && i < |Entries(z, ttl)|
    requires !Special(z, Entries(z, ttl)[i].owner, Entries(z, ttl)[i].typ)
    ensures var e := Entries(z, ttl)[i]; var r := InZoneAnswer(z, ttl, s, e.owner, e.typ);
            Positively(z, r, RRs(e, e.owner)) && r.source == FromExact && r.wildcardSource == None && r.encloser == None
  {
    var e, sets := Entries(z, ttl)[i], Entries(z, ttl);
    FindIs(z, ttl, i);
    EntryExists(z, ttl, i);
    ExactMatch(z, sets, s, e.owner, e.typ, e);
    OneLookup(z, ttl, s, e.owner, e.typ);
    OneSet(e, e.owner);
    MatchAnswers(z, s, e.typ, [e], None, e.owner);
  }

  /** Data at the wildcard is answered under every name it covers, and reported as synthesized. */
  lemma WildcardDataIsAnswered(z: Zone, ttl: int, s: Settings, i: nat, q: Name)
    requires Compiles(z, ttl) && i < |Entries(z, ttl)| && Entries(z, ttl)[i].typ != "ANY"
    requires InZone(q, z.origin) && q != z.origin && !Exists(Entries(z, ttl), z.origin, q)
    requires Entries(z, ttl)[i].owner == ["*"] + Encloser(Entries(z, ttl), z.origin, q)
    ensures var e := Entries(z, ttl)[i]; var r := InZoneAnswer(z, ttl, s, q, e.typ);
            && Positively(z, r, RRs(e, q)) && r.source == FromWildcard && r.wildcardSource == PtrID(e.id)
            && r.encloser == Some(Encloser(Entries(z, ttl), z.origin, q))
  {
    var e, sets := Entries(z, ttl)[i], Entries(z, ttl);
    FindIs(z, ttl, i);
    EntryExists(z, ttl, i);
    WildMatch(z, sets, s, q, e.typ, e);
    OneLookup(z, ttl, s, q, e.typ);
    OneSet(e, q);
    MatchAnswers(z, s, e.typ, [e], Some(e.owner), q);
    assert e.owner[1..] == Encloser(sets, z.origin, q);
  }

  // ---------------------------------------------------------------- denials

  /** No record of the type, and no CNAME, at the owner. */
  ghost predicate NoneAt(sets: seq<RRset>, owner: Name, t: string) {
    forall i :: 0 <= i < |sets| && sets[i].owner == owner ==> sets[i].typ != t && sets[i].typ != "CNAME"
  }

  /** A negative answer: from an authoritative zone with its SOA; an overlay zone passes the question on. */
  ghost predicate Denied(z: Zone, s: Settings, r: Answer, rcode: RCode, encloser: Option<Name>) {
    && r.answers == [] && r.additional == [] && (z.mode == Authoritative ==> r.encloser == encloser)
    && if z.mode == Overlay then r.fallthrough && r.rcode == NoError && r.authority == [] && !r.aa
       else
         && !r.fallthrough && r.rcode == rcode && r.aa && r.source == FromNegative
         && r.authority == SoaRRs(ApexOf(z), s)
  }

  lemma NothingFound(sets: seq<RRset>, owner: Name, t: string)
    requires NoneAt(sets, owner, t)
    ensures Find(sets, owner, t).None? && Find(sets, owner, "CNAME").None?
  {
  }

  /** The name exists and has other data only: NODATA. */
  lemma ExistingIsNodata(z: Zone, ttl: int, s: Settings, q: Name, t: string)
    requires Exists(Entries(z, ttl), z.origin, q) && !Special(z, q, t) && NoneAt(Entries(z, ttl), q, t)
    ensures Denied(z, s, InZoneAnswer(z, ttl, s, q, t), NoError, None)
  {
    NothingFound(Entries(z, ttl), q, t);
    ExistingMisses(z, Entries(z, ttl), s, q, t);
    OneLookup(z, ttl, s, q, t);
    MissIsDenied(z, s, t, Coded(z, Entries(z, ttl), s, q, t), q);
  }

  lemma ExistingMisses(z: Zone, sets: seq<RRset>, s: Settings, q: Name, t: string)
    requires Exists(sets, z.origin, q) && !Special(z, q, t)
    requires Find(sets, q, t).None? && Find(sets, q, "CNAME").None?
    ensures Coded(z, sets, s, q, t) == Missing(None, "")
  {
  }

  lemma CoveredMisses(z: Zone, sets: seq<RRset>, s: Settings, q: Name, t: string)
    requires InZone(q, z.origin) && q != z.origin && !Exists(sets, z.origin, q) && t != "ANY"
    requires var wc := Source(sets, z.origin, q);
             Exists(sets, z.origin, wc) && Find(sets, wc, t).None? && Find(sets, wc, "CNAME").None?
    ensures var o := Coded(z, sets, s, q, t); o.Missing? && o.source == Some(Source(sets, z.origin, q))
  {
  }

  lemma MissIsDenied(z: Zone, s: Settings, t: string, o: Outcome, q: Name)
    requires o.Missing? || o.Nonexistent?
    ensures var turn := Take(ApexOf(z), s, t, o, q, 0, Start());
            turn.Done? && Denied(z, s, turn.r, if o.Missing? then NoError else NXDomain, EncloserIn(o, t))
  {
  }

  /** The closest encloser an outcome reports. */
  function EncloserIn(o: Outcome, t: string): Option<Name>
    requires o.Missing? || o.Nonexistent?
  {
    if o.Nonexistent? then (if t == "ANY" then None else Some(o.encloser))
    else if o.source.Some? && o.source.value != [] then Some(o.source.value[1..]) else None
  }

  /** The wildcard that covers the name exists and has other data only: NODATA. */
  lemma CoveredIsNodata(z: Zone, ttl: int, s: Settings, q: Name, t: string)
    requires InZone(q, z.origin) && q != z.origin && !Exists(Entries(z, ttl), z.origin, q) && t != "ANY"
    requires var wc := Source(Entries(z, ttl), z.origin, q);
             Exists(Entries(z, ttl), z.origin, wc) && NoneAt(Entries(z, ttl), wc, t)
    ensures Denied(z, s, InZoneAnswer(z, ttl, s, q, t), NoError, Some(Encloser(Entries(z, ttl), z.origin, q)))
  {
    var wc := Source(Entries(z, ttl), z.origin, q);
    assert wc[1..] == Encloser(Entries(z, ttl), z.origin, q);
    NothingFound(Entries(z, ttl), Source(Entries(z, ttl), z.origin, q), t);
    CoveredMisses(z, Entries(z, ttl), s, q, t);
    OneLookup(z, ttl, s, q, t);
    MissIsDenied(z, s, t, Coded(z, Entries(z, ttl), s, q, t), q);
  }

  /** Neither the name nor the wildcard at its closest encloser exists: NXDOMAIN. */
  lemma AbsentIsNxdomain(z: Zone, ttl: int, s: Settings, q: Name, t: string)
    requires InZone(q, z.origin) && q != z.origin && !Exists(Entries(z, ttl), z.origin, q)
    requires !Exists(Entries(z, ttl), z.origin, Source(Entries(z, ttl), z.origin, q))
    ensures Denied(z, s, InZoneAnswer(z, ttl, s, q, t), NXDomain,
                   if t == "ANY" then None else Some(Encloser(Entries(z, ttl), z.origin, q)))
  {
    assert Coded(z, Entries(z, ttl), s, q, t) == Nonexistent(Encloser(Entries(z, ttl), z.origin, q));
    OneLookup(z, ttl, s, q, t);
    MissIsDenied(z, s, t, Coded(z, Entries(z, ttl), s, q, t), q);
  }

  /** A zone denies a name only if nothing in it makes the name exist. */
  lemma NxdomainIsAbsent(z: Zone, ttl: int, s: Settings, q: Name, t: string)
    requires InZone(q, z.origin) && !Coded(z, Entries(z, ttl), s, q, t).Alias?
    requires InZoneAnswer(z, ttl, s, q, t).rcode == NXDomain
    ensures q != z.origin && !Exists(Entries(z, ttl), z.origin, q) && z.mode == Authoritative
    ensures || !Exists(Entries(z, ttl), z.origin, Source(Entries(z, ttl), z.origin, q))
            || AnyBlind(z, Entries(z, ttl), q, t)
  {
    OneLookup(z, ttl, s, q, t);
    OnlyAbsence(ApexOf(z), s, t, Coded(z, Entries(z, ttl), s, q, t), q, InZoneAnswer(z, ttl, s, q, t));
    AbsenceMeans(z, Entries(z, ttl), s, q, t);
  }

  lemma OnlyAbsence(x: Apex, s: Settings, t: string, o: Outcome, q: Name, r: Answer)
    requires Done(r) == Take(x, s, t, o, q, 0, Start()) && r.rcode == NXDomain
    ensures o.Nonexistent? && x.mode == Authoritative
  {
  }

  lemma AbsenceMeans(z: Zone, sets: seq<RRset>, s: Settings, q: Name, t: string)
    requires InZone(q, z.origin) && Coded(z, sets, s, q, t).Nonexistent?
    ensures q != z.origin && !Exists(sets, z.origin, q)
    ensures !Exists(sets, z.origin, Source(sets, z.origin, q)) || AnyBlind(z, sets, q, t)
  {
    if Exists(sets, z.origin, q) {
      NeverAbsent(z, sets, s, q, None, t);
    } else if Exists(sets, z.origin, Source(sets, z.origin, q)) {
      var wc := Source(sets, z.origin, q);
      NeverAbsent(z, sets, s, wc, Some(wc), t);
    }
  }

  lemma NeverAbsent(z: Zone, sets: seq<RRset>, s: Settings, owner: Name, source: Option<Name>, t: string)
    ensures !AtOwner(z, sets, s, owner, source, t).Nonexistent?
  {
  }

  // ---------------------------------------------------------------- SOA and ANY

  /** The zone's own SOA at its apex. */
  lemma SoaIsAnswered(z: Zone, ttl: int, s: Settings)
    requires z.soa.Some?
    ensures Positively(z, InZoneAnswer(z, ttl, s, z.origin, "SOA"), RRs(SoaSet(z.soa.value, z.origin, s), z.origin))
  {
    var e := SoaSet(z.soa.value, z.origin, s);
    assert z.origin[0..] == z.origin;
    assert Coded(z, Entries(z, ttl), s, z.origin, "SOA") == Matched([e], None);
    OneLookup(z, ttl, s, z.origin, "SOA");
    OneSet(e, z.origin);
    MatchAnswers(z, s, "SOA", [e], None, z.origin);
  }

  lemma SecondsOf(k: nat, rest: nat)
    requires k < 0x1_0000_0000 && rest < Second
    ensures Seconds32(k * Second + rest) == k
  {
  }

  /** What the SOA says: names as configured, the serial as configured or the generation, times in
      whole seconds, and as TTL the lesser of MINIMUM and the default for negative answers, when set. */
  lemma SoaSays(soa: Soa, origin: Name, s: Settings, refresh: nat, retry: nat, expire: nat, minimum: nat)
    requires soa.refresh == refresh * Second && soa.retry == retry * Second && soa.expire == expire * Second
    requires soa.minimum == minimum * Second && s.negativeTTL >= 0
    requires refresh < 0x1_0000_0000 && retry < 0x1_0000_0000 && expire < 0x1_0000_0000 && minimum < 0x1_0000_0000
    ensures var e := SoaSet(soa, origin, s);
            && |RRs(e, origin)| == 1 && RRs(e, origin)[0].name == origin && RRs(e, origin)[0].typ == "SOA"
            && (exists serial :: RRs(e, origin)[0].data ==
                  SoaData(soa.primary, soa.administrator, serial, refresh, retry, expire, minimum)
                  && (soa.serial !in {"", "auto"} ==> serial == soa.serial)
                  && (soa.serial in {"", "auto"} && s.generation > 0 ==> Number(serial) == s.generation))
            && (minimum > 0 && s.negativeTTL > 0 ==>
                  e.ttl == if soa.minimum < s.negativeTTL then soa.minimum else s.negativeTTL)
            && (minimum == 0 ==> e.ttl == s.negativeTTL) && (s.negativeTTL == 0 ==> e.ttl == soa.minimum)
  {
    SecondsOf(refresh, 0);
    SecondsOf(retry, 0);
    SecondsOf(expire, 0);
    SecondsOf(minimum, 0);
    NumberOfDecimal(s.generation);
  }

  lemma {:induction false} PickHas(sets: seq<RRset>, owner: Name, types: seq<string>, t: string)
    requires t in types && Find(sets, owner, t).Some?
    ensures Find(sets, owner, t).value in Pick(sets, owner, types)
    decreases |types|
  {
    var n := |types| - 1;
    if types[n] != t { PickHas(sets, owner, types[..n], t); }
  }

  lemma {:induction false} AllRRsHave(es: seq<RRset>, e: RRset, q: Name, k: nat)
    requires e in es && k < |e.data|
    ensures RR(q, e.typ, e.ttl, e.data[k]) in AllRRs(es, q)
    decreases |es|
  {
    if es[0] == e {
      assert RRs(e, q)[k] in RRs(es[0], q);
    } else {
      AllRRsHave(es[1..], e, q, k);
    }
  }

  /** Every RRset at the owner is among those listed there. */
  lemma SetsAtHas(z: Zone, ttl: int, i: nat)
    requires Compiles(z, ttl) && i < |Entries(z, ttl)|
    ensures Entries(z, ttl)[i] in SetsAt(Entries(z, ttl), Entries(z, ttl)[i].owner)
  {
    var sets := Entries(z, ttl);
    var e := sets[i];
    FindIs(z, ttl, i);
    assert e.typ in TypesAt(sets, e.owner);
    PickHas(sets, e.owner, Listing(TypesAt(sets, e.owner)), e.typ);
  }

  /** ANY gives every record at the name, and at the apex the SOA. */
  lemma AnyHasAll(z: Zone, ttl: int, s: Settings, i: nat, k: nat)
    requires Compiles(z, ttl) && i < |Entries(z, ttl)| && k < |Entries(z, ttl)[i].data|
    ensures var e := Entries(z, ttl)[i]; var r := InZoneAnswer(z, ttl, s, e.owner, "ANY");
            && r.rcode == NoError && !r.fallthrough && RR(e.owner, e.typ, e.ttl, e.data[k]) in r.answers
            && (z.soa.Some? && e.owner == z.origin ==> RRs(SoaSet(z.soa.value, z.origin, s), z.origin)[0] in r.answers)
  {
    var e, sets := Entries(z, ttl)[i], Entries(z, ttl);
    var soa := SoaAt(z.soa, z.origin, s, e.owner);
    var all := soa + SetsAt(sets, e.owner);
    EntryExists(z, ttl, i);
    SetsAtHas(z, ttl, i);
    assert e in all && Coded(z, sets, s, e.owner, "ANY") == Matched(all, None);
    OneLookup(z, ttl, s, e.owner, "ANY");
    AllRRsHave(all, e, e.owner, k);
    MatchAnswers(z, s, "ANY", all, None, e.owner);
    if soa != [] {
      assert soa[0] in all;
      AllRRsHave(all, soa[0], e.owner, 0);
    }
  }

  lemma AnyMatch(z: Zone, sets: seq<RRset>, s: Settings, q: Name)
    requires InZone(q, z.origin) && q != z.origin && !Exists(sets, z.origin, q)
    requires var wc := Source(sets, z.origin, q); Exists(sets, z.origin, wc) && SetsAt(sets, wc) != []
    ensures var wc := Source(sets, z.origin, q);
            Coded(z, sets, s, q, "ANY") == Matched(SetsAt(sets, wc), Some(wc))
  {
    var all := SetsAt(sets, Source(sets, z.origin, q));
    assert [] + all == all;
  }

  /** The same for a name that the wildcard covers. */
  lemma AnyHasAllSynthesized(z: Zone, ttl: int, s: Settings, i: nat, k: nat, q: Name)
    requires Compiles(z, ttl) && i < |Entries(z, ttl)| && k < |Entries(z, ttl)[i].data|
    requires InZone(q, z.origin) && q != z.origin && !Exists(Entries(z, ttl), z.origin, q)
    requires Entries(z, ttl)[i].owner == ["*"] + Encloser(Entries(z, ttl), z.origin, q)
    ensures var e := Entries(z, ttl)[i]; var r := InZoneAnswer(z, ttl, s, q, "ANY");
            r.rcode == NoError && !r.fallthrough && RR(q, e.typ, e.ttl, e.data[k]) in r.answers
  {
    var e, sets := Entries(z, ttl)[i], Entries(z, ttl);
    var all := SetsAt(sets, e.owner);
    EntryExists(z, ttl, i);
    SetsAtHas(z, ttl, i);
    AnyMatch(z, sets, s, q);
    OneLookup(z, ttl, s, q, "ANY");
    AllRRsHave(all, e, q, k);
    MatchAnswers(z, s, "ANY", all, Some(e.owner), q);
  }

  // ---------------------------------------------------------------- CNAMEs

  /** Beyond what they had before, two results are the same. */
  ghost predicate Alike(r: Answer, had: seq<RR>, r2: Answer, had2: seq<RR>) {
    && had <= r.answers && had2 <= r2.answers && r.answers[|had|..] == r2.answers[|had2|..]
    && r.rcode == r2.rcode && r.fallthrough == r2.fallthrough && r.authority == r2.authority && r.aa == r2.aa
  }

  lemma TurnsAlike(x: Apex, s: Settings, t: string, o: Outcome, current: Name, depth: nat, tr: Trail, depth2: nat,
                   tr2: Trail)
    requires !o.Alias?
    ensures var a, b := Take(x, s, t, o, current, depth, tr), Take(x, s, t, o, current, depth2, tr2);
            a.Done? && b.Done? && Alike(a.r, tr.answers, b.r, tr2.answers)
  {
    if o.Matched? {
      MatchAlike(x, s, t, o, current, depth, tr, depth2, tr2);
    } else {
      MissAlike(x, s, if o.Missing? then NoError else NXDomain, Extend(tr, o, current, t), Extend(tr2, o, current, t));
    }
  }

  lemma MatchAlike(x: Apex, s: Settings, t: string, o: Outcome, current: Name, depth: nat, tr: Trail, depth2: nat,
                   tr2: Trail)
    requires o.Matched?
    ensures var a, b := Take(x, s, t, o, current, depth, tr), Take(x, s, t, o, current, depth2, tr2);
            a.Done? && b.Done? && Alike(a.r, tr.answers, b.r, tr2.answers)
  {
    var rrs := AllRRs(o.sets, current);
    assert (tr.answers + rrs)[|tr.answers|..] == rrs && (tr2.answers + rrs)[|tr2.answers|..] == rrs;
  }

  /** A miss keeps the answers and adds none. */
  lemma MissKeeps(x: Apex, s: Settings, rcode: RCode, tr: Trail)
    ensures var r := Miss(x, s, rcode, tr);
            && r.answers == tr.answers && (r.fallthrough <==> x.mode == Overlay)
            && r.rcode == (if x.mode == Overlay then NoError else rcode)
            && r.authority == (if x.mode == Overlay then [] else SoaRRs(x, s)) && (r.aa <==> x.mode != Overlay)
  {
  }

  lemma MissAlike(x: Apex, s: Settings, rcode: RCode, tr: Trail, tr2: Trail)
    ensures Alike(Miss(x, s, rcode, tr), tr.answers, Miss(x, s, rcode, tr2), tr2.answers)
  {
    MissKeeps(x, s, rcode, tr);
    MissKeeps(x, s, rcode, tr2);
  }

  lemma DepartsAlike(x: Apex, tr: Trail, tr2: Trail)
    ensures Alike(Departed(x, tr), tr.answers, Departed(x, tr2), tr2.answers)
  {
  }

  /** A CNAME that is followed adds itself. */
  lemma AliasTurn(x: Apex, s: Settings, t: string, o: Outcome, current: Name, depth: nat, tr: Trail)
    requires o.Alias? && o.cname.data != []
    ensures var a := Take(x, s, t, o, current, depth, tr);
            if depth + 1 > MaxDepth(s) then a == Done(Failed(x.id, Some(x.mode)))
            else a.Follow? && a.next == Target(o.cname) && a.tr.answers == tr.answers + RRs(o.cname, current)
  {
  }

  /** Two walks from one name, whatever they have met so far, find the same. */
  lemma {:induction false} WalksAgree(v: View, s: Settings, t: string, current: Name, seen: set<Name>, depth: nat,
                                      tr: Trail, seen2: set<Name>, depth2: nat, tr2: Trail)
    requires SingleTargets(v) && depth <= MaxDepth(s) && depth2 <= MaxDepth(s)
    requires Walk(v, s, t, current, seen, depth, tr).rcode != ServFail
    requires Walk(v, s, t, current, seen2, depth2, tr2).rcode != ServFail
    ensures Alike(Walk(v, s, t, current, seen, depth, tr), tr.answers,
                  Walk(v, s, t, current, seen2, depth2, tr2), tr2.answers)
    decreases MaxDepth(s) - depth
  {
    if !InZone(current, v.apex.name) {
      DepartsAlike(v.apex, tr, tr2);
      return;
    }
    var o := v.look(current);
    WalkFollows(v, s, t, current, seen, depth, tr);
    WalkFollows(v, s, t, current, seen2, depth2, tr2);
    if !o.Alias? {
      TurnsAlike(v.apex, s, t, o, current, depth, tr, depth2, tr2);
    } else {
      assert SingleTarget(o.cname);
      AliasTurn(v.apex, s, t, o, current, depth, tr);
      AliasTurn(v.apex, s, t, o, current, depth2, tr2);
      var a, b := Take(v.apex, s, t, o, current, depth, tr), Take(v.apex, s, t, o, current, depth2, tr2);
      WalksAgree(v, s, t, a.next, seen + {current}, depth + 1, a.tr, seen2 + {current}, depth2 + 1, b.tr);
      Extended(tr.answers, RRs(o.cname, current), Walk(v, s, t, current, seen, depth, tr).answers);
      Extended(tr2.answers, RRs(o.cname, current), Walk(v, s, t, current, seen2, depth2, tr2).answers);
    }
  }

  lemma Extended<T>(a: seq<T>, b: seq<T>, c: seq<T>)
    requires a + b <= c
    ensures a <= c && c[|a|..] == b + c[|a| + |b|..]
  {
  }

  lemma CnameIsAlone(sets: seq<RRset>, i: nat, t: string)
    requires NoClash(sets) && i < |sets| && sets[i].typ == "CNAME" && t != "CNAME"
    ensures Find(sets, sets[i].owner, t).None?
  {
    var f := Find(sets, sets[i].owner, t);
    if f.Some? {
      var j :| 0 <= j < |sets| && sets[j] == f.value;
      Beside(sets, i, j);
    }
  }

  lemma Beside(sets: seq<RRset>, i: nat, j: nat)
    requires NoClash(sets) && i < |sets| && j < |sets| && sets[i].typ == "CNAME" && sets[j].owner == sets[i].owner
    ensures j == i
  {
  }

  lemma AliasStarts(z: Zone, ttl: int, s: Settings, t: string, i: nat)
    requires Compiles(z, ttl) && i < |Entries(z, ttl)| && Entries(z, ttl)[i].typ == "CNAME"
    requires t != "CNAME" && !Special(z, Entries(z, ttl)[i].owner, t)
    ensures var e := Entries(z, ttl)[i];
            && Coded(z, Entries(z, ttl), s, e.owner, t) == Alias(e, None) && e.data == [Host(Target(e))]
            && InZone(e.owner, z.origin)
  {
    var e, sets := Entries(z, ttl)[i], Entries(z, ttl);
    FindIs(z, ttl, i);
    EntryExists(z, ttl, i);
    CnameIsSingle(z, ttl, e.owner);
    assert SingleTarget(e);
    CnameIsAlone(sets, i, t);
    Loops.AliasFound(z, sets, s, e.owner, t);
  }

  /** Unless the chain is too long, a CNAME is answered first and then whatever its target is answered with. */
  lemma CnameHandsOver(z: Zone, ttl: int, s: Settings, t: string, i: nat)
    requires Compiles(z, ttl) && i < |Entries(z, ttl)| && Entries(z, ttl)[i].typ == "CNAME"
    requires t != "CNAME" && !Special(z, Entries(z, ttl)[i].owner, t)
    requires InZoneAnswer(z, ttl, s, Entries(z, ttl)[i].owner, t).rcode != ServFail
    ensures var e := Entries(z, ttl)[i];
            var r, r2 := InZoneAnswer(z, ttl, s, e.owner, t), InZoneAnswer(z, ttl, s, Target(e), t);
            && r2.rcode != ServFail && r.answers == [RR(e.owner, "CNAME", e.ttl, Host(Target(e)))] + r2.answers
            && r.rcode == r2.rcode && r.fallthrough == r2.fallthrough && r.authority == r2.authority && r.aa == r2.aa
  {
    var e, v := Entries(z, ttl)[i], ViewOf(z, ttl, s, t);
    AliasStarts(z, ttl, s, t, i);
    TargetAnswers(z, ttl, s, t, e.owner);
    CompiledHasSingleTargets(z, ttl, s, t);
    AliasWalk(v, s, t, e.owner, e);
  }

  lemma AliasWalk(v: View, s: Settings, t: string, q: Name, c: RRset)
    requires SingleTargets(v) && InZone(q, v.apex.name) && v.look(q) == Alias(c, None)
    requires Walk(v, s, t, q, {}, 0, Start()).rcode != ServFail
    requires Walk(v, s, t, Target(c), {}, 0, Start()).rcode != ServFail
    ensures var r, r2 := Walk(v, s, t, q, {}, 0, Start()), Walk(v, s, t, Target(c), {}, 0, Start());
            && r.answers == [RR(q, "CNAME", c.ttl, Host(Target(c)))] + r2.answers
            && r.rcode == r2.rcode && r.fallthrough == r2.fallthrough && r.authority == r2.authority && r.aa == r2.aa
  {
    assert SingleTarget(c);
    WalkFollows(v, s, t, q, {}, 0, Start());
    AliasTurn(v.apex, s, t, v.look(q), q, 0, Start());
    var a := Take(v.apex, s, t, v.look(q), q, 0, Start());
    var one := [RR(q, "CNAME", c.ttl, Host(Target(c)))];
    assert a.tr.answers == one;
    WalksAgree(v, s, t, Target(c), {} + {q}, 1, a.tr, {}, 0, Start());
    AlikeFrom(Walk(v, s, t, Target(c), {} + {q}, 1, a.tr), one, Walk(v, s, t, Target(c), {}, 0, Start()));
  }

  lemma AlikeFrom(r: Answer, had: seq<RR>, r2: Answer)
    requires Alike(r, had, r2, [])
    ensures r.answers == had + r2.answers
  {
    assert r2.answers[0..] == r2.answers;
  }

  /** A chain that is short enough from a name is so from its target. */
  lemma TargetAnswers(z: Zone, ttl: int, s: Settings, t: string, q: Name)
    requires Compiles(z, ttl) && InZone(q, z.origin) && ViewOf(z, ttl, s, t).look(q).Alias?
    requires InZoneAnswer(z, ttl, s, q, t).rcode != ServFail
    ensures InZoneAnswer(z, ttl, s, Target(ViewOf(z, ttl, s, t).look(q).cname), t).rcode != ServFail
  {
    var v := ViewOf(z, ttl, s, t);
    var next := Target(v.look(q).cname);
    Loops.ServfailExactly(z, ttl, s, q, t);
    Loops.ServfailExactly(z, ttl, s, next, t);
    if Loops.Chain(v, next, MaxDepth(s) + 1) { Loops.ChainShorter(v, next, MaxDepth(s), MaxDepth(s) + 1); }
  }

  /** Every record answered is a CNAME of the chain or of the type asked for. */
  ghost predicate OfType(rrs: seq<RR>, t: string) {
    forall i :: 0 <= i < |rrs| ==> rrs[i].typ == "CNAME" || rrs[i].typ == t
  }

  lemma LookupHasType(z: Zone, sets: seq<RRset>, s: Settings, n: Name, t: string)
    requires InZone(n, z.origin) && t != "ANY"
    ensures var o := Coded(z, sets, s, n, t);
            (o.Matched? ==> |o.sets| == 1 && o.sets[0].typ == t) && (o.Alias? ==> o.cname.typ == "CNAME")
  {
    if Exists(sets, z.origin, n) {
      OwnerHasType(z, sets, s, n, None, t);
    } else {
      var wc := Source(sets, z.origin, n);
      OwnerHasType(z, sets, s, wc, Some(wc), t);
    }
  }

  lemma OwnerHasType(z: Zone, sets: seq<RRset>, s: Settings, owner: Name, source: Option<Name>, t: string)
    requires t != "ANY"
    ensures var o := AtOwner(z, sets, s, owner, source, t);
            (o.Matched? ==> |o.sets| == 1 && o.sets[0].typ == t) && (o.Alias? ==> o.cname.typ == "CNAME")
  {
  }

  lemma {:induction false} WalkHasType(v: View, s: Settings, t: string, current: Name, seen: set<Name>, depth: nat,
                                       tr: Trail)
    requires depth <= MaxDepth(s) && OfType(tr.answers, t)
    requires forall n :: InZone(n, v.apex.name) && v.look(n).Matched? ==>
               |v.look(n).sets| == 1 && v.look(n).sets[0].typ == t
    requires forall n :: InZone(n, v.apex.name) && v.look(n).Alias? ==> v.look(n).cname.typ == "CNAME"
    ensures OfType(Walk(v, s, t, current, seen, depth, tr).answers, t)
    decreases MaxDepth(s) - depth
  {
    if current !in seen && InZone(current, v.apex.name) {
      var o := v.look(current);
      if o.Matched? { OneSet(o.sets[0], current); assert o.sets == [o.sets[0]]; }
      var turn := Take(v.apex, s, t, o, current, depth, tr);
      if turn.Follow? { WalkHasType(v, s, t, turn.next, seen + {current}, depth + 1, turn.tr); }
    }
  }

  lemma AnswersHaveType(z: Zone, ttl: int, s: Settings, q: Name, t: string)
    requires t != "ANY"
    ensures OfType(InZoneAnswer(z, ttl, s, q, t).answers, t)
  {
    var v := ViewOf(z, ttl, s, t);
    forall n | InZone(n, z.origin)
      ensures var o := v.look(n);
              (o.Matched? ==> |o.sets| == 1 && o.sets[0].typ == t) && (o.Alias? ==> o.cname.typ == "CNAME")
    {
      LookupHasType(z, Entries(z, ttl), s, n, t);
    }
    WalkHasType(v, s, t, q, {}, 0, Start());
  }

  // ---------------------------------------------------------------- from the configuration

  /** The data of a configured record: its values, or the presentation of its generic RDATA. */
  function DataOf(r: Configured): seq<RData> {
    if r.generic.Some? then [r.generic.value.presentation] else r.values
  }

  /** A configured record is answered with its own data and TTL, in the order configured. */
  lemma ConfiguredIsAnswered(z: Zone, ttl: int, s: Settings, i: nat)
    requires Compiles(z, ttl) && i < |z.records| && z.records[i].owner.Some?
    requires z.records[i].typ != "" && !Special(z, z.records[i].owner.value, Upper(z.records[i].typ))
    ensures var c := z.records[i];
            var r := InZoneAnswer(z, ttl, s, c.owner.value, Upper(c.typ));
            && r.rcode == NoError && !r.fallthrough && |r.answers| == |DataOf(c)|
            && forall k :: 0 <= k < |r.answers| ==> r.answers[k] == RR(c.owner.value, Upper(c.typ), c.ttl, DataOf(c)[k])
  {
    var n := |NameserverSets(z, ttl)| + i;
    EntryOfRecord(z, ttl, i);
    assert Entries(z, ttl)[n] == ToRRset(Derived(z.records[i]));
    DataIsAnswered(z, ttl, s, n);
  }

  /** The zone's nameservers are its NS records, in the order configured. */
  lemma NameserversAreAnswered(z: Zone, ttl: int, s: Settings)
    requires Compiles(z, ttl) && z.nameservers != []
    ensures var r := InZoneAnswer(z, ttl, s, z.origin, "NS");
            && r.rcode == NoError && !r.fallthrough && |r.answers| == |z.nameservers|
            && forall k :: 0 <= k < |r.answers| ==> r.answers[k] == RR(z.origin, "NS", ttl, Host(z.nameservers[k]))
  {
    assert Entries(z, ttl)[0] == NameserverSets(z, ttl)[0];
    DataIsAnswered(z, ttl, s, 0);
  }
}
