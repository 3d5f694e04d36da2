/** Zone compilation: from a record list to an existence set and exact and wildcard maps
    (internal/resolver/compile.go, internal/snapshot/zone_index.go). Owners and targets are
    names already made canonical. */
module Zones {
  import opened Text
  import opened Names

  datatype Mode = Authoritative | Overlay

  /** Record data in presentation form. NoData is the empty string; SOA fields are in seconds. */
  datatype RData = NoData | Host(n: Name) | Plain(s: string)
                 | SoaData(primary: string, administrator: string, serial: string,
                           refresh: int, retry: int, expire: int, minimum: int)

  datatype RRset = RRset(id: string, owner: Name, typ: string, ttl: int, data: seq<RData>)

  /** Durations are in nanoseconds. */
  datatype Soa = Soa(primary: string, administrator: string, serial: string,
                     refresh: int, retry: int, expire: int, minimum: int)

  /** RDATA in the generic form: a type code and a presentation. */
  datatype Generic = Generic(code: nat, presentation: RData)

  /** A record as configured. `owner` is None when the text is blank, `typ` is "" when not given. */
  datatype Configured = Configured(id: string, owner: Option<Name>, typ: string, generic: Option<Generic>, ttl: int,
                                   values: seq<RData>)

  /** A record with its type and data derived; `code` is the generic type code. */
  datatype Record = Record(id: string, owner: Option<Name>, typ: string, code: Option<nat>, ttl: int, data: seq<RData>)

  datatype Zone = Zone(id: string, origin: Name, mode: Mode, soa: Option<Soa>, nameservers: seq<Name>,
                       records: seq<Configured>)

  type Sets = map<Name, map<string, RRset>>

  datatype ZoneData = ZoneData(id: string, name: Name, mode: Mode, soa: Option<Soa>,
                               exist: set<Name>, rrsets: Sets, wildcards: Sets)

  function Get(m: Sets, owner: Name, typ: string): Option<RRset> {
    if owner in m && typ in m[owner] then Some(m[owner][typ]) else None
  }

  /** Store one RRset under its owner and type. */
  function Put(m: Sets, rr: RRset): (r: Sets)
    ensures forall o, t :: Get(r, o, t) == if o == rr.owner && t == rr.typ then Some(rr) else Get(m, o, t)
  {
    var byType := if rr.owner in m then m[rr.owner] else map[];
    m[rr.owner := byType[rr.typ := rr]]
  }

  predicate IsWildcardOwner(n: Name) {
    n != [] && n[0] == "*"
  }

  predicate IsDNAME(typ: string, code: Option<nat>) {
    typ == "DNAME" || typ == "TYPE39" || code == Some(39)
  }

  /** The first lines of compileRecord: the type in upper case, or TYPEnnn for generic RDATA without a
      type, and the generic presentation in place of the values. */
  function Derived(r: Configured): Record {
    match r.generic
    case None => Record(r.id, r.owner, Upper(r.typ), None, r.ttl, r.values)
    case Some(g) =>
      var typ := if r.typ == "" then "TYPE" + Decimal(g.code) else Upper(r.typ);
      Record(r.id, r.owner, typ, Some(g.code), r.ttl, [g.presentation])
  }

  /** The zone's records with types and data derived. */
  function Records(z: Zone): (rs: seq<Record>)
    ensures |rs| == |z.records| && forall i :: 0 <= i < |rs| ==> rs[i] == Derived(z.records[i])
  {
    seq(|z.records|, i requires 0 <= i < |z.records| => Derived(z.records[i]))
  }

  // ---------------------------------------------------------------- the zone as a list of RRsets

  function OwnerOf(r: Record): Name {
    if r.owner.Some? then r.owner.value else []
  }

  function ToRRset(r: Record): RRset {
    RRset(r.id, OwnerOf(r), r.typ, r.ttl, r.data)
  }

  function RecordSets(rs: seq<Record>): (sets: seq<RRset>)
    ensures |sets| == |rs| && forall i :: 0 <= i < |rs| ==> sets[i] == ToRRset(rs[i])
  {
    seq(|rs|, i requires 0 <= i < |rs| => ToRRset(rs[i]))
  }

  function NameserverSets(z: Zone, defaultTTL: int): seq<RRset> {
    var hosts := seq(|z.nameservers|, i requires 0 <= i < |z.nameservers| => Host(z.nameservers[i]));
    if z.nameservers == [] then [] else [RRset("", z.origin, "NS", defaultTTL, hosts)]
  }

  /** Every RRset the zone configures, in the order compileZone adds them. */
  function Entries(z: Zone, defaultTTL: int): seq<RRset> {
    NameserverSets(z, defaultTTL) + RecordSets(Records(z))
  }

  /** The RRset configured at an owner and type, if any. */
  function Find(sets: seq<RRset>, owner: Name, typ: string): (r: Option<RRset>)
    ensures r.Some? ==> r.value in sets && r.value.owner == owner && r.value.typ == typ
    ensures r.None? ==> forall i :: 0 <= i < |sets| ==> sets[i].owner != owner || sets[i].typ != typ
  {
    if sets == [] then None
    else
      var last := |sets| - 1;
      if sets[last].owner == owner && sets[last].typ == typ then Some(sets[last])
      else Find(sets[..last], owner, typ)
  }

  /** Section 2.2 of RFC 4592: a name exists when it owns records or has a descendant that does. */
  ghost predicate Exists(sets: seq<RRset>, origin: Name, n: Name) {
    InZone(n, origin) && (n == origin || exists i :: 0 <= i < |sets| && InZone(sets[i].owner, n))
  }

  /** The record on its own is acceptable. */
  predicate RecordOk(z: Zone, r: Record) {
    && r.owner.Some? && InZone(r.owner.value, z.origin) && r.typ != ""
    && !(IsWildcardOwner(r.owner.value) && (r.typ == "NS" || IsDNAME(r.typ, r.code)))
    && !(r.typ == "CNAME" && z.mode == Authoritative && r.owner.value == z.origin)
    && !(r.typ == "SOA" && r.owner.value == z.origin && z.soa.Some?)
    && (r.typ == "CNAME" ==> |r.data| == 1 && r.data[0].Host?)
  }

  /** Two RRsets cannot share an owner and type, nor a CNAME its owner with anything. */
  predicate Compatible(a: RRset, b: RRset) {
    a.owner == b.owner ==> a.typ != b.typ && a.typ != "CNAME" && b.typ != "CNAME"
  }

  ghost predicate NoClash(sets: seq<RRset>) {
    forall i, j :: 0 <= i < j < |sets| ==> Compatible(sets[i], sets[j])
  }

  /** What compileZone accepts. */
  ghost predicate Compiles(z: Zone, defaultTTL: int) {
    && (forall i :: 0 <= i < |Records(z)| ==> RecordOk(z, Records(z)[i]))
    && NoClash(Entries(z, defaultTTL))
  }

  /** The compiled maps hold the listed RRsets and no others; an owner in a map has some RRset. */
  ghost predicate Holds(zd: ZoneData, sets: seq<RRset>) {
    && (forall n :: n in zd.exist <==> Exists(sets, zd.name, n))
    && (forall o, t :: Get(zd.rrsets, o, t) == Find(sets, o, t))
    && (forall o, t :: o != zd.name ==>
          Get(zd.wildcards, o, t) == if IsWildcardOwner(o) then Find(sets, o, t) else None)
  }

  ghost predicate Represents(zd: ZoneData, z: Zone, defaultTTL: int) {
    && zd.id == z.id && zd.name == z.origin && zd.mode == z.mode && zd.soa == z.soa
    && Holds(zd, Entries(z, defaultTTL))
  }

  // ---------------------------------------------------------------- compilation

  /** markExist: the name and every ancestor up to the apex. */
  method MarkExist(exist: set<Name>, apex: Name, name: Name) returns (marked: set<Name>)
    requires InZone(name, apex)
    ensures forall n :: n in marked <==> n in exist || (InZone(name, n) && InZone(n, apex))
  {
    marked := exist;
    var cur := name;
    while true
      invariant InZone(name, cur) && InZone(cur, apex)
      invariant forall n :: n in marked <==> n in exist || (InZone(name, n) && |cur| < |n|)
      decreases |cur|
    {
      marked := marked + {cur};
      assert forall n :: InZone(name, n) && |n| == |cur| ==> n == cur;
      if cur == apex || cur == [] {
        break;
      }
      assert name[|name| - (|cur| - 1)..] == cur[1..];
      assert cur[1..][|cur| - 1 - |apex|..] == apex;
      cur := cur[1..];
    }
    forall n ensures n in marked <==> n in exist || (InZone(name, n) && InZone(n, apex)) {
      if InZone(name, n) && |apex| <= |n| {
        assert n[|n| - |apex|..] == name[|name| - |apex|..];
      }
    }
  }

  /** addRRset: false on a duplicate RRset or a CNAME next to other data. */
  method AddRRset(zd: ZoneData, rr: RRset, wild: bool, ghost sets: seq<RRset>) returns (ok: bool, out: ZoneData)
    requires Holds(zd, sets) && InZone(rr.owner, zd.name)
    requires rr.owner != zd.name ==> (wild <==> IsWildcardOwner(rr.owner))
    ensures ok <==> forall i :: 0 <= i < |sets| ==> Compatible(sets[i], rr)
    ensures ok ==> Holds(out, sets + [rr])
    ensures ok ==> out == zd.(exist := out.exist, rrsets := out.rrsets, wildcards := out.wildcards)
  {
    var marked := MarkExist(zd.exist, zd.name, rr.owner);
    var byType := if rr.owner in zd.rrsets then zd.rrsets[rr.owner] else map[];
    ok := rr.typ !in byType && !(rr.typ == "CNAME" && byType != map[]) && !(rr.typ != "CNAME" && "CNAME" in byType);
    out := zd;
    CompatibleByType(zd.rrsets, sets, rr);
    if ok {
      out := zd.(exist := marked, rrsets := Put(zd.rrsets, rr),
                 wildcards := if wild then Put(zd.wildcards, rr) else zd.wildcards);
      HoldsOneMore(zd, out, sets, rr, wild);
    }
  }

  lemma CompatibleByType(m: Sets, sets: seq<RRset>, rr: RRset)
    requires forall o, t :: Get(m, o, t) == Find(sets, o, t)
    ensures var byType := if rr.owner in m then m[rr.owner] else map[];
            (rr.typ !in byType && !(rr.typ == "CNAME" && byType != map[]) && !(rr.typ != "CNAME" && "CNAME" in byType))
            <==> forall i :: 0 <= i < |sets| ==> Compatible(sets[i], rr)
  {
    var byType := if rr.owner in m then m[rr.owner] else map[];
    forall i | 0 <= i < |sets| && sets[i].owner == rr.owner ensures sets[i].typ in byType {
      assert Get(m, rr.owner, sets[i].typ) == Find(sets, rr.owner, sets[i].typ);
    }
    forall t | t in byType ensures exists i :: 0 <= i < |sets| && sets[i].owner == rr.owner && sets[i].typ == t {
      assert Get(m, rr.owner, t) == Find(sets, rr.owner, t);
    }
    if byType != map[] { var t :| t in byType; }
  }

  lemma FindOneMore(sets: seq<RRset>, rr: RRset, o: Name, t: string)
    ensures Find(sets + [rr], o, t) == if rr.owner == o && rr.typ == t then Some(rr) else Find(sets, o, t)
  {
    assert (sets + [rr])[..|sets|] == sets;
  }

  lemma ExistsOneMore(sets: seq<RRset>, rr: RRset, origin: Name, n: Name)
    ensures Exists(sets + [rr], origin, n) <==> Exists(sets, origin, n) || (InZone(n, origin) && InZone(rr.owner, n))
  {
    var more := sets + [rr];
    if InZone(rr.owner, n) { assert more[|sets|] == rr; }
    if i :| 0 <= i < |sets| && InZone(sets[i].owner, n) { assert more[i] == sets[i]; }
  }

  lemma HoldsOneMore(zd: ZoneData, out: ZoneData, sets: seq<RRset>, rr: RRset, wild: bool)
    requires Holds(zd, sets) && out.name == zd.name
    requires rr.owner != zd.name ==> (wild <==> IsWildcardOwner(rr.owner))
    requires forall n :: n in out.exist <==> n in zd.exist || (InZone(rr.owner, n) && InZone(n, zd.name))
    requires forall o, t :: Get(out.rrsets, o, t) ==
               if o == rr.owner && t == rr.typ then Some(rr) else Get(zd.rrsets, o, t)
    requires forall o, t :: Get(out.wildcards, o, t) ==
               if wild && o == rr.owner && t == rr.typ then Some(rr) else Get(zd.wildcards, o, t)
    ensures Holds(out, sets + [rr])
  {
    forall n ensures n in out.exist <==> Exists(sets + [rr], out.name, n) { ExistsOneMore(sets, rr, zd.name, n); }
    forall o, t ensures Get(out.rrsets, o, t) == Find(sets + [rr], o, t) { FindOneMore(sets, rr, o, t); }
    forall o, t | o != out.name
      ensures Get(out.wildcards, o, t) == if IsWildcardOwner(o) then Find(sets + [rr], o, t) else None
    {
      FindOneMore(sets, rr, o, t);
    }
  }

  /** What a record contributes to loop detection: its owner and its target, if it is a CNAME. */
  function AliasOf(r: Record): Option<(Name, Name)> {
    if r.typ == "CNAME" && |r.data| == 1 && r.data[0].Host? then Some((OwnerOf(r), r.data[0].n)) else None
  }

  function Aliased(r: Record, cnames: map<Name, Name>): map<Name, Name> {
    match AliasOf(r) case None => cnames case Some(alias) => cnames[alias.0 := alias.1]
  }

  /** The CNAME map the zones contribute to loop detection: owner to target, later wins. */
  function Aliases(rs: seq<Record>, m: map<Name, Name>): map<Name, Name> {
    if rs == [] then m else Aliased(rs[|rs| - 1], Aliases(rs[..|rs| - 1], m))
  }

  /** Without a type, generic RDATA is data of its code: it is no CNAME, whatever the code, and shares
      its owner with any other code. */
  lemma GenericStandsApart(a: Configured, b: Configured)
    requires a.typ == "" && b.typ == "" && a.generic.Some? && b.generic.Some?
    ensures Derived(a).typ != "" && AliasOf(Derived(a)).None?
    ensures var x, y := ToRRset(Derived(a)), ToRRset(Derived(b));
            Compatible(x, y) <==> x.owner != y.owner || a.generic.value.code != b.generic.value.code
  {
    var m, n := a.generic.value.code, b.generic.value.code;
    assert Derived(a).typ[0] == 'T' && Derived(b).typ[0] == 'T';
    if Derived(a).typ == Derived(b).typ {
      assert Decimal(m) == Derived(a).typ[4..] == Derived(b).typ[4..] == Decimal(n);
      DecimalInjective(m, n);
    }
  }

  /** Only a record with neither a type nor generic RDATA lacks one, and letter case does not matter. */
  lemma TypeIsDerived(r: Configured, typ: string)
    ensures Derived(r).typ == "" <==> r.typ == "" && r.generic.None?
    ensures Upper(typ) == Upper(r.typ) ==> Derived(r.(typ := typ)) == Derived(r)
  {
  }

  /** What makes a record unacceptable, as configured. */
  ghost predicate Faulty(z: Zone, r: Configured) {
    || r.owner.None? || !InZone(r.owner.value, z.origin) || (r.typ == "" && r.generic.None?)
    || (IsWildcardOwner(r.owner.value) &&
        (Upper(r.typ) in {"NS", "DNAME", "TYPE39"} || (r.generic.Some? && r.generic.value.code == 39)))
    || (Upper(r.typ) == "CNAME" && r.owner.value == z.origin && z.mode == Authoritative)
    || (Upper(r.typ) == "SOA" && r.owner.value == z.origin && z.soa.Some?)
    || (Upper(r.typ) == "CNAME" && r.generic.None? && !(|r.values| == 1 && r.values[0].Host?))
    || (Upper(r.typ) == "CNAME" && r.generic.Some? && !r.generic.value.presentation.Host?)
  }

  /** Two records of a zone that exclude each other: the same type at one owner, or a CNAME beside another. */
  ghost predicate Excludes(a: Configured, b: Configured) {
    a.owner == b.owner &&
    (Derived(a).typ == Derived(b).typ || Upper(a.typ) == "CNAME" || Upper(b.typ) == "CNAME")
  }

  lemma FaultyIsRefused(z: Zone, r: Configured)
    ensures Faulty(z, r) <==> !RecordOk(z, Derived(r))
  {
    TypeIsDerived(r, r.typ);
    if r.generic.Some? && r.typ == "" {
      GenericStandsApart(r, r);
      assert Derived(r).typ[0] == 'T' && Derived(r).typ == "TYPE" + Decimal(r.generic.value.code);
      if Derived(r).typ == "TYPE39" {
        assert Decimal(r.generic.value.code) == Derived(r).typ[4..] == "39" == Decimal(39);
        DecimalInjective(r.generic.value.code, 39);
      }
    }
  }

  ghost predicate NoneFaulty(z: Zone) {
    forall i :: 0 <= i < |z.records| ==> !Faulty(z, z.records[i])
  }

  ghost predicate NoneExcluded(z: Zone) {
    forall i, j :: 0 <= i < j < |z.records| ==> !Excludes(z.records[i], z.records[j])
  }

  ghost predicate AllOk(z: Zone) {
    forall i :: 0 <= i < |z.records| ==> RecordOk(z, Derived(z.records[i]))
  }

  lemma FaultlessIsOk(z: Zone)
    ensures NoneFaulty(z) <==> AllOk(z)
  {
    forall i | 0 <= i < |z.records| ensures Faulty(z, z.records[i]) <==> !RecordOk(z, Derived(z.records[i])) {
      FaultyIsRefused(z, z.records[i]);
    }
  }

  lemma ApartIsCompatible(z: Zone, sets: seq<RRset>)
    requires AllOk(z) && |sets| == |z.records|
    requires forall i :: 0 <= i < |sets| ==> sets[i] == ToRRset(Derived(z.records[i]))
    ensures NoneExcluded(z) <==> NoClash(sets)
  {
    forall i, j | 0 <= i < j < |sets| ensures Compatible(sets[i], sets[j]) <==> !Excludes(z.records[i], z.records[j]) {
      ExclusionIs(z, z.records[i], z.records[j]);
    }
    if NoClash(sets) {
      forall i, j | 0 <= i < j < |sets| ensures !Excludes(z.records[i], z.records[j]) {
        assert Compatible(sets[i], sets[j]);
      }
    }
  }

  /** A zone without nameservers of its own compiles exactly when no record is faulty and no two exclude
      each other. */
  lemma CompilesExactly(z: Zone, ttl: int)
    requires z.nameservers == []
    ensures Compiles(z, ttl) <==> NoneFaulty(z) && NoneExcluded(z)
  {
    var sets := Entries(z, ttl);
    assert sets == RecordSets(Records(z));
    FaultlessIsOk(z);
    assert AllOk(z) <==> forall i :: 0 <= i < |Records(z)| ==> RecordOk(z, Records(z)[i]);
    if AllOk(z) { ApartIsCompatible(z, sets); }
  }

  lemma ExclusionIs(z: Zone, a: Configured, b: Configured)
    requires RecordOk(z, Derived(a)) && RecordOk(z, Derived(b))
    ensures Compatible(ToRRset(Derived(a)), ToRRset(Derived(b))) <==> !Excludes(a, b)
  {
    if a.generic.Some? && a.typ == "" { GenericStandsApart(a, a); }
    if b.generic.Some? && b.typ == "" { GenericStandsApart(b, b); }
  }

  /** compileRecord: type and data, the checks on one record, then addRRset. */
  method CompileRecord(z: Zone, zd: ZoneData, configured: Configured, cnames: map<Name, Name>, ghost sets: seq<RRset>)
    returns (ok: bool, out: ZoneData, cn: map<Name, Name>)
    requires Holds(zd, sets) && zd.name == z.origin && zd.mode == z.mode && zd.soa == z.soa
    ensures var r := Derived(configured);
            && (ok <==> RecordOk(z, r) && forall i :: 0 <= i < |sets| ==> Compatible(sets[i], ToRRset(r)))
            && (ok ==> Holds(out, sets + [ToRRset(r)]) && cn == Aliased(r, cnames))
    ensures ok ==> out == zd.(exist := out.exist, rrsets := out.rrsets, wildcards := out.wildcards)
  {
    var r := Derived(configured);
    ok := CheckRecord(z, r);
    out, cn := zd, cnames;
    if ok {
      cn := Noted(r, cnames);
      ok, out := AddRRset(zd, ToRRset(r), IsWildcardOwner(r.owner.value), sets);
    }
  }

  /** The checks on one record, in the source's order. */
  method CheckRecord(z: Zone, r: Record) returns (ok: bool)
    ensures ok <==> RecordOk(z, r)
  {
    if r.owner.None? { return false; }
    var owner := r.owner.value;
    if !InZone(owner, z.origin) || r.typ == "" { return false; }
    if IsWildcardOwner(owner) && (r.typ == "NS" || IsDNAME(r.typ, r.code)) { return false; }
    if r.typ == "CNAME" && z.mode == Authoritative && owner == z.origin { return false; }
    if r.typ == "SOA" && owner == z.origin && z.soa.Some? { return false; }
    return r.typ != "CNAME" || (|r.data| == 1 && r.data[0].Host?);
  }

  /** The entry of a CNAME in the map of loop detection. */
  method Noted(r: Record, cnames: map<Name, Name>) returns (cn: map<Name, Name>)
    requires r.owner.Some? && (r.typ == "CNAME" ==> |r.data| == 1 && r.data[0].Host?)
    ensures cn == Aliased(r, cnames)
  {
    cn := if r.typ == "CNAME" then cnames[r.owner.value := r.data[0].n] else cnames;
  }

  lemma NoClashOneMore(sets: seq<RRset>, rr: RRset)
    requires NoClash(sets)
    ensures NoClash(sets + [rr]) <==> forall i :: 0 <= i < |sets| ==> Compatible(sets[i], rr)
  {
    var more := sets + [rr];
    if NoClash(more) {
      forall i | 0 <= i < |sets| ensures Compatible(sets[i], rr) { assert Compatible(more[i], more[|sets|]); }
    }
  }

  lemma NoClashPrefix(a: seq<RRset>, b: seq<RRset>)
    requires NoClash(a + b)
    ensures NoClash(a)
  {
    forall i, j | 0 <= i < j < |a| ensures Compatible(a[i], a[j]) {
      assert Compatible((a + b)[i], (a + b)[j]);
    }
  }

  lemma RecordSetsUpto(rs: seq<Record>, i: nat)
    requires i < |rs|
    ensures RecordSets(rs[..i + 1]) == RecordSets(rs[..i]) + [ToRRset(rs[i])]
    ensures RecordSets(rs) == RecordSets(rs[..i + 1]) + RecordSets(rs[i + 1..])
  {
  }

  /** The empty zone: only the apex exists. */
  method NewZoneData(z: Zone) returns (zd: ZoneData)
    ensures zd.id == z.id && zd.name == z.origin && zd.mode == z.mode && zd.soa == z.soa && Holds(zd, [])
  {
    var root := MarkExist({}, z.origin, z.origin);
    zd := ZoneData(z.id, z.origin, z.mode, z.soa, root, map[], map[]);
    forall n ensures n in zd.exist <==> Exists([], z.origin, n) {}
  }

  /** Zone-level nameservers become an apex NS RRset. */
  method AddNameservers(z: Zone, zd: ZoneData, defaultTTL: int) returns (out: ZoneData)
    requires zd.name == z.origin && Holds(zd, [])
    ensures Holds(out, NameserverSets(z, defaultTTL)) && NoClash(NameserverSets(z, defaultTTL))
    ensures out == zd.(exist := out.exist, rrsets := out.rrsets, wildcards := out.wildcards)
  {
    out := zd;
    if z.nameservers != [] {
      var sets := NameserverSets(z, defaultTTL);
      var ok;
      ok, out := AddRRset(zd, sets[0], false, []);
      assert [] + [sets[0]] == sets;
    }
  }

  lemma Reassociate<T>(a: seq<T>, b: seq<T>, c: seq<T>, d: seq<T>)
    ensures a + ((b + c) + d) == ((a + b) + c) + d
  {
  }

  /** A record that clashes makes the whole list clash. */
  lemma ClashStays(rs: seq<Record>, ns: seq<RRset>, i: nat)
    requires i < |rs| && NoClash(ns + RecordSets(rs))
    ensures NoClash((ns + RecordSets(rs[..i])) + [ToRRset(rs[i])])
  {
    RecordSetsUpto(rs, i);
    Reassociate(ns, RecordSets(rs[..i]), [ToRRset(rs[i])], RecordSets(rs[i + 1..]));
    NoClashPrefix((ns + RecordSets(rs[..i])) + [ToRRset(rs[i])], RecordSets(rs[i + 1..]));
  }

  /** The RRsets and aliases of one more record. */
  lemma OneMoreRecord(rs: seq<Record>, ns: seq<RRset>, cnames: map<Name, Name>, i: nat)
    requires i < |rs|
    ensures ns + RecordSets(rs[..i + 1]) == (ns + RecordSets(rs[..i])) + [ToRRset(rs[i])]
    ensures Aliases(rs[..i + 1], cnames) == Aliased(rs[i], Aliases(rs[..i], cnames))
  {
    RecordSetsUpto(rs, i);
    assert rs[..i + 1][..i] == rs[..i] && rs[..i + 1][i] == rs[i];
  }

  /** A record that is refused makes the zone one that does not compile. */
  lemma Refused(z: Zone, defaultTTL: int, i: nat)
    requires i < |Records(z)|
    requires RecordOk(z, Records(z)[i]) ==>
               exists k :: 0 <= k < |NameserverSets(z, defaultTTL) + RecordSets(Records(z)[..i])| &&
                 !Compatible((NameserverSets(z, defaultTTL) + RecordSets(Records(z)[..i]))[k], ToRRset(Records(z)[i]))
    ensures !Compiles(z, defaultTTL)
  {
    var ns := NameserverSets(z, defaultTTL);
    if RecordOk(z, Records(z)[i]) && NoClash(ns + RecordSets(Records(z))) {
      ClashStays(Records(z), ns, i);
      var sets := ns + RecordSets(Records(z)[..i]);
      NoClashPrefix(sets, [ToRRset(Records(z)[i])]);
      NoClashOneMore(sets, ToRRset(Records(z)[i]));
    }
  }

  /** The state of compileZone after the first `i` records. */
  ghost predicate Compiled(z: Zone, defaultTTL: int, i: nat, zd: ZoneData)
    requires i <= |Records(z)|
  {
    var sets := NameserverSets(z, defaultTTL) + RecordSets(Records(z)[..i]);
    && zd.id == z.id && zd.name == z.origin && zd.mode == z.mode && zd.soa == z.soa
    && Holds(zd, sets) && NoClash(sets)
    && forall j :: 0 <= j < i ==> RecordOk(z, Records(z)[j])
  }

  /** One turn of compileZone's loop. */
  method CompileNext(z: Zone, defaultTTL: int, zd: ZoneData, r: Configured, cnames: map<Name, Name>,
                     ghost before: map<Name, Name>, ghost i: nat)
    returns (ok: bool, out: ZoneData, cn: map<Name, Name>)
    requires i < |z.records| && r == z.records[i] && Compiled(z, defaultTTL, i, zd)
    requires cnames == Aliases(Records(z)[..i], before)
    ensures ok ==> Compiled(z, defaultTTL, i + 1, out) && cn == Aliases(Records(z)[..i + 1], before)
    ensures !ok ==> !Compiles(z, defaultTTL)
  {
    ghost var ns := NameserverSets(z, defaultTTL);
    ghost var sets := ns + RecordSets(Records(z)[..i]);
    ok, out, cn := CompileRecord(z, zd, r, cnames, sets);
    OneMoreRecord(Records(z), ns, before, i);
    NoClashOneMore(sets, ToRRset(Records(z)[i]));
    if !ok {
      Refused(z, defaultTTL, i);
    }
  }

  /** compileZone: accepts exactly the zones that satisfy `Compiles`, and then represents them. */
  method CompileZone(z: Zone, defaultTTL: int, cnames: map<Name, Name>)
    returns (ok: bool, zd: ZoneData, cn: map<Name, Name>)
    ensures ok <==> Compiles(z, defaultTTL)
    ensures ok ==> Represents(zd, z, defaultTTL) && cn == Aliases(Records(z), cnames)
  {
    cn := cnames;
    zd := NewZoneData(z);
    zd := AddNameservers(z, zd, defaultTTL);
    assert NameserverSets(z, defaultTTL) + RecordSets(Records(z)[..0]) == NameserverSets(z, defaultTTL);
    for i := 0 to |z.records|
      invariant Compiled(z, defaultTTL, i, zd) && cn == Aliases(Records(z)[..i], cnames)
    {
      ok, zd, cn := CompileNext(z, defaultTTL, zd, z.records[i], cn, cnames, i);
      if !ok {
        return;
      }
    }
    assert Records(z)[..|Records(z)|] == Records(z);
    ok := true;
  }
}
