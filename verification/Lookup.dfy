/** One lookup step, twice: declared over the configured records, and computed from the
    compiled maps (internal/resolver/resolve.go:113-226, internal/snapshot/zone_index.go:84-190).

    The declaration is section 4.3.2 of RFC 1034 with sections 2.2 and 3.3 of RFC 4592:
    an existing name answers for itself; otherwise the wildcard at the closest encloser
    answers, when that wildcard exists; otherwise the name does not exist. Delegations are
    not part of it, because the source treats NS records below the apex as ordinary data. */
module Lookup {
  import opened Text
  import opened Names
  import opened Zones

  /** Query-time settings of the snapshot. */
  datatype Settings = Settings(negativeTTL: int, cnameDepth: int, generation: nat)

  /** `source` is the wildcard owner when the data is synthesized from one; `firstID` is the
      record ID the result reports for a wildcard without the queried type. */
  datatype Outcome =
    | Matched(sets: seq<RRset>, source: Option<Name>)
    | Alias(cname: RRset, source: Option<Name>)
    | Missing(source: Option<Name>, firstID: string)
    | Nonexistent(encloser: Name)

  // ---------------------------------------------------------------- SOA

  const Second: int := 1_000_000_000

  /** Duration to uint32 seconds: division truncates toward zero, the conversion wraps. */
  function Seconds32(d: int): nat {
    (if d >= 0 then d / Second else -(-d / Second)) % 0x1_0000_0000
  }

  /** soaRR: an automatic serial is the snapshot generation, and 1 for generation 0. */
  function SoaSet(soa: Soa, origin: Name, s: Settings): RRset {
    var ttl := if soa.minimum > 0 && (s.negativeTTL == 0 || soa.minimum < s.negativeTTL)
               then soa.minimum else s.negativeTTL;
    var serial := if soa.serial == "" || soa.serial == "auto"
                  then (if s.generation == 0 then "1" else Decimal(s.generation)) else soa.serial;
    RRset("", origin, "SOA", ttl, [SoaData(soa.primary, soa.administrator, serial, Seconds32(soa.refresh),
                                           Seconds32(soa.retry), Seconds32(soa.expire), Seconds32(soa.minimum))])
  }

  /** soaAsRRset: zone-level SOA data answers at the apex only. */
  function SoaAt(soa: Option<Soa>, origin: Name, s: Settings, owner: Name): seq<RRset> {
    if soa.Some? && owner == origin then [SoaSet(soa.value, origin, s)] else []
  }

  // ---------------------------------------------------------------- declared

  ghost function TypesAt(sets: seq<RRset>, owner: Name): set<string> {
    set i | 0 <= i < |sets| && sets[i].owner == owner :: sets[i].typ
  }

  function ToSeq<T>(o: Option<T>): seq<T> {
    if o.Some? then [o.value] else []
  }

  ghost function Pick(sets: seq<RRset>, owner: Name, types: seq<string>): seq<RRset> {
    if types == [] then []
    else Pick(sets, owner, types[..|types| - 1]) + ToSeq(Find(sets, owner, types[|types| - 1]))
  }

  /** Every RRset at an owner, sorted by type. */
  ghost function SetsAt(sets: seq<RRset>, owner: Name): seq<RRset> {
    Pick(sets, owner, Listing(TypesAt(sets, owner)))
  }

  ghost function FirstID(sets: seq<RRset>): string {
    if sets == [] then "" else sets[0].id
  }

  /** `ce` is the longest existing proper ancestor of `n` (section 3.3.1 of RFC 4592). */
  ghost predicate IsEncloser(sets: seq<RRset>, origin: Name, n: Name, ce: Name) {
    && Exists(sets, origin, ce) && InZone(n, ce) && ce != n
    && forall a :: Exists(sets, origin, a) && InZone(n, a) && a != n ==> InZone(ce, a)
  }

  ghost function Encloser(sets: seq<RRset>, origin: Name, n: Name): (ce: Name)
    requires InZone(n, origin) && n != origin
    ensures IsEncloser(sets, origin, n, ce)
    decreases |n|
  {
    var parent := n[1..];
    assert InZone(n, parent) && InZone(parent, origin) by {
      assert n[1..][|n| - 1 - |origin|..] == n[|n| - |origin|..];
    }
    if Exists(sets, origin, parent) then
      assert IsEncloser(sets, origin, n, parent) by { ParentEncloses(sets, origin, n); }
      parent
    else
      var ce := Encloser(sets, origin, parent);
      assert IsEncloser(sets, origin, n, ce) by { EncloserSkips(sets, origin, n, ce); }
      ce
  }

  lemma ProperAncestor(n: Name, a: Name)
    requires n != [] && InZone(n, a) && a != n
    ensures InZone(n[1..], a)
  {
    assert n[0..] == n;
    assert n[1..][|n| - 1 - |a|..] == n[|n| - |a|..];
  }

  lemma ParentEncloses(sets: seq<RRset>, origin: Name, n: Name)
    requires n != [] && Exists(sets, origin, n[1..])
    ensures IsEncloser(sets, origin, n, n[1..])
  {
    forall a | Exists(sets, origin, a) && InZone(n, a) && a != n ensures InZone(n[1..], a) { ProperAncestor(n, a); }
  }

  lemma EncloserSkips(sets: seq<RRset>, origin: Name, n: Name, ce: Name)
    requires n != [] && !Exists(sets, origin, n[1..]) && IsEncloser(sets, origin, n[1..], ce)
    ensures IsEncloser(sets, origin, n, ce)
  {
    assert n[1..][|n| - 1 - |ce|..] == n[|n| - |ce|..];
    forall a | Exists(sets, origin, a) && InZone(n, a) && a != n ensures InZone(ce, a) { ProperAncestor(n, a); }
  }

  /** Data at an existing owner. Zone-level SOA is never synthesized from a wildcard. */
  ghost function AtOwner(z: Zone, sets: seq<RRset>, s: Settings, owner: Name, source: Option<Name>, t: string): Outcome
  {
    var soa := if source.None? then SoaAt(z.soa, z.origin, s, owner) else [];
    var missing := Missing(source, if source.Some? then FirstID(SetsAt(sets, owner)) else "");
    if t == "ANY" then
      (if soa + SetsAt(sets, owner) == [] then missing else Matched(soa + SetsAt(sets, owner), source))
    else if t == "SOA" && soa != [] then Matched(soa, source)
    else if Find(sets, owner, t).Some? then Matched([Find(sets, owner, t).value], source)
    else if t != "CNAME" && Find(sets, owner, "CNAME").Some? then Alias(Find(sets, owner, "CNAME").value, source)
    else missing
  }

  ghost function Source(sets: seq<RRset>, origin: Name, n: Name): Name
    requires InZone(n, origin) && n != origin
  {
    ["*"] + Encloser(sets, origin, n)
  }

  /** The lookup of the RFCs over the configured records. */
  ghost function Declared(z: Zone, sets: seq<RRset>, s: Settings, n: Name, t: string): Outcome
    requires InZone(n, z.origin)
  {
    if Exists(sets, z.origin, n) then AtOwner(z, sets, s, n, None, t)
    else
      var wc := Source(sets, z.origin, n);
      if Exists(sets, z.origin, wc) then AtOwner(z, sets, s, wc, Some(wc), t)
      else Nonexistent(Encloser(sets, z.origin, n))
  }

  /** The one place the source departs from the declaration: an ANY query below a wildcard that
      exists only as an empty non-terminal is treated as a name that does not exist. */
  ghost predicate AnyBlind(z: Zone, sets: seq<RRset>, n: Name, t: string)
    requires InZone(n, z.origin)
  {
    && t == "ANY" && !Exists(sets, z.origin, n)
    && Exists(sets, z.origin, Source(sets, z.origin, n)) && SetsAt(sets, Source(sets, z.origin, n)) == []
  }

  /** What the source computes. */
  ghost function Coded(z: Zone, sets: seq<RRset>, s: Settings, n: Name, t: string): Outcome
    requires InZone(n, z.origin)
  {
    if AnyBlind(z, sets, n, t) then Nonexistent(Encloser(sets, z.origin, n)) else Declared(z, sets, s, n, t)
  }

  /** The source agrees with the RFC lookup on a name and type exactly when it is not blind there. */
  lemma CodedAgreesExactly(z: Zone, sets: seq<RRset>, s: Settings, n: Name, t: string)
    requires InZone(n, z.origin)
    ensures Coded(z, sets, s, n, t) == Declared(z, sets, s, n, t) <==> !AnyBlind(z, sets, n, t)
  {
    if AnyBlind(z, sets, n, t) {
      var wc := Source(sets, z.origin, n);
      assert Declared(z, sets, s, n, t) == AtOwner(z, sets, s, wc, Some(wc), t);
      assert [] + SetsAt(sets, wc) == [];
      assert AtOwner(z, sets, s, wc, Some(wc), t).Missing?;
    }
  }

  // ---------------------------------------------------------------- compiled

  lemma TypesOf(m: Sets, sets: seq<RRset>, owner: Name)
    requires forall t :: Get(m, owner, t) == Find(sets, owner, t)
    ensures (if owner in m then m[owner].Keys else {}) == TypesAt(sets, owner)
  {
    var keys := if owner in m then m[owner].Keys else {};
    forall t ensures t in keys <==> t in TypesAt(sets, owner) {
      assert Get(m, owner, t) == Find(sets, owner, t);
    }
  }

  /** AllRRsets and WildcardAll: every RRset at an owner, sorted by type. */
  method AllSets(m: Sets, owner: Name, ghost sets: seq<RRset>) returns (all: seq<RRset>)
    requires forall t :: Get(m, owner, t) == Find(sets, owner, t)
    ensures all == SetsAt(sets, owner)
  {
    TypesOf(m, sets, owner);
    var byType := if owner in m then m[owner] else map[];
    assert byType.Keys == TypesAt(sets, owner);
    var types := SortedIDs(byType.Keys);
    all := [];
    for i := 0 to |types|
      invariant all == Pick(sets, owner, types[..i])
    {
      assert types[i] in byType.Keys && Get(m, owner, types[i]) == Find(sets, owner, types[i]);
      assert types[..i + 1][..i] == types[..i];
      all := all + [byType[types[i]]];
    }
    assert types[..|types|] == types;
  }

  /** ClosestEncloser: climb from the parent until a name exists. */
  method ClosestEncloser(zd: ZoneData, name: Name, ghost sets: seq<RRset>) returns (ce: Name)
    requires Holds(zd, sets) && InZone(name, zd.name) && name != zd.name
    ensures ce == Encloser(sets, zd.name, name)
  {
    assert name[1..][|name| - 1 - |zd.name|..] == name[|name| - |zd.name|..];
    var cur := name[1..];
    ghost var below := name;
    while true
      invariant below != [] && cur == below[1..] && InZone(cur, zd.name) && InZone(below, zd.name) && below != zd.name
      invariant Encloser(sets, zd.name, below) == Encloser(sets, zd.name, name)
      decreases |cur|
    {
      if cur in zd.exist {
        return cur;
      }
      assert cur != zd.name;
      below := cur;
      assert cur[1..][|cur| - 1 - |zd.name|..] == cur[|cur| - |zd.name|..];
      cur := cur[1..];
    }
  }

  /** exactOwner: data at an existing name. */
  method ExactOwner(zd: ZoneData, s: Settings, current: Name, t: string, ghost z: Zone, ghost ttl: int)
    returns (o: Outcome)
    requires Represents(zd, z, ttl)
    ensures o == AtOwner(z, Entries(z, ttl), s, current, None, t)
  {
    ghost var sets := Entries(z, ttl);
    assert forall u :: Get(zd.rrsets, current, u) == Find(sets, current, u);
    var soa := SoaAt(zd.soa, zd.name, s, current);
    if t == "ANY" {
      var all := AllSets(zd.rrsets, current, sets);
      all := soa + all;
      return if all == [] then Missing(None, "") else Matched(all, None);
    }
    if t == "SOA" && soa != [] {
      return Matched(soa, None);
    }
    var rr := Get(zd.rrsets, current, t);
    if rr.Some? {
      return Matched([rr.value], None);
    }
    if t != "CNAME" {
      var alias := Get(zd.rrsets, current, "CNAME");
      if alias.Some? {
        return Alias(alias.value, None);
      }
    }
    return Missing(None, "");
  }

  /** What the wildcard at `wc` gives for a name whose closest encloser is `ce`. */
  ghost function AtWildcard(z: Zone, sets: seq<RRset>, s: Settings, ce: Name, t: string): Outcome {
    var wc := ["*"] + ce;
    if !Exists(sets, z.origin, wc) || (t == "ANY" && SetsAt(sets, wc) == []) then Nonexistent(ce)
    else AtOwner(z, sets, s, wc, Some(wc), t)
  }

  lemma SetsMeanExists(sets: seq<RRset>, origin: Name, owner: Name, t: string)
    requires InZone(owner, origin) && Find(sets, owner, t).Some?
    ensures Exists(sets, origin, owner)
  {
    var rr := Find(sets, owner, t).value;
    var i :| 0 <= i < |sets| && sets[i] == rr;
    assert InZone(sets[i].owner, owner);
  }

  lemma {:induction false} PickedExists(sets: seq<RRset>, origin: Name, owner: Name, types: seq<string>)
    requires InZone(owner, origin) && Pick(sets, owner, types) != []
    ensures Exists(sets, origin, owner)
    decreases |types|
  {
    var t := types[|types| - 1];
    if Find(sets, owner, t).Some? {
      SetsMeanExists(sets, origin, owner, t);
    } else {
      PickedExists(sets, origin, owner, types[..|types| - 1]);
    }
  }

  lemma SourceExists(sets: seq<RRset>, origin: Name, wc: Name)
    requires InZone(wc, origin) && !Exists(sets, origin, wc)
    ensures SetsAt(sets, wc) == [] && forall t :: Find(sets, wc, t) == None
  {
    if SetsAt(sets, wc) != [] { PickedExists(sets, origin, wc, Listing(TypesAt(sets, wc))); }
    forall t ensures Find(sets, wc, t) == None {
      if Find(sets, wc, t).Some? { SetsMeanExists(sets, origin, wc, t); }
    }
  }

  /** AtWildcard without the zone-level SOA case, which cannot apply. */
  lemma AtWildcardCases(z: Zone, sets: seq<RRset>, s: Settings, ce: Name, t: string)
    requires InZone(ce, z.origin)
    ensures var wc := ["*"] + ce; var all := SetsAt(sets, wc);
            AtWildcard(z, sets, s, ce, t) ==
              if t == "ANY" then (if all == [] then Nonexistent(ce) else Matched(all, Some(wc)))
              else if Find(sets, wc, t).Some? then Matched([Find(sets, wc, t).value], Some(wc))
              else if t != "CNAME" && Find(sets, wc, "CNAME").Some? then Alias(Find(sets, wc, "CNAME").value, Some(wc))
              else if Exists(sets, z.origin, wc) || all != [] then Missing(Some(wc), FirstID(all))
              else Nonexistent(ce)
  {
    var wc := ["*"] + ce;
    assert wc[|wc| - |z.origin|..] == ce[|ce| - |z.origin|..];
    if !Exists(sets, z.origin, wc) { SourceExists(sets, z.origin, wc); }
    assert [] + SetsAt(sets, wc) == SetsAt(sets, wc);
  }

  /** wildcardOwner: synthesis for a name that does not exist. */
  method WildcardOwner(zd: ZoneData, s: Settings, ce: Name, t: string, ghost z: Zone, ghost ttl: int)
    returns (o: Outcome)
    requires Represents(zd, z, ttl) && InZone(ce, z.origin)
    ensures o == AtWildcard(z, Entries(z, ttl), s, ce, t)
  {
    ghost var sets := Entries(z, ttl);
    var wc := ["*"] + ce;
    assert forall u :: Get(zd.wildcards, wc, u) == Find(sets, wc, u);
    var all := AllSets(zd.wildcards, wc, sets);
    AtWildcardCases(z, sets, s, ce, t);
    if t == "ANY" {
      return if all == [] then Nonexistent(ce) else Matched(all, Some(wc));
    }
    var rr := Get(zd.wildcards, wc, t);
    if rr.Some? {
      return Matched([rr.value], Some(wc));
    }
    if t != "CNAME" {
      var alias := Get(zd.wildcards, wc, "CNAME");
      if alias.Some? {
        return Alias(alias.value, Some(wc));
      }
    }
    if wc in zd.exist || all != [] {
      return Missing(Some(wc), if all != [] then all[0].id else "");
    }
    return Nonexistent(ce);
  }

  /** One turn of the resolver loop on the compiled zone, for every zone that compiles and every
      name in it: the lookup of the RFCs, except exactly where the source is blind. */
  method LookupStep(zd: ZoneData, s: Settings, current: Name, t: string, ghost z: Zone, ghost ttl: int)
    returns (o: Outcome)
    requires Represents(zd, z, ttl) && InZone(current, z.origin)
    ensures o == Coded(z, Entries(z, ttl), s, current, t)
    ensures o == Declared(z, Entries(z, ttl), s, current, t) <==> !AnyBlind(z, Entries(z, ttl), current, t)
  {
    CodedAgreesExactly(z, Entries(z, ttl), s, current, t);
    if current in zd.exist {
      o := ExactOwner(zd, s, current, t, z, ttl);
    } else {
      var ce := ClosestEncloser(zd, current, Entries(z, ttl));
      o := WildcardOwner(zd, s, ce, t, z, ttl);
    }
  }

  // ---------------------------------------------------------------- the blind spot

  /** One A record at a.*.lab makes *.lab an empty non-terminal. */
  function BlindZone(): Zone {
    Zone("z", ["lab"], Authoritative, Some(Soa("ns.lab.", "admin.lab.", "auto", 0, 0, 0, 0)), [],
         [Configured("r", Some(["a", "*", "lab"]), "A", None, 60, [Plain("192.0.2.1")])])
  }

  function BlindSet(): RRset {
    RRset("r", ["a", "*", "lab"], "A", 60, [Plain("192.0.2.1")])
  }

  lemma BlindEntries()
    ensures Entries(BlindZone(), 300) == [BlindSet()]
  {
    assert Upper("A") == "A";
  }

  lemma BlindNames()
    ensures var sets := [BlindSet()];
            && Exists(sets, ["lab"], ["lab"]) && Exists(sets, ["lab"], ["*", "lab"])
            && !Exists(sets, ["lab"], ["b", "lab"])
            && InZone(["b", "lab"], ["lab"])
  {
    var sets := [BlindSet()];
    assert sets[0].owner[1..] == ["*", "lab"] && sets[0].owner[2..] == ["lab"];
    assert InZone(sets[0].owner, ["*", "lab"]);
    assert ["*", "lab"][1..] == ["lab"] && ["b", "lab"][1..] == ["lab"];
    assert ["*", "lab"][0] != ["b", "lab"][0];
  }

  lemma BlindSource()
    ensures InZone(["b", "lab"], ["lab"])
    ensures Encloser([BlindSet()], ["lab"], ["b", "lab"]) == ["lab"]
    ensures SetsAt([BlindSet()], ["*", "lab"]) == []
  {
    BlindNames();
    assert ["b", "lab"][1..] == ["lab"];
    assert TypesAt([BlindSet()], ["*", "lab"]) == {} by { assert |BlindSet().owner| == 3; }
    EmptyListing(Listing({}), {});
  }

  /** The RFCs give NODATA for ANY at b.lab, because *.lab exists; the source gives NXDOMAIN. */
  lemma BlindAtEmptyWildcard(s: Settings)
    ensures Compiles(BlindZone(), 300) && InZone(["b", "lab"], BlindZone().origin)
    ensures Declared(BlindZone(), Entries(BlindZone(), 300), s, ["b", "lab"], "ANY") == Missing(Some(["*", "lab"]), "")
    ensures Coded(BlindZone(), Entries(BlindZone(), 300), s, ["b", "lab"], "ANY") == Nonexistent(["lab"])
  {
    BlindNames();
    BlindEntries();
    BlindSource();
    assert InZone(["a", "*", "lab"], ["lab"]) by { assert ["a", "*", "lab"][2..] == ["lab"]; }
    assert RecordOk(BlindZone(), Records(BlindZone())[0]);
    assert ["*"] + ["lab"] == ["*", "lab"];
    assert [] + SetsAt([BlindSet()], ["*", "lab"]) == [];
  }
}
