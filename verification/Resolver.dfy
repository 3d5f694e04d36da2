/** The resolver loop: one lookup after another along a CNAME chain, and the result it builds
    (internal/resolver/resolve.go:38-111, 228-420). */
module Resolver {
  import opened Text
  import opened Names
  import opened Zones
  import opened Lookup
  import ZoneIndex

  datatype RCode = NoError | ServFail | NXDomain | Refused | OtherRCode(name: string)

  datatype Origin = NoOrigin | FromExact | FromWildcard | FromNegative | FromFallthrough | FromCache | FromUpstream

  datatype RR = RR(name: Name, typ: string, ttl: int, data: RData)

  datatype Answer = Answer(rcode: RCode, answers: seq<RR>, authority: seq<RR>, additional: seq<RR>,
                           aa: bool, ra: bool, source: Origin, zoneID: string, mode: Option<Mode>,
                           wildcardSource: Option<string>, encloser: Option<Name>,
                           fallthrough: bool, forwardingID: string)

  /** The part of a zone that results mention. */
  datatype Apex = Apex(id: string, name: Name, mode: Mode, soa: Option<Soa>)

  /** What the loop accumulates. */
  datatype Trail = Trail(answers: seq<RR>, source: Origin, wildID: Option<string>, encl: Option<Name>)

  function ApexOf(z: Zone): Apex {
    Apex(z.id, z.origin, z.mode, z.soa)
  }

  function Start(): Trail {
    Trail([], FromExact, None, None)
  }

  function RRs(rrset: RRset, owner: Name): (rrs: seq<RR>)
    ensures |rrs| == |rrset.data|
    ensures forall i :: 0 <= i < |rrs| ==> rrs[i] == RR(owner, rrset.typ, rrset.ttl, rrset.data[i])
  {
    seq(|rrset.data|, i requires 0 <= i < |rrset.data| => RR(owner, rrset.typ, rrset.ttl, rrset.data[i]))
  }

  function AllRRs(sets: seq<RRset>, owner: Name): (rrs: seq<RR>)
    ensures forall i :: 0 <= i < |rrs| ==> rrs[i].name == owner
  {
    if sets == [] then [] else RRs(sets[0], owner) + AllRRs(sets[1..], owner)
  }

  // ---------------------------------------------------------------- result builders

  function Base(id: string, mode: Option<Mode>): Answer {
    Answer(NoError, [], [], [], false, false, NoOrigin, id, mode, None, None, false, "")
  }

  function Fallthrough(id: string, mode: Option<Mode>): Answer {
    Base(id, mode).(source := FromFallthrough, fallthrough := true)
  }

  function Failed(id: string, mode: Option<Mode>): Answer {
    Base(id, mode).(rcode := ServFail)
  }

  function Positive(x: Apex, tr: Trail): Answer {
    Base(x.id, Some(x.mode)).(answers := tr.answers, source := tr.source, wildcardSource := tr.wildID,
                              encloser := tr.encl, aa := x.mode == Authoritative)
  }

  function SoaRRs(x: Apex, s: Settings): seq<RR> {
    if x.soa.Some? then RRs(SoaSet(x.soa.value, x.name, s), x.name) else []
  }

  function Negative(x: Apex, s: Settings, rcode: RCode, tr: Trail): Answer {
    Base(x.id, Some(x.mode)).(rcode := rcode, source := FromNegative, aa := true, wildcardSource := tr.wildID,
                              encloser := tr.encl, authority := SoaRRs(x, s))
  }

  function OverlayFallthrough(x: Apex, tr: Trail): Answer {
    var r := Fallthrough(x.id, Some(x.mode)).(answers := tr.answers);
    if tr.answers == [] then r else r.(source := tr.source, wildcardSource := tr.wildID, encloser := tr.encl)
  }

  /** missExisting and missNonexistent, which differ in the RCODE only. */
  function Miss(x: Apex, s: Settings, rcode: RCode, tr: Trail): Answer {
    if x.mode == Overlay then OverlayFallthrough(x, tr)
    else if tr.answers == [] then Negative(x, s, rcode, tr)
    else Negative(x, s, rcode, tr).(answers := tr.answers, source := tr.source)
  }

  function Departed(x: Apex, tr: Trail): Answer {
    if x.mode == Overlay then OverlayFallthrough(x, tr) else Positive(x, tr)
  }

  // ---------------------------------------------------------------- metadata

  function PtrID(id: string): Option<string> {
    if id == "" then None else Some(id)
  }

  /** Record what a lookup at `current` contributes to answers and metadata. */
  function Extend(tr: Trail, o: Outcome, current: Name, t: string): Trail {
    match o
    case Matched(sets, source) => Synthesized(tr.(answers := tr.answers + AllRRs(sets, current)), source, sets)
    case Alias(cname, source) => Synthesized(tr.(answers := tr.answers + RRs(cname, current)), source, [cname])
    case Missing(source, firstID) =>
      if source.Some? && source.value != [] && tr.answers == []
      then tr.(encl := Some(source.value[1..]), wildID := if firstID == "" then tr.wildID else Some(firstID)) else tr
    case Nonexistent(ce) => if tr.answers == [] && t != "ANY" then tr.(encl := Some(ce)) else tr
  }

  function Synthesized(tr: Trail, source: Option<Name>, sets: seq<RRset>): Trail {
    if source.Some? && source.value != [] && sets != []
    then tr.(source := FromWildcard, wildID := PtrID(sets[0].id), encl := Some(source.value[1..])) else tr
  }

  function Target(cname: RRset): Name {
    if cname.data != [] && cname.data[0].Host? then cname.data[0].n else []
  }

  function MaxDepth(s: Settings): nat {
    if s.cnameDepth <= 0 then 8 else s.cnameDepth
  }

  // ---------------------------------------------------------------- the loop

  /** A zone as the loop sees it: its apex and an outcome for every name (of one query type). */
  datatype View = View(apex: Apex, look: Name -> Outcome)

  datatype Turn = Done(r: Answer) | Follow(next: Name, tr: Trail)

  /** One turn of the loop at a name inside the zone: exactOwner or wildcardOwner, then followCNAME. */
  function Take(x: Apex, s: Settings, t: string, o: Outcome, current: Name, depth: nat, tr: Trail): Turn {
    var tr' := Extend(tr, o, current, t);
    match o
    case Matched(_, _) => Done(Positive(x, tr'))
    case Missing(_, _) => Done(Miss(x, s, NoError, tr'))
    case Nonexistent(_) => Done(Miss(x, s, NXDomain, tr'))
    case Alias(cname, _) =>
      if depth + 1 > MaxDepth(s) then Done(Failed(x.id, Some(x.mode)))
      else if cname.data == [] then Done(Miss(x, s, NoError, tr'))
      else Follow(Target(cname), tr')
  }

  /** resolveInZone over any lookup. */
  function Walk(v: View, s: Settings, t: string, current: Name, seen: set<Name>, depth: nat, tr: Trail): Answer
    requires depth <= MaxDepth(s)
    decreases MaxDepth(s) - depth
  {
    if current in seen then Failed(v.apex.id, Some(v.apex.mode))
    else if !InZone(current, v.apex.name) then Departed(v.apex, tr)
    else
      match Take(v.apex, s, t, v.look(current), current, depth, tr)
      case Done(r) => r
      case Follow(next, tr') => Walk(v, s, t, next, seen + {current}, depth + 1, tr')
  }

  /** The lookups of a zone over its configured records. */
  ghost function ViewOf(z: Zone, ttl: int, s: Settings, t: string): View {
    View(ApexOf(z), n => if InZone(n, z.origin) then Coded(z, Entries(z, ttl), s, n, t) else Nonexistent(z.origin))
  }

  /** The answer of a zone for a name inside it. */
  ghost function InZoneAnswer(z: Zone, ttl: int, s: Settings, qname: Name, t: string): Answer {
    Walk(ViewOf(z, ttl, s, t), s, t, qname, {}, 0, Start())
  }

  /** One lookup, as the view gives it. */
  method Look(zd: ZoneData, s: Settings, current: Name, t: string, ghost z: Zone, ghost ttl: int) returns (o: Outcome)
    requires Represents(zd, z, ttl) && InZone(current, z.origin)
    ensures o == ViewOf(z, ttl, s, t).look(current)
  {
    o := LookupStep(zd, s, current, t, z, ttl);
  }

  /** One turn on the compiled zone. */
  method TakeTurn(zd: ZoneData, s: Settings, t: string, current: Name, depth: nat, tr: Trail, ghost z: Zone,
                  ghost ttl: int) returns (turn: Turn)
    requires Represents(zd, z, ttl) && InZone(current, z.origin)
    ensures turn == Take(ApexOf(z), s, t, ViewOf(z, ttl, s, t).look(current), current, depth, tr)
  {
    var o := Look(zd, s, current, t, z, ttl);
    turn := Take(Apex(zd.id, zd.name, zd.mode, zd.soa), s, t, o, current, depth, tr);
  }

  lemma WalkFollows(v: View, s: Settings, t: string, current: Name, seen: set<Name>, depth: nat, tr: Trail)
    requires depth <= MaxDepth(s) && current !in seen && InZone(current, v.apex.name)
    ensures match Take(v.apex, s, t, v.look(current), current, depth, tr)
            case Done(r) => Walk(v, s, t, current, seen, depth, tr) == r
            case Follow(next, tr') =>
              && depth < MaxDepth(s)
              && Walk(v, s, t, current, seen, depth, tr) == Walk(v, s, t, next, seen + {current}, depth + 1, tr')
  {
  }

  /** resolveInZone on the compiled zone. */
  method ResolveInZone(zd: ZoneData, s: Settings, qname: Name, t: string, ghost z: Zone, ghost ttl: int)
    returns (r: Answer)
    requires Represents(zd, z, ttl)
    ensures r == InZoneAnswer(z, ttl, s, qname, t)
  {
    ghost var v := ViewOf(z, ttl, s, t);
    r := RunLoop(zd, s, qname, t, v, InZoneAnswer(z, ttl, s, qname, t), z, ttl);
  }

  method RunLoop(zd: ZoneData, s: Settings, qname: Name, t: string, ghost v: View, ghost goal: Answer, ghost z: Zone,
                 ghost ttl: int) returns (r: Answer)
    requires Represents(zd, z, ttl) && v == ViewOf(z, ttl, s, t)
    requires Walk(v, s, t, qname, {}, 0, Start()) == goal
    ensures r == goal
  {
    var maxDepth := MaxDepth(s);
    var tr := Start();
    var current := qname;
    var seen: set<Name> := {};
    var depth: nat := 0;
    while true
      invariant depth <= maxDepth
      invariant Walk(v, s, t, current, seen, depth, tr) == goal
      decreases maxDepth - depth
    {
      if current in seen {
        return Failed(zd.id, Some(zd.mode));
      }
      if !InZone(current, zd.name) {
        return Departed(Apex(zd.id, zd.name, zd.mode, zd.soa), tr);
      }
      WalkFollows(v, s, t, current, seen, depth, tr);
      seen := seen + {current};
      var turn := TakeTurn(zd, s, t, current, depth, tr, z, ttl);
      match turn
      case Done(done) => return done;
      case Follow(next, longer) => current, depth, tr := next, depth + 1, longer;
    }
  }

  // ---------------------------------------------------------------- what a result can be

  /** An overlay zone never answers with authority: no AA, no NXDOMAIN, no authority section. */
  lemma {:induction false} OverlayIsTransparent(v: View, s: Settings, t: string, current: Name, seen: set<Name>,
                                                depth: nat, tr: Trail)
    requires depth <= MaxDepth(s) && v.apex.mode == Overlay
    ensures var r := Walk(v, s, t, current, seen, depth, tr);
            !r.aa && r.rcode in {NoError, ServFail} && r.authority == [] && (r.fallthrough ==> r.rcode == NoError)
    decreases MaxDepth(s) - depth
  {
    if current !in seen && InZone(current, v.apex.name) {
      var turn := Take(v.apex, s, t, v.look(current), current, depth, tr);
      if turn.Follow? { OverlayIsTransparent(v, s, t, turn.next, seen + {current}, depth + 1, turn.tr); }
    }
  }

  /** An authoritative zone never falls through, and is AA on everything but SERVFAIL. */
  lemma {:induction false} AuthoritativeIsFinal(v: View, s: Settings, t: string, current: Name, seen: set<Name>,
                                                depth: nat, tr: Trail)
    requires depth <= MaxDepth(s) && v.apex.mode == Authoritative
    ensures var r := Walk(v, s, t, current, seen, depth, tr);
            !r.fallthrough && r.rcode in {NoError, NXDomain, ServFail} && (r.aa <==> r.rcode != ServFail)
    decreases MaxDepth(s) - depth
  {
    if current !in seen && InZone(current, v.apex.name) {
      var turn := Take(v.apex, s, t, v.look(current), current, depth, tr);
      if turn.Follow? { AuthoritativeIsFinal(v, s, t, turn.next, seen + {current}, depth + 1, turn.tr); }
    }
  }

  // ---------------------------------------------------------------- the chain

  /** The lookup at `n` is a CNAME to `next`. */
  predicate AliasTo(v: View, n: Name, next: Name) {
    InZone(n, v.apex.name) && v.look(n).Alias? && Target(v.look(n).cname) == next
  }

  /** `path` visits distinct names, each the target of the CNAME found at the one before. */
  ghost predicate Follows(v: View, path: seq<Name>) {
    && (forall i, j :: 0 <= i < j < |path| ==> path[i] != path[j])
    && forall i :: 0 <= i < |path| - 1 ==> AliasTo(v, path[i], path[i + 1])
  }

  /** The first answers are exactly the CNAMEs along the path; the rest belong to its last name. */
  ghost predicate Chained(path: seq<Name>, answers: seq<RR>) {
    && path != [] && |path| - 1 <= |answers|
    && (forall i :: 0 <= i < |path| - 1 ==> answers[i].name == path[i] && answers[i].typ == "CNAME")
    && (forall i :: 0 <= i < |path| - 1 ==> answers[i].data == Host(path[i + 1]))
    && (forall i :: |path| - 1 <= i < |answers| ==> answers[i].name == path[|path| - 1])
  }

  /** What a non-SERVFAIL result says about the last name of its path. */
  ghost predicate Concludes(v: View, s: Settings, last: Name, own: seq<RR>, r: Answer) {
    var mode := v.apex.mode;
    if !InZone(last, v.apex.name) then
      own == [] && r.rcode == NoError && (r.fallthrough <==> mode == Overlay) && r.authority == []
    else
      var o := v.look(last);
      && !o.Alias?
      && own == (if o.Matched? then AllRRs(o.sets, last) else [])
      && r.rcode == (if o.Nonexistent? && mode == Authoritative then NXDomain else NoError)
      && (r.fallthrough <==> !o.Matched? && mode == Overlay)
      && r.authority == (if !o.Matched? && mode == Authoritative then SoaRRs(v.apex, s) else [])
  }

  /** Why a result is SERVFAIL: too many CNAMEs, or a CNAME back into the path. */
  ghost predicate Stuck(v: View, s: Settings, path: seq<Name>) {
    && path != [] && InZone(path[|path| - 1], v.apex.name) && v.look(path[|path| - 1]).Alias?
    && (|path| > MaxDepth(s) || Target(v.look(path[|path| - 1]).cname) in path)
  }

  ghost predicate Resolution(v: View, s: Settings, path: seq<Name>, r: Answer) {
    && Follows(v, path) && 1 <= |path| <= MaxDepth(s) + 1
    && if r.rcode == ServFail then Stuck(v, s, path) && r.answers == []
       else Chained(path, r.answers) && Concludes(v, s, path[|path| - 1], r.answers[|path| - 1..], r)
  }

  /** Every alias the lookup reports is one CNAME to one host name. */
  ghost predicate SingleTargets(v: View) {
    forall n :: InZone(n, v.apex.name) && v.look(n).Alias? ==> SingleTarget(v.look(n).cname)
  }

  predicate SingleTarget(c: RRset) {
    c.typ == "CNAME" && |c.data| == 1 && c.data[0] == Host(Target(c))
  }

  lemma EntryOfRecord(z: Zone, ttl: int, j: nat)
    requires j < |Records(z)|
    ensures |Entries(z, ttl)| == |NameserverSets(z, ttl)| + |Records(z)|
    ensures Entries(z, ttl)[|NameserverSets(z, ttl)| + j] == ToRRset(Records(z)[j])
  {
  }

  /** A CNAME RRset of the zone comes from a record, not from the nameservers. */
  lemma CnameHasRecord(z: Zone, ttl: int, n: Name) returns (i: nat)
    requires Compiles(z, ttl) && Find(Entries(z, ttl), n, "CNAME").Some?
    ensures i < |Records(z)| && ToRRset(Records(z)[i]) == Find(Entries(z, ttl), n, "CNAME").value
  {
    i := FoundIsRecord(NameserverSets(z, ttl), Records(z), n);
  }

  lemma FoundIsRecord(ns: seq<RRset>, rs: seq<Record>, n: Name) returns (i: nat)
    requires Find(ns + RecordSets(rs), n, "CNAME").Some? && forall j :: 0 <= j < |ns| ==> ns[j].typ == "NS"
    ensures i < |rs| && ToRRset(rs[i]) == Find(ns + RecordSets(rs), n, "CNAME").value
  {
    var c := Find(ns + RecordSets(rs), n, "CNAME").value;
    var at :| 0 <= at < |ns + RecordSets(rs)| && (ns + RecordSets(rs))[at] == c;
    assert forall j :: 0 <= j < |ns| ==> (ns + RecordSets(rs))[j] == ns[j];
    i := at - |ns|;
    assert c == RecordSets(rs)[i];
  }

  lemma CnameIsSingle(z: Zone, ttl: int, owner: Name)
    requires Compiles(z, ttl) && Find(Entries(z, ttl), owner, "CNAME").Some?
    ensures SingleTarget(Find(Entries(z, ttl), owner, "CNAME").value)
  {
    var i := CnameHasRecord(z, ttl, owner);
    assert RecordOk(z, Records(z)[i]);
  }

  lemma AliasAtOwner(z: Zone, sets: seq<RRset>, s: Settings, owner: Name, source: Option<Name>, t: string)
    requires AtOwner(z, sets, s, owner, source, t).Alias?
    ensures Find(sets, owner, "CNAME") == Some(AtOwner(z, sets, s, owner, source, t).cname)
  {
  }

  /** An alias outcome carries the CNAME RRset configured at some owner. */
  lemma AliasIsConfigured(z: Zone, sets: seq<RRset>, s: Settings, n: Name, t: string)
    requires InZone(n, z.origin) && Coded(z, sets, s, n, t).Alias?
    ensures exists owner :: Find(sets, owner, "CNAME") == Some(Coded(z, sets, s, n, t).cname)
  {
    if Exists(sets, z.origin, n) {
      AliasAtOwner(z, sets, s, n, None, t);
    } else {
      var wc := Source(sets, z.origin, n);
      AliasAtOwner(z, sets, s, wc, Some(wc), t);
    }
  }

  lemma CompiledHasSingleTargets(z: Zone, ttl: int, s: Settings, t: string)
    requires Compiles(z, ttl)
    ensures SingleTargets(ViewOf(z, ttl, s, t))
  {
    var v := ViewOf(z, ttl, s, t);
    forall n | InZone(n, v.apex.name) && v.look(n).Alias? ensures SingleTarget(v.look(n).cname) {
      AliasIsConfigured(z, Entries(z, ttl), s, n, t);
      var owner :| Find(Entries(z, ttl), owner, "CNAME") == Some(v.look(n).cname);
      CnameIsSingle(z, ttl, owner);
    }
  }

  /** The loop's state between two turns: `path` are the names already left. */
  ghost predicate OnTrack(v: View, s: Settings, path: seq<Name>, tr: Trail, current: Name) {
    && |path| == |tr.answers| <= MaxDepth(s)
    && Follows(v, path + [current])
    && Chained(path + [current], tr.answers)
  }

  lemma TrackNext(v: View, s: Settings, t: string, path: seq<Name>, tr: Trail, current: Name)
    requires SingleTargets(v) && OnTrack(v, s, path, tr, current) && |path| < MaxDepth(s)
    requires InZone(current, v.apex.name) && v.look(current).Alias?
    requires Target(v.look(current).cname) !in path + [current]
    ensures OnTrack(v, s, path + [current], Extend(tr, v.look(current), current, t), Target(v.look(current).cname))
  {
    var next := Target(v.look(current).cname);
    var whole, longer := path + [current], path + [current] + [next];
    assert SingleTarget(v.look(current).cname);
    assert AliasTo(v, current, next);
    forall i | 0 <= i < |longer| - 1 ensures AliasTo(v, longer[i], longer[i + 1]) {
      if i < |whole| - 1 { assert AliasTo(v, whole[i], whole[i + 1]); }
    }
    var answers := Extend(tr, v.look(current), current, t).answers;
    assert answers == tr.answers + [RR(current, "CNAME", v.look(current).cname.ttl, Host(next))];
    forall i | 0 <= i < |longer| - 1 ensures answers[i].data == Host(longer[i + 1]) {
      if i < |whole| - 1 { assert answers[i].data == Host(whole[i + 1]); }
    }
  }

  /** The last turn: a result that is not SERVFAIL. */
  lemma Finishes(v: View, s: Settings, path: seq<Name>, tr: Trail, current: Name, r: Answer, own: seq<RR>)
    requires OnTrack(v, s, path, tr, current)
    requires r.rcode != ServFail && r.answers == tr.answers + own
    requires forall i :: 0 <= i < |own| ==> own[i].name == current
    requires Concludes(v, s, current, own, r)
    ensures Resolution(v, s, path + [current], r)
  {
    assert r.answers[|path + [current]| - 1..] == own;
  }

  /** A turn that is not an alias concludes with the answers of its own name. */
  lemma TakeConcludes(v: View, s: Settings, t: string, tr: Trail, current: Name, depth: nat)
    requires InZone(current, v.apex.name) && !v.look(current).Alias?
    ensures var o := v.look(current); var turn := Take(v.apex, s, t, o, current, depth, tr);
            && turn.Done? && turn.r.rcode != ServFail
            && turn.r.answers == tr.answers + (if o.Matched? then AllRRs(o.sets, current) else [])
            && Concludes(v, s, current, if o.Matched? then AllRRs(o.sets, current) else [], turn.r)
  {
  }

  /** An alias that is too deep, or that leads back into the path. */
  lemma AliasFails(v: View, s: Settings, t: string, path: seq<Name>, tr: Trail, current: Name, seen: set<Name>)
    requires OnTrack(v, s, path, tr, current) && current !in seen && seen + {current} == (set n | n in path + [current])
    requires InZone(current, v.apex.name) && v.look(current).Alias? && SingleTarget(v.look(current).cname)
    requires |path| == MaxDepth(s) || Target(v.look(current).cname) in path + [current]
    ensures Resolution(v, s, path + [current], Walk(v, s, t, current, seen, |path|, tr))
  {
    assert (path + [current])[|path|] == current;
    assert Walk(v, s, t, current, seen, |path|, tr) == Failed(v.apex.id, Some(v.apex.mode));
  }

  lemma Unseen(v: View, path: seq<Name>, current: Name)
    requires Follows(v, path + [current])
    ensures current !in path
  {
    var whole := path + [current];
    assert forall i :: 0 <= i < |path| ==> whole[i] == path[i];
    assert whole[|path|] == current;
  }

  lemma {:induction false} WalkIsResolution(v: View, s: Settings, t: string, path: seq<Name>, tr: Trail, current: Name)
    returns (whole: seq<Name>)
    requires SingleTargets(v) && OnTrack(v, s, path, tr, current)
    ensures Resolution(v, s, whole, Walk(v, s, t, current, (set n | n in path), |path|, tr))
    ensures path + [current] <= whole
    decreases MaxDepth(s) - |path|
  {
    var seen := set n | n in path;
    var r := Walk(v, s, t, current, seen, |path|, tr);
    whole := path + [current];
    Unseen(v, path, current);
    if !InZone(current, v.apex.name) {
      Finishes(v, s, path, tr, current, r, []);
      return;
    }
    var o := v.look(current);
    if !o.Alias? {
      TakeConcludes(v, s, t, tr, current, |path|);
      Finishes(v, s, path, tr, current, r, if o.Matched? then AllRRs(o.sets, current) else []);
      return;
    }
    var next := Target(o.cname);
    assert SingleTarget(o.cname);
    assert (set n | n in whole) == seen + {current};
    if |path| == MaxDepth(s) || next in whole {
      AliasFails(v, s, t, path, tr, current, seen);
    } else {
      TrackNext(v, s, t, path, tr, current);
      whole := WalkIsResolution(v, s, t, whole, Extend(tr, o, current, t), next);
    }
  }

  /** For every zone that compiles and every question, the result is a CNAME chain that starts at
      QNAME, visits distinct names, follows at most MaxDepth CNAMEs, and concludes as its last name
      deserves; SERVFAIL only for a loop or a chain that is too long. */
  lemma ResultIsChain(z: Zone, ttl: int, s: Settings, qname: Name, t: string)
    requires Compiles(z, ttl)
    ensures exists path: seq<Name> :: path != [] && path[0] == qname &&
              Resolution(ViewOf(z, ttl, s, t), s, path, InZoneAnswer(z, ttl, s, qname, t))
  {
    CompiledHasSingleTargets(z, ttl, s, t);
    var none: seq<Name> := [];
    assert (set n | n in none) == {};
    var path := WalkIsResolution(ViewOf(z, ttl, s, t), s, t, none, Start(), qname);
    assert path[0] == (none + [qname])[0];
  }

  // ---------------------------------------------------------------- a question to a selected zone

  function ZoneByID(zs: seq<Zone>, id: string): (r: Option<Zone>)
    ensures r.Some? ==> r.value in zs && r.value.id == id
    ensures r.None? ==> forall i :: 0 <= i < |zs| ==> zs[i].id != id
  {
    if zs == [] then None else if zs[0].id == id then Some(zs[0]) else ZoneByID(zs[1..], id)
  }

  /** What Resolve answers; an unknown zone is the error case. */
  ghost function Resolved(zs: seq<Zone>, ttl: int, s: Settings, qname: Name, t: string,
                          zoneID: string): Result<Answer, Answer>
  {
    if zoneID == "" then Ok(Fallthrough("", None))
    else
      match ZoneByID(zs, zoneID)
      case None => Err(Failed(zoneID, None))
      case Some(z) =>
        if !InZone(qname, z.origin) then Ok(Fallthrough(z.id, Some(z.mode))) else Ok(InZoneAnswer(z, ttl, s, qname, t))
  }

  /** Resolve over the index that Compile built. */
  method Resolve(idx: map<string, ZoneData>, s: Settings, qname: Name, t: string, zoneID: string, ghost zs: seq<Zone>,
                 ghost ttl: int)
    returns (r: Result<Answer, Answer>)
    requires ZoneIndex.AllRepresented(zs, |zs|, ttl, idx) && ZoneIndex.OnlyZones(zs, idx)
    ensures r == Resolved(zs, ttl, s, qname, t, zoneID)
  {
    if zoneID == "" {
      return Ok(Fallthrough("", None));
    }
    if zoneID !in idx {
      return Err(Failed(zoneID, None));
    }
    var zd := idx[zoneID];
    ghost var z := ZoneByID(zs, zoneID).value;
    ghost var i :| 0 <= i < |zs| && zs[i] == z;
    assert Represents(idx[zs[i].id], z, ttl);
    if !InZone(qname, zd.name) {
      return Ok(Fallthrough(zd.id, Some(zd.mode)));
    }
    var a := ResolveInZone(zd, s, qname, t, z, ttl);
    return Ok(a);
  }

  /** Every answer of a zone: overlay zones are transparent, authoritative zones are final for the
      names they contain. */
  lemma ModeDecides(z: Zone, ttl: int, s: Settings, qname: Name, t: string)
    ensures var r := InZoneAnswer(z, ttl, s, qname, t);
            && (z.mode == Overlay ==> !r.aa && r.rcode in {NoError, ServFail} && r.authority == [])
            && (z.mode == Authoritative ==> !r.fallthrough && (r.aa <==> r.rcode != ServFail))
  {
    var v := ViewOf(z, ttl, s, t);
    if z.mode == Overlay {
      OverlayIsTransparent(v, s, t, qname, {}, 0, Start());
    } else {
      AuthoritativeIsFinal(v, s, t, qname, {}, 0, Start());
    }
  }
}
