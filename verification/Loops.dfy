/** CNAME loops at query time against the loop check at compile time: exactly when a question runs
    into a loop, and what a zone that passed the check still has to blame
    (internal/resolver/compile.go:139-144, 205-222; internal/resolver/resolve.go:64-111). */
module Loops {
  import opened Text
  import opened Names
  import opened Zones
  import opened ZoneIndex
  import opened Lookup
  import opened Resolver

  /** The record puts `n` into the alias map. */
  predicate AliasAt(r: Record, n: Name) {
    AliasOf(r).Some? && AliasOf(r).value.0 == n
  }

  /** A zone after the k-th has a CNAME at `n`, which replaces that zone's in the alias map. */
  ghost predicate Shadowed(zs: seq<Zone>, k: nat, n: Name) {
    exists m, i :: k < m < |zs| && 0 <= i < |Records(zs[m])| && AliasAt(Records(zs[m])[i], n)
  }

  // ---------------------------------------------------------------- the alias map holds the CNAMEs

  lemma {:induction false} AliasesSkip(rs: seq<Record>, m: map<Name, Name>, n: Name)
    requires forall i :: 0 <= i < |rs| ==> !AliasAt(rs[i], n)
    ensures (n in Aliases(rs, m) <==> n in m) && (n in m ==> Aliases(rs, m)[n] == m[n])
    decreases |rs|
  {
    if rs != [] { AliasesSkip(rs[..|rs| - 1], m, n); }
  }

  lemma {:induction false} AliasesHold(rs: seq<Record>, m: map<Name, Name>, i: nat, n: Name)
    requires i < |rs| && AliasAt(rs[i], n) && forall j :: 0 <= j < |rs| && j != i ==> !AliasAt(rs[j], n)
    ensures n in Aliases(rs, m) && Aliases(rs, m)[n] == AliasOf(rs[i]).value.1
    decreases |rs|
  {
    var last := |rs| - 1;
    var less := rs[..last];
    if i < last {
      assert less[i] == rs[i] && forall j :: 0 <= j < |less| ==> less[j] == rs[j];
      AliasesHold(less, m, i, n);
      assert !AliasAt(rs[last], n);
    }
  }

  /** Later zones keep an alias they do not have themselves. */
  lemma {:induction false} AliasesStay(zs: seq<Zone>, k: nat, n: Name, target: Name)
    requires k < |zs| && !Shadowed(zs, k, n)
    requires forall m :: n in Aliases(Records(zs[k]), m) && Aliases(Records(zs[k]), m)[n] == target
    ensures n in AllAliases(zs) && AllAliases(zs)[n] == target
    decreases |zs|
  {
    var last := |zs| - 1;
    var less := zs[..last];
    if k < last {
      assert !Shadowed(less, k, n) by {
        assert forall m :: 0 <= m < |less| ==> less[m] == zs[m];
      }
      AliasesStay(less, k, n, target);
      AliasesSkip(Records(zs[last]), AllAliases(less), n);
    }
  }

  /** In a zone that compiles a name has at most one CNAME record. */
  lemma OneAlias(z: Zone, ttl: int, i: nat, j: nat, n: Name)
    requires Compiles(z, ttl) && i < j < |Records(z)|
    ensures !(AliasAt(Records(z)[i], n) && AliasAt(Records(z)[j], n))
  {
    var at := |NameserverSets(z, ttl)|;
    EntryOfRecord(z, ttl, i);
    EntryOfRecord(z, ttl, j);
    assert Compatible(Entries(z, ttl)[at + i], Entries(z, ttl)[at + j]);
  }

  /** The one CNAME record behind a configured CNAME RRset. */
  lemma CnameRecord(z: Zone, ttl: int, n: Name) returns (i: nat)
    requires Compiles(z, ttl) && Find(Entries(z, ttl), n, "CNAME").Some?
    ensures i < |Records(z)| && AliasAt(Records(z)[i], n)
    ensures forall j :: 0 <= j < |Records(z)| && j != i ==> !AliasAt(Records(z)[j], n)
    ensures AliasOf(Records(z)[i]).value.1 == Target(Find(Entries(z, ttl), n, "CNAME").value)
  {
    i := CnameHasRecord(z, ttl, n);
    assert RecordOk(z, Records(z)[i]);
    forall j | 0 <= j < |Records(z)| && j != i ensures !AliasAt(Records(z)[j], n) {
      if j < i { OneAlias(z, ttl, j, i, n); } else { OneAlias(z, ttl, i, j, n); }
    }
  }

  /** A CNAME found at its own owner is in the alias map, unless a later zone overrides it. */
  lemma ExactAliasIsMapped(zs: seq<Zone>, ttl: int, k: nat, s: Settings, t: string, n: Name, next: Name)
    requires IndexCompiles(zs, ttl) && k < |zs| && AliasTo(ViewOf(zs[k], ttl, s, t), n, next)
    requires ViewOf(zs[k], ttl, s, t).look(n).source == None && !Shadowed(zs, k, n)
    ensures n in AllAliases(zs) && AllAliases(zs)[n] == next
  {
    var z := zs[k];
    ExactAlias(z, Entries(z, ttl), s, n, t);
    var i := CnameRecord(z, ttl, n);
    forall m ensures n in Aliases(Records(z), m) && Aliases(Records(z), m)[n] == next {
      AliasesHold(Records(z), m, i, n);
    }
    AliasesStay(zs, k, n, next);
  }

  lemma AliasSource(z: Zone, sets: seq<RRset>, s: Settings, owner: Name, source: Option<Name>, t: string)
    requires AtOwner(z, sets, s, owner, source, t).Alias?
    ensures AtOwner(z, sets, s, owner, source, t).source == source
  {
  }

  lemma ExactAlias(z: Zone, sets: seq<RRset>, s: Settings, n: Name, t: string)
    requires InZone(n, z.origin) && Coded(z, sets, s, n, t).Alias? && Coded(z, sets, s, n, t).source == None
    ensures Find(sets, n, "CNAME") == Some(Coded(z, sets, s, n, t).cname)
  {
    if Exists(sets, z.origin, n) {
      AliasAtOwner(z, sets, s, n, None, t);
    } else {
      var wc := Source(sets, z.origin, n);
      AliasSource(z, sets, s, wc, Some(wc), t);
    }
  }

  // ---------------------------------------------------------------- loops of the lookups

  /** A path of CNAMEs whose last one leads back into it. */
  ghost predicate LoopsAt(v: View, path: seq<Name>, next: Name) {
    path != [] && Follows(v, path) && next in path && AliasTo(v, path[|path| - 1], next)
  }

  /** Some question runs into a loop. */
  ghost predicate Looping(v: View) {
    exists path, next :: LoopsAt(v, path, next)
  }

  lemma {:induction false} HopsAlong(m: map<Name, Name>, path: seq<Name>, i: nat, j: nat)
    requires i <= j < |path| && forall k :: i <= k < j ==> path[k] in m && m[path[k]] == path[k + 1]
    ensures Hop(m, path[i], j - i) == Some(path[j])
    decreases j - i
  {
    if i < j { HopsAlong(m, path, i + 1, j); }
  }

  /** A path of the map that leads back to its member `j` is a cycle. */
  lemma LoopIsCycle(m: map<Name, Name>, path: seq<Name>, j: nat)
    requires j < |path| && path[|path| - 1] in m && m[path[|path| - 1]] == path[j]
    requires forall i :: j <= i < |path| - 1 ==> path[i] in m && m[path[i]] == path[i + 1]
    ensures Cyclic(m)
  {
    var last := |path| - 1;
    HopsAlong(m, path, j, last);
    HopSplit(m, path[j], last - j, 1);
    assert Hop(m, path[last], 1) == Hop(m, path[j], 0) == Some(path[j]);
    assert Hop(m, path[j], last - j + 1) == Some(path[j]);
    assert path[j] in m && OnCycle(m, path[j]);
  }

  /** Two equal members of a cycle cut it short. */
  lemma Shortcut(m: map<Name, Name>, n: Name, i: nat, j: nat, k: nat)
    requires i < j < k && Hop(m, n, k) == Some(n) && Hop(m, n, i) == Hop(m, n, j)
    ensures Hop(m, n, k - (j - i)) == Some(n)
  {
    HopPrefix(m, n, j, k);
    HopSplit(m, n, j, k - j);
    HopSplit(m, n, i, k - j);
  }

  /** The names met on `k` hops from `n`. */
  ghost function Visited(m: map<Name, Name>, n: Name, k: nat): (path: seq<Name>)
    requires Hop(m, n, k).Some?
    ensures |path| == k && forall i :: 0 <= i < k ==> Hop(m, n, i) == Some(path[i])
  {
    assert forall i {:trigger Hop(m, n, i)} :: 0 <= i < k ==> Hop(m, n, i).Some? by {
      forall i | 0 <= i < k ensures Hop(m, n, i).Some? { HopPrefix(m, n, i, k); }
    }
    seq(k, i requires 0 <= i < k => Hop(m, n, i).value)
  }

  /** A cycle of a map of aliases is a loop of the lookups. */
  lemma {:induction false} CycleIsLoop(v: View, m: map<Name, Name>, n: Name, k: nat)
    requires k > 0 && Hop(m, n, k) == Some(n)
    requires forall a :: a in m ==> AliasTo(v, a, m[a])
    ensures Looping(v)
    decreases k
  {
    if i, j :| 0 <= i < j < k && Hop(m, n, i) == Hop(m, n, j) {
      Shortcut(m, n, i, j, k);
      CycleIsLoop(v, m, n, k - (j - i));
    } else {
      var path := Visited(m, n, k);
      forall i | 0 <= i < k ensures path[i] in m && m[path[i]] == if i + 1 < k then path[i + 1] else n {
        HopStep(m, n, i, k);
      }
      HopStep(m, n, k - 1, k);
      assert Hop(m, n, 0) == Some(n) && m[path[k - 1]] == n;
      assert AliasTo(v, path[k - 1], m[path[k - 1]]);
      assert LoopsAt(v, path, n);
    }
  }

  lemma HopStep(m: map<Name, Name>, n: Name, i: nat, k: nat)
    requires i < k && Hop(m, n, k).Some?
    ensures Hop(m, n, i).Some? && Hop(m, n, i).value in m && Hop(m, n, i + 1) == Some(m[Hop(m, n, i).value])
  {
    HopPrefix(m, n, i, k);
    HopPrefix(m, n, i + 1, k);
    HopSplit(m, n, i, 1);
    var at := Hop(m, n, i).value;
    assert at in m ==> Hop(m, at, 1) == Hop(m, m[at], 0);
  }

  /** `m` has the aliases among the names `within`, and these take in every target. */
  ghost predicate Charts(v: View, m: map<Name, Name>, within: Name -> bool) {
    && (forall n :: n in m ==> AliasTo(v, n, m[n]))
    && (forall n, next :: AliasTo(v, n, next) ==> within(next) && (within(n) ==> n in m && m[n] == next))
  }

  lemma LoopIffCycle(v: View, m: map<Name, Name>, within: Name -> bool)
    requires Charts(v, m, within)
    ensures Looping(v) <==> Cyclic(m)
  {
    if path, next :| LoopsAt(v, path, next) {
      var j :| 0 <= j < |path| && path[j] == next;
      forall i | j <= i < |path| ensures within(path[i]) {
        if i > j { assert AliasTo(v, path[i - 1], path[i]); }
      }
      forall i | j <= i < |path| - 1 ensures path[i] in m && m[path[i]] == path[i + 1] {
        assert AliasTo(v, path[i], path[i + 1]);
      }
      LoopIsCycle(m, path, j);
    }
    if n :| n in m && OnCycle(m, n) {
      var k: nat :| k > 0 && Hop(m, n, k) == Some(n);
      CycleIsLoop(v, m, n, k);
    }
  }

  // ---------------------------------------------------------------- the exact condition

  /** The CNAME targets of the zone. */
  function Targets(z: Zone): set<Name> {
    Aliases(Records(z), map[]).Values
  }

  /** What the lookup of the zone's own CNAME targets finds: a finite map, known before any query. */
  ghost function TargetMap(z: Zone, ttl: int, s: Settings, t: string): map<Name, Name> {
    var v := ViewOf(z, ttl, s, t);
    map n | n in Targets(z) && InZone(n, z.origin) && v.look(n).Alias? :: Target(v.look(n).cname)
  }

  /** The one CNAME record behind a CNAME RRset is in the zone's alias map. */
  lemma CnameIsMapped(z: Zone, ttl: int, n: Name)
    requires Compiles(z, ttl) && Find(Entries(z, ttl), n, "CNAME").Some?
    ensures var m := Aliases(Records(z), map[]);
            n in m && m[n] == Target(Find(Entries(z, ttl), n, "CNAME").value)
  {
    var i := CnameRecord(z, ttl, n);
    AliasesHold(Records(z), map[], i, n);
  }

  lemma AliasHasTarget(z: Zone, ttl: int, s: Settings, t: string, n: Name, next: Name)
    requires Compiles(z, ttl) && AliasTo(ViewOf(z, ttl, s, t), n, next)
    ensures next in Targets(z)
  {
    AliasIsConfigured(z, Entries(z, ttl), s, n, t);
    var owner :| Find(Entries(z, ttl), owner, "CNAME") == Some(Coded(z, Entries(z, ttl), s, n, t).cname);
    CnameIsMapped(z, ttl, owner);
  }

  /** A zone that compiles has a question of the type that loops exactly when the lookups of its own
      CNAME targets do. */
  lemma LoopingExactly(z: Zone, ttl: int, s: Settings, t: string)
    requires Compiles(z, ttl)
    ensures Looping(ViewOf(z, ttl, s, t)) <==> Cyclic(TargetMap(z, ttl, s, t))
  {
    var v, m := ViewOf(z, ttl, s, t), TargetMap(z, ttl, s, t);
    forall n, next | AliasTo(v, n, next) ensures next in Targets(z) { AliasHasTarget(z, ttl, s, t, n, next); }
    LoopIffCycle(v, m, n => n in Targets(z));
  }

  // ---------------------------------------------------------------- the exact condition for one question

  /** At least `k` CNAMEs can be followed from `n`. */
  ghost predicate Chain(v: View, n: Name, k: nat)
    decreases k
  {
    k == 0 || (InZone(n, v.apex.name) && v.look(n).Alias? && Chain(v, Target(v.look(n).cname), k - 1))
  }

  lemma {:induction false} ChainAlong(v: View, path: seq<Name>, i: nat, k: nat)
    requires Follows(v, path) && i < |path|
    ensures Chain(v, path[i], |path| - 1 - i + k) <==> Chain(v, path[|path| - 1], k)
    decreases |path| - i
  {
    if i < |path| - 1 {
      assert AliasTo(v, path[i], path[i + 1]);
      ChainAlong(v, path, i + 1, k);
    }
  }

  lemma {:induction false} ChainShorter(v: View, n: Name, j: nat, k: nat)
    requires j <= k && Chain(v, n, k)
    ensures Chain(v, n, j)
    decreases j
  {
    if j > 0 { ChainShorter(v, Target(v.look(n).cname), j - 1, k - 1); }
  }

  /** A loop is a chain without end. */
  lemma {:induction false} LoopIsEndless(v: View, path: seq<Name>, next: Name, i: nat, k: nat)
    requires LoopsAt(v, path, next) && i < |path|
    ensures Chain(v, path[i], k)
    decreases k
  {
    if k > 0 {
      if i < |path| - 1 {
        assert AliasTo(v, path[i], path[i + 1]);
        LoopIsEndless(v, path, next, i + 1, k - 1);
      } else {
        var j :| 0 <= j < |path| && path[j] == next;
        LoopIsEndless(v, path, next, j, k - 1);
      }
    }
  }

  lemma {:induction false} SelfAliasIsEndless(v: View, n: Name, x: Name, k: nat)
    requires AliasTo(v, n, x) && AliasTo(v, x, x)
    ensures Chain(v, n, k)
    decreases k
  {
    if k > 0 { SelfAliasIsEndless(v, x, x, k - 1); }
  }

  lemma StuckIsLong(v: View, s: Settings, path: seq<Name>)
    requires Follows(v, path) && Stuck(v, s, path)
    ensures Chain(v, path[0], MaxDepth(s) + 1)
  {
    var last := path[|path| - 1];
    var next := Target(v.look(last).cname);
    assert AliasTo(v, last, next);
    if next in path {
      assert LoopsAt(v, path, next);
      LoopIsEndless(v, path, next, 0, MaxDepth(s) + 1);
    } else {
      assert Chain(v, next, 0) && Chain(v, last, 1);
      ChainAlong(v, path, 0, 1);
      ChainShorter(v, path[0], MaxDepth(s) + 1, |path|);
    }
  }

  /** A question is answered SERVFAIL exactly when more CNAMEs than the limit lie ahead of it, where a
      loop counts without end. */
  lemma ServfailExactly(z: Zone, ttl: int, s: Settings, qname: Name, t: string)
    requires Compiles(z, ttl)
    ensures InZoneAnswer(z, ttl, s, qname, t).rcode == ServFail <==>
              Chain(ViewOf(z, ttl, s, t), qname, MaxDepth(s) + 1)
  {
    var v, r := ViewOf(z, ttl, s, t), InZoneAnswer(z, ttl, s, qname, t);
    ResultIsChain(z, ttl, s, qname, t);
    var path: seq<Name> :| path != [] && path[0] == qname && Resolution(v, s, path, r);
    ChainEnds(v, s, path, r);
  }

  lemma ChainEnds(v: View, s: Settings, path: seq<Name>, r: Answer)
    requires path != [] && Resolution(v, s, path, r)
    ensures r.rcode == ServFail <==> Chain(v, path[0], MaxDepth(s) + 1)
  {
    if r.rcode == ServFail {
      StuckIsLong(v, s, path);
    } else {
      LastIsNoAlias(v, s, path, r);
      ChainIsShort(v, path, MaxDepth(s) + 1);
    }
  }

  lemma LastIsNoAlias(v: View, s: Settings, path: seq<Name>, r: Answer)
    requires path != [] && Resolution(v, s, path, r) && r.rcode != ServFail
    ensures !Chain(v, path[|path| - 1], 1)
  {
    assert Concludes(v, s, path[|path| - 1], r.answers[|path| - 1..], r);
  }

  lemma ChainIsShort(v: View, path: seq<Name>, k: nat)
    requires path != [] && Follows(v, path) && |path| <= k && !Chain(v, path[|path| - 1], 1)
    ensures !Chain(v, path[0], k)
  {
    ChainAlong(v, path, 0, 1);
    if Chain(v, path[0], k) { ChainShorter(v, path[0], |path|, k); }
  }

  // ---------------------------------------------------------------- zones without wildcard CNAMEs

  /** No CNAME record of the zone is a source of synthesis. */
  ghost predicate NoWildcardCname(z: Zone) {
    forall i :: 0 <= i < |Records(z)| && AliasOf(Records(z)[i]).Some? ==> !IsWildcardOwner(OwnerOf(Records(z)[i]))
  }

  /** The CNAME records a lookup of type `t` follows: none for ANY and CNAME, and not the one at the
      apex where the zone's SOA is the answer. */
  function Followed(z: Zone, t: string): map<Name, Name> {
    var m := Aliases(Records(z), map[]);
    if t == "ANY" || t == "CNAME" then map[] else if t == "SOA" && z.soa.Some? then m - {z.origin} else m
  }

  lemma {:induction false} AliasHasRecord(rs: seq<Record>, n: Name) returns (i: nat)
    requires n in Aliases(rs, map[])
    ensures i < |rs| && AliasAt(rs[i], n)
    decreases |rs|
  {
    var last := |rs| - 1;
    if AliasAt(rs[last], n) {
      i := last;
    } else {
      i := AliasHasRecord(rs[..last], n);
    }
  }

  /** Nothing else is at the owner of a CNAME. */
  lemma CnameIsAlone(z: Zone, ttl: int, i: nat, n: Name, t: string)
    requires Compiles(z, ttl) && i < |Records(z)| && AliasAt(Records(z)[i], n) && t != "CNAME"
    ensures Find(Entries(z, ttl), n, t).None? && Find(Entries(z, ttl), n, "CNAME").Some?
    ensures Exists(Entries(z, ttl), z.origin, n)
  {
    var sets, at := Entries(z, ttl), |NameserverSets(z, ttl)| + i;
    EntryOfRecord(z, ttl, i);
    assert RecordOk(z, Records(z)[i]);
    assert sets[at].owner == n && sets[at].typ == "CNAME";
    forall j | 0 <= j < |sets| && j != at ensures sets[j].owner != n {
      if j < at { assert Compatible(sets[j], sets[at]); } else { assert Compatible(sets[at], sets[j]); }
    }
    assert InZone(sets[at].owner, n);
  }

  lemma FollowedIsAlias(z: Zone, ttl: int, s: Settings, t: string, n: Name)
    requires Compiles(z, ttl) && n in Followed(z, t)
    ensures AliasTo(ViewOf(z, ttl, s, t), n, Followed(z, t)[n])
  {
    var sets := Entries(z, ttl);
    var i := AliasHasRecord(Records(z), n);
    CnameIsAlone(z, ttl, i, n, t);
    assert RecordOk(z, Records(z)[i]);
    CnameIsMapped(z, ttl, n);
    AliasFound(z, sets, s, n, t);
  }

  /** A CNAME alone at its owner is followed. */
  lemma AliasFound(z: Zone, sets: seq<RRset>, s: Settings, n: Name, t: string)
    requires Exists(sets, z.origin, n) && Find(sets, n, t).None? && Find(sets, n, "CNAME").Some?
    requires t != "ANY" && t != "CNAME" && !(t == "SOA" && z.soa.Some? && n == z.origin)
    ensures Coded(z, sets, s, n, t) == Alias(Find(sets, n, "CNAME").value, None)
  {
  }

  /** A wildcard's CNAME is synthesized at the names it covers. */
  lemma AliasSynthesized(z: Zone, sets: seq<RRset>, s: Settings, n: Name, t: string)
    requires InZone(n, z.origin) && n != z.origin && !Exists(sets, z.origin, n)
    requires var wc := Source(sets, z.origin, n);
             Exists(sets, z.origin, wc) && Find(sets, wc, t).None? && Find(sets, wc, "CNAME").Some?
    requires t != "ANY" && t != "CNAME"
    ensures var wc := Source(sets, z.origin, n);
            Coded(z, sets, s, n, t) == Alias(Find(sets, wc, "CNAME").value, Some(wc))
  {
  }

  /** Without wildcard CNAMEs every alias is found at its own owner. */
  lemma AliasIsExact(z: Zone, ttl: int, s: Settings, t: string, n: Name)
    requires Compiles(z, ttl) && NoWildcardCname(z)
    requires InZone(n, z.origin) && Coded(z, Entries(z, ttl), s, n, t).Alias?
    ensures Exists(Entries(z, ttl), z.origin, n) && Coded(z, Entries(z, ttl), s, n, t).source == None
  {
    var sets := Entries(z, ttl);
    if Exists(sets, z.origin, n) {
      AliasSource(z, sets, s, n, None, t);
    } else {
      var wc := Source(sets, z.origin, n);
      AliasAtOwner(z, sets, s, wc, Some(wc), t);
      WildcardHasRecord(z, ttl, wc);
    }
  }

  lemma WildcardHasRecord(z: Zone, ttl: int, wc: Name)
    requires Compiles(z, ttl) && IsWildcardOwner(wc) && Find(Entries(z, ttl), wc, "CNAME").Some?
    ensures !NoWildcardCname(z)
  {
    var i := CnameRecord(z, ttl, wc);
    assert OwnerOf(Records(z)[i]) == wc;
  }

  lemma AliasIsFollowed(z: Zone, ttl: int, s: Settings, t: string, n: Name, next: Name)
    requires Compiles(z, ttl) && NoWildcardCname(z) && AliasTo(ViewOf(z, ttl, s, t), n, next)
    ensures n in Followed(z, t) && Followed(z, t)[n] == next
  {
    var sets := Entries(z, ttl);
    AliasIsExact(z, ttl, s, t, n);
    ExactAlias(z, sets, s, n, t);
    CnameIsMapped(z, ttl, n);
    AliasIsNoData(z, sets, s, n, t);
  }

  lemma AliasIsNoData(z: Zone, sets: seq<RRset>, s: Settings, n: Name, t: string)
    requires AtOwner(z, sets, s, n, None, t).Alias?
    ensures t != "ANY" && t != "CNAME" && !(t == "SOA" && z.soa.Some? && n == z.origin)
  {
  }

  /** Without wildcard CNAMEs a question of the type loops exactly when the CNAME records followed for
      it have a cycle. */
  lemma PlainLoopingExactly(z: Zone, ttl: int, s: Settings, t: string)
    requires Compiles(z, ttl) && NoWildcardCname(z)
    ensures Looping(ViewOf(z, ttl, s, t)) <==> Cyclic(Followed(z, t))
  {
    var v, m := ViewOf(z, ttl, s, t), Followed(z, t);
    forall n | n in m ensures AliasTo(v, n, m[n]) { FollowedIsAlias(z, ttl, s, t, n); }
    forall n, next | AliasTo(v, n, next) ensures n in m && m[n] == next { AliasIsFollowed(z, ttl, s, t, n, next); }
    LoopIffCycle(v, m, _ => true);
  }

  // ---------------------------------------------------------------- what the check at compile time buys

  /** The name is synthesized. */
  ghost predicate Synthetic(v: View, n: Name) {
    v.look(n).Alias? && v.look(n).source.Some?
  }

  /** The name is synthesized, or a later zone overrides its CNAME. */
  ghost predicate Indirect(zs: seq<Zone>, ttl: int, k: nat, s: Settings, t: string, n: Name)
    requires k < |zs|
  {
    Synthetic(ViewOf(zs[k], ttl, s, t), n) || Shadowed(zs, k, n)
  }

  /** A loop of the lookups, while the map has no cycle, leaves the map somewhere. */
  lemma LoopLeavesMap(v: View, path: seq<Name>, next: Name, m: map<Name, Name>, outside: Name -> bool)
    requires !Cyclic(m) && LoopsAt(v, path, next)
    requires forall n, next :: AliasTo(v, n, next) && !outside(n) ==> n in m && m[n] == next
    ensures exists i :: 0 <= i < |path| && outside(path[i])
  {
    if forall i :: 0 <= i < |path| ==> !outside(path[i]) {
      forall i | 0 <= i < |path| - 1 ensures path[i] in m && m[path[i]] == path[i + 1] {
        assert AliasTo(v, path[i], path[i + 1]) && !outside(path[i]);
      }
      var j :| 0 <= j < |path| && path[j] == next;
      LoopIsCycle(m, path, j);
    }
  }

  /** In an index that compiles, a loop runs through such a name. */
  lemma LoopIsIndirect(zs: seq<Zone>, ttl: int, k: nat, s: Settings, t: string, path: seq<Name>, next: Name)
    requires IndexCompiles(zs, ttl) && k < |zs| && LoopsAt(ViewOf(zs[k], ttl, s, t), path, next)
    ensures exists i :: 0 <= i < |path| && Indirect(zs, ttl, k, s, t, path[i])
  {
    var v, outside := ViewOf(zs[k], ttl, s, t), n => Indirect(zs, ttl, k, s, t, n);
    forall n, next | AliasTo(v, n, next) && !outside(n) ensures n in AllAliases(zs) && AllAliases(zs)[n] == next {
      ExactAliasIsMapped(zs, ttl, k, s, t, n, next);
    }
    LoopLeavesMap(v, path, next, AllAliases(zs), outside);
    var i :| 0 <= i < |path| && outside(path[i]);
    assert Indirect(zs, ttl, k, s, t, path[i]);
  }

  /** What config validation adds: no two zones have a CNAME at the same owner
      (internal/config/validate.go:280-299). */
  ghost predicate OwnersApart(zs: seq<Zone>) {
    forall k, n :: 0 <= k < |zs| && (exists i :: 0 <= i < |Records(zs[k])| && AliasAt(Records(zs[k])[i], n)) ==>
      !Shadowed(zs, k, n)
  }

  /** In an index that passes both, a loop runs through a synthesized name; so a zone without wildcard
      CNAMEs has none. */
  lemma LoopIsSynthetic(zs: seq<Zone>, ttl: int, k: nat, s: Settings, t: string, path: seq<Name>, next: Name)
    requires IndexCompiles(zs, ttl) && OwnersApart(zs) && k < |zs| && LoopsAt(ViewOf(zs[k], ttl, s, t), path, next)
    ensures !NoWildcardCname(zs[k]) && exists i :: 0 <= i < |path| && Synthetic(ViewOf(zs[k], ttl, s, t), path[i])
  {
    var z, v, outside := zs[k], ViewOf(zs[k], ttl, s, t), n => Synthetic(ViewOf(zs[k], ttl, s, t), n);
    forall n, next | AliasTo(v, n, next) && !outside(n) ensures n in AllAliases(zs) && AllAliases(zs)[n] == next {
      ExactAlias(z, Entries(z, ttl), s, n, t);
      var i := CnameRecord(z, ttl, n);
      ExactAliasIsMapped(zs, ttl, k, s, t, n, next);
    }
    LoopLeavesMap(v, path, next, AllAliases(zs), outside);
    var i :| 0 <= i < |path| && outside(path[i]);
    assert InZone(path[i], z.origin) by {
      if i < |path| - 1 { assert AliasTo(v, path[i], path[i + 1]); }
    }
    if NoWildcardCname(z) { AliasIsExact(z, ttl, s, t, path[i]); }
  }

  /** Why a zone of an index that compiles answers SERVFAIL: a chain that is too long, or a loop through
      a synthesized or overridden name. */
  lemma ServfailIsIndirect(zs: seq<Zone>, ttl: int, k: nat, s: Settings, qname: Name, t: string)
    requires IndexCompiles(zs, ttl) && k < |zs| && InZoneAnswer(zs[k], ttl, s, qname, t).rcode == ServFail
    ensures exists path: seq<Name> ::
              && path != [] && path[0] == qname && Follows(ViewOf(zs[k], ttl, s, t), path)
              && Stuck(ViewOf(zs[k], ttl, s, t), s, path)
              && (|path| > MaxDepth(s) || exists i :: 0 <= i < |path| && Indirect(zs, ttl, k, s, t, path[i]))
  {
    var v := ViewOf(zs[k], ttl, s, t);
    ResultIsChain(zs[k], ttl, s, qname, t);
    var path: seq<Name> :| path != [] && path[0] == qname &&
      Resolution(v, s, path, InZoneAnswer(zs[k], ttl, s, qname, t));
    if |path| <= MaxDepth(s) {
      var next := Target(v.look(path[|path| - 1]).cname);
      assert AliasTo(v, path[|path| - 1], next);
      LoopIsIndirect(zs, ttl, k, s, t, path, next);
    }
  }
}
