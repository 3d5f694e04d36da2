/** CNAME loop detection and the compilation of all zones (internal/resolver/compile.go:21-54, 205-222). */
module ZoneIndex {
  import opened Text
  import opened Names
  import opened Zones

  // ---------------------------------------------------------------- the CNAME graph

  /** Follow `k` aliases from `n`. */
  function Hop(m: map<Name, Name>, n: Name, k: nat): Option<Name>
    decreases k
  {
    if k == 0 then Some(n) else if n in m then Hop(m, m[n], k - 1) else None
  }

  ghost predicate OnCycle(m: map<Name, Name>, n: Name) {
    exists k: nat :: k > 0 && Hop(m, n, k) == Some(n)
  }

  ghost predicate Cyclic(m: map<Name, Name>) {
    exists n :: n in m && OnCycle(m, n)
  }

  lemma {:induction false} HopSplit(m: map<Name, Name>, n: Name, a: nat, b: nat)
    requires Hop(m, n, a).Some?
    ensures Hop(m, n, a + b) == Hop(m, Hop(m, n, a).value, b)
    decreases a
  {
    if a > 0 { HopSplit(m, m[n], a - 1, b); }
  }

  lemma {:induction false} HopPrefix(m: map<Name, Name>, n: Name, a: nat, b: nat)
    requires Hop(m, n, b).Some? && a <= b
    ensures Hop(m, n, a).Some?
    decreases a
  {
    if a > 0 { HopPrefix(m, m[n], a - 1, b - 1); }
  }

  /** On a cycle every number of hops is defined. */
  lemma {:induction false} CycleNeverEnds(m: map<Name, Name>, n: Name, k: nat, j: nat)
    requires k > 0 && Hop(m, n, k) == Some(n)
    ensures Hop(m, n, j).Some?
    decreases j
  {
    if j < k {
      HopPrefix(m, n, j, k);
    } else {
      HopSplit(m, n, k, j - k);
      CycleNeverEnds(m, n, k, j - k);
    }
  }

  /** A chain that leaves the map did not start on a cycle. */
  lemma EndIsNoCycle(m: map<Name, Name>, start: Name, n: nat, last: Name)
    requires Hop(m, start, n) == Some(last) && last !in m
    ensures !OnCycle(m, start)
  {
    if OnCycle(m, start) {
      var k: nat :| k > 0 && Hop(m, start, k) == Some(start);
      HopSplit(m, start, n, 1);
      CycleNeverEnds(m, start, k, n + 1);
    }
  }

  /** A chain that meets a name again is on a cycle. */
  lemma RepeatIsCycle(m: map<Name, Name>, start: Name, i: nat, n: nat, cur: Name)
    requires i < n && Hop(m, start, i) == Some(cur) && Hop(m, start, n) == Some(cur) && cur in m
    ensures Cyclic(m)
  {
    HopSplit(m, start, i, n - i);
    assert Hop(m, cur, n - i) == Some(cur);
  }

  /** `path` are the names met from `start`, in order. */
  ghost predicate Trace(m: map<Name, Name>, start: Name, path: seq<Name>) {
    forall i :: 0 <= i < |path| ==> path[i] in m && Hop(m, start, i) == Some(path[i])
  }

  lemma TraceSnoc(m: map<Name, Name>, start: Name, path: seq<Name>, cur: Name)
    requires Trace(m, start, path) && cur in m && Hop(m, start, |path|) == Some(cur)
    ensures Trace(m, start, path + [cur])
  {
    var more := path + [cur];
    forall i | 0 <= i < |more| ensures more[i] in m && Hop(m, start, i) == Some(more[i]) {
      if i < |path| { assert more[i] == path[i]; }
    }
  }

  /** One start of detectCNAMELoops: walk until the chain leaves the map or repeats. */
  method WalkAliases(m: map<Name, Name>, start: Name) returns (loop: bool)
    requires start in m
    ensures loop ==> Cyclic(m)
    ensures !loop ==> !OnCycle(m, start)
  {
    var seen: set<Name> := {};
    var cur := start;
    ghost var path: seq<Name> := [];
    while cur in m
      invariant seen <= m.Keys && Hop(m, start, |path|) == Some(cur)
      invariant forall n :: n in seen <==> n in path
      invariant Trace(m, start, path)
      decreases |m.Keys - seen|
    {
      if cur in seen {
        ghost var i :| 0 <= i < |path| && path[i] == cur;
        RepeatIsCycle(m, start, i, |path|, cur);
        return true;
      }
      HopSplit(m, start, |path|, 1);
      TraceSnoc(m, start, path, cur);
      SubsetSize(m.Keys - (seen + {cur}), m.Keys - seen, cur);
      path := path + [cur];
      seen := seen + {cur};
      cur := m[cur];
    }
    EndIsNoCycle(m, start, |path|, cur);
    return false;
  }

  lemma SubsetSize(a: set<Name>, b: set<Name>, x: Name)
    requires a <= b && x in b && x !in a
    ensures |a| < |b|
  {
    assert a + (b - a) == b && x in b - a;
    assert |b| == |a| + |b - a|;
  }

  /** detectCNAMELoops: reports a loop exactly when the alias map has a cycle. */
  method DetectLoops(m: map<Name, Name>) returns (loop: bool)
    ensures loop <==> Cyclic(m)
  {
    var todo := m.Keys;
    while todo != {}
      invariant todo <= m.Keys
      invariant forall n :: n in m.Keys - todo ==> !OnCycle(m, n)
      decreases |todo|
    {
      var start :| start in todo;
      var found := WalkAliases(m, start);
      if found { return true; }
      todo := todo - {start};
    }
    return false;
  }

  // ---------------------------------------------------------------- all zones

  function AllAliases(zs: seq<Zone>): map<Name, Name> {
    if zs == [] then map[] else Aliases(Records(zs[|zs| - 1]), AllAliases(zs[..|zs| - 1]))
  }

  /** What Compile accepts. */
  ghost predicate IndexCompiles(zs: seq<Zone>, ttl: int) {
    && (forall i :: 0 <= i < |zs| ==> zs[i].id != "" && Compiles(zs[i], ttl))
    && (forall i, j :: 0 <= i < j < |zs| ==> zs[i].id != zs[j].id && zs[i].origin != zs[j].origin)
    && !Cyclic(AllAliases(zs))
  }

  /** The zones before `n` are in `idx` under distinct IDs and names. */
  ghost predicate Indexed<V>(zs: seq<Zone>, n: nat, idx: map<string, V>, names: set<Name>)
    requires n <= |zs|
  {
    && (forall j :: 0 <= j < n ==> zs[j].id != "" && zs[j].id in idx)
    && (forall j, k :: 0 <= j < k < n ==> zs[j].id != zs[k].id && zs[j].origin != zs[k].origin)
    && (forall id :: id in idx ==> exists j :: 0 <= j < n && zs[j].id == id)
    && (forall m :: m in names <==> exists j :: 0 <= j < n && zs[j].origin == m)
  }

  ghost predicate AllCompile(zs: seq<Zone>, n: nat, ttl: int)
    requires n <= |zs|
  {
    forall j :: 0 <= j < n ==> Compiles(zs[j], ttl)
  }

  ghost predicate AllRepresented(zs: seq<Zone>, n: nat, ttl: int, idx: map<string, ZoneData>)
    requires n <= |zs|
  {
    forall j :: 0 <= j < n ==> zs[j].id in idx && Represents(idx[zs[j].id], zs[j], ttl)
  }

  lemma IndexedNext<V>(zs: seq<Zone>, n: nat, idx: map<string, V>, names: set<Name>, v: V)
    requires n < |zs| && Indexed(zs, n, idx, names)
    requires zs[n].id != "" && zs[n].id !in idx && zs[n].origin !in names
    ensures Indexed(zs, n + 1, idx[zs[n].id := v], names + {zs[n].origin})
  {
    var idx', names' := idx[zs[n].id := v], names + {zs[n].origin};
    forall id | id in idx' ensures exists j :: 0 <= j < n + 1 && zs[j].id == id {
      if id != zs[n].id {
        var j :| 0 <= j < n && zs[j].id == id;
      } else {
        assert zs[n].id == id;
      }
    }
    forall m ensures m in names' <==> exists j :: 0 <= j < n + 1 && zs[j].origin == m {
      if m in names {
        var j :| 0 <= j < n && zs[j].origin == m;
      }
    }
  }

  lemma RepresentedNext(zs: seq<Zone>, n: nat, ttl: int, idx: map<string, ZoneData>, zd: ZoneData)
    requires n < |zs| && AllRepresented(zs, n, ttl, idx) && Represents(zd, zs[n], ttl) && zs[n].id !in idx
    ensures AllRepresented(zs, n + 1, ttl, idx[zs[n].id := zd])
  {
    var idx' := idx[zs[n].id := zd];
    forall j | 0 <= j < n + 1 ensures zs[j].id in idx' && Represents(idx'[zs[j].id], zs[j], ttl) {
      if j < n { assert idx'[zs[j].id] == idx[zs[j].id]; }
    }
  }

  lemma Rejects<V>(zs: seq<Zone>, n: nat, ttl: int, idx: map<string, V>, names: set<Name>)
    requires n < |zs| && Indexed(zs, n, idx, names)
    requires zs[n].id == "" || zs[n].id in idx || zs[n].origin in names || !Compiles(zs[n], ttl)
    ensures !IndexCompiles(zs, ttl)
  {
  }

  lemma AliasesNext(zs: seq<Zone>, n: nat)
    requires n < |zs|
    ensures AllAliases(zs[..n + 1]) == Aliases(Records(zs[n]), AllAliases(zs[..n]))
  {
    assert zs[..n + 1][..n] == zs[..n];
  }

  lemma CompileNext(zs: seq<Zone>, n: nat, ttl: int)
    requires n < |zs| && AllCompile(zs, n, ttl) && Compiles(zs[n], ttl)
    ensures AllCompile(zs, n + 1, ttl)
  {
  }

  lemma Accepts<V>(zs: seq<Zone>, ttl: int, idx: map<string, V>, names: set<Name>)
    requires Indexed(zs, |zs|, idx, names) && AllCompile(zs, |zs|, ttl)
    ensures IndexCompiles(zs, ttl) <==> !Cyclic(AllAliases(zs))
    ensures OnlyZones(zs, idx)
  {
  }

  ghost predicate OnlyZones<V>(zs: seq<Zone>, idx: map<string, V>) {
    forall id :: id in idx ==> exists i :: 0 <= i < |zs| && zs[i].id == id
  }

  /** Compile: succeeds exactly on `IndexCompiles`, with every zone represented under its ID. */
  method Compile(zs: seq<Zone>, ttl: int) returns (ok: bool, idx: map<string, ZoneData>)
    ensures ok <==> IndexCompiles(zs, ttl)
    ensures ok ==> AllRepresented(zs, |zs|, ttl, idx) && OnlyZones(zs, idx)
  {
    idx := map[];
    var seenName: set<Name> := {};
    var cnames: map<Name, Name> := map[];
    for i := 0 to |zs|
      invariant Indexed(zs, i, idx, seenName) && AllCompile(zs, i, ttl) && AllRepresented(zs, i, ttl, idx)
      invariant cnames == AllAliases(zs[..i])
    {
      var z := zs[i];
      if z.id == "" || z.id in idx || z.origin in seenName {
        Rejects(zs, i, ttl, idx, seenName);
        return false, idx;
      }
      var one, zd;
      AliasesNext(zs, i);
      one, zd, cnames := CompileZone(z, ttl, cnames);
      if !one {
        Rejects(zs, i, ttl, idx, seenName);
        return false, idx;
      }
      CompileNext(zs, i, ttl);
      IndexedNext(zs, i, idx, seenName, zd);
      RepresentedNext(zs, i, ttl, idx, zd);
      seenName := seenName + {z.origin};
      idx := idx[z.id := zd];
    }
    assert zs[..|zs|] == zs;
    Accepts(zs, ttl, idx, seenName);
    var loop := DetectLoops(cnames);
    ok := !loop;
  }
}
