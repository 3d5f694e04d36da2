/** The chaos policy index and the linear scan it replaces (internal/chaos/compile.go:17-155,
    internal/snapshot/chaos_index.go:55-118, internal/chaos/gates.go:11-41). The eight maps of the
    source are one map here, keyed by dimension and scope key. */
module ChaosIndex {
  import opened Text

  /** From most to least specific. */
  datatype Dim = Record | Wildcard | Owner | Zone | Forward | Pool | Group | Global

  datatype Scope = Scope(records: seq<string>, wildcards: seq<string>, owners: seq<string>, zones: seq<string>,
                         forwarding: seq<string>, pools: seq<string>, groups: seq<string>,
                         qtypes: seq<string>, transports: seq<string>)

  datatype Policy = Policy(id: string, enabled: bool, highImpact: bool, scope: Scope)

  /** A record's reference to a policy. */
  datatype Ref = Ref(record: string, policy: string)

  /** A classified query; an absent part is the empty string. */
  datatype Match = Match(records: seq<string>, wildcard: string, owner: string, zone: string, forwarding: string,
                         pool: string, group: string, qtype: string, transport: string)

  datatype Index = Index(byID: map<string, Policy>, scopes: map<(Dim, string), seq<string>>)

  // ---------------------------------------------------------------- scopes

  function Keys(s: Scope, d: Dim): seq<string> {
    match d
    case Record => s.records
    case Wildcard => s.wildcards
    case Owner => s.owners
    case Zone => s.zones
    case Forward => s.forwarding
    case Pool => s.pools
    case Group => s.groups
    case Global => [""]
  }

  /** How far a dimension is from the most specific one. */
  function Rank(d: Dim): nat {
    match d
    case Record => 0
    case Wildcard => 1
    case Owner => 2
    case Zone => 3
    case Forward => 4
    case Pool => 5
    case Group => 6
    case Global => 7
  }

  /** scopePrecedence: the most specific dimension the scope uses. */
  function Primary(s: Scope): (d: Dim)
    ensures Keys(s, d) != [] && forall e :: Rank(e) < Rank(d) ==> Keys(s, e) == []
  {
    if s.records != [] then Record
    else if s.wildcards != [] then Wildcard
    else if s.owners != [] then Owner
    else if s.zones != [] then Zone
    else if s.forwarding != [] then Forward
    else if s.pools != [] then Pool
    else if s.groups != [] then Group
    else Global
  }

  predicate HasType(types: seq<string>, t: string) {
    exists i :: 0 <= i < |types| && Upper(types[i]) == Upper(t)
  }

  predicate Intersects(xs: seq<string>, ys: seq<string>) {
    exists i :: 0 <= i < |xs| && xs[i] in ys
  }

  /** The key a query offers in the dimensions from Owner to Group. */
  function KeyOf(m: Match, d: Dim): string {
    match d
    case Owner => m.owner
    case Zone => m.zone
    case Forward => m.forwarding
    case Pool => m.pool
    case Group => m.group
    case Record => ""
    case Wildcard => m.wildcard
    case Global => ""
  }

  /** scopeMatches */
  predicate ScopeMatches(s: Scope, m: Match) {
    && (s.qtypes != [] ==> HasType(s.qtypes, m.qtype))
    && (s.transports != [] ==> m.transport in s.transports)
    && (s.groups != [] ==> m.group in s.groups)
    && (s.zones != [] ==> m.zone in s.zones)
    && (s.forwarding != [] ==> m.forwarding in s.forwarding)
    && (s.pools != [] ==> m.pool in s.pools)
    && (s.owners != [] ==> m.owner in s.owners)
    && (s.records != [] ==> Intersects(s.records, m.records))
    && (s.wildcards != [] ==> m.wildcard != "" && m.wildcard in s.wildcards)
  }

  /** A scope matches when every list it gives has what the query has there; a list that is not given
      says nothing, and types are compared without regard to case. */
  lemma ScopeMatchesExactly(s: Scope, m: Match)
    ensures ScopeMatches(s, m) <==>
              && (forall d :: Rank(Owner) <= Rank(d) <= Rank(Group) && Keys(s, d) != [] ==> KeyOf(m, d) in Keys(s, d))
              && (s.records != [] ==> exists r :: r in s.records && r in m.records)
              && (s.wildcards != [] ==> m.wildcard != "" && m.wildcard in s.wildcards)
              && (s.qtypes != [] ==> exists t :: t in s.qtypes && Upper(t) == Upper(m.qtype))
              && (s.transports != [] ==> m.transport in s.transports)
  {
    if Intersects(s.records, m.records) {
      var i :| 0 <= i < |s.records| && s.records[i] in m.records;
      assert s.records[i] in s.records;
    }
    if HasType(s.qtypes, m.qtype) {
      var i :| 0 <= i < |s.qtypes| && Upper(s.qtypes[i]) == Upper(m.qtype);
      assert s.qtypes[i] in s.qtypes;
    }
    assert Keys(s, Owner) == s.owners && Keys(s, Zone) == s.zones && Keys(s, Forward) == s.forwarding;
    assert Keys(s, Pool) == s.pools && Keys(s, Group) == s.groups;
  }

  // ---------------------------------------------------------------- the index

  function Entry(idx: Index, d: Dim, key: string): seq<string> {
    if (d, key) in idx.scopes then idx.scopes[(d, key)] else []
  }

  /** Where indexPolicy puts a policy. */
  predicate IndexedAt(s: Scope, d: Dim, key: string) {
    (d == Primary(s) && key in Keys(s, d)) || (d == Wildcard && Primary(s) == Record && key in s.wildcards)
  }

  predicate Distinct(ids: seq<string>) {
    forall i, j :: 0 <= i < j < |ids| ==> ids[i] != ids[j]
  }

  /** The policies listed under a dimension and key. */
  ghost predicate Listed(ps: seq<Policy>, refs: seq<Ref>, d: Dim, key: string, id: string) {
    || (exists i :: 0 <= i < |ps| && ps[i].id == id && IndexedAt(ps[i].scope, d, key))
    || (d == Record && Ref(key, id) in refs)
  }

  ghost predicate Holds(idx: Index, ps: seq<Policy>, refs: seq<Ref>) {
    && (forall id :: id in idx.byID <==> exists i :: 0 <= i < |ps| && ps[i].id == id)
    && (forall i :: 0 <= i < |ps| ==> ps[i].id in idx.byID && idx.byID[ps[i].id] == ps[i])
    && (forall d, key, id :: id in Entry(idx, d, key) <==> Listed(ps, refs, d, key, id))
  }

  /** appendUniquePolicy */
  method AppendUnique(ids: seq<string>, id: string) returns (out: seq<string>)
    ensures forall x :: x in out <==> x in ids || x == id
  {
    for i := 0 to |ids|
      invariant forall j :: 0 <= j < i ==> ids[j] != id
    {
      if ids[i] == id {
        return ids;
      }
    }
    return ids + [id];
  }

  method EnlistOne(idx: Index, d: Dim, key: string, id: string) returns (out: Index)
    ensures out.byID == idx.byID
    ensures forall e, k, x :: x in Entry(out, e, k) <==> x in Entry(idx, e, k) || (e == d && k == key && x == id)
  {
    var ids := AppendUnique(Entry(idx, d, key), id);
    out := idx.(scopes := idx.scopes[(d, key) := ids]);
  }

  /** One loop of indexPolicy: list a policy under every key. */
  method Enlist(idx: Index, d: Dim, keys: seq<string>, id: string) returns (out: Index)
    ensures out.byID == idx.byID
    ensures forall e, key, x :: x in Entry(out, e, key) <==>
              x in Entry(idx, e, key) || (e == d && key in keys && x == id)
  {
    out := idx;
    for i := 0 to |keys|
      invariant out.byID == idx.byID
      invariant forall e, key, x :: x in Entry(out, e, key) <==>
                  x in Entry(idx, e, key) || (e == d && key in keys[..i] && x == id)
    {
      assert forall key :: key in keys[..i + 1] <==> key in keys[..i] || key == keys[i];
      out := EnlistOne(out, d, keys[i], id);
    }
    assert keys[..|keys|] == keys;
  }

  /** indexPolicy */
  method IndexPolicy(idx: Index, p: Policy) returns (out: Index)
    ensures out.byID == idx.byID
    ensures forall d, key, x :: x in Entry(out, d, key) <==>
              x in Entry(idx, d, key) || (x == p.id && IndexedAt(p.scope, d, key))
  {
    var d := Primary(p.scope);
    out := Enlist(idx, d, Keys(p.scope, d), p.id);
    if d == Record {
      out := Enlist(out, Wildcard, p.scope.wildcards, p.id);
    }
  }

  function HighCount(ps: seq<Policy>): nat {
    if ps == [] then 0
    else HighCount(ps[..|ps| - 1]) + (if ps[|ps| - 1].enabled && ps[|ps| - 1].highImpact then 1 else 0)
  }

  ghost function HighSet(ps: seq<Policy>): set<int> {
    set i | 0 <= i < |ps| && ps[i].enabled && ps[i].highImpact
  }

  /** The policies that are enabled and of high impact are counted once each. */
  lemma {:induction false} HighCountIs(ps: seq<Policy>)
    ensures HighCount(ps) == |HighSet(ps)|
    decreases |ps|
  {
    if ps != [] {
      var n := |ps| - 1;
      HighCountIs(ps[..n]);
      assert HighSet(ps) == HighSet(ps[..n]) + (if ps[n].enabled && ps[n].highImpact then {n} else {});
    }
  }

  lemma HighNext(ps: seq<Policy>, n: nat)
    requires n < |ps|
    ensures HighCount(ps[..n + 1]) == HighCount(ps[..n]) + (if ps[n].enabled && ps[n].highImpact then 1 else 0)
  {
    assert ps[..n + 1][..n] == ps[..n];
  }

  /** What Compile accepts. */
  ghost predicate Acceptable(ps: seq<Policy>, refs: seq<Ref>, maxHigh: int) {
    && IDsOk(ps)
    && (forall r :: r in refs ==> exists i :: 0 <= i < |ps| && ps[i].id == r.policy)
    && !(maxHigh > 0 && HighCount(ps) > maxHigh)
  }

  lemma ListedIn(ps: seq<Policy>, n: nat, d: Dim, key: string, id: string)
    requires n <= |ps|
    ensures Listed(ps[..n], [], d, key, id) <==>
              exists i :: 0 <= i < n && ps[i].id == id && IndexedAt(ps[i].scope, d, key)
  {
    var less := ps[..n];
    assert forall i :: 0 <= i < n ==> less[i] == ps[i];
    if i :| 0 <= i < n && ps[i].id == id && IndexedAt(ps[i].scope, d, key) {
      assert less[i].id == id;
    }
  }

  lemma ListedNext(ps: seq<Policy>, n: nat, d: Dim, key: string, id: string)
    requires n < |ps|
    ensures Listed(ps[..n + 1], [], d, key, id) <==>
              Listed(ps[..n], [], d, key, id) || (id == ps[n].id && IndexedAt(ps[n].scope, d, key))
  {
    ListedIn(ps, n, d, key, id);
    ListedIn(ps, n + 1, d, key, id);
    if i :| 0 <= i < n + 1 && ps[i].id == id && IndexedAt(ps[i].scope, d, key) {
      assert i < n || i == n;
    }
  }

  ghost predicate IDsOk(ps: seq<Policy>) {
    (forall i :: 0 <= i < |ps| ==> ps[i].id != "") && (forall i, j :: 0 <= i < j < |ps| ==> ps[i].id != ps[j].id)
  }

  lemma Clash(idx: Index, ps: seq<Policy>, n: nat)
    requires n < |ps| && Holds(idx, ps[..n], []) && (ps[n].id == "" || ps[n].id in idx.byID)
    ensures !IDsOk(ps)
  {
    var less := ps[..n];
    if ps[n].id in idx.byID {
      var i :| 0 <= i < |less| && less[i].id == ps[n].id;
      assert ps[i].id == ps[n].id;
    }
  }

  lemma NoClash(idx: Index, ps: seq<Policy>, n: nat)
    requires n < |ps| && Holds(idx, ps[..n], []) && IDsOk(ps[..n]) && ps[n].id != "" && ps[n].id !in idx.byID
    ensures IDsOk(ps[..n + 1])
  {
    var less, upto := ps[..n], ps[..n + 1];
    assert forall i :: 0 <= i < n ==> upto[i] == less[i] && less[i].id != ps[n].id;
  }

  method IndexNext(idx: Index, p: Policy, ghost ps: seq<Policy>, ghost n: nat) returns (out: Index)
    requires n < |ps| && p == ps[n] && Holds(idx, ps[..n], []) && p.id !in idx.byID
    ensures Holds(out, ps[..n + 1], [])
  {
    out := IndexPolicy(idx.(byID := idx.byID[p.id := p]), p);
    HoldsNext(idx, out, ps, n);
  }

  /** The first loop of Compile: policies in configuration order. */
  method IndexPolicies(ps: seq<Policy>) returns (ok: bool, idx: Index, high: nat)
    ensures ok <==> IDsOk(ps)
    ensures ok ==> Holds(idx, ps, []) && high == HighCount(ps)
  {
    idx := Index(map[], map[]);
    high := 0;
    for n := 0 to |ps|
      invariant IDsOk(ps[..n]) && Holds(idx, ps[..n], []) && high == HighCount(ps[..n])
    {
      var p := ps[n];
      if p.id == "" || p.id in idx.byID {
        Clash(idx, ps, n);
        return false, idx, high;
      }
      NoClash(idx, ps, n);
      HighNext(ps, n);
      if p.enabled && p.highImpact {
        high := high + 1;
      }
      idx := IndexNext(idx, p, ps, n);
    }
    assert ps[..|ps|] == ps;
    ok := true;
  }

  lemma HoldsNext(before: Index, idx: Index, ps: seq<Policy>, n: nat)
    requires n < |ps| && Holds(before, ps[..n], []) && ps[n].id !in before.byID
    requires idx.byID == before.byID[ps[n].id := ps[n]]
    requires forall d, key, x :: x in Entry(idx, d, key) <==>
               x in Entry(before, d, key) || (x == ps[n].id && IndexedAt(ps[n].scope, d, key))
    ensures Holds(idx, ps[..n + 1], [])
  {
    var upto := ps[..n + 1];
    forall id ensures id in idx.byID <==> exists i :: 0 <= i < |upto| && upto[i].id == id {
      if id == ps[n].id { assert upto[n].id == id; }
      if i :| 0 <= i < n && ps[..n][i].id == id { assert upto[i].id == id; }
    }
    forall i | 0 <= i < |upto| ensures upto[i].id in idx.byID && idx.byID[upto[i].id] == upto[i] {
      if i < n { assert ps[..n][i] == upto[i]; }
    }
    forall d, key, id ensures id in Entry(idx, d, key) <==> Listed(upto, [], d, key, id) {
      ListedNext(ps, n, d, key, id);
    }
  }

  /** The second loop of Compile: record references. */
  method AttachRefs(idx: Index, ps: seq<Policy>, refs: seq<Ref>) returns (ok: bool, out: Index)
    requires Holds(idx, ps, [])
    ensures ok <==> forall r :: r in refs ==> exists i :: 0 <= i < |ps| && ps[i].id == r.policy
    ensures ok ==> Holds(out, ps, refs)
  {
    out := idx;
    for n := 0 to |refs|
      invariant Holds(out, ps, refs[..n])
      invariant forall r :: r in refs[..n] ==> exists i :: 0 <= i < |ps| && ps[i].id == r.policy
    {
      var r := refs[n];
      if r.policy !in out.byID {
        assert r in refs;
        return false, out;
      }
      var before := out;
      out := EnlistOne(out, Record, r.record, r.policy);
      HoldsRef(before, out, ps, refs, n);
    }
    assert refs[..|refs|] == refs;
    ok := true;
  }

  lemma HoldsRef(before: Index, idx: Index, ps: seq<Policy>, refs: seq<Ref>, n: nat)
    requires n < |refs| && Holds(before, ps, refs[..n]) && idx.byID == before.byID
    requires forall d, key, x :: x in Entry(idx, d, key) <==>
               x in Entry(before, d, key) || (d == Record && key == refs[n].record && x == refs[n].policy)
    ensures Holds(idx, ps, refs[..n + 1])
  {
    forall d, key, id ensures id in Entry(idx, d, key) <==> Listed(ps, refs[..n + 1], d, key, id) {
      assert refs[..n + 1] == refs[..n] + [refs[n]];
      assert Ref(key, id) in refs[..n + 1] <==> Ref(key, id) in refs[..n] || Ref(key, id) == refs[n];
    }
  }

  /** Compile, without the drop allocation. */
  method Compile(ps: seq<Policy>, refs: seq<Ref>, maxHigh: int) returns (ok: bool, idx: Index)
    ensures ok <==> Acceptable(ps, refs, maxHigh)
    ensures ok ==> Holds(idx, ps, refs)
  {
    var high;
    ok, idx, high := IndexPolicies(ps);
    if !ok {
      return;
    }
    ok, idx := AttachRefs(idx, ps, refs);
    if ok && maxHigh > 0 && high > maxHigh {
      ok := false;
    }
  }

  // ---------------------------------------------------------------- candidates

  /** The lists Candidates reads. */
  ghost predicate Visits(m: Match, d: Dim, key: string) {
    match d
    case Record => key in m.records
    case Global => key == ""
    case _ => key == KeyOf(m, d) && key != ""
  }

  ghost predicate Reached(idx: Index, m: Match, id: string) {
    id in idx.byID && exists d, key :: Visits(m, d, key) && id in Entry(idx, d, key)
  }

  /** The `add` closure: append what is new. */
  method Add(idx: Index, ids: seq<string>, out: seq<Policy>, seen: set<string>)
    returns (out': seq<Policy>, seen': set<string>)
    requires Collected(idx, out, seen)
    ensures Collected(idx, out', seen')
    ensures forall id :: id in seen' <==> id in seen || (id in ids && id in idx.byID)
  {
    out', seen' := out, seen;
    for i := 0 to |ids|
      invariant Collected(idx, out', seen')
      invariant forall id :: id in seen' <==> id in seen || (id in ids[..i] && id in idx.byID)
    {
      var id := ids[i];
      if id !in seen' && id in idx.byID {
        CollectOne(idx, out', seen', id);
        out', seen' := out' + [idx.byID[id]], seen' + {id};
      }
    }
    assert ids[..|ids|] == ids;
  }

  /** `out` lists the policies in `seen`, each once. */
  ghost predicate Collected(idx: Index, out: seq<Policy>, seen: set<string>) {
    && (forall id :: id in idx.byID ==> idx.byID[id].id == id)
    && (forall i, j :: 0 <= i < j < |out| ==> out[i] != out[j])
    && (forall id :: id in seen ==> id in idx.byID)
    && (forall p :: p in out <==> p.id in seen && p == idx.byID[p.id])
  }

  lemma CollectOne(idx: Index, out: seq<Policy>, seen: set<string>, id: string)
    requires Collected(idx, out, seen) && id in idx.byID && id !in seen
    ensures Collected(idx, out + [idx.byID[id]], seen + {id})
  {
    var p := idx.byID[id];
    assert p !in out;
    forall x ensures x in out + [p] <==> x.id in seen + {id} && x == idx.byID[x.id] {}
  }

  /** Candidates */
  method Candidates(idx: Index, m: Match) returns (out: seq<Policy>)
    requires forall id :: id in idx.byID ==> idx.byID[id].id == id
    ensures forall i, j :: 0 <= i < j < |out| ==> out[i] != out[j]
    ensures forall p :: p in out <==> Reached(idx, m, p.id) && p == idx.byID[p.id]
  {
    out := [];
    var seen: set<string> := {};
    for i := 0 to |m.records|
      invariant Collected(idx, out, seen)
      invariant forall id :: id in seen <==>
                  id in idx.byID && exists j :: 0 <= j < i && id in Entry(idx, Record, m.records[j])
    {
      out, seen := Add(idx, Entry(idx, Record, m.records[i]), out, seen);
    }
    var dims := [Wildcard, Owner, Zone, Forward, Pool, Group];
    ghost var first := seen;
    for i := 0 to |dims|
      invariant Collected(idx, out, seen)
      invariant forall id :: id in seen <==>
                  || id in first
                  || (id in idx.byID && exists j :: 0 <= j < i && KeyOf(m, dims[j]) != ""
                                                    && id in Entry(idx, dims[j], KeyOf(m, dims[j])))
    {
      var key := KeyOf(m, dims[i]);
      if key != "" {
        out, seen := Add(idx, Entry(idx, dims[i], key), out, seen);
      }
    }
    ghost var second := seen;
    out, seen := Add(idx, Entry(idx, Global, ""), out, seen);
    forall id ensures id in seen <==> Reached(idx, m, id) {
      ReachedSplit(idx, m, id, dims);
    }
  }

  lemma ReachedSplit(idx: Index, m: Match, id: string, dims: seq<Dim>)
    requires dims == [Wildcard, Owner, Zone, Forward, Pool, Group]
    ensures Reached(idx, m, id) <==>
              id in idx.byID &&
              (|| (exists j :: 0 <= j < |m.records| && id in Entry(idx, Record, m.records[j]))
               || (exists j :: 0 <= j < |dims| && KeyOf(m, dims[j]) != ""
                               && id in Entry(idx, dims[j], KeyOf(m, dims[j])))
               || id in Entry(idx, Global, ""))
  {
    if j :| 0 <= j < |m.records| && id in Entry(idx, Record, m.records[j]) {
      assert Visits(m, Record, m.records[j]);
    }
    if j :| 0 <= j < |dims| && KeyOf(m, dims[j]) != "" && id in Entry(idx, dims[j], KeyOf(m, dims[j])) {
      assert Visits(m, dims[j], KeyOf(m, dims[j]));
    }
    assert Visits(m, Global, "");
    if d, key :| Visits(m, d, key) && id in Entry(idx, d, key) {
      assert dims[0] == Wildcard && dims[1] == Owner && dims[2] == Zone && dims[3] == Forward
             && dims[4] == Pool && dims[5] == Group;
      if d == Record { var j :| 0 <= j < |m.records| && m.records[j] == key; }
    }
  }

  // ---------------------------------------------------------------- completeness

  /** The scope lists the empty string in its primary dimension and the query has nothing there:
      scopeMatches compares equal, but Candidates does not look under an empty key. */
  predicate Blind(s: Scope, m: Match) {
    var d := Primary(s);
    d in {Owner, Zone, Forward, Pool, Group} && KeyOf(m, d) == "" && "" in Keys(s, d)
  }

  predicate Referenced(refs: seq<Ref>, m: Match, id: string) {
    exists i :: 0 <= i < |m.records| && Ref(m.records[i], id) in refs
  }

  lemma PrimaryIsVisited(s: Scope, m: Match)
    requires ScopeMatches(s, m) && !Blind(s, m)
    ensures exists key :: Visits(m, Primary(s), key) && IndexedAt(s, Primary(s), key)
  {
    var d := Primary(s);
    match d
    case Record =>
      var i :| 0 <= i < |s.records| && s.records[i] in m.records;
      assert Visits(m, d, s.records[i]) && IndexedAt(s, d, s.records[i]);
    case Global => assert Visits(m, d, "") && IndexedAt(s, d, "");
    case _ => assert Visits(m, d, KeyOf(m, d)) && IndexedAt(s, d, KeyOf(m, d));
  }

  /** The index reaches a policy that the scan selects exactly when the query is not blind to it or
      one of the query's records refers to it. */
  lemma IndexIsComplete(idx: Index, ps: seq<Policy>, refs: seq<Ref>, m: Match, k: nat)
    requires Holds(idx, ps, refs) && k < |ps| && ScopeMatches(ps[k].scope, m)
    requires forall i, j :: 0 <= i < j < |ps| ==> ps[i].id != ps[j].id
    ensures Reached(idx, m, ps[k].id) <==> !Blind(ps[k].scope, m) || Referenced(refs, m, ps[k].id)
  {
    var p := ps[k];
    if !Blind(p.scope, m) {
      PrimaryIsVisited(p.scope, m);
      var key :| Visits(m, Primary(p.scope), key) && IndexedAt(p.scope, Primary(p.scope), key);
      assert Listed(ps, refs, Primary(p.scope), key, p.id);
      assert p.id in Entry(idx, Primary(p.scope), key);
    } else if Referenced(refs, m, p.id) {
      var i :| 0 <= i < |m.records| && Ref(m.records[i], p.id) in refs;
      assert Listed(ps, refs, Record, m.records[i], p.id);
      assert p.id in Entry(idx, Record, m.records[i]) && Visits(m, Record, m.records[i]);
    } else if Reached(idx, m, p.id) {
      var d, key :| Visits(m, d, key) && p.id in Entry(idx, d, key);
      assert Listed(ps, refs, d, key, p.id);
      BlindIsUnlisted(ps, refs, m, k, d, key);
    }
  }

  lemma BlindIsUnlisted(ps: seq<Policy>, refs: seq<Ref>, m: Match, k: nat, d: Dim, key: string)
    requires k < |ps| && Blind(ps[k].scope, m) && !Referenced(refs, m, ps[k].id) && Visits(m, d, key)
    requires forall i, j :: 0 <= i < j < |ps| ==> ps[i].id != ps[j].id
    ensures !Listed(ps, refs, d, key, ps[k].id)
  {
  }

  /** What config validation adds: the scope names existing zones, forwarding policies, pools and groups,
      so none of these IDs is empty (internal/config/validate.go:582-606). */
  predicate Validated(s: Scope) {
    "" !in s.zones && "" !in s.forwarding && "" !in s.pools && "" !in s.groups
  }

  /** No query with a name is blind to a scope that passed validation. */
  lemma ValidatedIsSeen(s: Scope, m: Match)
    requires Validated(s) && m.owner != ""
    ensures !Blind(s, m)
  {
  }

  /** Candidates then scopeMatches selects what a scan of all policies with scopeMatches selects,
      unless the query is blind to one of them; exactly the same for scopes that passed validation. */
  method Survivors(idx: Index, m: Match, ghost ps: seq<Policy>, ghost refs: seq<Ref>) returns (out: seq<Policy>)
    requires Holds(idx, ps, refs) && forall i, j :: 0 <= i < j < |ps| ==> ps[i].id != ps[j].id
    ensures forall i, j :: 0 <= i < j < |out| ==> out[i] != out[j]
    ensures forall p :: p in out <==>
              p in ps && ScopeMatches(p.scope, m) && (!Blind(p.scope, m) || Referenced(refs, m, p.id))
    ensures m.owner != "" && (forall i :: 0 <= i < |ps| ==> Validated(ps[i].scope)) ==>
              forall p :: p in out <==> p in ps && ScopeMatches(p.scope, m)
  {
    var all := Candidates(idx, m);
    out := Matching(all, m);
    forall p
      ensures p in out <==> p in ps && ScopeMatches(p.scope, m) && (!Blind(p.scope, m) || Referenced(refs, m, p.id))
    {
      if p in ps && ScopeMatches(p.scope, m) {
        var k :| 0 <= k < |ps| && ps[k] == p;
        IndexIsComplete(idx, ps, refs, m, k);
      }
    }
  }

  /** Keep the policies that match. */
  method Matching(all: seq<Policy>, m: Match) returns (out: seq<Policy>)
    requires forall i, j :: 0 <= i < j < |all| ==> all[i] != all[j]
    ensures forall i, j :: 0 <= i < j < |out| ==> out[i] != out[j]
    ensures forall p :: p in out <==> p in all && ScopeMatches(p.scope, m)
  {
    out := [];
    for i := 0 to |all|
      invariant forall a, b :: 0 <= a < b < |out| ==> out[a] != out[b]
      invariant forall p :: p in out <==> p in all[..i] && ScopeMatches(p.scope, m)
    {
      if ScopeMatches(all[i].scope, m) {
        assert all[i] !in all[..i];
        out := out + [all[i]];
      }
    }
    assert all[..|all|] == all;
  }

  /** The blind spot is real: a policy scoped to the zone "" and a query outside every zone. */
  lemma EmptyKeyIsMissed(idx: Index)
    requires Holds(idx, [Policy("p", true, false, Scope([], [], [], [""], [], [], [], [], []))], [])
    ensures Acceptable([Policy("p", true, false, Scope([], [], [], [""], [], [], [], [], []))], [], 0)
    ensures ScopeMatches(Scope([], [], [], [""], [], [], [], [], []), Match([], "", "a.", "", "", "", "", "A", "udp"))
    ensures !Reached(idx, Match([], "", "a.", "", "", "", "", "A", "udp"), "p")
  {
    var p := Policy("p", true, false, Scope([], [], [], [""], [], [], [], [], []));
    IndexIsComplete(idx, [p], [], Match([], "", "a.", "", "", "", "", "A", "udp"), 0);
  }

  /** Without empty strings in scopes nothing is blind. */
  lemma NonEmptyKeysSuffice(s: Scope, m: Match)
    requires forall d :: d != Global ==> "" !in Keys(s, d)
    ensures !Blind(s, m)
  {
  }
}
