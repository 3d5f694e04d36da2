/** Domain names as label sequences, and the string tests the source runs on them
    (internal/snapshot/zone_index.go:54-81, 194-240; internal/snapshot/forwarding_index.go:58-75). */
module Names {
  import opened Text

  /** Leftmost label first; the root is the empty sequence. */
  type Name = seq<string>

  predicate ValidLabel(l: string) {
    l != "" && '.' !in l
  }

  predicate WellFormed(n: Name) {
    forall i :: 0 <= i < |n| ==> ValidLabel(n[i])
  }

  /** `z` is `n` or an ancestor of `n`. */
  predicate InZone(n: Name, z: Name) {
    |z| <= |n| && n[|n| - |z|..] == z
  }

  function Join(n: Name): string {
    if n == [] then "" else n[0] + "." + Join(n[1..])
  }

  /** Canonical presentation form: every label followed by a dot, and "." for the root. */
  function Presented(n: Name): string {
    if n == [] then "." else Join(n)
  }

  // ---------------------------------------------------------------- the string tests

  predicate HasSuffix(s: string, t: string) {
    |t| <= |s| && s[|s| - |t|..] == t
  }

  /** snapshot.InZone */
  predicate InZoneText(name: string, zone: string) {
    if zone == "" then false
    else if zone == "." then true
    else name == zone || HasSuffix(name, "." + zone)
  }

  /** strings.IndexByte(s, '.') */
  function DotIndex(s: string): (i: int)
    ensures -1 <= i < |s|
    ensures i >= 0 ==> s[i] == '.' && forall j :: 0 <= j < i ==> s[j] != '.'
    ensures i < 0 ==> forall j :: 0 <= j < |s| ==> s[j] != '.'
  {
    if s == "" then -1
    else if s[0] == '.' then 0
    else
      assert forall j :: 0 < j < |s| ==> s[j] == s[1..][j - 1];
      var r := DotIndex(s[1..]);
      if r < 0 then -1 else r + 1
  }

  /** snapshot.ParentName */
  function ParentText(name: string): string {
    if name == "" || name == "." then ""
    else
      var s := if HasSuffix(name, ".") then name else name + ".";
      var rest := s[..|s| - 1];
      var i := DotIndex(rest);
      if i < 0 then "." else rest[i + 1..] + "."
  }

  function Parents(s: string, k: nat): string
    decreases k
  {
    if k == 0 then s else Parents(ParentText(s), k - 1)
  }

  // ---------------------------------------------------------------- labels and strings agree

  lemma JoinNonEmpty(n: Name)
    requires n != []
    ensures |Join(n)| >= 1 && Join(n)[|Join(n)| - 1] == '.'
    ensures WellFormed(n) ==> |Join(n)| >= 2
  {
    if |n| > 1 {
      JoinNonEmpty(n[1..]);
    } else {
      assert Join(n[1..]) == "";
    }
  }

  lemma {:induction false} JoinConcat(a: Name, b: Name)
    ensures Join(a + b) == Join(a) + Join(b)
  {
    if a == [] {
      assert a + b == b;
    } else {
      assert (a + b)[1..] == a[1..] + b;
      JoinConcat(a[1..], b);
    }
  }

  lemma FirstDot(l: string, r: string)
    requires '.' !in l
    ensures DotIndex(l + "." + r) == |l|
  {
    var s := l + "." + r;
    assert s[|l|] == '.';
    assert forall j :: 0 <= j < |l| ==> s[j] == l[j];
  }

  lemma {:induction false} JoinInjective(a: Name, b: Name)
    requires WellFormed(a) && WellFormed(b) && Join(a) == Join(b)
    ensures a == b
  {
    if a == [] || b == [] {
      if a != [] { JoinNonEmpty(a); }
      if b != [] { JoinNonEmpty(b); }
    } else {
      FirstDot(a[0], Join(a[1..]));
      FirstDot(b[0], Join(b[1..]));
      var s := Join(a);
      assert a[0] == s[..|a[0]|] && b[0] == s[..|b[0]|];
      assert Join(a[1..]) == s[|a[0]| + 1..] && Join(b[1..]) == s[|b[0]| + 1..];
      JoinInjective(a[1..], b[1..]);
      assert a == [a[0]] + a[1..] && b == [b[0]] + b[1..];
    }
  }

  /** The text form determines the name. */
  lemma PresentedInjective(a: Name, b: Name)
    requires WellFormed(a) && WellFormed(b) && Presented(a) == Presented(b)
    ensures a == b
  {
    if a != [] { JoinNonEmpty(a); }
    if b != [] { JoinNonEmpty(b); }
    if a != [] && b != [] { JoinInjective(a, b); }
  }

  lemma ParentOfDotted(rest: string)
    requires rest != ""
    ensures ParentText(rest + ".") == if DotIndex(rest) < 0 then "." else rest[DotIndex(rest) + 1..] + "."
  {
    var s := rest + ".";
    assert s[|s| - 1..] == "." && s[..|s| - 1] == rest;
  }

  lemma ParentOfJoin(l: string, tail: string)
    requires ValidLabel(l) && (tail == "" || (|tail| >= 2 && HasSuffix(tail, ".")))
    ensures ParentText(l + "." + tail) == if tail == "" then "." else tail
  {
    if tail == "" {
      assert l + "." + tail == l + ".";
      ParentOfDotted(l);
    } else {
      var cut := tail[..|tail| - 1];
      assert tail == cut + tail[|tail| - 1..];
      var rest := l + "." + cut;
      assert l + "." + tail == rest + ".";
      ParentOfDotted(rest);
      FirstDot(l, cut);
      assert rest[|l| + 1..] == cut;
    }
  }

  /** ParentName drops the leftmost label; the root has no parent. */
  lemma ParentIsTail(n: Name)
    requires WellFormed(n)
    ensures ParentText(Presented(n)) == if n == [] then "" else Presented(n[1..])
  {
    if n != [] {
      if |n| > 1 { JoinNonEmpty(n[1..]); }
      ParentOfJoin(n[0], Join(n[1..]));
    }
  }

  /** Along a chain of parents, `k` steps of ParentName reach the k-th member. */
  lemma {:induction false} ParentsFollow(chain: seq<string>, k: nat)
    requires k < |chain| && forall i :: 0 < i < |chain| ==> chain[i] == ParentText(chain[i - 1])
    ensures Parents(chain[0], k) == chain[k]
    decreases k
  {
    if k > 0 {
      var rest := chain[1..];
      assert rest[0] == ParentText(chain[0]);
      ParentsFollow(rest, k - 1);
    }
  }

  lemma ParentOfSuffix(n: Name, i: nat)
    requires WellFormed(n) && i < |n|
    ensures Presented(n[i + 1..]) == ParentText(Presented(n[i..]))
  {
    var m := n[i..];
    ParentIsTail(m);
    assert m[1..] == n[i + 1..];
  }

  function Suffixes(n: Name): (chain: seq<string>)
    ensures |chain| == |n| + 1 && forall i :: 0 <= i <= |n| ==> chain[i] == Presented(n[i..])
  {
    seq(|n| + 1, i requires 0 <= i <= |n| => Presented(n[i..]))
  }

  lemma ParentsAreTails(n: Name, k: nat)
    requires WellFormed(n) && k <= |n|
    ensures Parents(Presented(n), k) == Presented(n[k..])
  {
    var chain := Suffixes(n);
    forall i | 0 < i < |chain| ensures chain[i] == ParentText(chain[i - 1]) { ParentOfSuffix(n, i - 1); }
    assert n[0..] == n;
    ParentsFollow(chain, k);
  }

  lemma SuffixOfTail(n: Name, z: Name)
    requires WellFormed(n) && WellFormed(z) && n != [] && z != []
    requires HasSuffix(Join(n), "." + Join(z))
    ensures Join(z) == Join(n[1..]) || HasSuffix(Join(n[1..]), "." + Join(z))
  {
    var s, tail, t := Join(n), Join(n[1..]), "." + Join(z);
    var at := |s| - |t|;
    assert s == n[0] + "." + tail;
    assert s[at] == s[at..][0] == '.';
    assert ValidLabel(n[0]);
    assert forall j :: 0 <= j < |n[0]| ==> s[j] == n[0][j];
    assert at >= |n[0]|;
    if |Join(z)| == |tail| {
      assert s[at..] == "." + tail;
      assert t[1..] == Join(z) && ("." + tail)[1..] == tail;
    } else {
      assert tail[|tail| - |t|..] == s[at..];
    }
  }

  lemma {:induction false} SuffixMeansAncestor(n: Name, z: Name)
    requires WellFormed(n) && WellFormed(z) && z != [] && HasSuffix(Join(n), "." + Join(z))
    ensures |z| < |n| && InZone(n, z)
  {
    if n != [] {
      SuffixOfTail(n, z);
      if Join(z) == Join(n[1..]) {
        JoinInjective(z, n[1..]);
      } else {
        SuffixMeansAncestor(n[1..], z);
        assert n[1..][|n| - 1 - |z|..] == n[|n| - |z|..];
      }
    }
  }

  lemma DotBefore(a: string, b: string)
    requires a != "" && a[|a| - 1] == '.'
    ensures HasSuffix(a + b, "." + b)
  {
    var s, t := a + b, "." + b;
    assert s[|s| - |t|..] == [a[|a| - 1]] + b;
  }

  lemma AncestorHasSuffix(n: Name, z: Name)
    requires z != [] && |z| < |n| && InZone(n, z)
    ensures HasSuffix(Join(n), "." + Join(z))
  {
    var p := n[..|n| - |z|];
    assert n == p + z;
    JoinConcat(p, z);
    JoinNonEmpty(p);
    DotBefore(Join(p), Join(z));
  }

  /** The suffix test respects label boundaries: it is label-suffix on well-formed names. */
  lemma InZoneTextIsInZone(n: Name, z: Name)
    requires WellFormed(n) && WellFormed(z)
    ensures InZoneText(Presented(n), Presented(z)) <==> InZone(n, z)
  {
    if z != [] {
      JoinNonEmpty(z);
      if InZone(n, z) {
        if |z| < |n| { AncestorHasSuffix(n, z); }
      }
      if InZoneText(Presented(n), Presented(z)) {
        if Presented(n) == Presented(z) {
          PresentedInjective(n, z);
        } else if n != [] {
          SuffixMeansAncestor(n, z);
        }
      }
    }
  }

  /** A zone contains a name exactly when iterating ParentName from the name reaches the zone. */
  lemma InZoneIsReachedByParents(n: Name, z: Name)
    requires WellFormed(n) && WellFormed(z)
    ensures InZoneText(Presented(n), Presented(z)) <==>
              exists k :: 0 <= k <= |n| && Parents(Presented(n), k) == Presented(z)
  {
    InZoneTextIsInZone(n, z);
    if InZone(n, z) {
      ParentsAreTails(n, |n| - |z|);
      assert Parents(Presented(n), |n| - |z|) == Presented(z);
    }
    if k :| 0 <= k <= |n| && Parents(Presented(n), k) == Presented(z) {
      ParentsAreTails(n, k);
      PresentedInjective(n[k..], z);
    }
  }

  // ---------------------------------------------------------------- longest-suffix selection

  /** suffixRank */
  function Rank(zone: string): nat {
    if zone == "" || zone == "." then 0 else |zone|
  }

  ghost predicate Matches(byID: map<string, string>, qname: string, id: string) {
    id in byID && InZoneText(qname, byID[id])
  }

  ghost predicate Beats(byID: map<string, string>, best: string, id: string)
    requires best in byID && id in byID
  {
    || Rank(byID[id]) < Rank(byID[best])
    || (Rank(byID[id]) == Rank(byID[best]) && (id == best || Less(best, id)))
  }

  /** ZoneIndex.Select and ForwardingIndex.Select: iterate over the map in any order. */
  method Select(byID: map<string, string>, qname: string) returns (best: string, found: bool)
    ensures found <==> exists id :: Matches(byID, qname, id)
    ensures found ==> Matches(byID, qname, best) && forall id :: Matches(byID, qname, id) ==> Beats(byID, best, id)
  {
    best := "";
    var bestLen: int := -1;
    var todo := byID.Keys;
    while todo != {}
      invariant todo <= byID.Keys && bestLen >= -1
      invariant bestLen < 0 ==> forall id :: id in byID.Keys - todo ==> !Matches(byID, qname, id)
      invariant bestLen >= 0 ==>
                  && Matches(byID, qname, best) && bestLen == Rank(byID[best])
                  && forall id :: id in byID.Keys - todo && Matches(byID, qname, id) ==> Beats(byID, best, id)
      decreases |todo|
    {
      var id :| id in todo;
      todo := todo - {id};
      if InZoneText(qname, byID[id]) {
        var n := Rank(byID[id]);
        if bestLen >= 0 {
          LessTotal(id, best);
          forall j | j in byID.Keys - todo && Matches(byID, qname, j) && Beats(byID, best, j) && Less(id, best)
            && Less(best, j)
            ensures Less(id, j)
          {
            LessTransitive(id, best, j);
          }
        }
        if n > bestLen || (n == bestLen && Less(id, best)) {
          bestLen := n;
          best := id;
        }
      }
    }
    found := bestLen >= 0;
  }

  /** The compiled suffixes: one per ID, well-formed, no suffix twice (the duplicate checks of
      resolver.Compile and forwarder.Compile). */
  ghost predicate Distinct(zones: map<string, Name>) {
    && (forall id :: id in zones ==> WellFormed(zones[id]))
    && (forall a, b :: a in zones && b in zones && zones[a] == zones[b] ==> a == b)
  }

  function Texts(zones: map<string, Name>): map<string, string> {
    map id | id in zones :: Presented(zones[id])
  }

  /** Zones that contain one name lie on one ancestor chain. */
  lemma MatchesFormChain(n: Name, a: Name, b: Name)
    requires InZone(n, a) && InZone(n, b)
    ensures InZone(a, b) || InZone(b, a)
  {
    if |a| <= |b| {
      assert b[|b| - |a|..] == n[|n| - |a|..];
    } else {
      assert a[|a| - |b|..] == n[|n| - |b|..];
    }
  }

  lemma DeeperIsLonger(a: Name, b: Name)
    requires WellFormed(a) && WellFormed(b) && InZone(a, b) && a != b
    ensures Rank(Presented(b)) < Rank(Presented(a))
  {
    var p := a[..|a| - |b|];
    assert a == p + b;
    JoinConcat(p, b);
    JoinNonEmpty(p);
    if b != [] { JoinNonEmpty(b); }
    JoinNonEmpty(a);
  }

  /** `id` names the deepest zone that contains `n`: every zone containing `n` contains it too. */
  ghost predicate Deepest(zones: map<string, Name>, n: Name, id: string) {
    && id in zones && InZone(n, zones[id])
    && forall j :: j in zones && InZone(n, zones[j]) ==> InZone(zones[id], zones[j])
  }

  lemma DeepestUnique(zones: map<string, Name>, n: Name, a: string, b: string)
    requires Distinct(zones) && Deepest(zones, n, a) && Deepest(zones, n, b)
    ensures a == b
  {
    var x, y := zones[a], zones[b];
    assert InZone(x, y) && InZone(y, x);
    assert x == y;
  }

  /** Whatever order the map is iterated in, the selected ID is the one deepest zone. */
  lemma SelectedIsDeepest(zones: map<string, Name>, n: Name, best: string)
    requires Distinct(zones) && WellFormed(n)
    requires Matches(Texts(zones), Presented(n), best)
    requires forall id :: Matches(Texts(zones), Presented(n), id) ==> Beats(Texts(zones), best, id)
    ensures forall id :: Deepest(zones, n, id) <==> id == best
  {
    InZoneTextIsInZone(n, zones[best]);
    forall j | j in zones && InZone(n, zones[j]) ensures InZone(zones[best], zones[j]) {
      InZoneTextIsInZone(n, zones[j]);
      assert Matches(Texts(zones), Presented(n), j);
      MatchesFormChain(n, zones[best], zones[j]);
      if !InZone(zones[best], zones[j]) {
        DeeperIsLonger(zones[j], zones[best]);
      }
    }
    forall id | Deepest(zones, n, id) ensures id == best { DeepestUnique(zones, n, id, best); }
  }

  /** Selection by label suffix, as later components use it. */
  ghost function Chosen(zones: map<string, Name>, n: Name): Option<string> {
    if exists id :: Deepest(zones, n, id) then
      var id :| Deepest(zones, n, id);
      Some(id)
    else None
  }

  /** A name is in some zone exactly when there is a deepest one. */
  lemma {:induction false} DeepestExists(zones: map<string, Name>, n: Name, id: string)
    requires id in zones && InZone(n, zones[id])
    ensures exists j :: Deepest(zones, n, j)
    decreases |n| - |zones[id]|
  {
    if !Deepest(zones, n, id) {
      var j :| j in zones && InZone(n, zones[j]) && !InZone(zones[id], zones[j]);
      MatchesFormChain(n, zones[id], zones[j]);
      DeepestExists(zones, n, j);
    }
  }
}
