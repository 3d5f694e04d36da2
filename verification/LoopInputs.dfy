/** Inputs with CNAME loops: one the server accepts, and one that Compile alone would accept. */
module LoopInputs {
  import opened Text
  import opened Names
  import opened Zones
  import opened ZoneIndex
  import opened Lookup
  import opened Resolver
  import opened Loops

  function Cname(id: string, owner: Name, target: Name): Configured {
    Configured(id, Some(owner), "CNAME", None, 60, [Host(target)])
  }

  function Set(id: string, owner: Name, target: Name): RRset {
    RRset(id, owner, "CNAME", 60, [Host(target)])
  }

  lemma CnameIsCname(id: string, owner: Name, target: Name)
    ensures ToRRset(Derived(Cname(id, owner, target))) == Set(id, owner, target)
  {
  }

  // ---------------------------------------------------------------- a wildcard that points below itself

  const X: Name := ["x", "lab"]
  const Star: Name := ["*", "lab"]

  /** One record: *.lab is an alias of x.lab. */
  function WildZone(): Zone {
    Zone("z", ["lab"], Overlay, None, [], [Cname("r", Star, X)])
  }

  lemma WildEntries()
    ensures Entries(WildZone(), 300) == [Set("r", Star, X)]
    ensures InZone(Star, ["lab"]) && Star != X && Aliases(Records(WildZone()), map[]) == map[Star := X]
  {
    CnameIsCname("r", Star, X);
    var rs := Records(WildZone());
    assert Star[1..] == ["lab"] && Star[0] != X[0] && rs[..0] == [];
  }

  lemma WildCompiles()
    ensures IndexCompiles([WildZone()], 300) && OwnersApart([WildZone()])
  {
    WildEntries();
    CnameIsCname("r", Star, X);
    var zs, m := [WildZone()], map[Star := X];
    assert RecordOk(WildZone(), Records(WildZone())[0]);
    assert zs[..0] == [] && AllAliases(zs) == m;
    assert Hop(m, X, 0) == Some(X) && Hop(m, Star, 1) == Hop(m, X, 0);
    EndIsNoCycle(m, Star, 1, X);
  }

  lemma WildNames(l: string)
    requires l != "*"
    ensures var sets, n := [Set("r", Star, X)], [l, "lab"];
            && InZone(n, ["lab"]) && n != ["lab"] && !Exists(sets, ["lab"], n)
            && Exists(sets, ["lab"], ["lab"]) && Exists(sets, ["lab"], Star) && Source(sets, ["lab"], n) == Star
  {
    var sets, n := [Set("r", Star, X)], [l, "lab"];
    assert n[1..] == ["lab"] && n[0] != Star[0] && Star[0..] == Star && Star[1..] == ["lab"];
    assert sets[0].owner == Star && InZone(sets[0].owner, Star) && |n| == |Star|;
    assert Encloser(sets, ["lab"], n) == ["lab"];
    assert ["*"] + ["lab"] == Star;
  }

  lemma WildAlias(s: Settings, l: string)
    requires l != "*"
    ensures AliasTo(ViewOf(WildZone(), 300, s, "A"), [l, "lab"], X)
  {
    var z, sets, n := WildZone(), [Set("r", Star, X)], [l, "lab"];
    WildEntries();
    WildNames(l);
    assert Find(sets, Star, "A").None? && Find(sets, Star, "CNAME") == Some(sets[0]);
    AliasSynthesized(z, sets, s, n, "A");
  }

  lemma SelfAliasFails(z: Zone, ttl: int, s: Settings, qname: Name, t: string, x: Name)
    requires Compiles(z, ttl) && AliasTo(ViewOf(z, ttl, s, t), qname, x) && AliasTo(ViewOf(z, ttl, s, t), x, x)
    ensures InZoneAnswer(z, ttl, s, qname, t).rcode == ServFail
  {
    SelfAliasIsEndless(ViewOf(z, ttl, s, t), qname, x, MaxDepth(s) + 1);
    ServfailExactly(z, ttl, s, qname, t);
  }

  /** The zone passes validation and compiles, and every name it covers is answered SERVFAIL. */
  lemma WildcardLoops(s: Settings, l: string)
    requires l != "*"
    ensures IndexCompiles([WildZone()], 300) && OwnersApart([WildZone()])
    ensures InZoneAnswer(WildZone(), 300, s, [l, "lab"], "A").rcode == ServFail
  {
    WildCompiles();
    WildAlias(s, l);
    WildAlias(s, "x");
    assert Compiles([WildZone()][0], 300);
    SelfAliasFails(WildZone(), 300, s, [l, "lab"], "A", X);
  }

  // ---------------------------------------------------------------- an overridden loop

  const A: Name := ["a", "sub", "lab"]
  const B: Name := ["b", "lab"]
  const C: Name := ["c"]

  /** In the zone lab, A and B point at each other; the zone sub.lab points A elsewhere. */
  function Outer(): Zone {
    Zone("z0", ["lab"], Overlay, None, [], [Cname("r0", A, B), Cname("r1", B, A)])
  }

  function Inner(): Zone {
    Zone("z1", ["sub", "lab"], Overlay, None, [], [Cname("r2", A, C)])
  }

  function Both(): seq<Zone> {
    [Outer(), Inner()]
  }

  lemma BothEntries()
    ensures Entries(Outer(), 300) == [Set("r0", A, B), Set("r1", B, A)] && Entries(Inner(), 300) == [Set("r2", A, C)]
    ensures A != B && InZone(A, ["lab"]) && InZone(B, ["lab"]) && InZone(A, ["sub", "lab"])
  {
    CnameIsCname("r0", A, B);
    CnameIsCname("r1", B, A);
    CnameIsCname("r2", A, C);
    assert A[2..] == ["lab"] && B[1..] == ["lab"] && A[1..] == ["sub", "lab"] && |A| != |B|;
  }

  lemma OuterAliases()
    ensures Aliases(Records(Outer()), map[]) == map[A := B, B := A]
  {
    CnameIsCname("r0", A, B);
    CnameIsCname("r1", B, A);
    var o := Records(Outer());
    assert |A| != |B|;
    assert o[..1] == [o[0]] && [o[0]][..0] == [];
    assert Aliases([o[0]], map[]) == map[A := B];
  }

  lemma BothAliases()
    ensures AllAliases(Both()) == map[A := C, B := A]
  {
    OuterAliases();
    CnameIsCname("r2", A, C);
    var i := Records(Inner());
    assert |A| != |B| && i[..0] == [];
    assert Both()[..1] == [Outer()] && [Outer()][..0] == [];
    assert AllAliases([Outer()]) == map[A := B, B := A];
    assert AllAliases(Both()) == Aliases(i, map[A := B, B := A]);
    assert Aliases(i, map[A := B, B := A]) == map[A := B, B := A][A := C];
  }

  lemma BothAcyclic()
    ensures !Cyclic(AllAliases(Both()))
  {
    BothAliases();
    var m := AllAliases(Both());
    assert |C| != |A| && |C| != |B| && |A| != |B| && C !in m && m[A] == C && m[B] == A;
    assert Hop(m, A, 1) == Some(C) && Hop(m, B, 2) == Some(C) by {
      assert Hop(m, C, 0) == Some(C) && Hop(m, A, 1) == Hop(m, C, 0) && Hop(m, B, 2) == Hop(m, A, 1);
    }
    EndIsNoCycle(m, A, 1, C);
    EndIsNoCycle(m, B, 2, C);
  }

  lemma InnerCompiles()
    ensures Compiles(Inner(), 300)
  {
    BothEntries();
    CnameIsCname("r2", A, C);
    assert RecordOk(Inner(), Records(Inner())[0]);
  }

  lemma BothCompile()
    ensures IndexCompiles(Both(), 300)
  {
    BothEntries();
    BothAcyclic();
    CnameIsCname("r0", A, B);
    CnameIsCname("r1", B, A);
    CnameIsCname("r2", A, C);
    assert RecordOk(Outer(), Records(Outer())[0]) && RecordOk(Outer(), Records(Outer())[1]);
    assert Compiles(Outer(), 300);
    InnerCompiles();
    assert |Outer().origin| != |Inner().origin|;
  }

  function Pair(): seq<RRset> {
    [Set("r0", A, B), Set("r1", B, A)]
  }

  lemma PairFinds(n: Name, i: nat)
    requires i < 2 && Pair()[i].owner == n
    ensures Find(Pair(), n, "A").None? && Find(Pair(), n, "CNAME") == Some(Pair()[i]) && Exists(Pair(), ["lab"], n)
  {
    BothEntries();
    var sets := Pair();
    assert sets[..1] == [sets[0]] && [sets[0]][..0] == [];
    assert InZone(sets[i].owner, n) && InZone(n, ["lab"]);
  }

  lemma AliasInOuter(s: Settings, n: Name, next: Name, i: nat)
    requires i < 2 && Pair()[i].owner == n && Pair()[i].data == [Host(next)]
    ensures AliasTo(ViewOf(Outer(), 300, s, "A"), n, next)
  {
    BothEntries();
    PairFinds(n, i);
    AliasFound(Outer(), Pair(), s, n, "A");
  }

  lemma BothShadow()
    ensures !OwnersApart(Both())
  {
    var zs := Both();
    CnameIsCname("r0", A, B);
    CnameIsCname("r2", A, C);
    assert AliasAt(Records(zs[0])[0], A) && AliasAt(Records(zs[1])[0], A);
    assert Shadowed(zs, 0, A);
  }

  /** Compile alone accepts the index although two names of its first zone are aliases of each other;
      config validation does not. */
  lemma OverriddenLoopCompiles(s: Settings)
    ensures IndexCompiles(Both(), 300) && !OwnersApart(Both())
    ensures AliasTo(ViewOf(Outer(), 300, s, "A"), A, B) && AliasTo(ViewOf(Outer(), 300, s, "A"), B, A)
  {
    BothCompile();
    BothShadow();
    AliasInOuter(s, A, B, 0);
    AliasInOuter(s, B, A, 1);
  }
}
