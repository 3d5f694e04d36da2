/** Export as diff and patch: the operations computed from (boot, runtime) replay
    boot into runtime (internal/app/export.go:68-226). */
module Export {
  import opened Text
  import opened Patch

  // ---------------------------------------------------------------- documents by ID

  /** Unique, non-empty IDs. */
  ghost predicate Unique<T>(xs: seq<Item<T>>) {
    && (forall i :: 0 <= i < |xs| ==> xs[i].id != "")
    && (forall i, j :: 0 <= i < j < |xs| ==> xs[i].id != xs[j].id)
  }

  /** policiesByID, zonesByID, recordsByID: later entries overwrite earlier ones. */
  function ByID<T>(xs: seq<Item<T>>): map<string, Item<T>> {
    if xs == [] then map[] else ByID(xs[..|xs| - 1])[xs[|xs| - 1].id := xs[|xs| - 1]]
  }

  /** A map from IDs to objects that carry those IDs. */
  ghost predicate Keyed<T>(m: map<string, Item<T>>) {
    forall k :: k in m ==> k != "" && m[k].id == k
  }

  /** With unique IDs the map holds exactly the list's members. */
  lemma {:induction false} ByIDMembers<T>(xs: seq<Item<T>>)
    requires Unique(xs)
    ensures forall i :: 0 <= i < |xs| ==> xs[i].id in ByID(xs) && ByID(xs)[xs[i].id] == xs[i]
    ensures forall k :: k in ByID(xs) ==> k != "" && ByID(xs)[k].id == k && ByID(xs)[k] in xs
  {
    if xs != [] {
      ByIDMembers(xs[..|xs| - 1]);
      forall i | 0 <= i < |xs| ensures xs[i].id in ByID(xs) && ByID(xs)[xs[i].id] == xs[i] {
        if i < |xs| - 1 { assert xs[..|xs| - 1][i] == xs[i]; }
      }
    }
  }

  lemma ByIDIndex<T>(xs: seq<Item<T>>, id: string)
    requires Unique(xs)
    ensures id in ByID(xs) <==> IndexOf(xs, id) >= 0
    ensures id in ByID(xs) ==> xs[IndexOf(xs, id)] == ByID(xs)[id]
  {
    ByIDMembers(xs);
    if id in ByID(xs) {
      var x := ByID(xs)[id];
      var i :| 0 <= i < |xs| && xs[i] == x;
      assert xs[i].id == id;
    }
  }

  /** Two lists with unique IDs and the same map are permutations of each other. */
  lemma {:induction false} SameMapIsPermutation<T>(xs: seq<Item<T>>, ys: seq<Item<T>>)
    requires Unique(xs) && Unique(ys) && ByID(xs) == ByID(ys)
    ensures multiset(xs) == multiset(ys)
  {
    forall x ensures multiset(xs)[x] == multiset(ys)[x] {
      CountOne(xs, x);
      CountOne(ys, x);
    }
  }

  lemma NotBefore<T>(xs: seq<Item<T>>, i: nat)
    requires Unique(xs) && i < |xs|
    ensures xs[i] !in xs[..i] && xs[i] !in xs[i + 1..]
  {
    var l, r := xs[..i], xs[i + 1..];
    assert forall j :: 0 <= j < |l| ==> l[j].id != xs[i].id;
    assert forall j :: 0 <= j < |r| ==> r[j].id != xs[i].id;
  }

  lemma CountBetween<T>(l: seq<T>, x: T, r: seq<T>)
    requires x !in l && x !in r
    ensures multiset(l + [x] + r)[x] == 1
  {
    assert multiset(l + [x] + r) == multiset(l) + multiset{x} + multiset(r);
  }

  lemma OnceMember<T>(xs: seq<Item<T>>, i: nat)
    requires Unique(xs) && i < |xs|
    ensures multiset(xs)[xs[i]] == 1
  {
    NotBefore(xs, i);
    assert xs == xs[..i] + [xs[i]] + xs[i + 1..];
    CountBetween(xs[..i], xs[i], xs[i + 1..]);
  }

  lemma CountOne<T>(xs: seq<Item<T>>, x: Item<T>)
    requires Unique(xs)
    ensures multiset(xs)[x] == if x.id in ByID(xs) && ByID(xs)[x.id] == x then 1 else 0
  {
    ByIDMembers(xs);
    if x in xs {
      var i :| 0 <= i < |xs| && xs[i] == x;
      OnceMember(xs, i);
    }
  }

  // ---------------------------------------------------------------- one edit, seen by ID

  lemma UniqueSnoc<T>(xs: seq<Item<T>>, v: Item<T>)
    requires Unique(xs) && v.id != "" && IndexOf(xs, v.id) < 0
    ensures Unique(xs + [v])
  {
    var ys := xs + [v];
    assert forall i :: 0 <= i < |xs| ==> ys[i] == xs[i] && ys[i].id != v.id;
  }

  lemma AddByID<T>(xs: seq<Item<T>>, v: Item<T>)
    requires Unique(xs) && v.id != "" && v.id !in ByID(xs)
    ensures ApplyEdit(xs, Edit(Add, v.id, Some(v))) == Ok(xs + [v])
    ensures Unique(xs + [v]) && ByID(xs + [v]) == ByID(xs)[v.id := v]
  {
    ByIDIndex(xs, v.id);
    UniqueSnoc(xs, v);
    assert (xs + [v])[..|xs|] == xs;
  }

  /** The map of a list is the only keyed map with the list's members as its values. */
  lemma ByIDIs<T>(xs: seq<Item<T>>, m: map<string, Item<T>>)
    requires Unique(xs) && Keyed(m)
    requires forall i :: 0 <= i < |xs| ==> xs[i].id in m && m[xs[i].id] == xs[i]
    requires forall k :: k in m ==> m[k] in xs
    ensures ByID(xs) == m
  {
    ByIDMembers(xs);
    forall k ensures k in ByID(xs) <==> k in m {
      if k in m { var j :| 0 <= j < |xs| && xs[j] == m[k]; }
    }
  }

  lemma ReplaceIsUnique<T>(xs: seq<Item<T>>, i: nat, v: Item<T>)
    requires Unique(xs) && i < |xs| && xs[i].id == v.id
    ensures Unique(xs[i := v])
  {
    assert forall j :: 0 <= j < |xs| ==> xs[i := v][j].id == xs[j].id;
  }

  lemma ReplaceByID<T>(xs: seq<Item<T>>, i: nat, v: Item<T>)
    requires Unique(xs) && i < |xs| && xs[i].id == v.id
    ensures Unique(xs[i := v]) && ByID(xs[i := v]) == ByID(xs)[v.id := v]
  {
    ByIDMembers(xs);
    ReplaceIsUnique(xs, i, v);
    var ys := xs[i := v];
    var m := ByID(xs)[v.id := v];
    forall k | k in m ensures m[k] in ys {
      if k == v.id {
        assert ys[i] == v;
      } else {
        var j :| 0 <= j < |xs| && xs[j] == ByID(xs)[k];
        assert ys[j] == m[k];
      }
    }
    ByIDIs(ys, m);
  }

  lemma UpdateByID<T>(xs: seq<Item<T>>, v: Item<T>)
    requires Unique(xs) && v.id in ByID(xs)
    ensures var i := IndexOf(xs, v.id);
            i >= 0 && ApplyEdit(xs, Edit(Update, v.id, Some(v))) == Ok(xs[i := v])
            && Unique(xs[i := v]) && ByID(xs[i := v]) == ByID(xs)[v.id := v]
  {
    ByIDIndex(xs, v.id);
    ReplaceByID(xs, IndexOf(xs, v.id), v);
    assert v.id != "";
  }

  /** Cutting one element out keeps the others and no more. */
  lemma Cut<T>(xs: seq<Item<T>>, i: nat)
    requires Unique(xs) && i < |xs|
    ensures var ys := xs[..i] + xs[i + 1..];
            Unique(ys) && forall x :: x in ys <==> x in xs && x.id != xs[i].id
  {
    var ys := xs[..i] + xs[i + 1..];
    assert forall j :: 0 <= j < |ys| ==> ys[j] == if j < i then xs[j] else xs[j + 1];
    forall x | x in xs && x.id != xs[i].id ensures x in ys {
      var j :| 0 <= j < |xs| && xs[j] == x;
      assert ys[if j < i then j else j - 1] == x;
    }
  }

  lemma RemoveIsCut<T>(xs: seq<Item<T>>, id: string)
    requires Unique(xs) && IndexOf(xs, id) >= 0
    ensures var i := IndexOf(xs, id);
            ApplyEdit(xs, Edit(Remove, id, None)) == Ok(xs[..i] + xs[i + 1..])
  {
    assert xs[IndexOf(xs, id)].id == id;
  }

  lemma RemoveByID<T>(xs: seq<Item<T>>, id: string)
    requires Unique(xs) && id in ByID(xs)
    ensures var r := ApplyEdit(xs, Edit(Remove, id, None));
            r.Ok? && Unique(r.value) && ByID(r.value) == ByID(xs) - {id}
  {
    ByIDIndex(xs, id);
    var i := IndexOf(xs, id);
    RemoveIsCut(xs, id);
    Cut(xs, i);
    ByIDOfFewer(xs, xs[..i] + xs[i + 1..], id);
  }

  lemma ByIDOfFewer<T>(xs: seq<Item<T>>, ys: seq<Item<T>>, id: string)
    requires Unique(xs) && Unique(ys)
    requires forall x :: x in ys <==> x in xs && x.id != id
    ensures ByID(ys) == ByID(xs) - {id}
  {
    ByIDMembers(xs);
    var m := ByID(xs) - {id};
    forall i | 0 <= i < |ys| ensures ys[i].id in m && m[ys[i].id] == ys[i] {
      assert ys[i] in ys;
    }
    ByIDIs(ys, m);
  }

  // ---------------------------------------------------------------- keyedOps and recordOps

  /** What keyedOps and recordOps emit for one ID. */
  function EditFor<T(==)>(id: string, before: map<string, Item<T>>, after: map<string, Item<T>>): seq<Edit<T>> {
    if id !in before then (if id in after then [Edit(Add, id, Some(after[id]))] else [])
    else if id !in after then [Edit(Remove, id, None)]
    else if before[id] != after[id] then [Edit(Update, id, Some(after[id]))]
    else []
  }

  function KeyedEdits<T(==)>(ids: seq<string>, before: map<string, Item<T>>,
                             after: map<string, Item<T>>): seq<Edit<T>>
  {
    if ids == [] then [] else EditFor(ids[0], before, after) + KeyedEdits(ids[1..], before, after)
  }

  ghost predicate Agree<T>(a: map<string, Item<T>>, b: map<string, Item<T>>, k: string) {
    (k in a <==> k in b) && (k in a ==> a[k] == b[k])
  }

  lemma EditsStep<T>(xs: seq<Item<T>>, id: string, before: map<string, Item<T>>, after: map<string, Item<T>>,
                     rest: seq<Edit<T>>)
    returns (ys: seq<Item<T>>)
    requires Unique(xs) && Keyed(after) && Agree(ByID(xs), before, id)
    ensures Unique(ys) && Agree(ByID(ys), after, id)
    ensures forall k :: k != id ==> Agree(ByID(ys), ByID(xs), k)
    ensures ApplyEdits(xs, EditFor(id, before, after) + rest) == ApplyEdits(ys, rest)
  {
    var es := EditFor(id, before, after);
    if es == [] {
      ys := xs;
      assert es + rest == rest;
    } else {
      ys := EditStep(xs, id, before, after);
      ApplyFirst(xs, es, rest);
    }
  }

  lemma ApplyFirst<T>(xs: seq<Item<T>>, es: seq<Edit<T>>, rest: seq<Edit<T>>)
    requires |es| == 1 && ApplyEdit(xs, es[0]).Ok?
    ensures ApplyEdits(xs, es + rest) == ApplyEdits(ApplyEdit(xs, es[0]).value, rest)
  {
    assert (es + rest)[0] == es[0] && (es + rest)[1..] == rest;
  }

  lemma EditStep<T>(xs: seq<Item<T>>, id: string, before: map<string, Item<T>>, after: map<string, Item<T>>)
    returns (ys: seq<Item<T>>)
    requires Unique(xs) && Keyed(after) && Agree(ByID(xs), before, id) && EditFor(id, before, after) != []
    ensures Unique(ys) && Agree(ByID(ys), after, id)
    ensures forall k :: k != id ==> Agree(ByID(ys), ByID(xs), k)
    ensures ApplyEdit(xs, EditFor(id, before, after)[0]) == Ok(ys)
  {
    if id !in before {
      AddByID(xs, after[id]);
    } else if id !in after {
      RemoveByID(xs, id);
    } else {
      UpdateByID(xs, after[id]);
    }
    ys := ApplyEdit(xs, EditFor(id, before, after)[0]).value;
  }

  /** Replaying the edits for `ids` makes the list agree with `after` on all of them. */
  lemma {:induction false} KeyedRoundTrip<T>(xs: seq<Item<T>>, ids: seq<string>, before: map<string, Item<T>>,
                                             after: map<string, Item<T>>)
    requires Unique(xs) && Keyed(after)
    requires forall i, j :: 0 <= i < j < |ids| ==> ids[i] != ids[j]
    requires forall k :: k in ids ==> Agree(ByID(xs), before, k)
    requires forall k :: k !in ids ==> Agree(ByID(xs), after, k)
    ensures var r := ApplyEdits(xs, KeyedEdits(ids, before, after));
            r.Ok? && Unique(r.value) && ByID(r.value) == after
    decreases |ids|
  {
    if ids == [] {
      forall k ensures (k in ByID(xs) <==> k in after) && (k in after ==> ByID(xs)[k] == after[k]) {
        assert Agree(ByID(xs), after, k);
      }
      assert ByID(xs) == after;
    } else {
      var ys := EditsStep(xs, ids[0], before, after, KeyedEdits(ids[1..], before, after));
      forall k | k in ids[1..] ensures Agree(ByID(ys), before, k) {
        assert k in ids && k != ids[0] && Agree(ByID(xs), before, k) && Agree(ByID(ys), ByID(xs), k);
      }
      forall k | k !in ids[1..] ensures Agree(ByID(ys), after, k) {
        if k != ids[0] { assert k !in ids && Agree(ByID(ys), ByID(xs), k) && Agree(ByID(xs), after, k); }
      }
      KeyedRoundTrip(ys, ids[1..], before, after);
    }
  }

  // ---------------------------------------------------------------- edits as operations

  function ValueOf(v: Option<Item<Doc>>): Value {
    if v.Some? then ItemValue(v.value) else NoValue
  }

  function ListOps(k: ListKind, es: seq<Edit<Doc>>): seq<Operation> {
    if es == [] then []
    else [Operation(es[0].op, ListTarget(k, es[0].id), ValueOf(es[0].value))] + ListOps(k, es[1..])
  }

  function RecordOps(zone: string, es: seq<Edit<Doc>>): seq<Operation> {
    if es == [] then []
    else [Operation(es[0].op, RecordTarget(es[0].id, zone), ValueOf(es[0].value))] + RecordOps(zone, es[1..])
  }

  /** A run of list operations edits that list alone. */
  lemma {:induction false} ListOpsApply(st: State, k: ListKind, es: seq<Edit<Doc>>)
    requires ApplyEdits(st.lists.Get(k), es).Ok?
    requires forall i :: 0 <= i < |es| ==> es[i].op != OtherOp
    ensures ApplyAll(st, ListOps(k, es)) == Ok(st.(lists := st.lists.Set(k, ApplyEdits(st.lists.Get(k), es).value)))
    decreases |es|
  {
    if es != [] {
      var xs := ApplyEdit(st.lists.Get(k), es[0]).value;
      var ops := ListOps(k, es);
      assert ops[1..] == ListOps(k, es[1..]);
      ListOpsApply(st.(lists := st.lists.Set(k, xs)), k, es[1..]);
    }
  }

  lemma IndexOfSameIDs<T>(xs: seq<Item<T>>, i: nat, v: Item<T>, id: string)
    requires i < |xs| && v.id == xs[i].id
    ensures IndexOf(xs[i := v], id) == IndexOf(xs, id)
  {
    var ys := xs[i := v];
    assert forall j :: 0 <= j < |xs| ==> ys[j].id == xs[j].id;
  }

  /** A run of record operations edits the records of that zone alone. */
  lemma {:induction false} RecordOpsApply(st: State, zone: string, zi: nat, es: seq<Edit<Doc>>)
    requires zone != "" && zi < |st.zones| && IndexOf(st.zones, zone) == zi
    requires ApplyEdits(st.zones[zi].body.records, es).Ok?
    requires forall i :: 0 <= i < |es| ==> es[i].op != OtherOp
    ensures var rs := ApplyEdits(st.zones[zi].body.records, es).value;
            ApplyAll(st, RecordOps(zone, es)) ==
            Ok(st.(zones := st.zones[zi := Item(zone, st.zones[zi].body.(records := rs))]))
    decreases |es|
  {
    if es == [] {
      assert st.zones[zi := Item(zone, st.zones[zi].body)] == st.zones;
    } else {
      var rs := ApplyEdit(st.zones[zi].body.records, es[0]).value;
      var z := Item(zone, st.zones[zi].body.(records := rs));
      var st' := st.(zones := st.zones[zi := z]);
      var ops := RecordOps(zone, es);
      assert ops[1..] == RecordOps(zone, es[1..]);
      assert Apply(st, ops[0]) == Ok(st');
      IndexOfSameIDs(st.zones, zi, z, zone);
      RecordOpsApply(st', zone, zi, es[1..]);
      var last := Item(zone, st.zones[zi].body.(records := ApplyEdits(rs, es[1..]).value));
      assert st'.zones[zi := last] == st.zones[zi := last];
    }
  }

  lemma {:induction false} EditsAreKnown<T>(ids: seq<string>, before: map<string, Item<T>>, after: map<string, Item<T>>)
    ensures forall i :: 0 <= i < |KeyedEdits(ids, before, after)| ==> KeyedEdits(ids, before, after)[i].op != OtherOp
    decreases |ids|
  {
    if ids != [] { EditsAreKnown(ids[1..], before, after); }
  }

  // ---------------------------------------------------------------- zones

  /** A zone without the order of its records. */
  datatype ZoneView = ZoneView(meta: Doc, records: map<string, Item<Doc>>)

  function ViewOf(z: Zone): ZoneView {
    ZoneView(z.meta, ByID(z.records))
  }

  /** What bootstrapToRuntime emits for one zone ID. */
  ghost function ZoneOpsFor(id: string, bz: map<string, Item<Zone>>, rz: map<string, Item<Zone>>): seq<Operation> {
    if id !in bz then (if id in rz then [Operation(Add, ZoneTarget(id), ZoneValue(rz[id]))] else [])
    else if id !in rz then [Operation(Remove, ZoneTarget(id), NoValue)]
    else if bz[id].body.meta != rz[id].body.meta then [Operation(Update, ZoneTarget(id), ZoneValue(rz[id]))]
    else RecordOps(id, RecordEdits(bz[id].body, rz[id].body))
  }

  ghost function RecordEdits(b: Zone, r: Zone): seq<Edit<Doc>> {
    KeyedEdits(Listing(ByID(b.records).Keys + ByID(r.records).Keys), ByID(b.records), ByID(r.records))
  }

  ghost function ZoneOps(ids: seq<string>, bz: map<string, Item<Zone>>, rz: map<string, Item<Zone>>): seq<Operation> {
    if ids == [] then [] else ZoneOpsFor(ids[0], bz, rz) + ZoneOps(ids[1..], bz, rz)
  }

  ghost predicate SameView(a: map<string, Item<Zone>>, b: map<string, Item<Zone>>, k: string) {
    (k in a <==> k in b) && (k in a ==> ViewOf(a[k].body) == ViewOf(b[k].body))
  }

  ghost predicate UniqueRecords(zs: map<string, Item<Zone>>) {
    forall k :: k in zs ==> Unique(zs[k].body.records)
  }

  /** Sorted listings have no duplicates, so the edits between two lists replay one into the other. */
  lemma ListRoundTrip(xs: seq<Item<Doc>>, ys: seq<Item<Doc>>)
    requires Unique(xs) && Unique(ys)
    ensures var es := KeyedEdits(Listing(ByID(xs).Keys + ByID(ys).Keys), ByID(xs), ByID(ys));
            var r := ApplyEdits(xs, es);
            r.Ok? && Unique(r.value) && ByID(r.value) == ByID(ys)
            && forall i :: 0 <= i < |es| ==> es[i].op != OtherOp
  {
    var ids := Listing(ByID(xs).Keys + ByID(ys).Keys);
    ByIDMembers(ys);
    forall i, j | 0 <= i < j < |ids| ensures ids[i] != ids[j] {
      LessIrreflexive(ids[i]);
    }
    KeyedRoundTrip(xs, ids, ByID(xs), ByID(ys));
    EditsAreKnown(ids, ByID(xs), ByID(ys));
  }

  lemma ZoneStep(st: State, id: string, bz: map<string, Item<Zone>>, rz: map<string, Item<Zone>>)
    returns (ys: seq<Item<Zone>>)
    requires Unique(st.zones) && Agree(ByID(st.zones), bz, id)
    requires Keyed(bz) && Keyed(rz) && UniqueRecords(bz) && UniqueRecords(rz)
    ensures ApplyAll(st, ZoneOpsFor(id, bz, rz)) == Ok(st.(zones := ys))
    ensures Unique(ys) && SameView(ByID(ys), rz, id)
    ensures id in ByID(ys) ==> Unique(ByID(ys)[id].body.records)
    ensures forall k :: k != id ==> Agree(ByID(ys), ByID(st.zones), k)
  {
    if id in bz && id in rz && bz[id].body.meta == rz[id].body.meta {
      ys := RecordsStep(st, id, bz, rz);
    } else if id !in bz && id !in rz {
      ys := st.zones;
    } else {
      ys := WholeZoneStep(st, id, bz, rz);
    }
  }

  lemma ApplyOnly(st: State, op: Operation)
    ensures ApplyAll(st, [op]) == Apply(st, op)
  {
    assert [op][1..] == [];
  }

  /** An operation on a whole zone is an edit of the zone list. */
  lemma ZoneOpApplies(st: State, op: OpKind, id: string, value: Value)
    requires op != OtherOp && ApplyEdit(st.zones, Edit(op, id, ZoneOf(value))).Ok?
    ensures ApplyAll(st, [Operation(op, ZoneTarget(id), value)]) ==
              Ok(st.(zones := ApplyEdit(st.zones, Edit(op, id, ZoneOf(value))).value))
  {
    ApplyOnly(st, Operation(op, ZoneTarget(id), value));
  }

  lemma WholeZoneStep(st: State, id: string, bz: map<string, Item<Zone>>, rz: map<string, Item<Zone>>)
    returns (ys: seq<Item<Zone>>)
    requires Unique(st.zones) && (id in ByID(st.zones) <==> id in bz)
    requires id in bz || id in rz
    requires id in rz ==> rz[id].id == id && id != ""
    requires id in bz && id in rz ==> bz[id].body.meta != rz[id].body.meta
    ensures ApplyAll(st, ZoneOpsFor(id, bz, rz)) == Ok(st.(zones := ys))
    ensures Unique(ys) && ByID(ys) == if id in rz then ByID(st.zones)[id := rz[id]] else ByID(st.zones) - {id}
  {
    if id !in rz {
      RemoveByID(st.zones, id);
      ys := ApplyEdit(st.zones, Edit(Remove, id, None)).value;
      ZoneOpApplies(st, Remove, id, NoValue);
    } else if id !in bz {
      AddByID(st.zones, rz[id]);
      ys := ApplyEdit(st.zones, Edit(Add, id, Some(rz[id]))).value;
      ZoneOpApplies(st, Add, id, ZoneValue(rz[id]));
    } else {
      UpdateByID(st.zones, rz[id]);
      ys := ApplyEdit(st.zones, Edit(Update, id, Some(rz[id]))).value;
      ZoneOpApplies(st, Update, id, ZoneValue(rz[id]));
    }
  }

  lemma RecordsStep(st: State, id: string, bz: map<string, Item<Zone>>, rz: map<string, Item<Zone>>)
    returns (ys: seq<Item<Zone>>)
    requires Unique(st.zones) && Agree(ByID(st.zones), bz, id)
    requires Keyed(bz) && id in bz && id in rz && bz[id].body.meta == rz[id].body.meta
    requires Unique(bz[id].body.records) && Unique(rz[id].body.records)
    ensures ApplyAll(st, RecordOps(id, RecordEdits(bz[id].body, rz[id].body))) == Ok(st.(zones := ys))
    ensures Unique(ys) && SameView(ByID(ys), rz, id)
    ensures id in ByID(ys) ==> Unique(ByID(ys)[id].body.records)
    ensures forall k :: k != id ==> Agree(ByID(ys), ByID(st.zones), k)
  {
    var b, r := bz[id].body, rz[id].body;
    var es := RecordEdits(b, r);
    ByIDIndex(st.zones, id);
    var zi := IndexOf(st.zones, id);
    ListRoundTrip(b.records, r.records);
    RecordOpsApply(st, id, zi, es);
    var z := Item(id, b.(records := ApplyEdits(b.records, es).value));
    UpdateByID(st.zones, z);
    ys := st.zones[zi := z];
  }

  lemma {:induction false} ZonesRoundTrip(st: State, ids: seq<string>, bz: map<string, Item<Zone>>,
                                          rz: map<string, Item<Zone>>)
    returns (ys: seq<Item<Zone>>)
    requires Unique(st.zones) && UniqueRecords(ByID(st.zones))
    requires Keyed(bz) && Keyed(rz) && UniqueRecords(bz) && UniqueRecords(rz)
    requires forall i, j :: 0 <= i < j < |ids| ==> ids[i] != ids[j]
    requires forall k :: k in ids ==> Agree(ByID(st.zones), bz, k)
    requires forall k :: k !in ids ==> SameView(ByID(st.zones), rz, k)
    ensures ApplyAll(st, ZoneOps(ids, bz, rz)) == Ok(st.(zones := ys))
    ensures Unique(ys) && UniqueRecords(ByID(ys)) && forall k :: SameView(ByID(ys), rz, k)
    decreases |ids|
  {
    if ids == [] {
      ys := st.zones;
    } else {
      var zs := ZoneStep(st, ids[0], bz, rz);
      var st' := st.(zones := zs);
      assert UniqueRecords(ByID(zs)) by {
        forall k | k in ByID(zs) ensures Unique(ByID(zs)[k].body.records) {
          if k != ids[0] { assert Agree(ByID(zs), ByID(st.zones), k); }
        }
      }
      forall k | k in ids[1..] ensures Agree(ByID(zs), bz, k) {
        assert k in ids && k != ids[0] && Agree(ByID(zs), ByID(st.zones), k) && Agree(ByID(st.zones), bz, k);
      }
      forall k | k !in ids[1..] ensures SameView(ByID(zs), rz, k) {
        if k != ids[0] { assert k !in ids && Agree(ByID(zs), ByID(st.zones), k) && SameView(ByID(st.zones), rz, k); }
      }
      ys := ZonesRoundTrip(st', ids[1..], bz, rz);
      ApplyAllConcat(st, ZoneOpsFor(ids[0], bz, rz), ZoneOps(ids[1..], bz, rz));
    }
  }

  // ---------------------------------------------------------------- singletons

  function SingleOps(ks: seq<SingleKind>, b: Singles, r: Singles): seq<Operation> {
    if ks == [] then []
    else
      (if b.Get(ks[0]) == r.Get(ks[0]) then [] else [Operation(Update, SingleTarget(ks[0]), SingleValue(r.Get(ks[0])))])
      + SingleOps(ks[1..], b, r)
  }

  lemma {:induction false} SinglesRoundTrip(st: State, ks: seq<SingleKind>, b: Singles, r: Singles) returns (s: Singles)
    requires forall i, j :: 0 <= i < j < |ks| ==> ks[i] != ks[j]
    requires forall k :: k in ks ==> st.singles.Get(k) == b.Get(k)
    ensures ApplyAll(st, SingleOps(ks, b, r)) == Ok(st.(singles := s))
    ensures forall k :: s.Get(k) == if k in ks then r.Get(k) else st.singles.Get(k)
    decreases |ks|
  {
    if ks == [] {
      s := st.singles;
    } else {
      var k := ks[0];
      var head := if b.Get(k) == r.Get(k) then [] else [Operation(Update, SingleTarget(k), SingleValue(r.Get(k)))];
      var st' := if head == [] then st else st.(singles := st.singles.Set(k, r.Get(k)));
      assert ApplyAll(st, head) == Ok(st');
      s := SinglesRoundTrip(st', ks[1..], b, r);
      ApplyAllConcat(st, head, SingleOps(ks[1..], b, r));
      assert forall j :: j in ks <==> j == k || j in ks[1..];
    }
  }

  lemma SinglesExtensional(a: Singles, b: Singles)
    requires forall k :: a.Get(k) == b.Get(k)
    ensures a == b
  {
    assert a.Get(Listeners) == b.Get(Listeners) && a.Get(Defaults) == b.Get(Defaults);
    assert a.Get(CacheSpec) == b.Get(CacheSpec) && a.Get(Observability) == b.Get(Observability);
    assert a.Get(Management) == b.Get(Management) && a.Get(UI) == b.Get(UI);
    assert a.Get(ChaosSafety) == b.Get(ChaosSafety) && a.Get(AccessSpec) == b.Get(AccessSpec);
  }

  // ---------------------------------------------------------------- the whole document

  const SingleOrder: seq<SingleKind> :=
    [Listeners, Defaults, CacheSpec, Observability, Management, UI, ChaosSafety, AccessSpec]

  ghost function EditsOf(k: ListKind, boot: State, runtime: State): seq<Edit<Doc>> {
    var b, r := ByID(boot.lists.Get(k)), ByID(runtime.lists.Get(k));
    KeyedEdits(Listing(b.Keys + r.Keys), b, r)
  }

  ghost function ZonesOf(boot: State, runtime: State): seq<Operation> {
    var b, r := ByID(boot.zones), ByID(runtime.zones);
    ZoneOps(Listing(b.Keys + r.Keys), b, r)
  }

  /** bootstrapToRuntime, in the order the source appends. */
  ghost function Ops(boot: State, runtime: State): seq<Operation> {
    SingleOps(SingleOrder, boot.singles, runtime.singles)
    + ZonesOf(boot, runtime)
    + ListOps(ForwardingPolicies, EditsOf(ForwardingPolicies, boot, runtime))
    + ListOps(UpstreamPools, EditsOf(UpstreamPools, boot, runtime))
    + ListOps(ChaosPolicies, EditsOf(ChaosPolicies, boot, runtime))
  }

  /** Unique, non-empty IDs in every keyed list, as config validation demands. */
  ghost predicate WellFormed(st: State) {
    && Unique(st.zones) && UniqueRecords(ByID(st.zones))
    && forall k :: Unique(st.lists.Get(k))
  }

  /** Equal documents up to the order of keyed lists. */
  ghost predicate SameContent(a: State, b: State) {
    && a.metadata == b.metadata && a.chaosEnabled == b.chaosEnabled && a.emergencyDisabled == b.emergencyDisabled
    && a.singles == b.singles
    && (forall k :: SameView(ByID(a.zones), ByID(b.zones), k))
    && (forall k :: ByID(a.lists.Get(k)) == ByID(b.lists.Get(k)))
  }

  lemma SingleOrderIsComplete()
    ensures forall k: SingleKind :: k in SingleOrder
    ensures forall i, j :: 0 <= i < j < |SingleOrder| ==> SingleOrder[i] != SingleOrder[j]
  {
    forall k: SingleKind ensures k in SingleOrder {
      match k
      case Listeners => assert SingleOrder[0] == k;
      case Defaults => assert SingleOrder[1] == k;
      case CacheSpec => assert SingleOrder[2] == k;
      case Observability => assert SingleOrder[3] == k;
      case Management => assert SingleOrder[4] == k;
      case UI => assert SingleOrder[5] == k;
      case ChaosSafety => assert SingleOrder[6] == k;
      case AccessSpec => assert SingleOrder[7] == k;
    }
  }

  lemma AllSinglesApply(st: State, runtime: State, ks: seq<SingleKind>)
    requires forall k: SingleKind :: k in ks
    requires forall i, j :: 0 <= i < j < |ks| ==> ks[i] != ks[j]
    ensures ApplyAll(st, SingleOps(ks, st.singles, runtime.singles)) == Ok(st.(singles := runtime.singles))
  {
    var s := SinglesRoundTrip(st, ks, st.singles, runtime.singles);
    SinglesExtensional(s, runtime.singles);
  }

  lemma AllZonesApply(st: State, boot: State, runtime: State) returns (ys: seq<Item<Zone>>)
    requires WellFormed(boot) && WellFormed(runtime) && st.zones == boot.zones
    ensures ApplyAll(st, ZonesOf(boot, runtime)) == Ok(st.(zones := ys))
    ensures Unique(ys) && UniqueRecords(ByID(ys)) && forall k :: SameView(ByID(ys), ByID(runtime.zones), k)
  {
    var bz, rz := ByID(boot.zones), ByID(runtime.zones);
    var ids := Listing(bz.Keys + rz.Keys);
    ByIDMembers(boot.zones);
    ByIDMembers(runtime.zones);
    forall i, j | 0 <= i < j < |ids| ensures ids[i] != ids[j] {
      LessIrreflexive(ids[i]);
    }
    ys := ZonesRoundTrip(st, ids, bz, rz);
  }

  lemma OneListApplies(st: State, k: ListKind, boot: State, runtime: State) returns (xs: seq<Item<Doc>>)
    requires WellFormed(boot) && WellFormed(runtime) && st.lists.Get(k) == boot.lists.Get(k)
    ensures ApplyAll(st, ListOps(k, EditsOf(k, boot, runtime))) == Ok(st.(lists := st.lists.Set(k, xs)))
    ensures Unique(xs) && ByID(xs) == ByID(runtime.lists.Get(k))
  {
    ListRoundTrip(boot.lists.Get(k), runtime.lists.Get(k));
    ListOpsApply(st, k, EditsOf(k, boot, runtime));
    xs := ApplyEdits(st.lists.Get(k), EditsOf(k, boot, runtime)).value;
  }

  lemma Replay(boot: State, runtime: State) returns (st: State)
    requires WellFormed(boot) && WellFormed(runtime)
    ensures ApplyAll(boot, Ops(boot, runtime)) == Ok(st) && WellFormed(st)
    ensures st.metadata == boot.metadata && st.chaosEnabled == boot.chaosEnabled
    ensures st.emergencyDisabled == boot.emergencyDisabled
    ensures SameContent(st.(metadata := runtime.metadata, chaosEnabled := runtime.chaosEnabled,
                            emergencyDisabled := runtime.emergencyDisabled), runtime)
  {
    SingleOrderIsComplete();
    AllSinglesApply(boot, runtime, SingleOrder);
    var s1 := boot.(singles := runtime.singles);
    var zs := AllZonesApply(s1, boot, runtime);
    var s2 := s1.(zones := zs);
    var xs := OneListApplies(s2, ForwardingPolicies, boot, runtime);
    var s3 := s2.(lists := s2.lists.Set(ForwardingPolicies, xs));
    var ps := OneListApplies(s3, UpstreamPools, boot, runtime);
    var s4 := s3.(lists := s3.lists.Set(UpstreamPools, ps));
    var cs := OneListApplies(s4, ChaosPolicies, boot, runtime);
    st := s4.(lists := s4.lists.Set(ChaosPolicies, cs));
    ApplyFive(boot, s1, s2, s3, s4, st,
              SingleOps(SingleOrder, boot.singles, runtime.singles), ZonesOf(boot, runtime),
              ListOps(ForwardingPolicies, EditsOf(ForwardingPolicies, boot, runtime)),
              ListOps(UpstreamPools, EditsOf(UpstreamPools, boot, runtime)),
              ListOps(ChaosPolicies, EditsOf(ChaosPolicies, boot, runtime)));
    ListsAre(st.lists, xs, ps, cs, runtime.lists);
  }

  lemma ApplyFive(s0: State, s1: State, s2: State, s3: State, s4: State, s5: State,
                  o1: seq<Operation>, o2: seq<Operation>, o3: seq<Operation>, o4: seq<Operation>, o5: seq<Operation>)
    requires ApplyAll(s0, o1) == Ok(s1) && ApplyAll(s1, o2) == Ok(s2) && ApplyAll(s2, o3) == Ok(s3)
    requires ApplyAll(s3, o4) == Ok(s4) && ApplyAll(s4, o5) == Ok(s5)
    ensures ApplyAll(s0, o1 + o2 + o3 + o4 + o5) == Ok(s5)
  {
    ApplyAllConcat(s0, o1, o2);
    ApplyAllConcat(s0, o1 + o2, o3);
    ApplyAllConcat(s0, o1 + o2 + o3, o4);
    ApplyAllConcat(s0, o1 + o2 + o3 + o4, o5);
  }

  lemma ListsAre(ls: Lists3, xs: seq<Item<Doc>>, ps: seq<Item<Doc>>, cs: seq<Item<Doc>>, want: Lists3)
    requires ls.policies == xs && ls.pools == ps && ls.chaos == cs && Unique(xs) && Unique(ps) && Unique(cs)
    requires ByID(xs) == ByID(want.policies) && ByID(ps) == ByID(want.pools) && ByID(cs) == ByID(want.chaos)
    ensures forall k :: Unique(ls.Get(k)) && ByID(ls.Get(k)) == ByID(want.Get(k))
  {
    forall k ensures Unique(ls.Get(k)) && ByID(ls.Get(k)) == ByID(want.Get(k)) {
      match k
      case ForwardingPolicies => assert ls.Get(k) == xs;
      case UpstreamPools => assert ls.Get(k) == ps;
      case ChaosPolicies => assert ls.Get(k) == cs;
    }
  }

  /** Diff and patch: the exported operations never fail on boot, and they reach runtime,
      up to the order of keyed lists, exactly when the parts no operation can touch agree. */
  lemma RoundTrip(boot: State, runtime: State)
    requires WellFormed(boot) && WellFormed(runtime)
    ensures var r := ApplyAll(boot, Ops(boot, runtime));
            r.Ok? && WellFormed(r.value) &&
            (SameContent(r.value, runtime) <==>
             boot.metadata == runtime.metadata && boot.chaosEnabled == runtime.chaosEnabled
             && boot.emergencyDisabled == runtime.emergencyDisabled)
  {
    var st := Replay(boot, runtime);
  }

  lemma {:induction false} NoEdits<T>(ids: seq<string>, m: map<string, Item<T>>)
    ensures KeyedEdits(ids, m, m) == []
    decreases |ids|
  {
    if ids != [] { NoEdits(ids[1..], m); }
  }

  lemma {:induction false} NoSingleOps(ks: seq<SingleKind>, s: Singles)
    ensures SingleOps(ks, s, s) == []
    decreases |ks|
  {
    if ks != [] { NoSingleOps(ks[1..], s); }
  }

  lemma {:induction false} NoZoneOps(ids: seq<string>, bz: map<string, Item<Zone>>, rz: map<string, Item<Zone>>)
    requires forall k :: SameView(bz, rz, k)
    ensures ZoneOps(ids, bz, rz) == []
    decreases |ids|
  {
    if ids != [] {
      var id := ids[0];
      assert SameView(bz, rz, id);
      if id in bz {
        var m := ByID(bz[id].body.records);
        assert ByID(rz[id].body.records) == m;
        NoEdits(Listing(m.Keys + m.Keys), m);
      }
      NoZoneOps(ids[1..], bz, rz);
    }
  }

  lemma NoListOps(k: ListKind, boot: State, runtime: State)
    requires ByID(boot.lists.Get(k)) == ByID(runtime.lists.Get(k))
    ensures ListOps(k, EditsOf(k, boot, runtime)) == []
  {
    var m := ByID(boot.lists.Get(k));
    NoEdits(Listing(m.Keys + m.Keys), m);
  }

  /** Nothing is exported exactly when the documents differ in nothing that an operation can touch. */
  lemma ExportIsEmpty(boot: State, runtime: State)
    requires WellFormed(boot) && WellFormed(runtime)
    ensures Ops(boot, runtime) == [] <==>
              SameContent(boot.(metadata := runtime.metadata, chaosEnabled := runtime.chaosEnabled,
                                emergencyDisabled := runtime.emergencyDisabled), runtime)
  {
    var same := boot.(metadata := runtime.metadata, chaosEnabled := runtime.chaosEnabled,
                      emergencyDisabled := runtime.emergencyDisabled);
    if SameContent(same, runtime) {
      NoSingleOps(SingleOrder, boot.singles);
      NoZoneOps(Listing(ByID(boot.zones).Keys + ByID(runtime.zones).Keys), ByID(boot.zones), ByID(runtime.zones));
      forall k ensures ListOps(k, EditsOf(k, boot, runtime)) == [] {
        assert ByID(same.lists.Get(k)) == ByID(runtime.lists.Get(k));
        NoListOps(k, boot, runtime);
      }
    }
    var st := Replay(boot, runtime);
  }

  ghost predicate SameZone(z: Item<Zone>, y: Item<Zone>) {
    y.id == z.id && y.body.meta == z.body.meta && multiset(y.body.records) == multiset(z.body.records)
  }

  lemma ZoneHasTwin(a: State, b: State, i: nat)
    requires WellFormed(a) && WellFormed(b) && SameContent(a, b) && i < |a.zones|
    ensures exists y :: y in b.zones && SameZone(a.zones[i], y)
  {
    var z := a.zones[i];
    ByIDMembers(a.zones);
    ByIDMembers(b.zones);
    assert SameView(ByID(a.zones), ByID(b.zones), z.id);
    var y := ByID(b.zones)[z.id];
    SameMapIsPermutation(y.body.records, z.body.records);
    assert SameZone(z, y);
  }

  lemma SameZoneCount(a: State, b: State)
    requires WellFormed(a) && WellFormed(b) && SameContent(a, b)
    ensures |a.zones| == |b.zones|
  {
    CountIDs(a.zones);
    CountIDs(b.zones);
    assert ByID(a.zones).Keys == ByID(b.zones).Keys by {
      forall k ensures k in ByID(a.zones) <==> k in ByID(b.zones) { assert SameView(ByID(a.zones), ByID(b.zones), k); }
    }
  }

  /** Same content means the lists are permutations of each other, zone records included. */
  lemma SameContentIsPermutation(a: State, b: State)
    requires WellFormed(a) && WellFormed(b) && SameContent(a, b)
    ensures forall k :: multiset(a.lists.Get(k)) == multiset(b.lists.Get(k))
    ensures |a.zones| == |b.zones|
    ensures forall i :: 0 <= i < |a.zones| ==> exists y :: y in b.zones && SameZone(a.zones[i], y)
  {
    forall k ensures multiset(a.lists.Get(k)) == multiset(b.lists.Get(k)) {
      SameMapIsPermutation(a.lists.Get(k), b.lists.Get(k));
    }
    SameZoneCount(a, b);
    forall i | 0 <= i < |a.zones| ensures exists y :: y in b.zones && SameZone(a.zones[i], y) { ZoneHasTwin(a, b, i); }
  }

  lemma {:induction false} CountIDs<T>(xs: seq<Item<T>>)
    requires Unique(xs)
    ensures |ByID(xs).Keys| == |xs|
  {
    if xs != [] {
      var ys := xs[..|xs| - 1];
      CountIDs(ys);
      ByIDMembers(ys);
      assert xs[|xs| - 1].id !in ByID(ys);
      assert ByID(xs).Keys == ByID(ys).Keys + {xs[|xs| - 1].id};
    }
  }

  // ---------------------------------------------------------------- the export loops

  method IndexByID<T>(xs: seq<Item<T>>) returns (m: map<string, Item<T>>)
    ensures m == ByID(xs)
  {
    m := map[];
    for i := 0 to |xs|
      invariant m == ByID(xs[..i])
    {
      assert xs[..i + 1][..i] == xs[..i];
      m := m[xs[i].id := xs[i]];
    }
    assert xs[..|xs|] == xs;
  }

  lemma {:induction false} EditsSnoc<T>(ids: seq<string>, id: string, before: map<string, Item<T>>,
                                        after: map<string, Item<T>>)
    ensures KeyedEdits(ids + [id], before, after) == KeyedEdits(ids, before, after) + EditFor(id, before, after)
    decreases |ids|
  {
    if ids == [] {
      assert (ids + [id])[1..] == [];
    } else {
      assert (ids + [id])[1..] == ids[1..] + [id];
      EditsSnoc(ids[1..], id, before, after);
    }
  }

  lemma {:induction false} ListOpsConcat(k: ListKind, a: seq<Edit<Doc>>, b: seq<Edit<Doc>>)
    ensures ListOps(k, a + b) == ListOps(k, a) + ListOps(k, b)
    decreases |a|
  {
    if a == [] {
      assert a + b == b;
    } else {
      assert (a + b)[1..] == a[1..] + b;
      ListOpsConcat(k, a[1..], b);
    }
  }

  lemma {:induction false} RecordOpsConcat(zone: string, a: seq<Edit<Doc>>, b: seq<Edit<Doc>>)
    ensures RecordOps(zone, a + b) == RecordOps(zone, a) + RecordOps(zone, b)
    decreases |a|
  {
    if a == [] {
      assert a + b == b;
    } else {
      assert (a + b)[1..] == a[1..] + b;
      RecordOpsConcat(zone, a[1..], b);
    }
  }

  lemma {:induction false} ZoneOpsSnoc(ids: seq<string>, id: string, bz: map<string, Item<Zone>>,
                                       rz: map<string, Item<Zone>>)
    ensures ZoneOps(ids + [id], bz, rz) == ZoneOps(ids, bz, rz) + ZoneOpsFor(id, bz, rz)
    decreases |ids|
  {
    if ids == [] {
      assert (ids + [id])[1..] == [];
    } else {
      assert (ids + [id])[1..] == ids[1..] + [id];
      ZoneOpsSnoc(ids[1..], id, bz, rz);
    }
  }

  lemma {:induction false} SingleOpsSnoc(ks: seq<SingleKind>, k: SingleKind, b: Singles, r: Singles)
    ensures SingleOps(ks + [k], b, r) == SingleOps(ks, b, r) + SingleOps([k], b, r)
    decreases |ks|
  {
    if ks != [] {
      assert (ks + [k])[1..] == ks[1..] + [k];
      SingleOpsSnoc(ks[1..], k, b, r);
    } else {
      assert ks + [k] == [k];
    }
  }

  lemma Upto<T>(xs: seq<T>, i: nat)
    requires i < |xs|
    ensures xs[..i + 1] == xs[..i] + [xs[i]]
  {
  }

  lemma ListOpsNext(k: ListKind, ids: seq<string>, i: nat, before: map<string, Item<Doc>>,
                    after: map<string, Item<Doc>>)
    requires i < |ids|
    ensures var es := EditFor(ids[i], before, after);
            ListOps(k, KeyedEdits(ids[..i + 1], before, after)) ==
              ListOps(k, KeyedEdits(ids[..i], before, after))
              + (if es == [] then [] else [Operation(es[0].op, ListTarget(k, es[0].id), ValueOf(es[0].value))])
  {
    var es := EditFor(ids[i], before, after);
    Upto(ids, i);
    EditsSnoc(ids[..i], ids[i], before, after);
    ListOpsConcat(k, KeyedEdits(ids[..i], before, after), es);
    if es != [] { assert es == [es[0]] && es[1..] == []; }
  }

  method KeyedOpsOf(k: ListKind, before: map<string, Item<Doc>>, after: map<string, Item<Doc>>)
    returns (ops: seq<Operation>)
    ensures ops == ListOps(k, KeyedEdits(Listing(before.Keys + after.Keys), before, after))
  {
    var ids := SortedIDs(before.Keys + after.Keys);
    ops := [];
    for i := 0 to |ids|
      invariant ops == ListOps(k, KeyedEdits(ids[..i], before, after))
    {
      var es := EditFor(ids[i], before, after);
      ListOpsNext(k, ids, i, before, after);
      if es != [] {
        ops := ops + [Operation(es[0].op, ListTarget(k, es[0].id), ValueOf(es[0].value))];
      }
    }
    assert ids[..|ids|] == ids;
  }

  lemma RecordOpsNext(zone: string, ids: seq<string>, i: nat, br: map<string, Item<Doc>>, ar: map<string, Item<Doc>>)
    requires i < |ids|
    ensures var es := EditFor(ids[i], br, ar);
            RecordOps(zone, KeyedEdits(ids[..i + 1], br, ar)) ==
              RecordOps(zone, KeyedEdits(ids[..i], br, ar))
              + (if es == [] then [] else [Operation(es[0].op, RecordTarget(es[0].id, zone), ValueOf(es[0].value))])
  {
    var es := EditFor(ids[i], br, ar);
    Upto(ids, i);
    EditsSnoc(ids[..i], ids[i], br, ar);
    RecordOpsConcat(zone, KeyedEdits(ids[..i], br, ar), es);
    if es != [] { assert es == [es[0]] && es[1..] == []; }
  }

  method RecordOpsOf(zone: string, before: Zone, after: Zone) returns (ops: seq<Operation>)
    ensures ops == RecordOps(zone, RecordEdits(before, after))
  {
    var br := IndexByID(before.records);
    var ar := IndexByID(after.records);
    var ids := SortedIDs(br.Keys + ar.Keys);
    ops := [];
    for i := 0 to |ids|
      invariant ops == RecordOps(zone, KeyedEdits(ids[..i], br, ar))
    {
      var es := EditFor(ids[i], br, ar);
      RecordOpsNext(zone, ids, i, br, ar);
      if es != [] {
        ops := ops + [Operation(es[0].op, RecordTarget(es[0].id, zone), ValueOf(es[0].value))];
      }
    }
    assert ids[..|ids|] == ids;
  }

  method ZoneOpsOf(boot: seq<Item<Zone>>, runtime: seq<Item<Zone>>) returns (ops: seq<Operation>)
    ensures ops == ZoneOps(Listing(ByID(boot).Keys + ByID(runtime).Keys), ByID(boot), ByID(runtime))
  {
    var bz := IndexByID(boot);
    var rz := IndexByID(runtime);
    var ids := SortedIDs(bz.Keys + rz.Keys);
    ops := [];
    for i := 0 to |ids|
      invariant ops == ZoneOps(ids[..i], bz, rz)
    {
      var id := ids[i];
      Upto(ids, i);
      ZoneOpsSnoc(ids[..i], id, bz, rz);
      var some: seq<Operation>;
      if id !in bz {
        some := if id in rz then [Operation(Add, ZoneTarget(id), ZoneValue(rz[id]))] else [];
      } else if id !in rz {
        some := [Operation(Remove, ZoneTarget(id), NoValue)];
      } else if bz[id].body.meta != rz[id].body.meta {
        some := [Operation(Update, ZoneTarget(id), ZoneValue(rz[id]))];
      } else {
        some := RecordOpsOf(id, bz[id].body, rz[id].body);
      }
      ops := ops + some;
    }
    assert ids[..|ids|] == ids;
  }

  method SingleOpsOf(ks: seq<SingleKind>, b: Singles, r: Singles) returns (ops: seq<Operation>)
    ensures ops == SingleOps(ks, b, r)
  {
    ops := [];
    for i := 0 to |ks|
      invariant ops == SingleOps(ks[..i], b, r)
    {
      Upto(ks, i);
      SingleOpsSnoc(ks[..i], ks[i], b, r);
      if b.Get(ks[i]) != r.Get(ks[i]) {
        ops := ops + [Operation(Update, SingleTarget(ks[i]), SingleValue(r.Get(ks[i])))];
      }
    }
    assert ks[..|ks|] == ks;
  }

  method BootstrapToRuntime(boot: State, runtime: State) returns (ops: seq<Operation>)
    ensures ops == Ops(boot, runtime)
  {
    var o1 := SingleOpsOf(SingleOrder, boot.singles, runtime.singles);
    var o2 := ZoneOpsOf(boot.zones, runtime.zones);
    var bp := IndexByID(boot.lists.policies);
    var rp := IndexByID(runtime.lists.policies);
    var o3 := KeyedOpsOf(ForwardingPolicies, bp, rp);
    var bu := IndexByID(boot.lists.pools);
    var ru := IndexByID(runtime.lists.pools);
    var o4 := KeyedOpsOf(UpstreamPools, bu, ru);
    var bc := IndexByID(boot.lists.chaos);
    var rc := IndexByID(runtime.lists.chaos);
    var o5 := KeyedOpsOf(ChaosPolicies, bc, rc);
    ops := o1 + o2 + o3 + o4 + o5;
  }
}
