/** What a change set means: a document as a board of maps from IDs to objects, upstreams flat over all
    pools, and each operation as the edit of one entry (internal/app/operations.go). The lists of the
    document implement it, as long as its IDs are unique. */
module Board {
  import opened Text
  import opened Patch
  import opened Export

  datatype Placed = Placed(pool: string, text: string)

  datatype Board = Board(metadata: Doc, chaosEnabled: bool, emergencyDisabled: bool, singles: Singles,
                         groups: map<string, string>, zones: map<string, ZoneView>, policies: map<string, Doc>,
                         pools: map<string, string>, upstreams: map<string, Placed>,
                         chaos: map<string, (string, string)>)

  function BodyMap<T>(m: map<string, Item<T>>): map<string, T> {
    map k | k in m :: m[k].body
  }

  function Bodies<T>(xs: seq<Item<T>>): map<string, T> {
    BodyMap(ByID(xs))
  }

  lemma BodyMapPut<T>(m: map<string, Item<T>>, id: string, x: Item<T>)
    ensures BodyMap(m[id := x]) == BodyMap(m)[id := x.body]
  {
  }

  lemma BodyMapDrop<T>(m: map<string, Item<T>>, id: string)
    ensures BodyMap(m - {id}) == BodyMap(m) - {id}
  {
  }

  function MapAll<A, B>(m: map<string, A>, f: A -> B): map<string, B> {
    map k | k in m :: f(m[k])
  }

  /** The upstreams of each pool. */
  type Pools = map<string, map<string, string>>

  function PoolMap(m: map<string, Item<Doc>>): Pools {
    map p | p in m :: Bodies(UpstreamsOf(m[p].body))
  }

  predicate Has(m: Pools, p: string, id: string) {
    p in m && id in m[p]
  }

  function UpstreamIDs(m: Pools): set<string> {
    set p, id | p in m && id in m[p] :: id
  }

  lemma IDHasPool(m: Pools, id: string)
    requires id in UpstreamIDs(m)
    ensures exists p :: Has(m, p, id)
  {
    var p :| p in m && id in m[p];
    assert Has(m, p, id);
  }

  /** Every upstream with its pool. */
  ghost function Flatten(m: Pools): map<string, Placed> {
    map id | id in UpstreamIDs(m) :: PlaceOf(m, id)
  }

  ghost function PlaceOf(m: Pools, id: string): Placed
    requires id in UpstreamIDs(m)
  {
    assert exists p :: Has(m, p, id) by { IDHasPool(m, id); }
    var p :| Has(m, p, id);
    Placed(p, m[p][id])
  }

  function ActivationOf(d: Doc): string {
    if d.Chaos? then d.activation else ""
  }

  function TextOf(d: Doc): string {
    d.text
  }

  function ChaosView(d: Doc): (string, string) {
    (d.text, ActivationOf(d))
  }

  function Texts(pools: seq<Item<Doc>>): map<string, string> {
    MapAll(Bodies(pools), TextOf)
  }

  ghost function Abs(st: State): Board {
    Board(st.metadata, st.chaosEnabled, st.emergencyDisabled, Bare(st.singles), Bodies(GroupsOf(st.singles.access)),
          MapAll(Bodies(st.zones), ViewOf), Bodies(st.lists.policies),
          Texts(st.lists.pools), Flatten(PoolMap(ByID(st.lists.pools))),
          MapAll(Bodies(st.lists.chaos), ChaosView))
  }

  /** The singletons; the groups of the access object are apart. */
  function Bare(s: Singles): Singles {
    s.(access := Text(s.access.text))
  }

  // ---------------------------------------------------------------- unique IDs

  /** No upstream is in two pools. */
  ghost predicate Disjoint(m: Pools) {
    forall p, q, id :: Has(m, p, id) && Has(m, q, id) ==> p == q
  }

  /** Upstream IDs are unique in a pool and over all pools. */
  ghost predicate PoolsApart(m: map<string, Item<Doc>>) {
    (forall p :: p in m ==> Unique(UpstreamsOf(m[p].body))) && Disjoint(PoolMap(m))
  }

  ghost predicate WellKeyed(st: State) {
    && Unique(st.zones) && UniqueRecords(ByID(st.zones)) && Unique(st.lists.policies) && Unique(st.lists.pools)
    && Unique(st.lists.chaos) && Unique(GroupsOf(st.singles.access)) && PoolsApart(ByID(st.lists.pools))
  }

  ghost predicate InNoOther(m: Pools, p: string, ups: map<string, string>) {
    forall q, u :: q != p && Has(m, q, u) ==> u !in ups
  }

  /** The value itself has unique IDs, and shares no upstream with another pool. */
  ghost predicate Fits(st: State, op: Operation) {
    op.op != Remove ==>
      match op.target
      case ZoneTarget(_) => op.value.ZoneValue? ==> Unique(op.value.z.body.records)
      case SingleTarget(AccessSpec) => op.value.SingleValue? ==> Unique(GroupsOf(op.value.s))
      case ListTarget(UpstreamPools, id) =>
        op.value.ItemValue? ==>
          && Unique(UpstreamsOf(op.value.i.body))
          && InNoOther(PoolMap(ByID(st.lists.pools)), id, Bodies(UpstreamsOf(op.value.i.body)))
      case _ => true
  }

  // ---------------------------------------------------------------- what operations mean

  /** The object an operation carries for `id`: it may leave its own ID out, and not name another. */
  function Offered<T>(v: Option<Item<T>>, id: string): Option<T> {
    if v.Some? && (v.value.id == "" || v.value.id == id) then Some(v.value.body) else None
  }

  function ItemFor<T>(id: string, d: Option<T>): Option<Item<T>> {
    if d.Some? then Some(Item(id, d.value)) else None
  }

  function MapOption<A, B>(o: Option<A>, f: A -> B): Option<B> {
    if o.Some? then Some(f(o.value)) else None
  }

  /** One entry is added, replaced or removed; adding needs it absent, the others need it present. */
  function EditMap<V>(m: map<string, V>, op: OpKind, id: string, v: Option<V>): Result<map<string, V>, Error> {
    if id == "" || op == OtherOp then Err(Invalid)
    else if op == Add && id in m then Err(AlreadyExists)
    else if op != Add && id !in m then Err(NotFound)
    else if op == Remove then Ok(m - {id})
    else if v.None? then Err(Invalid)
    else Ok(m[id := v.value])
  }

  /** The upstreams once pool `p` holds `ups` and no others. */
  function WithPool(all: map<string, Placed>, p: string, ups: map<string, string>): map<string, Placed> {
    (map u | u in all && all[u].pool != p :: all[u]) + (map u | u in ups :: Placed(p, ups[u]))
  }

  /** The upstreams after an operation on one of them; only an addition names the pool. */
  function UpstreamMeant(pools: map<string, string>, all: map<string, Placed>, op: OpKind, id: string,
                         value: Value): Result<map<string, Placed>, Error>
  {
    var text := Offered(PartOf(value), id);
    if op != Add then
      EditMap(all, op, id, if text.Some? && id in all then Some(Placed(all[id].pool, text.value)) else None)
    else if id == "" then Err(Invalid)
    else if id in all then Err(AlreadyExists)
    else if text.None? || value.pool == "" then Err(Invalid)
    else if value.pool !in pools then Err(NotFound)
    else Ok(all[id := Placed(value.pool, text.value)])
  }

  function Lift<A, B>(r: Result<A, Error>, f: A -> B): Result<B, Error> {
    match r case Err(x) => Err(x) case Ok(a) => Ok(f(a))
  }

  ghost function Meant(b: Board, op: Operation): Result<Board, Error> {
    if op.op == OtherOp then Err(Invalid)
    else match op.target
      case ZoneTarget(id) =>
        Lift(EditMap(b.zones, op.op, id, MapOption(Offered(ZoneOf(op.value), id), ViewOf)),
             zs => b.(zones := zs))
      case RecordTarget(id, zid) =>
        if zid == "" || id == "" then Err(Invalid)
        else if zid !in b.zones then Err(NotFound)
        else
          Lift(EditMap(b.zones[zid].records, op.op, id, ItemFor(id, Offered(ItemOf(op.value), id))),
               rs => b.(zones := b.zones[zid := b.zones[zid].(records := rs)]))
      case ListTarget(ForwardingPolicies, id) =>
        Lift(EditMap(b.policies, op.op, id, Offered(ItemOf(op.value), id)), ps => b.(policies := ps))
      case ListTarget(ChaosPolicies, id) =>
        Lift(EditMap(b.chaos, op.op, id,
                     MapOption(Offered(ItemOf(op.value), id), ChaosView)),
             cs => b.(chaos := cs))
      case ListTarget(UpstreamPools, id) =>
        var v := Offered(ItemOf(op.value), id);
        var ups := if op.op != Remove && v.Some? then Bodies(UpstreamsOf(v.value)) else map[];
        Lift(EditMap(b.pools, op.op, id, MapOption(v, TextOf)),
             ps => b.(pools := ps, upstreams := WithPool(b.upstreams, id, ups)))
      case SingleTarget(k) =>
        if op.op != Update || !op.value.SingleValue? then Err(Invalid)
        else if k == AccessSpec then
          Ok(b.(singles := b.singles.Set(k, Text(op.value.s.text)), groups := Bodies(GroupsOf(op.value.s))))
        else Ok(b.(singles := b.singles.Set(k, op.value.s)))
      case UpstreamTarget(id) =>
        Lift(UpstreamMeant(b.pools, b.upstreams, op.op, id, op.value), us => b.(upstreams := us))
      case GroupTarget(id) =>
        Lift(EditMap(b.groups, op.op, id, Offered(PartOf(op.value), id)), gs => b.(groups := gs))
      case ActivationTarget(id) =>
        if op.op != Update || id == "" then Err(Invalid)
        else if id !in b.chaos then Err(NotFound)
        else if !op.value.ActivationValue? then Err(Invalid)
        else Ok(b.(chaos := b.chaos[id := (b.chaos[id].0, op.value.activation)]))
      case OtherTarget => Err(Invalid)
  }

  // ---------------------------------------------------------------- one list

  lemma BodiesHold<T>(xs: seq<Item<T>>, id: string)
    requires Unique(xs)
    ensures id in Bodies(xs) <==> IndexOf(xs, id) >= 0
    ensures id in Bodies(xs) ==> ByID(xs)[id] == Item(id, Bodies(xs)[id]) && xs[IndexOf(xs, id)] == ByID(xs)[id]
  {
    ByIDIndex(xs, id);
    ByIDMembers(xs);
  }

  lemma AddMeans<T>(xs: seq<Item<T>>, id: string, v: Option<Item<T>>)
    requires Unique(xs) && id != ""
    ensures EditGoes(xs, Edit(Add, id, v))
  {
    BodiesHold(xs, id);
    NamedIsOffered(v, id);
    if IndexOf(xs, id) < 0 && Named(v, id).Ok? {
      var x := Named(v, id).value;
      Appended(xs, x);
      assert ApplyEdit(xs, Edit(Add, id, v)) == Ok(xs + [x]);
    }
  }

  lemma NamedIsOffered<T>(v: Option<Item<T>>, id: string)
    ensures Named(v, id) == match Offered(v, id) { case None => Err(Invalid) case Some(d) => Ok(Item(id, d)) }
  {
  }

  lemma Appended<T>(xs: seq<Item<T>>, x: Item<T>)
    requires Unique(xs) && x.id != "" && IndexOf(xs, x.id) < 0
    ensures Unique(xs + [x]) && ByID(xs + [x]) == ByID(xs)[x.id := x] && Bodies(xs + [x]) == Bodies(xs)[x.id := x.body]
  {
    ByIDIndex(xs, x.id);
    AddByID(xs, x);
    BodyMapPut(ByID(xs), x.id, x);
  }

  lemma UpdateMeans<T>(xs: seq<Item<T>>, id: string, v: Option<Item<T>>)
    requires Unique(xs) && id != ""
    ensures EditGoes(xs, Edit(Update, id, v))
  {
    BodiesHold(xs, id);
    var i := IndexOf(xs, id);
    if i >= 0 && Named(v, id).Ok? {
      UpdateByID(xs, Named(v, id).value);
      BodyMapPut(ByID(xs), id, Named(v, id).value);
    }
  }

  lemma RemoveMeans<T>(xs: seq<Item<T>>, id: string, v: Option<Item<T>>)
    requires Unique(xs) && id != ""
    ensures EditGoes(xs, Edit(Remove, id, v))
  {
    BodiesHold(xs, id);
    RemoveIgnoresValue(xs, Edit(Remove, id, v));
    if IndexOf(xs, id) >= 0 {
      RemoveByID(xs, id);
      BodyMapDrop(ByID(xs), id);
    }
  }

  /** ApplyEdit does to the list what EditMap does to the map. */
  ghost predicate EditGoes<T>(xs: seq<Item<T>>, e: Edit<T>) {
    match EditMap(Bodies(xs), e.op, e.id, Offered(e.value, e.id))
    case Err(x) => ApplyEdit(xs, e) == Err(x)
    case Ok(m) =>
      var r := ApplyEdit(xs, e);
      r.Ok? && Unique(r.value) && Bodies(r.value) == m && ByID(r.value) == Edited(xs, e)
  }

  /** ApplyEdit on a list with unique IDs is the edit of one entry. */
  lemma EditMeans<T>(xs: seq<Item<T>>, e: Edit<T>)
    requires Unique(xs)
    ensures EditGoes(xs, e)
  {
    if e.id != "" {
      match e.op
      case Add => AddMeans(xs, e.id, e.value);
      case Update => UpdateMeans(xs, e.id, e.value);
      case Remove => RemoveMeans(xs, e.id, e.value);
      case OtherOp =>
    }
  }

  lemma RemoveIgnoresValue<T>(xs: seq<Item<T>>, e: Edit<T>)
    requires e.op == Remove
    ensures ApplyEdit(xs, e) == ApplyEdit(xs, Edit(Remove, e.id, None))
  {
  }

  /** The list by ID after an edit. */
  function Edited<T>(xs: seq<Item<T>>, e: Edit<T>): map<string, Item<T>>
    requires e.op == Remove || Offered(e.value, e.id).Some?
  {
    if e.op == Remove then ByID(xs) - {e.id} else ByID(xs)[e.id := Item(e.id, Offered(e.value, e.id).value)]
  }

  /** Editing commutes with a view of the objects. */
  lemma EditViewed<A, B>(m: map<string, A>, op: OpKind, id: string, v: Option<A>, f: A -> B)
    ensures EditMap(MapAll(m, f), op, id, MapOption(v, f)) ==
              Lift(EditMap(m, op, id, v), (n: map<string, A>) => MapAll(n, f))
  {
    if id != "" && op != OtherOp && EditMap(m, op, id, v).Ok? {
      assert MapAll(EditMap(m, op, id, v).value, f) == EditMap(MapAll(m, f), op, id, MapOption(v, f)).value;
    }
  }

  // ---------------------------------------------------------------- upstreams

  /** With upstreams apart, an upstream's place is the pool that has it. */
  lemma FlattenHas(m: Pools, p: string, id: string)
    requires Disjoint(m) && Has(m, p, id)
    ensures id in Flatten(m) && Flatten(m)[id] == Placed(p, m[p][id])
  {
    assert id in UpstreamIDs(m);
  }

  lemma FlattenFrom(m: Pools, id: string)
    requires id in Flatten(m)
    ensures Has(m, Flatten(m)[id].pool, id) && Flatten(m)[id].text == m[Flatten(m)[id].pool][id]
  {
    IDHasPool(m, id);
  }

  /** The entries of a map of places are the places of the upstreams. */
  lemma FlattenIs(m: Pools, all: map<string, Placed>)
    requires Disjoint(m)
    requires forall p, u :: Has(m, p, u) ==> u in all && all[u] == Placed(p, m[p][u])
    requires forall u :: u in all ==> Has(m, all[u].pool, u)
    ensures Flatten(m) == all
  {
    forall u | u in Flatten(m) ensures u in all && all[u] == Flatten(m)[u] { FlattenFrom(m, u); }
    forall u | u in all ensures u in Flatten(m) { FlattenHas(m, all[u].pool, u); }
  }

  lemma FlattenPut(m: Pools, p: string, ups: map<string, string>)
    requires Disjoint(m) && InNoOther(m, p, ups)
    ensures Disjoint(m[p := ups]) && Flatten(m[p := ups]) == WithPool(Flatten(m), p, ups)
  {
    var m', all := m[p := ups], WithPool(Flatten(m), p, ups);
    forall q, r, u | Has(m', q, u) && Has(m', r, u) ensures q == r {
      if q != p { assert Has(m, q, u); }
      if r != p { assert Has(m, r, u); }
    }
    forall q, u | Has(m', q, u) ensures u in all && all[u] == Placed(q, m'[q][u]) {
      if q != p { FlattenHas(m, q, u); }
    }
    forall u | u in all ensures Has(m', all[u].pool, u) {
      if u !in ups { FlattenFrom(m, u); }
    }
    FlattenIs(m', all);
  }

  lemma FlattenDrop(m: Pools, p: string)
    requires Disjoint(m)
    ensures Disjoint(m - {p}) && Flatten(m - {p}) == WithPool(Flatten(m), p, map[])
  {
    var m', all := m - {p}, WithPool(Flatten(m), p, map[]);
    forall q, r, u | Has(m', q, u) && Has(m', r, u) ensures q == r { assert Has(m, q, u) && Has(m, r, u); }
    forall q, u | Has(m', q, u) ensures u in all && all[u] == Placed(q, m'[q][u]) { FlattenHas(m, q, u); }
    forall u | u in all ensures Has(m', all[u].pool, u) { FlattenFrom(m, u); }
    FlattenIs(m', all);
  }

  lemma PoolMapPut(m: map<string, Item<Doc>>, p: string, x: Item<Doc>)
    ensures PoolMap(m[p := x]) == PoolMap(m)[p := Bodies(UpstreamsOf(x.body))]
  {
  }

  lemma PoolMapDrop(m: map<string, Item<Doc>>, p: string)
    ensures PoolMap(m - {p}) == PoolMap(m) - {p}
  {
  }

  /** The pool an upstream is in, by list and by map. */
  lemma PoolFound(pools: seq<Item<Doc>>, id: string)
    requires Unique(pools) && PoolsApart(ByID(pools)) && PoolOf(pools, id) >= 0
    ensures var x := pools[PoolOf(pools, id)];
            && x.id in ByID(pools) && x == ByID(pools)[x.id] && Unique(UpstreamsOf(x.body))
            && id in Bodies(UpstreamsOf(x.body)) && id in Flatten(PoolMap(ByID(pools)))
            && Flatten(PoolMap(ByID(pools)))[id] == Placed(x.id, Bodies(UpstreamsOf(x.body))[id])
  {
    var x := pools[PoolOf(pools, id)];
    ByIDMembers(pools);
    BodiesHold(UpstreamsOf(x.body), id);
    FlattenHas(PoolMap(ByID(pools)), x.id, id);
  }

  lemma PoolHeld(pools: seq<Item<Doc>>, p: string, id: string)
    requires Unique(pools) && PoolsApart(ByID(pools)) && Has(PoolMap(ByID(pools)), p, id)
    ensures PoolOf(pools, id) >= 0
  {
    ByIDMembers(pools);
    var j :| 0 <= j < |pools| && pools[j] == ByID(pools)[p];
    BodiesHold(UpstreamsOf(pools[j].body), id);
  }

  lemma PoolOfIs(pools: seq<Item<Doc>>, id: string)
    requires Unique(pools) && PoolsApart(ByID(pools))
    ensures PoolOf(pools, id) >= 0 <==> id in Flatten(PoolMap(ByID(pools)))
  {
    if PoolOf(pools, id) >= 0 { PoolFound(pools, id); }
    if id in Flatten(PoolMap(ByID(pools))) {
      FlattenFrom(PoolMap(ByID(pools)), id);
      PoolHeld(pools, Flatten(PoolMap(ByID(pools)))[id].pool, id);
    }
  }

  // ---------------------------------------------------------------- each kind of operation

  /** What Apply does to the document is what Meant does to the board, error for error. */
  ghost predicate Goes(st: State, op: Operation) {
    match Apply(st, op)
    case Err(x) => Meant(Abs(st), op) == Err(x)
    case Ok(st') => Meant(Abs(st), op) == Ok(Abs(st'))
  }

  ghost predicate Keeps(st: State, op: Operation) {
    Apply(st, op).Ok? ==> (WellKeyed(Apply(st, op).value) <==> Fits(st, op))
  }

  /** The board with other zones. */
  lemma ZoneMeans(st: State, op: Operation)
    requires WellKeyed(st) && op.target.ZoneTarget?
    ensures Goes(st, op) && Keeps(st, op)
  {
    var id, v := op.target.zone, ZoneOf(op.value);
    EditMeans(st.zones, Edit(op.op, id, v));
    EditViewed(Bodies(st.zones), op.op, id, Offered(v, id), ViewOf);
    if Apply(st, op).Ok? { ZoneKeeps(st, op); }
  }

  lemma ZoneKeeps(st: State, op: Operation)
    requires WellKeyed(st) && op.target.ZoneTarget? && Apply(st, op).Ok?
    ensures WellKeyed(Apply(st, op).value) <==> Fits(st, op)
  {
    var e := Edit(op.op, op.target.zone, ZoneOf(op.value));
    EditMeans(st.zones, e);
    var m, m' := ByID(st.zones), ByID(Apply(st, op).value.zones);
    assert m' == Edited(st.zones, e);
    if e.op == Remove {
      forall k | k in m' ensures Unique(m'[k].body.records) { assert m'[k] == m[k]; }
    } else {
      assert m'[e.id].body == op.value.z.body;
      if Fits(st, op) {
        forall k | k in m' ensures Unique(m'[k].body.records) { assert k != e.id ==> m'[k] == m[k]; }
      }
    }
  }

  /** The same edit seen on the objects with their IDs. */
  lemma EditItems<T>(xs: seq<Item<T>>, e: Edit<T>)
    requires Unique(xs)
    ensures match EditMap(ByID(xs), e.op, e.id, ItemFor(e.id, Offered(e.value, e.id)))
            case Err(x) => ApplyEdit(xs, e) == Err(x)
            case Ok(m) => ApplyEdit(xs, e).Ok? && Unique(ApplyEdit(xs, e).value) && ByID(ApplyEdit(xs, e).value) == m
  {
    EditMeans(xs, e);
    ItemsFromBodies(ByID(xs), e.op, e.id, Offered(e.value, e.id));
  }

  /** An edit of the objects with their IDs and one of their bodies go together. */
  lemma ItemsFromBodies<T>(m: map<string, Item<T>>, op: OpKind, id: string, v: Option<T>)
    ensures var r := EditMap(BodyMap(m), op, id, v);
            match EditMap(m, op, id, ItemFor(id, v))
            case Err(x) => r == Err(x)
            case Ok(m') =>
              && r.Ok? && (op == Remove ==> m' == m - {id})
              && (op != Remove ==> v.Some? && m' == m[id := Item(id, v.value)])
  {
  }

  /** Replacing the records of one zone. */
  lemma RecordsReplaced(zones: seq<Item<Zone>>, zi: nat, rs: seq<Item<Doc>>)
    requires Unique(zones) && zi < |zones|
    ensures var x := Item(zones[zi].id, zones[zi].body.(records := rs)); var zones' := zones[zi := x];
            && Unique(zones') && ByID(zones') == ByID(zones)[x.id := x]
            && MapAll(Bodies(zones'), ViewOf) == MapAll(Bodies(zones), ViewOf)[x.id := ViewOf(x.body)]
  {
    var x := Item(zones[zi].id, zones[zi].body.(records := rs));
    ReplaceByID(zones, zi, x);
    BodyMapPut(ByID(zones), x.id, x);
  }

  lemma RecordMeans(st: State, op: Operation)
    requires WellKeyed(st) && op.target.RecordTarget?
    ensures Goes(st, op) && Keeps(st, op)
  {
    var id, zid := op.target.id, op.target.zoneId;
    var e := Edit(op.op, id, ItemOf(op.value));
    var zi := IndexOf(st.zones, zid);
    BodiesHold(st.zones, zid);
    if zid != "" && id != "" && zi >= 0 {
      var z := st.zones[zi].body;
      assert Unique(ByID(st.zones)[zid].body.records);
      EditItems(z.records, e);
      if ApplyEdit(z.records, e).Ok? {
        RecordsReplaced(st.zones, zi, ApplyEdit(z.records, e).value);
        ZonesListed(st, st.zones[zi := Item(st.zones[zi].id, z.(records := ApplyEdit(z.records, e).value))]);
        RecordKeeps(st, op);
      }
    }
  }

  /** The board with other zones. */
  lemma ZonesListed(st: State, zs: seq<Item<Zone>>)
    ensures Abs(st.(zones := zs)) == Abs(st).(zones := MapAll(Bodies(zs), ViewOf))
  {
  }

  lemma RecordKeeps(st: State, op: Operation)
    requires WellKeyed(st) && op.target.RecordTarget? && Apply(st, op).Ok?
    ensures WellKeyed(Apply(st, op).value)
  {
    var zi, e := IndexOf(st.zones, op.target.zoneId), Edit(op.op, op.target.id, ItemOf(op.value));
    var zs := Apply(st, op).value.zones;
    BodiesHold(st.zones, op.target.zoneId);
    EditItems(st.zones[zi].body.records, e);
    RecordsReplaced(st.zones, zi, ApplyEdit(st.zones[zi].body.records, e).value);
    forall k | k in ByID(zs) ensures Unique(ByID(zs)[k].body.records) {
      if k != op.target.zoneId { assert ByID(zs)[k] == ByID(st.zones)[k]; }
    }
  }

  lemma PolicyMeans(st: State, op: Operation)
    requires WellKeyed(st) && op.target.ListTarget? && op.target.list == ForwardingPolicies
    ensures Goes(st, op) && Keeps(st, op)
  {
    EditMeans(st.lists.policies, Edit(op.op, op.target.id, ItemOf(op.value)));
  }

  lemma ChaosMeans(st: State, op: Operation)
    requires WellKeyed(st) && op.target.ListTarget? && op.target.list == ChaosPolicies
    ensures Goes(st, op) && Keeps(st, op)
  {
    var id, v := op.target.id, ItemOf(op.value);
    EditMeans(st.lists.chaos, Edit(op.op, id, v));
    EditViewed(Bodies(st.lists.chaos), op.op, id, Offered(v, id), ChaosView);
  }

  lemma GroupMeans(st: State, op: Operation)
    requires WellKeyed(st) && op.target.GroupTarget?
    ensures Goes(st, op) && Keeps(st, op)
  {
    var e := Edit(op.op, op.target.id, PartOf(op.value));
    EditMeans(GroupsOf(st.singles.access), e);
    if Apply(st, op).Ok? { GroupsReplaced(st, ApplyEdit(GroupsOf(st.singles.access), e).value); }
  }

  lemma SingleMeans(st: State, op: Operation)
    requires WellKeyed(st) && op.target.SingleTarget?
    ensures Goes(st, op) && Keeps(st, op)
  {
    if Apply(st, op).Ok? {
      var k, v := op.target.single, op.value.s;
      assert k == AccessSpec ==> Bare(st.singles.Set(k, v)) == Bare(st.singles).Set(k, Text(v.text));
      assert k != AccessSpec ==> Bare(st.singles.Set(k, v)) == Bare(st.singles).Set(k, v);
    }
  }

  lemma ActivationMeans(st: State, op: Operation)
    requires WellKeyed(st) && op.target.ActivationTarget?
    ensures Goes(st, op) && Keeps(st, op)
  {
    var id, xs := op.target.id, st.lists.chaos;
    BodiesHold(xs, id);
    if Apply(st, op).Ok? {
      var i := IndexOf(xs, id);
      var x := Item(xs[i].id, Chaos(xs[i].body.text, op.value.activation));
      ChaosAt(xs, i, x);
      ChaosReplaced(st, xs[i := x]);
    }
  }

  lemma ChaosAt(xs: seq<Item<Doc>>, i: nat, x: Item<Doc>)
    requires Unique(xs) && i < |xs| && x.id == xs[i].id
    ensures var f := ChaosView;
            Unique(xs[i := x]) && MapAll(Bodies(xs[i := x]), f) == MapAll(Bodies(xs), f)[x.id := f(x.body)]
  {
    ReplaceByID(xs, i, x);
    BodyMapPut(ByID(xs), x.id, x);
    MapAllPut(Bodies(xs), ChaosView, x.id, x.body);
  }

  lemma MapAllPut<A, B>(m: map<string, A>, f: A -> B, k: string, v: A)
    ensures MapAll(m[k := v], f) == MapAll(m, f)[k := f(v)]
  {
  }

  /** The document with other chaos policies. */
  lemma ChaosReplaced(st: State, xs: seq<Item<Doc>>)
    requires WellKeyed(st) && Unique(xs)
    ensures var st' := st.(lists := st.lists.(chaos := xs));
            && WellKeyed(st')
            && Abs(st') == Abs(st).(chaos := MapAll(Bodies(xs), ChaosView))
  {
  }

  /** The document with other client groups. */
  lemma GroupsReplaced(st: State, gs: seq<Item<string>>)
    requires WellKeyed(st) && Unique(gs)
    ensures var st' := st.(singles := st.singles.(access := Access(st.singles.access.text, gs)));
            WellKeyed(st') && Abs(st') == Abs(st).(groups := Bodies(gs))
  {
  }

  // ---------------------------------------------------------------- pools and upstreams

  lemma PoolMeans(st: State, op: Operation)
    requires WellKeyed(st) && op.target.ListTarget? && op.target.list == UpstreamPools
    ensures (Apply(st, op).Ok? ==> Fits(st, op)) ==> Goes(st, op)
    ensures Keeps(st, op)
  {
    var pools, e := st.lists.pools, Edit(op.op, op.target.id, ItemOf(op.value));
    if op.op != OtherOp {
      PoolTexts(pools, e);
      if ApplyEdit(pools, e).Err? {
        PoolFails(st, op, ApplyEdit(pools, e).error);
      } else if op.op == Remove {
        PoolRemoved(st, op, ApplyEdit(pools, e).value);
      } else {
        PoolGiven(st, op, ApplyEdit(pools, e).value);
      }
    }
  }

  lemma PoolRemoved(st: State, op: Operation, pools: seq<Item<Doc>>)
    requires WellKeyed(st) && op.target.ListTarget? && op.target.list == UpstreamPools && op.op == Remove
    requires ApplyEdit(st.lists.pools, Edit(op.op, op.target.id, ItemOf(op.value))) == Ok(pools)
    requires EditMap(Abs(st).pools, op.op, op.target.id,
                     MapOption(Offered(ItemOf(op.value), op.target.id), TextOf)) == Ok(Texts(pools))
    ensures Goes(st, op) && Keeps(st, op)
  {
    PoolApplies(st, op, pools);
    PoolDropped(st, op);
    PoolGoes(st, op, pools);
  }

  lemma PoolGiven(st: State, op: Operation, pools: seq<Item<Doc>>)
    requires WellKeyed(st) && op.target.ListTarget? && op.target.list == UpstreamPools && op.op in {Add, Update}
    requires ApplyEdit(st.lists.pools, Edit(op.op, op.target.id, ItemOf(op.value))) == Ok(pools)
    requires EditMap(Abs(st).pools, op.op, op.target.id,
                     MapOption(Offered(ItemOf(op.value), op.target.id), TextOf)) == Ok(Texts(pools))
    ensures (Fits(st, op) ==> Goes(st, op)) && Keeps(st, op)
  {
    PoolApplies(st, op, pools);
    PoolPut(st, op);
    if Fits(st, op) { PoolGoes(st, op, pools); }
  }

  /** The upstreams a pool operation brings. */
  function Brought(op: Operation, id: string): map<string, string> {
    var v := Offered(ItemOf(op.value), id);
    if op.op != Remove && v.Some? then Bodies(UpstreamsOf(v.value)) else map[]
  }

  lemma PoolGoes(st: State, op: Operation, pools: seq<Item<Doc>>)
    requires op.target.ListTarget? && op.target.list == UpstreamPools && op.op != OtherOp
    requires ApplyEdit(st.lists.pools, Edit(op.op, op.target.id, ItemOf(op.value))) == Ok(pools)
    requires EditMap(Abs(st).pools, op.op, op.target.id,
                     MapOption(Offered(ItemOf(op.value), op.target.id), TextOf)) == Ok(Texts(pools))
    requires Flatten(PoolMap(ByID(pools))) ==
               WithPool(Flatten(PoolMap(ByID(st.lists.pools))), op.target.id, Brought(op, op.target.id))
    ensures Goes(st, op)
  {
    PoolListed(st, pools);
    PoolIsLifted(st, op, Texts(pools));
    PoolApplies(st, op, pools);
    GoesBy(st, op, st.(lists := st.lists.Set(UpstreamPools, pools)));
  }

  lemma PoolApplies(st: State, op: Operation, pools: seq<Item<Doc>>)
    requires op.target.ListTarget? && op.target.list == UpstreamPools && op.op != OtherOp
    requires ApplyEdit(st.lists.pools, Edit(op.op, op.target.id, ItemOf(op.value))) == Ok(pools)
    ensures Apply(st, op) == Ok(st.(lists := st.lists.Set(UpstreamPools, pools)))
  {
  }

  lemma GoesBy(st: State, op: Operation, st': State)
    requires Apply(st, op) == Ok(st') && Meant(Abs(st), op) == Ok(Abs(st'))
    ensures Goes(st, op)
  {
  }

  lemma PoolFails(st: State, op: Operation, x: Error)
    requires op.target.ListTarget? && op.target.list == UpstreamPools && op.op != OtherOp
    requires ApplyEdit(st.lists.pools, Edit(op.op, op.target.id, ItemOf(op.value))) == Err(x)
    requires EditMap(Abs(st).pools, op.op, op.target.id,
                     MapOption(Offered(ItemOf(op.value), op.target.id), TextOf)) == Err(x)
    ensures Goes(st, op)
  {
  }

  /** The texts of the pools after an edit, or the same error. */
  lemma PoolTexts(pools: seq<Item<Doc>>, e: Edit<Doc>)
    requires Unique(pools)
    ensures match EditMap(Texts(pools), e.op, e.id, MapOption(Offered(e.value, e.id), TextOf))
            case Err(x) => ApplyEdit(pools, e) == Err(x)
            case Ok(texts) => ApplyEdit(pools, e).Ok? && Texts(ApplyEdit(pools, e).value) == texts
  {
    EditMeans(pools, e);
    EditViewed(Bodies(pools), e.op, e.id, Offered(e.value, e.id), TextOf);
  }

  lemma PoolIsLifted(st: State, op: Operation, texts: map<string, string>)
    requires op.target.ListTarget? && op.target.list == UpstreamPools && op.op != OtherOp
    requires EditMap(Abs(st).pools, op.op, op.target.id,
                     MapOption(Offered(ItemOf(op.value), op.target.id), TextOf)) == Ok(texts)
    ensures Meant(Abs(st), op) ==
              Ok(Abs(st).(pools := texts,
                          upstreams := WithPool(Abs(st).upstreams, op.target.id, Brought(op, op.target.id))))
  {
  }

  /** The board with other pools. */
  lemma PoolListed(st: State, xs: seq<Item<Doc>>)
    ensures var st' := st.(lists := st.lists.Set(UpstreamPools, xs));
            Abs(st') == Abs(st).(pools := Texts(xs), upstreams := Flatten(PoolMap(ByID(xs))))
  {
  }

  lemma PoolDropped(st: State, op: Operation)
    requires WellKeyed(st) && op.target.ListTarget? && op.target.list == UpstreamPools && op.op == Remove
    requires Apply(st, op).Ok?
    ensures var st' := Apply(st, op).value;
            && WellKeyed(st')
            && Flatten(PoolMap(ByID(st'.lists.pools))) ==
                 WithPool(Flatten(PoolMap(ByID(st.lists.pools))), op.target.id, map[])
  {
    var m, id := ByID(st.lists.pools), op.target.id;
    EditMeans(st.lists.pools, Edit(op.op, id, ItemOf(op.value)));
    PoolMapDrop(m, id);
    FlattenDrop(PoolMap(m), id);
  }

  lemma PoolPut(st: State, op: Operation)
    requires WellKeyed(st) && op.target.ListTarget? && op.target.list == UpstreamPools && op.op != Remove
    requires Apply(st, op).Ok?
    ensures var st' := Apply(st, op).value;
            && (WellKeyed(st') <==> Fits(st, op))
            && (Fits(st, op) ==>
                  Flatten(PoolMap(ByID(st'.lists.pools))) ==
                    WithPool(Flatten(PoolMap(ByID(st.lists.pools))), op.target.id,
                             Bodies(UpstreamsOf(op.value.i.body))))
  {
    var m, id := ByID(st.lists.pools), op.target.id;
    EditMeans(st.lists.pools, Edit(op.op, id, ItemOf(op.value)));
    var x := Item(id, op.value.i.body);
    var ups := Bodies(UpstreamsOf(x.body));
    var m' := ByID(Apply(st, op).value.lists.pools);
    assert m' == m[id := x];
    PoolMapPut(m, id, x);
    if Fits(st, op) {
      FlattenPut(PoolMap(m), id, ups);
      forall p | p in m' ensures Unique(UpstreamsOf(m'[p].body)) { assert p != id ==> m'[p] == m[p]; }
    } else if PoolsApart(m') {
      assert Unique(UpstreamsOf(m'[id].body));
      forall q, u | q != id && Has(PoolMap(m), q, u) ensures u !in ups {
        assert Has(PoolMap(m'), q, u);
        assert u in ups ==> Has(PoolMap(m'), id, u);
      }
    }
  }

  lemma WithPoolPut(m: Pools, p: string, id: string, text: string)
    requires Disjoint(m) && p in m && (id in Flatten(m) ==> Flatten(m)[id].pool == p)
    ensures WithPool(Flatten(m), p, m[p][id := text]) == Flatten(m)[id := Placed(p, text)]
  {
    var all, ups := Flatten(m), m[p][id := text];
    forall u | u in ups && u != id ensures u in all && all[u] == Placed(p, ups[u]) { FlattenHas(m, p, u); }
    forall u | u in all && all[u].pool == p ensures u in ups { FlattenFrom(m, u); }
  }

  lemma WithPoolCut(m: Pools, p: string, id: string)
    requires Disjoint(m) && Has(m, p, id)
    ensures WithPool(Flatten(m), p, m[p] - {id}) == Flatten(m) - {id}
  {
    var all, ups := Flatten(m), m[p] - {id};
    FlattenHas(m, p, id);
    forall u | u in ups ensures u in all && all[u] == Placed(p, ups[u]) { FlattenHas(m, p, u); }
    forall u | u in all && all[u].pool == p && u != id ensures u in ups { FlattenFrom(m, u); }
  }

  /** The pools are as before but for their upstreams, which are `all` now. */
  ghost predicate PoolsBecome(pools: seq<Item<Doc>>, pools': seq<Item<Doc>>, all: map<string, Placed>) {
    && Unique(pools') && PoolsApart(ByID(pools')) && Texts(pools') == Texts(pools)
    && Flatten(PoolMap(ByID(pools'))) == all
  }

  lemma PoolReplaced(pools: seq<Item<Doc>>, i: nat, ups: seq<Item<string>>)
    requires Unique(pools) && i < |pools|
    ensures var pools', p := WithUpstreams(pools, i, ups), pools[i].id;
            && Unique(pools') && p in ByID(pools) && Texts(pools') == Texts(pools)
            && ByID(pools') == ByID(pools)[p := Item(p, Pool(pools[i].body.text, ups))]
  {
    var p, x := pools[i].id, Item(pools[i].id, Pool(pools[i].body.text, ups));
    ByIDMembers(pools);
    ReplaceByID(pools, i, x);
    BodyMapPut(ByID(pools), p, x);
    MapAllSame(Bodies(pools), TextOf, p, x.body);
  }

  /** An entry that looks the same changes nothing. */
  lemma MapAllSame<A, B>(m: map<string, A>, f: A -> B, k: string, v: A)
    requires k in m && f(m[k]) == f(v)
    ensures MapAll(m[k := v], f) == MapAll(m, f)
  {
  }

  lemma ApartPut(m: map<string, Item<Doc>>, p: string, x: Item<Doc>)
    requires PoolsApart(m) && Unique(UpstreamsOf(x.body))
    requires InNoOther(PoolMap(m), p, Bodies(UpstreamsOf(x.body)))
    ensures PoolsApart(m[p := x])
    ensures Flatten(PoolMap(m[p := x])) == WithPool(Flatten(PoolMap(m)), p, Bodies(UpstreamsOf(x.body)))
  {
    PoolMapPut(m, p, x);
    FlattenPut(PoolMap(m), p, Bodies(UpstreamsOf(x.body)));
  }

  /** Replacing the upstreams of one pool. */
  lemma UpstreamsReplaced(pools: seq<Item<Doc>>, i: nat, ups: seq<Item<string>>)
    requires Unique(pools) && PoolsApart(ByID(pools)) && i < |pools| && Unique(ups)
    requires InNoOther(PoolMap(ByID(pools)), pools[i].id, Bodies(ups))
    ensures PoolsBecome(pools, WithUpstreams(pools, i, ups),
                        WithPool(Flatten(PoolMap(ByID(pools))), pools[i].id, Bodies(ups)))
  {
    PoolReplaced(pools, i, ups);
    ApartPut(ByID(pools), pools[i].id, Item(pools[i].id, Pool(pools[i].body.text, ups)));
  }

  lemma FreshInNoOther(m: Pools, p: string, id: string, text: string)
    requires Disjoint(m) && p in m && id !in Flatten(m)
    ensures InNoOther(m, p, m[p][id := text])
  {
    forall q, u | q != p && Has(m, q, u) ensures u !in m[p][id := text] {
      FlattenHas(m, q, u);
      assert u in m[p] ==> Has(m, p, u);
    }
  }

  lemma OwnInNoOther(m: Pools, p: string, ups: map<string, string>)
    requires Disjoint(m) && p in m && ups.Keys <= m[p].Keys
    ensures InNoOther(m, p, ups)
  {
    forall q, u | q != p && Has(m, q, u) ensures u !in ups {
      assert u in ups ==> Has(m, p, u);
    }
  }

  lemma PoolIn(pools: seq<Item<Doc>>, i: nat)
    requires Unique(pools) && PoolsApart(ByID(pools)) && i < |pools|
    ensures var p := pools[i].id;
            && p in PoolMap(ByID(pools)) && PoolMap(ByID(pools))[p] == Bodies(UpstreamsOf(pools[i].body))
            && Unique(UpstreamsOf(pools[i].body))
  {
    ByIDMembers(pools);
  }

  /** An upstream that is in no pool is added to one. */
  lemma UpstreamAdded(pools: seq<Item<Doc>>, i: nat, id: string, text: string)
    requires Unique(pools) && PoolsApart(ByID(pools)) && i < |pools| && id != ""
    requires id !in Flatten(PoolMap(ByID(pools)))
    ensures PoolsBecome(pools, WithUpstreams(pools, i, UpstreamsOf(pools[i].body) + [Item(id, text)]),
                        Flatten(PoolMap(ByID(pools)))[id := Placed(pools[i].id, text)])
  {
    var m, p, ups := PoolMap(ByID(pools)), pools[i].id, UpstreamsOf(pools[i].body);
    PoolIn(pools, i);
    NotHere(m, p, id);
    UpsAdded(ups, id, text);
    FreshInNoOther(m, p, id, text);
    UpstreamsReplaced(pools, i, ups + [Item(id, text)]);
    WithPoolPut(m, p, id, text);
  }

  lemma NotHere(m: Pools, p: string, id: string)
    requires Disjoint(m) && p in m && id !in Flatten(m)
    ensures id !in m[p]
  {
    if id in m[p] { FlattenHas(m, p, id); }
  }

  lemma UpsAdded(ups: seq<Item<string>>, id: string, text: string)
    requires Unique(ups) && id != "" && id !in Bodies(ups)
    ensures Unique(ups + [Item(id, text)]) && Bodies(ups + [Item(id, text)]) == Bodies(ups)[id := text]
  {
    BodiesHold(ups, id);
    Appended(ups, Item(id, text));
  }

  lemma UpsUpdated(ups: seq<Item<string>>, id: string, v: Option<Item<string>>)
    requires Unique(ups) && id != "" && id in Bodies(ups) && Offered(v, id).Some?
    ensures var r := ApplyEdit(ups, Edit(Update, id, v));
            r.Ok? && Unique(r.value) && Bodies(r.value) == Bodies(ups)[id := Offered(v, id).value]
  {
    UpdateMeans(ups, id, v);
  }

  lemma UpsRemoved(ups: seq<Item<string>>, id: string, v: Option<Item<string>>)
    requires Unique(ups) && id != "" && id in Bodies(ups)
    ensures var r := ApplyEdit(ups, Edit(Remove, id, v));
            r.Ok? && Unique(r.value) && Bodies(r.value) == Bodies(ups) - {id}
  {
    RemoveMeans(ups, id, v);
  }

  /** The upstreams after an edit of one that is there. */
  ghost function Changed(all: map<string, Placed>, op: OpKind, id: string, v: Option<Item<string>>): map<string, Placed>
    requires id in all && (op == Update ==> Offered(v, id).Some?)
  {
    if op == Update then all[id := Placed(all[id].pool, Offered(v, id).value)] else all - {id}
  }

  lemma UpstreamUpdated(pools: seq<Item<Doc>>, id: string, v: Option<Item<string>>, i: nat)
    requires Unique(pools) && PoolsApart(ByID(pools)) && id != "" && i < |pools| && Offered(v, id).Some?
    requires Has(PoolMap(ByID(pools)), pools[i].id, id)
    ensures id in Flatten(PoolMap(ByID(pools)))
    ensures var r := ApplyEdit(UpstreamsOf(pools[i].body), Edit(Update, id, v));
            r.Ok? && PoolsBecome(pools, WithUpstreams(pools, i, r.value),
                                 Changed(Flatten(PoolMap(ByID(pools))), Update, id, v))
  {
    var m, p, ups, text := PoolMap(ByID(pools)), pools[i].id, UpstreamsOf(pools[i].body), Offered(v, id).value;
    PoolIn(pools, i);
    FlattenHas(m, p, id);
    UpsUpdated(ups, id, v);
    var ups' := ApplyEdit(ups, Edit(Update, id, v)).value;
    OwnInNoOther(m, p, Bodies(ups'));
    UpstreamsReplaced(pools, i, ups');
    WithPoolPut(m, p, id, text);
  }

  lemma UpstreamRemoved(pools: seq<Item<Doc>>, id: string, v: Option<Item<string>>, i: nat)
    requires Unique(pools) && PoolsApart(ByID(pools)) && id != "" && i < |pools|
    requires Has(PoolMap(ByID(pools)), pools[i].id, id)
    ensures id in Flatten(PoolMap(ByID(pools)))
    ensures var r := ApplyEdit(UpstreamsOf(pools[i].body), Edit(Remove, id, v));
            r.Ok? && PoolsBecome(pools, WithUpstreams(pools, i, r.value),
                                 Changed(Flatten(PoolMap(ByID(pools))), Remove, id, v))
  {
    var m, p, ups := PoolMap(ByID(pools)), pools[i].id, UpstreamsOf(pools[i].body);
    PoolIn(pools, i);
    FlattenHas(m, p, id);
    UpsRemoved(ups, id, v);
    var ups' := ApplyEdit(ups, Edit(Remove, id, v)).value;
    OwnInNoOther(m, p, Bodies(ups'));
    UpstreamsReplaced(pools, i, ups');
    WithPoolCut(m, p, id);
  }

  lemma BadValueFails<T>(xs: seq<Item<T>>, id: string, v: Option<Item<T>>)
    requires id != "" && IndexOf(xs, id) >= 0 && Offered(v, id).None?
    ensures ApplyEdit(xs, Edit(Update, id, v)) == Err(Invalid)
  {
  }

  /** An upstream that is there and its edit, by list and by map. */
  lemma UpstreamEditMeans(pools: seq<Item<Doc>>, op: OpKind, id: string, value: Value)
    requires Unique(pools) && PoolsApart(ByID(pools)) && id != "" && op in {Update, Remove} && PoolOf(pools, id) >= 0
    ensures id in Flatten(PoolMap(ByID(pools)))
    ensures var r := ApplyUpstream(pools, op, id, value);
            if op == Update && Offered(PartOf(value), id).None? then r == Err(Invalid)
            else r.Ok? && PoolsBecome(pools, r.value, Changed(Flatten(PoolMap(ByID(pools))), op, id, PartOf(value)))
  {
    var i, v := PoolOf(pools, id), PartOf(value);
    PoolFound(pools, id);
    if op == Remove {
      UpstreamRemoved(pools, id, v, i);
    } else if Offered(v, id).Some? {
      UpstreamUpdated(pools, id, v, i);
    } else {
      BadValueFails(UpstreamsOf(pools[i].body), id, v);
    }
  }

  /** The document with other pools. */
  lemma PoolsKeyed(st: State, pools: seq<Item<Doc>>, all: map<string, Placed>)
    requires WellKeyed(st) && PoolsBecome(st.lists.pools, pools, all)
    ensures var st' := st.(lists := st.lists.(pools := pools));
            WellKeyed(st') && Abs(st') == Abs(st).(upstreams := all)
  {
  }

  /** ApplyUpstream does to the pools what UpstreamMeant does to the upstreams. */
  ghost predicate UpstreamGoes(pools: seq<Item<Doc>>, op: OpKind, id: string, value: Value) {
    match UpstreamMeant(Texts(pools), Flatten(PoolMap(ByID(pools))), op, id, value)
    case Err(x) => ApplyUpstream(pools, op, id, value) == Err(x)
    case Ok(all) =>
      ApplyUpstream(pools, op, id, value).Ok? && PoolsBecome(pools, ApplyUpstream(pools, op, id, value).value, all)
  }

  lemma UpstreamChanges(pools: seq<Item<Doc>>, op: OpKind, id: string, value: Value)
    requires Unique(pools) && PoolsApart(ByID(pools)) && op != Add
    ensures UpstreamGoes(pools, op, id, value)
  {
    PoolOfIs(pools, id);
    if id != "" && op != OtherOp {
      var all := Flatten(PoolMap(ByID(pools)));
      if PoolOf(pools, id) >= 0 {
        UpstreamEditMeans(pools, op, id, value);
        ChangedIsMeant(Texts(pools), all, op, id, value);
      } else {
        AbsentIsMeant(Texts(pools), all, op, id, value);
      }
    }
  }

  lemma ChangedIsMeant(pools: map<string, string>, all: map<string, Placed>, op: OpKind, id: string, value: Value)
    requires id != "" && op in {Update, Remove} && id in all
    ensures UpstreamMeant(pools, all, op, id, value) ==
              if op == Update && Offered(PartOf(value), id).None? then Err(Invalid)
              else Ok(Changed(all, op, id, PartOf(value)))
  {
  }

  lemma AbsentIsMeant(pools: map<string, string>, all: map<string, Placed>, op: OpKind, id: string, value: Value)
    requires id != "" && op in {Update, Remove} && id !in all
    ensures UpstreamMeant(pools, all, op, id, value) == Err(NotFound)
  {
  }

  lemma UpstreamAdds(pools: seq<Item<Doc>>, id: string, value: Value)
    requires Unique(pools) && PoolsApart(ByID(pools))
    ensures UpstreamGoes(pools, Add, id, value)
  {
    PoolOfIs(pools, id);
    if value.PartValue? { PoolKnown(pools, value.pool); }
    if ApplyUpstream(pools, Add, id, value).Ok? {
      UpstreamAdded(pools, IndexOf(pools, value.pool), id, value.part.body);
    }
  }

  lemma UpstreamMeans(st: State, op: Operation)
    requires WellKeyed(st) && op.target.UpstreamTarget?
    ensures Goes(st, op) && Keeps(st, op)
  {
    var id, pools := op.target.id, st.lists.pools;
    if op.op != OtherOp {
      if op.op == Add { UpstreamAdds(pools, id, op.value); } else { UpstreamChanges(pools, op.op, id, op.value); }
      UpstreamLifts(st, op);
    }
  }

  lemma UpstreamLifts(st: State, op: Operation)
    requires WellKeyed(st) && op.target.UpstreamTarget?
    requires UpstreamGoes(st.lists.pools, op.op, op.target.id, op.value) && op.op != OtherOp
    ensures Goes(st, op) && Keeps(st, op)
  {
    var pools, id := st.lists.pools, op.target.id;
    var all := UpstreamMeant(Texts(pools), Flatten(PoolMap(ByID(pools))), op.op, id, op.value);
    UpstreamIsLifted(st, op, all);
    if all.Ok? { PoolsKeyed(st, ApplyUpstream(pools, op.op, id, op.value).value, all.value); }
  }

  lemma UpstreamIsLifted(st: State, op: Operation, all: Result<map<string, Placed>, Error>)
    requires op.target.UpstreamTarget? && op.op != OtherOp
    requires all == UpstreamMeant(Abs(st).pools, Abs(st).upstreams, op.op, op.target.id, op.value)
    ensures Meant(Abs(st), op) == match all { case Err(x) => Err(x) case Ok(us) => Ok(Abs(st).(upstreams := us)) }
  {
  }

  lemma PoolKnown(pools: seq<Item<Doc>>, p: string)
    requires Unique(pools)
    ensures IndexOf(pools, p) >= 0 <==> p in Texts(pools)
  {
    BodiesHold(pools, p);
  }

  // ---------------------------------------------------------------- change sets

  /** On a document with unique IDs an operation edits one entry of the board and nothing else, and fails
      with the same error. The one exception is a pool that brings an upstream another pool has. */
  lemma OperationMeans(st: State, op: Operation)
    requires WellKeyed(st)
    ensures (Apply(st, op).Ok? ==> Fits(st, op)) ==> Goes(st, op)
    ensures !(op.target.ListTarget? && op.target.list == UpstreamPools) ==> Goes(st, op)
    ensures Keeps(st, op)
  {
    match op.target
    case ZoneTarget(_) => ZoneMeans(st, op);
    case RecordTarget(_, _) => RecordMeans(st, op);
    case ListTarget(ForwardingPolicies, _) => PolicyMeans(st, op);
    case ListTarget(UpstreamPools, _) => PoolMeans(st, op);
    case ListTarget(ChaosPolicies, _) => ChaosMeans(st, op);
    case SingleTarget(_) => SingleMeans(st, op);
    case UpstreamTarget(_) => UpstreamMeans(st, op);
    case GroupTarget(_) => GroupMeans(st, op);
    case ActivationTarget(_) => ActivationMeans(st, op);
    case OtherTarget =>
  }

  /** The operations of a change set on the board, up to the first error. */
  ghost function AllMeant(b: Board, ops: seq<Operation>): Result<Board, Error>
    decreases |ops|
  {
    if ops == [] then Ok(b)
    else match Meant(b, ops[0])
      case Err(x) => Err(x)
      case Ok(b') => AllMeant(b', ops[1..])
  }

  /** Every value of the change set fits the document it meets. */
  ghost predicate AllFit(st: State, ops: seq<Operation>)
    decreases |ops|
  {
    ops == [] || (Apply(st, ops[0]).Ok? ==> Fits(st, ops[0]) && AllFit(Apply(st, ops[0]).value, ops[1..]))
  }

  /** A change set whose values fit does to the board what its operations mean, with the same error if
      any, and leaves unique IDs unique. */
  lemma {:induction false} ChangeSetMeans(st: State, ops: seq<Operation>)
    requires WellKeyed(st) && AllFit(st, ops)
    ensures match ApplyAll(st, ops)
            case Err(x) => AllMeant(Abs(st), ops) == Err(x)
            case Ok(st') => AllMeant(Abs(st), ops) == Ok(Abs(st')) && WellKeyed(st')
    decreases |ops|
  {
    if ops != [] {
      OperationMeans(st, ops[0]);
      if Apply(st, ops[0]).Ok? { ChangeSetMeans(Apply(st, ops[0]).value, ops[1..]); }
    }
  }

  /** Adding what is there, and changing what is not, fails, whatever the value. */
  lemma WrongEditFails<T>(xs: seq<Item<T>>, op: OpKind, id: string, v: Option<Item<T>>)
    ensures id != "" && op == Add && (exists i :: 0 <= i < |xs| && xs[i].id == id) ==>
              ApplyEdit(xs, Edit(op, id, v)) == Err(AlreadyExists)
    ensures id != "" && op in {Update, Remove} && (forall i :: 0 <= i < |xs| ==> xs[i].id != id) ==>
              ApplyEdit(xs, Edit(op, id, v)) == Err(NotFound)
  {
  }

  /** An edit leaves the other objects of the list where they are: an addition goes to the end. */
  lemma OthersStay<T>(xs: seq<Item<T>>, e: Edit<T>)
    requires ApplyEdit(xs, e).Ok?
    ensures var i, ys := IndexOf(xs, e.id), ApplyEdit(xs, e).value;
            && (e.op == Add ==> xs <= ys && |ys| == |xs| + 1)
            && (e.op == Update ==> i >= 0 && |ys| == |xs| && forall j :: 0 <= j < |xs| && j != i ==> ys[j] == xs[j])
            && (e.op == Remove ==> i >= 0 && |ys| == |xs| - 1 && ys[..i] == xs[..i] && ys[i..] == xs[i + 1..])
  {
    var i := IndexOf(xs, e.id);
    if e.op == Remove { CutAt(xs, i); }
  }

  lemma CutAt<T>(xs: seq<T>, i: nat)
    requires i < |xs|
    ensures var ys := xs[..i] + xs[i + 1..]; |ys| == |xs| - 1 && ys[..i] == xs[..i] && ys[i..] == xs[i + 1..]
  {
  }
}
