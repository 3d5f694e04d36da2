/** The canonical document and the typed operations that edit it (internal/app/operations.go).

    JSON encoding and decoding is the identity: text stands for an object whose canonical JSON
    it is, so equal text means equal object. */
module Patch {
  import opened Text

  /** An object of a list that is addressed by ID. */
  datatype Item<T> = Item(id: string, body: T)

  /** An object without its ID. Pools, the access object and chaos policies have parts that an
      operation can address; `text` is the rest. */
  datatype Doc =
    | Text(text: string)
    | Pool(text: string, upstreams: seq<Item<string>>)
    | Access(text: string, groups: seq<Item<string>>)
    | Chaos(text: string, activation: string)

  /** `meta` is the zone without its records, which is what zoneMetaChanged compares. */
  datatype Zone = Zone(meta: Doc, records: seq<Item<Doc>>)

  datatype SingleKind = Listeners | Defaults | CacheSpec | Observability | Management | UI | ChaosSafety | AccessSpec

  datatype Singles = Singles(listeners: Doc, defaults: Doc, cache: Doc, observability: Doc,
                             management: Doc, ui: Doc, safety: Doc, access: Doc)
  {
    function Get(k: SingleKind): Doc {
      match k
      case Listeners => listeners
      case Defaults => defaults
      case CacheSpec => cache
      case Observability => observability
      case Management => management
      case UI => ui
      case ChaosSafety => safety
      case AccessSpec => access
    }

    function Set(k: SingleKind, v: Doc): (s: Singles)
      ensures s.Get(k) == v && forall j :: j != k ==> s.Get(j) == Get(j)
    {
      match k
      case Listeners => this.(listeners := v)
      case Defaults => this.(defaults := v)
      case CacheSpec => this.(cache := v)
      case Observability => this.(observability := v)
      case Management => this.(management := v)
      case UI => this.(ui := v)
      case ChaosSafety => this.(safety := v)
      case AccessSpec => this.(access := v)
    }
  }

  /** The three keyed lists whose objects have no further keyed parts. */
  datatype ListKind = ForwardingPolicies | UpstreamPools | ChaosPolicies

  datatype Lists3 = Lists3(policies: seq<Item<Doc>>, pools: seq<Item<Doc>>, chaos: seq<Item<Doc>>)
  {
    function Get(k: ListKind): seq<Item<Doc>> {
      match k
      case ForwardingPolicies => policies
      case UpstreamPools => pools
      case ChaosPolicies => chaos
    }

    function Set(k: ListKind, xs: seq<Item<Doc>>): (l: Lists3)
      ensures l.Get(k) == xs && forall j :: j != k ==> l.Get(j) == Get(j)
    {
      match k
      case ForwardingPolicies => this.(policies := xs)
      case UpstreamPools => this.(pools := xs)
      case ChaosPolicies => this.(chaos := xs)
    }
  }

  /** `metadata` is apiVersion, kind, and metadata together. */
  datatype State = State(metadata: Doc, chaosEnabled: bool, emergencyDisabled: bool,
                         singles: Singles, zones: seq<Item<Zone>>, lists: Lists3)

  datatype OpKind = Add | Update | Remove | OtherOp

  datatype Target = ZoneTarget(zone: string)
                  | RecordTarget(id: string, zoneId: string)
                  | ListTarget(list: ListKind, id: string)
                  | SingleTarget(single: SingleKind)
                  | UpstreamTarget(id: string)
                  | GroupTarget(id: string)
                  | ActivationTarget(id: string)
                  | OtherTarget

  /** `pool` is the pool an upstream is added to, "" when not given. */
  datatype Value = NoValue | ZoneValue(z: Item<Zone>) | ItemValue(i: Item<Doc>) | SingleValue(s: Doc)
                 | PartValue(part: Item<string>, pool: string) | ActivationValue(activation: string)

  datatype Operation = Operation(op: OpKind, target: Target, value: Value)

  datatype Error = Invalid | AlreadyExists | NotFound

  /** One edit of one keyed list. */
  datatype Edit<T> = Edit(op: OpKind, id: string, value: Option<Item<T>>)

  // ---------------------------------------------------------------- keyed lists

  /** The first index holding `id`, or -1. */
  function IndexOf<T>(xs: seq<Item<T>>, id: string): (i: int)
    ensures -1 <= i < |xs|
    ensures i >= 0 ==> xs[i].id == id && forall j :: 0 <= j < i ==> xs[j].id != id
    ensures i < 0 ==> forall j :: 0 <= j < |xs| ==> xs[j].id != id
  {
    if xs == [] then -1
    else if xs[0].id == id then 0
    else
      var r := IndexOf(xs[1..], id);
      if r < 0 then
        assert forall j :: 0 < j < |xs| ==> xs[j] == xs[1..][j - 1];
        -1
      else
        assert forall j :: 0 < j < |xs| ==> xs[j] == xs[1..][j - 1];
        r + 1
  }

  /** The decoded value with its ID filled in, or an error when it names another object. */
  function Named<T>(v: Option<Item<T>>, id: string): Result<Item<T>, Error> {
    if v.None? then Err(Invalid)
    else if v.value.id == "" then Ok(Item(id, v.value.body))
    else if v.value.id != id then Err(Invalid)
    else Ok(v.value)
  }

  /** applyZone, applyFwdPolicy, applyPool, and applyChaosPolicy: the same code on four lists. */
  function ApplyEdit<T>(xs: seq<Item<T>>, e: Edit<T>): Result<seq<Item<T>>, Error> {
    var idx := IndexOf(xs, e.id);
    if e.id == "" then Err(Invalid)
    else match e.op
      case Add =>
        if idx >= 0 then Err(AlreadyExists)
        else (match Named(e.value, e.id) case Err(x) => Err(x) case Ok(v) => Ok(xs + [v]))
      case Update =>
        if idx < 0 then Err(NotFound)
        else (match Named(e.value, e.id) case Err(x) => Err(x) case Ok(v) => Ok(xs[idx := v]))
      case Remove =>
        if idx < 0 then Err(NotFound) else Ok(xs[..idx] + xs[idx + 1..])
      case OtherOp => Err(Invalid)
  }

  function ApplyEdits<T>(xs: seq<Item<T>>, es: seq<Edit<T>>): Result<seq<Item<T>>, Error>
    decreases |es|
  {
    if es == [] then Ok(xs)
    else match ApplyEdit(xs, es[0])
      case Err(x) => Err(x)
      case Ok(ys) => ApplyEdits(ys, es[1..])
  }

  // ---------------------------------------------------------------- operations

  function ZoneOf(v: Value): Option<Item<Zone>> {
    if v.ZoneValue? then Some(v.z) else None
  }

  function ItemOf(v: Value): Option<Item<Doc>> {
    if v.ItemValue? then Some(v.i) else None
  }

  /** applyRecord: edit the record list of one zone. */
  function ApplyRecord(zones: seq<Item<Zone>>, zoneId: string, e: Edit<Doc>): Result<seq<Item<Zone>>, Error> {
    if zoneId == "" || e.id == "" then Err(Invalid)
    else
      var zi := IndexOf(zones, zoneId);
      if zi < 0 then Err(NotFound)
      else match ApplyEdit(zones[zi].body.records, e)
        case Err(x) => Err(x)
        case Ok(rs) => Ok(zones[zi := Item(zones[zi].id, zones[zi].body.(records := rs))])
  }

  function PartOf(v: Value): Option<Item<string>> {
    if v.PartValue? then Some(v.part) else None
  }

  function UpstreamsOf(d: Doc): seq<Item<string>> {
    if d.Pool? then d.upstreams else []
  }

  function GroupsOf(d: Doc): seq<Item<string>> {
    if d.Access? then d.groups else []
  }

  /** findUpstream: the first pool that holds the upstream, or -1. */
  function PoolOf(pools: seq<Item<Doc>>, id: string): (i: int)
    ensures -1 <= i < |pools|
    ensures i >= 0 ==> IndexOf(UpstreamsOf(pools[i].body), id) >= 0
    ensures forall j :: 0 <= j < (if i < 0 then |pools| else i) ==> IndexOf(UpstreamsOf(pools[j].body), id) < 0
  {
    if pools == [] then -1
    else if IndexOf(UpstreamsOf(pools[0].body), id) >= 0 then 0
    else
      var rest := pools[1..];
      var r := PoolOf(rest, id);
      assert forall j :: 0 < j < |pools| ==> pools[j] == rest[j - 1];
      if r < 0 then -1 else r + 1
  }

  function WithUpstreams(pools: seq<Item<Doc>>, i: nat, ups: seq<Item<string>>): seq<Item<Doc>>
    requires i < |pools|
  {
    pools[i := Item(pools[i].id, Pool(pools[i].body.text, ups))]
  }

  /** applyUpstream: an upstream's ID is unique over all pools; only add names the pool. */
  function ApplyUpstream(pools: seq<Item<Doc>>, op: OpKind, id: string, value: Value): Result<seq<Item<Doc>>, Error> {
    var pi := PoolOf(pools, id);
    if id == "" then Err(Invalid)
    else match op
      case Add =>
        if pi >= 0 then Err(AlreadyExists)
        else (match Named(PartOf(value), id)
              case Err(x) => Err(x)
              case Ok(v) =>
                if value.pool == "" then Err(Invalid)
                else if IndexOf(pools, value.pool) < 0 then Err(NotFound)
                else
                  var i := IndexOf(pools, value.pool);
                  Ok(WithUpstreams(pools, i, UpstreamsOf(pools[i].body) + [v])))
      case OtherOp => Err(Invalid)
      case _ =>
        if pi < 0 then Err(NotFound)
        else (match ApplyEdit(UpstreamsOf(pools[pi].body), Edit(op, id, PartOf(value)))
              case Err(x) => Err(x)
              case Ok(ups) => Ok(WithUpstreams(pools, pi, ups)))
  }

  /** applyClientGroup: the groups of the access object. */
  function ApplyGroup(access: Doc, e: Edit<string>): Result<Doc, Error> {
    match ApplyEdit(GroupsOf(access), e)
    case Err(x) => Err(x)
    case Ok(gs) => Ok(Access(access.text, gs))
  }

  /** applyChaosActivation: replace the activation of an existing policy. */
  function ApplyActivation(policies: seq<Item<Doc>>, op: OpKind, id: string,
                           value: Value): Result<seq<Item<Doc>>, Error>
  {
    var i := IndexOf(policies, id);
    if op != Update || id == "" then Err(Invalid)
    else if i < 0 then Err(NotFound)
    else if !value.ActivationValue? then Err(Invalid)
    else Ok(policies[i := Item(policies[i].id, Chaos(policies[i].body.text, value.activation))])
  }

  /** applyOne on a document value. */
  function Apply(st: State, op: Operation): Result<State, Error> {
    if op.op == OtherOp then Err(Invalid)
    else match op.target
      case ZoneTarget(id) =>
        (match ApplyEdit(st.zones, Edit(op.op, id, ZoneOf(op.value)))
         case Err(x) => Err(x) case Ok(zs) => Ok(st.(zones := zs)))
      case RecordTarget(id, zid) =>
        (match ApplyRecord(st.zones, zid, Edit(op.op, id, ItemOf(op.value)))
         case Err(x) => Err(x) case Ok(zs) => Ok(st.(zones := zs)))
      case ListTarget(k, id) =>
        (match ApplyEdit(st.lists.Get(k), Edit(op.op, id, ItemOf(op.value)))
         case Err(x) => Err(x) case Ok(xs) => Ok(st.(lists := st.lists.Set(k, xs))))
      case SingleTarget(k) =>
        if op.op != Update || !op.value.SingleValue? then Err(Invalid)
        else Ok(st.(singles := st.singles.Set(k, op.value.s)))
      case UpstreamTarget(id) =>
        (match ApplyUpstream(st.lists.pools, op.op, id, op.value)
         case Err(x) => Err(x) case Ok(xs) => Ok(st.(lists := st.lists.(pools := xs))))
      case GroupTarget(id) =>
        (match ApplyGroup(st.singles.access, Edit(op.op, id, PartOf(op.value)))
         case Err(x) => Err(x) case Ok(a) => Ok(st.(singles := st.singles.(access := a))))
      case ActivationTarget(id) =>
        (match ApplyActivation(st.lists.chaos, op.op, id, op.value)
         case Err(x) => Err(x) case Ok(xs) => Ok(st.(lists := st.lists.(chaos := xs))))
      case OtherTarget => Err(Invalid)
  }

  /** applyAuthorized without the scope checks: the fold that stops at the first error. */
  function ApplyAll(st: State, ops: seq<Operation>): Result<State, Error>
    decreases |ops|
  {
    if ops == [] then Ok(st)
    else match Apply(st, ops[0])
      case Err(x) => Err(x)
      case Ok(st') => ApplyAll(st', ops[1..])
  }

  lemma {:induction false} ApplyAllConcat(st: State, a: seq<Operation>, b: seq<Operation>)
    ensures ApplyAll(st, a + b) ==
            match ApplyAll(st, a) { case Err(x) => Err(x) case Ok(s) => ApplyAll(s, b) }
    decreases |a|
  {
    if a == [] {
      assert a + b == b;
    } else {
      assert (a + b)[0] == a[0] && (a + b)[1..] == a[1..] + b;
      if Apply(st, a[0]).Ok? {
        ApplyAllConcat(Apply(st, a[0]).value, a[1..], b);
      }
    }
  }

  // ---------------------------------------------------------------- the document in place

  method FindIndex<T>(xs: seq<Item<T>>, id: string) returns (idx: int)
    ensures idx == IndexOf(xs, id)
  {
    idx := -1;
    var i := 0;
    while i < |xs|
      invariant 0 <= i <= |xs| && idx == -1
      invariant forall j :: 0 <= j < i ==> xs[j].id != id
    {
      if xs[i].id == id {
        return i;
      }
      i := i + 1;
    }
  }

  method EditList<T>(xs: seq<Item<T>>, e: Edit<T>) returns (r: Result<seq<Item<T>>, Error>)
    ensures r == ApplyEdit(xs, e)
  {
    if e.id == "" {
      return Err(Invalid);
    }
    var idx := FindIndex(xs, e.id);
    var v := Named(e.value, e.id);
    match e.op
    case Add =>
      if idx >= 0 { return Err(AlreadyExists); }
      if v.Err? { return Err(v.error); }
      return Ok(xs + [v.value]);
    case Update =>
      if idx < 0 { return Err(NotFound); }
      if v.Err? { return Err(v.error); }
      return Ok(xs[idx := v.value]);
    case Remove =>
      if idx < 0 { return Err(NotFound); }
      return Ok(xs[..idx] + xs[idx + 1..]);
    case OtherOp =>
      return Err(Invalid);
  }

  /** findUpstream's outer loop. */
  method FindPool(pools: seq<Item<Doc>>, id: string) returns (i: int)
    ensures i == PoolOf(pools, id)
  {
    i := 0;
    while i < |pools|
      invariant 0 <= i <= |pools|
      invariant forall j :: 0 <= j < i ==> IndexOf(UpstreamsOf(pools[j].body), id) < 0
    {
      var u := FindIndex(UpstreamsOf(pools[i].body), id);
      if u >= 0 {
        return;
      }
      i := i + 1;
    }
    i := -1;
  }

  /** applyUpstream */
  method EditUpstream(pools: seq<Item<Doc>>, op: OpKind, id: string, value: Value)
    returns (r: Result<seq<Item<Doc>>, Error>)
    ensures r == ApplyUpstream(pools, op, id, value)
  {
    if id == "" || op == OtherOp {
      return Err(Invalid);
    }
    var pi := FindPool(pools, id);
    if op == Add {
      if pi >= 0 { return Err(AlreadyExists); }
      var v := Named(PartOf(value), id);
      if v.Err? { return Err(v.error); }
      if value.pool == "" { return Err(Invalid); }
      var at := FindIndex(pools, value.pool);
      if at < 0 { return Err(NotFound); }
      return Ok(WithUpstreams(pools, at, UpstreamsOf(pools[at].body) + [v.value]));
    }
    if pi < 0 { return Err(NotFound); }
    var ups := EditList(UpstreamsOf(pools[pi].body), Edit(op, id, PartOf(value)));
    if ups.Err? { return Err(ups.error); }
    return Ok(WithUpstreams(pools, pi, ups.value));
  }

  /** applyChaosActivation */
  method EditActivation(policies: seq<Item<Doc>>, op: OpKind, id: string, value: Value)
    returns (r: Result<seq<Item<Doc>>, Error>)
    ensures r == ApplyActivation(policies, op, id, value)
  {
    if op != Update || id == "" { return Err(Invalid); }
    var i := FindIndex(policies, id);
    if i < 0 { return Err(NotFound); }
    if !value.ActivationValue? { return Err(Invalid); }
    return Ok(policies[i := Item(policies[i].id, Chaos(policies[i].body.text, value.activation))]);
  }

  /** The private candidate that a change set is folded into. */
  class Document {
    const metadata: Doc
    const chaosEnabled: bool
    const emergencyDisabled: bool
    var singles: Singles
    var zones: seq<Item<Zone>>
    var lists: Lists3

    function View(): State
      reads this
    {
      State(metadata, chaosEnabled, emergencyDisabled, singles, zones, lists)
    }

    constructor (st: State)
      ensures View() == st
    {
      metadata, chaosEnabled, emergencyDisabled := st.metadata, st.chaosEnabled, st.emergencyDisabled;
      singles, zones, lists := st.singles, st.zones, st.lists;
    }

    /** A failed operation leaves the document as it was. */
    method ApplyOne(op: Operation) returns (err: Option<Error>)
      modifies this
      ensures match Apply(old(View()), op)
              case Ok(st) => err == None && View() == st
              case Err(x) => err == Some(x) && View() == old(View())
    {
      if op.op == OtherOp { return Some(Invalid); }
      match op.target
      case ZoneTarget(id) =>
        var r := EditList(zones, Edit(op.op, id, ZoneOf(op.value)));
        if r.Err? { return Some(r.error); }
        zones := r.value;
        return None;
      case RecordTarget(id, zid) =>
        if zid == "" || id == "" { return Some(Invalid); }
        var zi := FindIndex(zones, zid);
        if zi < 0 { return Some(NotFound); }
        var r := EditList(zones[zi].body.records, Edit(op.op, id, ItemOf(op.value)));
        if r.Err? { return Some(r.error); }
        zones := zones[zi := Item(zones[zi].id, zones[zi].body.(records := r.value))];
        return None;
      case ListTarget(k, id) =>
        var r := EditList(lists.Get(k), Edit(op.op, id, ItemOf(op.value)));
        if r.Err? { return Some(r.error); }
        lists := lists.Set(k, r.value);
        return None;
      case SingleTarget(k) =>
        if op.op != Update || !op.value.SingleValue? { return Some(Invalid); }
        singles := singles.Set(k, op.value.s);
        return None;
      case UpstreamTarget(id) =>
        var r := EditUpstream(lists.pools, op.op, id, op.value);
        if r.Err? { return Some(r.error); }
        lists := lists.(pools := r.value);
        return None;
      case GroupTarget(id) =>
        var r := EditList(GroupsOf(singles.access), Edit(op.op, id, PartOf(op.value)));
        if r.Err? { return Some(r.error); }
        singles := singles.(access := Access(singles.access.text, r.value));
        return None;
      case ActivationTarget(id) =>
        var r := EditActivation(lists.chaos, op.op, id, op.value);
        if r.Err? { return Some(r.error); }
        lists := lists.(chaos := r.value);
        return None;
      case OtherTarget =>
        return Some(Invalid);
    }

    /** On error the caller discards this private copy. */
    method ApplyOperations(ops: seq<Operation>) returns (err: Option<Error>)
      modifies this
      ensures match ApplyAll(old(View()), ops)
              case Ok(st) => err == None && View() == st
              case Err(x) => err == Some(x)
    {
      var i := 0;
      while i < |ops|
        invariant 0 <= i <= |ops|
        invariant ApplyAll(View(), ops[i..]) == ApplyAll(old(View()), ops)
      {
        var e := ApplyOne(ops[i]);
        if e.Some? { return e; }
        i := i + 1;
      }
      return None;
    }
  }
}
