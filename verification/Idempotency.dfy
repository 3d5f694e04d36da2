/** The idempotency table: the same linked list and map, keyed by the request's key
    (internal/app/idempotency.go:13-165). */
module Idempotency {
  import opened Text
  import opened Recency

  /** What a key remembers: the request's fingerprint and the plan or result it got. */
  datatype Memo<P, A> = Memo(fp: string, plan: Option<P>, apply: Option<A>)

  /** Half of a memo: what storePlan or storeApply writes. */
  datatype Write<P, A> = WritePlan(p: P) | WriteApply(a: A)

  datatype Reply<P, A> = Unknown | Conflict | Known(memo: Memo<P, A>)

  function Amend<P, A>(m: Memo<P, A>, w: Write<P, A>): Memo<P, A> {
    match w
    case WritePlan(p) => m.(plan := Some(p))
    case WriteApply(a) => m.(apply := Some(a))
  }

  /** The table, most recently used first. */
  type Slots<P, A> = seq<Slot<string, Memo<P, A>>>

  // ---------------------------------------------------------------- the table as a list

  function Ask<P, A>(s: Slots<P, A>, key: string, fp: string): Reply<P, A> {
    if key == "" || Place(s, key) < 0 then Unknown
    else if s[Place(s, key)].val.fp != fp then Conflict
    else Known(s[Place(s, key)].val)
  }

  /** lookup: a hit moves the key to the front. */
  function AfterAsk<P, A>(s: Slots<P, A>, key: string, fp: string): Slots<P, A> {
    if Ask(s, key, fp).Known? then Touch(s, Place(s, key)) else s
  }

  function Dropped<P, A>(s: Slots<P, A>, key: string): Slots<P, A> {
    if Place(s, key) >= 0 then Without(s, Place(s, key)) else s
  }

  /** The memo of a key is first; its old memo goes, and the oldest beyond `max`. */
  function Fronted<P, A>(s: Slots<P, A>, max: nat, key: string, m: Memo<P, A>): Slots<P, A> {
    Trim([Slot(key, m)] + Dropped(s, key), max)
  }

  /** The memo of the same request amended, or a new one. */
  function Updated<P, A>(s: Slots<P, A>, key: string, fp: string, w: Write<P, A>): Memo<P, A> {
    Amend(if Ask(s, key, fp).Known? then Ask(s, key, fp).memo else Memo(fp, None, None), w)
  }

  /** storePlan and storeApply */
  function Stored<P, A>(s: Slots<P, A>, max: nat, key: string, fp: string, w: Write<P, A>): Slots<P, A> {
    if key == "" then s else Fronted(s, max, key, Updated(s, key, fp, w))
  }

  ghost predicate Good<P, A>(s: Slots<P, A>, max: nat) {
    Keyed(s) && |s| <= max && forall i :: 0 <= i < |s| ==> s[i].key != ""
  }

  // ---------------------------------------------------------------- where slots go

  /** `out` takes its slots from `s`, in order, at the places `from` gives. */
  ghost predicate Picks<T>(out: seq<T>, s: seq<T>, from: int -> int) {
    && (forall j :: 0 <= j < |out| ==> 0 <= from(j) < |s| && out[j] == s[from(j)])
    && (forall i, j :: 0 <= i < j < |out| ==> from(i) < from(j))
  }

  lemma PickedIsGood<P, A>(out: Slots<P, A>, s: Slots<P, A>, from: int -> int, max: nat)
    requires Good(s, max) && Picks(out, s, from) && |out| <= |s|
    ensures Good(out, max)
  {
    forall i, j | 0 <= i < j < |out| ensures out[i].key != out[j].key {
      assert s[from(i)].key != s[from(j)].key;
    }
  }

  lemma WithoutPicks<T>(s: seq<T>, i: nat)
    requires i < |s|
    ensures Picks(Without(s, i), s, j => if j < i then j else j + 1)
  {
  }

  lemma DroppedIsGood<P, A>(s: Slots<P, A>, max: nat, key: string)
    requires Good(s, max)
    ensures Good(Dropped(s, key), max) && forall j :: 0 <= j < |Dropped(s, key)| ==> Dropped(s, key)[j].key != key
  {
    var i := Place(s, key);
    if i >= 0 {
      WithoutPicks(s, i);
      PickedIsGood(Without(s, i), s, j => if j < i then j else j + 1, max);
      WithoutKeyed(s, i);
    }
  }

  lemma DroppedKeeps<P, A>(s: Slots<P, A>, key: string, j: nat)
    requires j < |s| && s[j].key != key
    ensures s[j] in Dropped(s, key)
  {
    var i := Place(s, key);
    if i >= 0 { assert Without(s, i)[if j < i then j else j - 1] == s[j]; }
  }

  lemma DroppedFrom<P, A>(s: Slots<P, A>, key: string, j: nat)
    requires j < |Dropped(s, key)|
    ensures Dropped(s, key)[j] in s
  {
    var i := Place(s, key);
    if i >= 0 { assert Without(s, i)[j] == s[if j < i then j else j + 1]; }
  }

  /** Place by place, a fronted table is the new slot and then the others. */
  lemma FrontedAt<P, A>(s: Slots<P, A>, max: nat, key: string, m: Memo<P, A>)
    requires max > 0
    ensures var out, rest := Fronted(s, max, key, m), Dropped(s, key);
            && |out| == (if |rest| < max then |rest| + 1 else max) && out[0] == Slot(key, m)
            && forall j :: 0 < j < |out| ==> out[j] == rest[j - 1]
  {
  }

  lemma ConsIsGood<P, A>(out: Slots<P, A>, rest: Slots<P, A>, max: nat)
    requires out != [] && |out| <= max && |out| <= |rest| + 1 && Good(rest, max) && out[0].key != ""
    requires forall j :: 0 < j < |out| ==> out[j] == rest[j - 1]
    requires forall j :: 0 <= j < |rest| ==> rest[j].key != out[0].key
    ensures Good(out, max)
  {
  }

  lemma FrontedIsGood<P, A>(s: Slots<P, A>, max: nat, key: string, m: Memo<P, A>)
    requires Good(s, max) && max > 0 && key != ""
    ensures Good(Fronted(s, max, key, m), max)
  {
    DroppedIsGood(s, max, key);
    FrontedAt(s, max, key, m);
    ConsIsGood(Fronted(s, max, key, m), Dropped(s, key), max);
  }

  lemma FrontedFrom<P, A>(s: Slots<P, A>, max: nat, key: string, m: Memo<P, A>, j: nat)
    requires max > 0 && 0 < j < |Fronted(s, max, key, m)|
    ensures Fronted(s, max, key, m)[j] in s
  {
    FrontedAt(s, max, key, m);
    DroppedFrom(s, key, j - 1);
  }

  lemma FrontedKeeps<P, A>(s: Slots<P, A>, max: nat, key: string, m: Memo<P, A>, k: nat)
    requires max > 0 && k < |Dropped(s, key)| && k + 1 < max
    ensures Dropped(s, key)[k] in Fronted(s, max, key, m)
  {
    FrontedAt(s, max, key, m);
    assert Fronted(s, max, key, m)[k + 1] == Dropped(s, key)[k];
  }

  lemma AskFirst<P, A>(s: Slots<P, A>, fp: string)
    requires Keyed(s) && s != [] && s[0].key != ""
    ensures Ask(s, s[0].key, fp) == if s[0].val.fp == fp then Known(s[0].val) else Conflict
  {
    PlaceIs(s, s[0].key, 0);
  }

  // ---------------------------------------------------------------- what a store does

  /** Storing keeps the table keyed and bounded, answers the same request with what was stored,
      reports any other request on the key as a conflict, and alters no other key. */
  lemma StoreThenAsk<P, A>(s: Slots<P, A>, max: nat, key: string, fp: string, w: Write<P, A>, other: string)
    requires Good(s, max) && max > 0 && key != ""
    ensures Good(Stored(s, max, key, fp, w), max)
    ensures Ask(Stored(s, max, key, fp, w), key, fp) == Known(Updated(s, key, fp, w))
    ensures other != fp ==> Ask(Stored(s, max, key, fp, w), key, other) == Conflict
    ensures forall x :: x in Stored(s, max, key, fp, w) && x.key != key ==> x in s
  {
    var m, s' := Updated(s, key, fp, w), Stored(s, max, key, fp, w);
    FrontedIsGood(s, max, key, m);
    FrontedAt(s, max, key, m);
    AskFirst(s', fp);
    AskFirst(s', other);
    forall x | x in s' && x.key != key ensures x in s {
      var j :| 0 <= j < |s'| && s'[j] == x;
      FrontedFrom(s, max, key, m, j);
    }
  }

  /** Only the least recently used key is lost, and none while there is room. */
  lemma StoreLosesTail<P, A>(s: Slots<P, A>, max: nat, key: string, fp: string, w: Write<P, A>, j: nat)
    requires Good(s, max) && max > 0 && j < |s| && s[j].key != key
    requires |s| < max || Place(s, key) >= 0 || j < |s| - 1
    ensures s[j] in Stored(s, max, key, fp, w)
  {
    if key != "" {
      DroppedKeeps(s, key, j);
      var rest, i := Dropped(s, key), Place(s, key);
      var k := if i < 0 || j < i then j else j - 1;
      assert rest[k] == s[j];
      FrontedKeeps(s, max, key, Updated(s, key, fp, w), k);
    }
  }

  lemma AskIsGood<P, A>(s: Slots<P, A>, max: nat, key: string, fp: string)
    requires Good(s, max)
    ensures Good(AfterAsk(s, key, fp), max)
  {
    if Ask(s, key, fp).Known? {
      var i := Place(s, key);
      DroppedIsGood(s, max, key);
      TouchAt(s, i);
      ConsIsGood(Touch(s, i), Dropped(s, key), max);
    }
  }

  lemma TouchAt<T>(s: seq<T>, i: nat)
    requires i < |s|
    ensures |Touch(s, i)| == |s| && Touch(s, i)[0] == s[i]
    ensures forall j :: 0 < j < |s| ==> Touch(s, i)[j] == Without(s, i)[j - 1]
  {
  }

  /** Amending a memo in place and moving it to the front is fronting it. */
  lemma ReplaceIsFronted<P, A>(s: Slots<P, A>, max: nat, key: string, m: Memo<P, A>)
    requires Place(s, key) >= 0 && |s| <= max
    ensures Touch(s[Place(s, key) := Slot(key, m)], Place(s, key)) == Fronted(s, max, key, m)
  {
    var i := Place(s, key);
    assert Without(s[i := Slot(key, m)], i) == Without(s, i);
  }

  // ---------------------------------------------------------------- the object

  class Table<P, A> {
    const max: nat
    const list: Lru<string, Memo<P, A>>

    /** Distinct non-empty keys, at most `max`, in map and list alike. */
    ghost predicate Valid()
      reads this, list, list.repr
    {
      max > 0 && list.Valid() && Good(list.contents, max)
    }

    constructor (limit: int, defaultMax: nat)
      requires defaultMax > 0
      ensures Valid() && max == (if limit <= 0 then defaultMax else limit) && list.contents == [] && fresh(list)
    {
      max := if limit <= 0 then defaultMax else limit;
      list := new Lru();
    }

    method Lookup(key: string, fp: string) returns (r: Reply<P, A>)
      requires Valid()
      modifies list, list.repr`prev, list.repr`next
      ensures Valid() && r == Ask(old(list.contents), key, fp)
      ensures list.contents == AfterAsk(old(list.contents), key, fp) && list.repr == old(list.repr)
    {
      AskIsGood(list.contents, max, key, fp);
      if key == "" {
        return Unknown;
      }
      var found := list.Find(key);
      if found.Absent? {
        return Unknown;
      }
      if found.val.fp != fp {
        return Conflict;
      }
      list.Use(key);
      return Known(found.val);
    }

    /** removeLocked, when the key is there */
    method Remove(key: string)
      requires list.Valid()
      modifies list, list.repr`prev, list.repr`next
      ensures list.Valid() && list.contents == Dropped(old(list.contents), key) && list.repr == old(list.repr)
      ensures Place(list.contents, key) < 0
    {
      list.Locate(key);
      var found := list.Find(key);
      if found.Present? {
        WithoutKeyed(list.contents, Place(list.contents, key));
        list.Delete(key);
      }
    }

    /** insertFrontLocked */
    method InsertFront(key: string, m: Memo<P, A>)
      requires list.Valid()
      modifies list, list.repr
      ensures list.Valid() && list.contents == Fronted(old(list.contents), max, key, m)
      ensures fresh(list.repr - old(list.repr))
    {
      Remove(key);
      list.Insert(key, m);
      var dropped := list.Evict(max);
    }

    /** The same request stores again. */
    method Renew(key: string, m: Memo<P, A>)
      requires list.Valid() && Place(list.contents, key) >= 0 && |list.contents| <= max
      modifies list, list.repr
      ensures list.Valid() && list.repr == old(list.repr) && list.contents == Fronted(old(list.contents), max, key, m)
    {
      ReplaceIsFronted(list.contents, max, key, m);
      list.Replace(key, m);
    }

    /** The memo to store, and whether it amends one of the same request. */
    method Amended(key: string, fp: string, w: Write<P, A>) returns (same: bool, m: Memo<P, A>)
      requires list.Valid() && key != ""
      ensures m == Updated(list.contents, key, fp, w)
      ensures same == Ask(list.contents, key, fp).Known?
    {
      var found := list.Find(key);
      same := found.Present? && found.val.fp == fp;
      m := Amend(if same then found.val else Memo(fp, None, None), w);
    }

    /** Amend in place, or insert at the front. */
    method Put(same: bool, key: string, m: Memo<P, A>)
      requires list.Valid() && |list.contents| <= max && (same ==> Place(list.contents, key) >= 0)
      modifies list, list.repr
      ensures list.Valid() && list.contents == Fronted(old(list.contents), max, key, m)
      ensures fresh(list.repr - old(list.repr))
    {
      if same {
        Renew(key, m);
      } else {
        InsertFront(key, m);
      }
    }

    /** storePlan and storeApply */
    method Store(key: string, fp: string, w: Write<P, A>)
      requires Valid()
      modifies list, list.repr
      ensures Valid() && list.contents == Stored(old(list.contents), max, key, fp, w)
      ensures fresh(list.repr - old(list.repr))
    {
      if key == "" {
        return;
      }
      ghost var was := list.contents;
      FrontedIsGood(was, max, key, Updated(was, key, fp, w));
      var same, memo := Amended(key, fp, w);
      Put(same, key, memo);
    }

    method Evict(key: string)
      requires Valid()
      modifies list, list.repr`prev, list.repr`next
      ensures Valid() && list.contents == (if key == "" then old(list.contents) else Dropped(old(list.contents), key))
    {
      DroppedIsGood(list.contents, max, key);
      if key != "" {
        Remove(key);
      }
    }

    method Clear()
      requires Valid()
      modifies list
      ensures Valid() && list.contents == [] && list.repr == {}
    {
      list.Clear();
    }
  }
}
