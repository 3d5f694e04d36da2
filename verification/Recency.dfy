/** A map plus a doubly linked list, most recently used first, and the recency list it refines
    (internal/cache/cache.go:83-103, 381-419; internal/app/idempotency.go:13-31, 106-165). */
module Recency {

  datatype Slot<K, V> = Slot(key: K, val: V)

  // ---------------------------------------------------------------- the abstract list

  ghost predicate Keyed<K, V>(s: seq<Slot<K, V>>) {
    forall i, j :: 0 <= i < j < |s| ==> s[i].key != s[j].key
  }

  /** The place of a key, or -1. */
  function Place<K(==), V>(s: seq<Slot<K, V>>, k: K): (i: int)
    ensures -1 <= i < |s|
    ensures i >= 0 ==> s[i].key == k
    ensures i < 0 ==> forall j :: 0 <= j < |s| ==> s[j].key != k
  {
    if s == [] then -1
    else if s[|s| - 1].key == k then |s| - 1
    else Place(s[..|s| - 1], k)
  }

  lemma PlaceIs<K, V>(s: seq<Slot<K, V>>, k: K, i: nat)
    requires Keyed(s) && i < |s| && s[i].key == k
    ensures Place(s, k) == i
  {
  }

  function Without<T>(s: seq<T>, i: nat): seq<T>
    requires i < |s|
  {
    s[..i] + s[i + 1..]
  }

  function Touch<T>(s: seq<T>, i: nat): seq<T>
    requires i < |s|
  {
    [s[i]] + Without(s, i)
  }

  /** Drop the least recently used slots beyond `max`. */
  function Trim<T>(s: seq<T>, max: nat): seq<T> {
    if |s| <= max then s else s[..max]
  }

  lemma TouchFirst<T>(s: seq<T>)
    requires s != []
    ensures Touch(s, 0) == s
  {
  }

  lemma Shorter<T>(s: seq<T>, n: nat)
    requires 0 < n <= |s|
    ensures s[..n][..n - 1] == s[..n - 1] && forall x :: x in s[..n] ==> x in s
  {
  }

  lemma WithoutKeyed<K, V>(s: seq<Slot<K, V>>, i: nat)
    requires Keyed(s) && i < |s|
    ensures Keyed(Without(s, i)) && forall j :: 0 <= j < |s| - 1 ==> Without(s, i)[j].key != s[i].key
  {
  }

  // ---------------------------------------------------------------- the linked list

  class Node<K, V> {
    const key: K
    var ent: V
    var prev: Node?<K, V>
    var next: Node?<K, V>

    constructor (k: K, v: V)
      ensures key == k && ent == v && prev == null && next == null
    {
      key, ent, prev, next := k, v, null, null;
    }
  }

  /** The map holds exactly `nodes`, each under its key. */
  ghost predicate Maps<K, V>(entries: map<K, Node<K, V>>, nodes: seq<Node<K, V>>) {
    && (forall i, j :: 0 <= i < j < |nodes| ==> nodes[i].key != nodes[j].key)
    && (forall i :: 0 <= i < |nodes| ==> nodes[i].key in entries && entries[nodes[i].key] == nodes[i])
    && (forall k :: k in entries ==> exists i :: 0 <= i < |nodes| && nodes[i].key == k)
  }

  lemma MapsWithout<K, V>(entries: map<K, Node<K, V>>, nodes: seq<Node<K, V>>, i: nat)
    requires Maps(entries, nodes) && i < |nodes|
    ensures Maps(entries - {nodes[i].key}, Without(nodes, i))
  {
    var less := Without(nodes, i);
    assert forall j :: 0 <= j < |less| ==> less[j] == nodes[if j < i then j else j + 1];
    forall k | k in entries - {nodes[i].key} ensures exists j :: 0 <= j < |less| && less[j].key == k {
      var j :| 0 <= j < |nodes| && nodes[j].key == k;
      assert less[if j < i then j else j - 1] == nodes[j];
    }
  }

  lemma MapsInserted<K, V>(entries: map<K, Node<K, V>>, nodes: seq<Node<K, V>>, n: Node<K, V>)
    requires Maps(entries, nodes) && n.key !in entries
    ensures Maps(entries[n.key := n], [n] + nodes)
  {
    var more := [n] + nodes;
    forall k | k == n.key || k in entries ensures exists j :: 0 <= j < |more| && more[j].key == k {
      if k == n.key {
        assert more[0].key == k;
      } else {
        var j :| 0 <= j < |nodes| && nodes[j].key == k;
        assert more[j + 1] == nodes[j];
      }
    }
  }

  lemma MapsTouched<K, V>(entries: map<K, Node<K, V>>, nodes: seq<Node<K, V>>, i: nat)
    requires Maps(entries, nodes) && i < |nodes|
    ensures Maps(entries, Touch(nodes, i))
  {
    MapsWithout(entries, nodes, i);
    MapsInserted(entries - {nodes[i].key}, Without(nodes, i), nodes[i]);
    assert (entries - {nodes[i].key})[nodes[i].key := nodes[i]] == entries;
  }

  lemma MapsSize<K, V>(entries: map<K, Node<K, V>>, nodes: seq<Node<K, V>>)
    requires Maps(entries, nodes)
    ensures |entries| == |nodes|
  {
    var keys := seq(|nodes|, i requires 0 <= i < |nodes| => nodes[i].key);
    DistinctCount(keys);
    assert entries.Keys == set k | k in keys by {
      forall k | k in entries ensures k in keys {
        var i :| 0 <= i < |nodes| && nodes[i].key == k;
        assert keys[i] == k;
      }
    }
  }

  /** The list from `head` to `tail` links exactly `nodes`, in order. */
  ghost predicate Links<K, V>(head: Node?<K, V>, tail: Node?<K, V>, nodes: seq<Node<K, V>>)
    reads nodes
  {
    && (forall i, j :: 0 <= i < j < |nodes| ==> nodes[i] != nodes[j])
    && (forall i, j :: 0 <= i && j == i + 1 && j < |nodes| ==> nodes[i].next == nodes[j] && nodes[j].prev == nodes[i])
    && (nodes == [] ==> head == null && tail == null)
    && (nodes != [] ==> head == nodes[0] && tail == nodes[|nodes| - 1] && head.prev == null && tail.next == null)
  }

  /** The nodes carry these keys and values. */
  ghost predicate Carries<K, V>(nodes: seq<Node<K, V>>, contents: seq<Slot<K, V>>)
    reads nodes`ent
  {
    && |contents| == |nodes|
    && forall i {:trigger nodes[i]} :: 0 <= i < |nodes| ==> contents[i] == Slot(nodes[i].key, nodes[i].ent)
  }

  lemma CarriesWithout<K, V>(nodes: seq<Node<K, V>>, contents: seq<Slot<K, V>>, i: nat)
    requires Carries(nodes, contents) && i < |nodes|
    ensures Carries(Without(nodes, i), Without(contents, i))
  {
  }

  lemma CarriesTouch<K, V>(nodes: seq<Node<K, V>>, contents: seq<Slot<K, V>>, i: nat)
    requires Carries(nodes, contents) && i < |nodes|
    ensures Carries(Touch(nodes, i), Touch(contents, i))
  {
  }

  lemma CarriesCons<K, V>(nodes: seq<Node<K, V>>, contents: seq<Slot<K, V>>, n: Node<K, V>)
    requires Carries(nodes, contents)
    ensures Carries([n] + nodes, [Slot(n.key, n.ent)] + contents)
  {
  }

  lemma KeysAgree<K, V>(nodes: seq<Node<K, V>>, contents: seq<Slot<K, V>>)
    requires Carries(nodes, contents)
    ensures forall i :: 0 <= i < |contents| ==> contents[i].key == nodes[i].key && contents[i].val == nodes[i].ent
  {
  }

  class Lru<K(==), V> {
    var entries: map<K, Node<K, V>>
    var head: Node?<K, V>
    var tail: Node?<K, V>
    ghost var nodes: seq<Node<K, V>>
    ghost var contents: seq<Slot<K, V>>
    /** Every node that may be linked. */
    ghost var repr: set<Node<K, V>>

    ghost predicate Linked()
      reads this, repr
    {
      (forall i :: 0 <= i < |nodes| ==> nodes[i] in repr) && Links(head, tail, nodes)
    }

    ghost predicate Valid()
      reads this, repr
    {
      Linked() && Maps(entries, nodes) && Carries(nodes, contents)
    }

    constructor ()
      ensures Valid() && contents == [] && repr == {}
    {
      entries, head, tail, nodes, contents, repr := map[], null, null, [], [], {};
    }

    /** unlinkLocked */
    method Unlink(n: Node<K, V>, ghost i: nat)
      requires Linked() && i < |nodes| && nodes[i] == n
      modifies this`head, this`tail, this`nodes, repr`prev, repr`next
      ensures Linked() && nodes == Without(old(nodes), i) && n.prev == null && n.next == null && n !in nodes
    {
      assert i > 0 ==> n.prev == nodes[i - 1] && n.prev in nodes;
      assert i < |nodes| - 1 ==> n.next == nodes[i + 1] && n.next in nodes;
      if n.prev != null {
        n.prev.next := n.next;
      } else {
        head := n.next;
      }
      if n.next != null {
        n.next.prev := n.prev;
      } else {
        tail := n.prev;
      }
      n.prev := null;
      n.next := null;
      nodes := Without(nodes, i);
    }

    /** pushFrontLocked */
    method PushFront(n: Node<K, V>)
      requires Linked() && n !in nodes
      modifies this`head, this`tail, this`nodes, this`repr, repr`prev, n`prev, n`next
      ensures Linked() && nodes == [n] + old(nodes) && repr == old(repr) + {n}
    {
      n.prev := null;
      n.next := head;
      if head != null {
        head.prev := n;
      }
      head := n;
      if tail == null {
        tail := n;
      }
      nodes := [n] + nodes;
      repr := repr + {n};
    }

    /** Move a node of the list to its front. */
    method Relink(n: Node<K, V>, ghost i: nat)
      requires Linked() && 0 < i < |nodes| && nodes[i] == n
      modifies this`head, this`tail, this`nodes, this`repr, repr`prev, repr`next
      ensures Linked() && nodes == Touch(old(nodes), i) && repr == old(repr)
    {
      Unlink(n, i);
      PushFront(n);
    }

    /** The same, with the map. */
    method RelinkMapped(n: Node<K, V>, ghost i: nat)
      requires Linked() && Maps(entries, nodes) && 0 < i < |nodes| && nodes[i] == n
      modifies this`head, this`tail, this`nodes, this`repr, repr`prev, repr`next
      ensures Linked() && Maps(entries, nodes) && nodes == Touch(old(nodes), i) && repr == old(repr)
    {
      MapsTouched(entries, nodes, i);
      Relink(n, i);
    }

    /** The same, with the map and the values. */
    method Bring(n: Node<K, V>, ghost i: nat)
      requires Valid() && 0 < i < |nodes| && nodes[i] == n
      modifies this`head, this`tail, this`nodes, this`contents, this`repr, repr`prev, repr`next
      ensures Valid() && repr == old(repr) && contents == Touch(old(contents), i)
    {
      ghost var was, before, moved := nodes, contents, Touch(nodes, i);
      contents := Touch(contents, i);
      RelinkMapped(n, i);
      CarriesTouch(was, before, i);
      assert nodes == moved;
    }

    /** moveFrontLocked */
    method MoveFront(n: Node<K, V>, ghost i: nat)
      requires Valid() && i < |nodes| && nodes[i] == n
      modifies this`head, this`tail, this`nodes, this`contents, this`repr, repr`prev, repr`next
      ensures Valid() && repr == old(repr) && contents == Touch(old(contents), i)
    {
      assert i > 0 ==> n != head;
      if n != head {
        Bring(n, i);
      } else {
        TouchFirst(contents);
      }
    }

    /** Take a node out of the list and the map. */
    method UnlinkMapped(n: Node<K, V>, ghost i: nat)
      requires Linked() && Maps(entries, nodes) && i < |nodes| && nodes[i] == n
      modifies this`entries, this`head, this`tail, this`nodes, repr`prev, repr`next
      ensures Linked() && Maps(entries, nodes) && nodes == Without(old(nodes), i)
    {
      MapsWithout(entries, nodes, i);
      entries := entries - {n.key};
      Unlink(n, i);
    }

    /** removeLocked */
    method Remove(n: Node<K, V>, ghost i: nat)
      requires Valid() && i < |nodes| && nodes[i] == n
      modifies this, repr`prev, repr`next
      ensures Valid() && repr == old(repr) && nodes == Without(old(nodes), i) && contents == Without(old(contents), i)
    {
      ghost var was, before, less := nodes, contents, Without(nodes, i);
      contents := Without(contents, i);
      UnlinkMapped(n, i);
      CarriesWithout(was, before, i);
      assert nodes == less;
    }

    /** Link and index a node with a new key. */
    method PushMapped(n: Node<K, V>)
      requires Linked() && Maps(entries, nodes) && n !in nodes && n.key !in entries
      modifies this`entries, this`head, this`tail, this`nodes, this`repr, repr`prev, n`prev, n`next
      ensures Linked() && Maps(entries, nodes) && nodes == [n] + old(nodes) && repr == old(repr) + {n}
    {
      MapsInserted(entries, nodes, n);
      entries := entries[n.key := n];
      PushFront(n);
    }

    /** The same, with the values. */
    method Adopt(n: Node<K, V>)
      requires Valid() && n !in nodes && n.key !in entries
      modifies this`entries, this`head, this`tail, this`nodes, this`contents, this`repr, repr`prev, n`prev, n`next
      ensures Valid() && repr == old(repr) + {n} && contents == [Slot(n.key, n.ent)] + old(contents)
    {
      CarriesCons(nodes, contents, n);
      ghost var more := [n] + nodes;
      contents := [Slot(n.key, n.ent)] + contents;
      PushMapped(n);
      assert nodes == more;
    }

    /** Remove the least recently used entry. */
    method DropTail()
      requires Valid() && nodes != []
      modifies this, repr`prev, repr`next
      ensures Valid() && |entries| == |nodes| && repr == old(repr)
      ensures nodes == old(nodes)[..|old(nodes)| - 1] && contents == old(contents)[..|old(nodes)| - 1]
    {
      Remove(tail, |nodes| - 1);
      MapsSize(entries, nodes);
    }

    // -------------------------------------------------------------- operations by key

    /** The map finds the node at the key's place in the list. */
    lemma Locate(k: K)
      requires Valid()
      ensures Keyed(contents) && (k in entries <==> Place(contents, k) >= 0)
      ensures k in entries ==>
                nodes[Place(contents, k)] == entries[k] && contents[Place(contents, k)].val == entries[k].ent
    {
      KeysAgree(nodes, contents);
      assert forall i :: 0 <= i < |nodes| ==> nodes[i].key in entries;
      if k in entries {
        var i :| 0 <= i < |nodes| && nodes[i].key == k;
        PlaceIs(contents, k, i);
      }
    }

    /** Look a key up in the map. */
    method Find(k: K) returns (v: Presence<V>)
      requires Valid()
      ensures v == if Place(contents, k) >= 0 then Present(contents[Place(contents, k)].val) else Absent
    {
      Locate(k);
      v := if k in entries then Present(entries[k].ent) else Absent;
    }

    /** Move a key that is present to the front. */
    method Use(k: K)
      requires Valid() && Place(contents, k) >= 0
      modifies this, repr`prev, repr`next
      ensures Valid() && contents == Touch(old(contents), Place(old(contents), k))
      ensures repr == old(repr)
    {
      Locate(k);
      MoveFront(entries[k], Place(contents, k));
    }

    method Delete(k: K)
      requires Valid() && Place(contents, k) >= 0
      modifies this, repr`prev, repr`next
      ensures Valid() && contents == Without(old(contents), Place(old(contents), k))
      ensures repr == old(repr)
    {
      Locate(k);
      Remove(entries[k], Place(contents, k));
    }

    /** Replace the value of a key that is present, and move it to the front. */
    method Replace(k: K, v: V)
      requires Valid() && Place(contents, k) >= 0
      modifies this, repr
      ensures Valid()
      ensures contents == Touch(old(contents)[Place(old(contents), k) := Slot(k, v)], Place(old(contents), k))
      ensures repr == old(repr)
    {
      Locate(k);
      ghost var i := Place(contents, k);
      var n := entries[k];
      n.ent := v;
      contents := contents[i := Slot(k, v)];
      MoveFront(n, i);
    }

    /** Insert a new key at the front. */
    method Insert(k: K, v: V)
      requires Valid() && Place(contents, k) < 0
      modifies this, repr`prev
      ensures Valid() && contents == [Slot(k, v)] + old(contents)
      ensures old(repr) <= repr && fresh(repr - old(repr))
    {
      Locate(k);
      var n := new Node(k, v);
      Adopt(n);
    }

    /** The eviction loop: remove the tail while there are too many entries. */
    method DropTails(max: nat) returns (evicted: nat)
      requires Valid()
      modifies this, repr`prev, repr`next
      ensures Valid() && |nodes| == (if |old(nodes)| <= max then |old(nodes)| else max)
      ensures evicted == |old(nodes)| - |nodes|
      ensures repr == old(repr) && contents == old(contents)[..|nodes|]
    {
      evicted := 0;
      MapsSize(entries, nodes);
      ghost var all := contents;
      while |entries| > max
        invariant Valid() && |entries| == |nodes| <= |all|
        invariant repr == old(repr) && contents == all[..|nodes|]
        invariant evicted == |all| - |nodes| && (|nodes| >= max || evicted == 0)
        decreases |entries|
      {
        Shorter(all, |nodes|);
        DropTail();
        evicted := evicted + 1;
      }
    }

    method Evict(max: nat) returns (evicted: nat)
      requires Valid()
      modifies this, repr`prev, repr`next
      ensures Valid() && contents == Trim(old(contents), max) && repr == old(repr)
      ensures evicted == |old(contents)| - |contents|
    {
      evicted := DropTails(max);
    }

    method Clear()
      modifies this
      ensures Valid() && contents == [] && repr == {}
    {
      entries, head, tail, nodes, contents, repr := map[], null, null, [], [], {};
    }
  }

  datatype Presence<V> = Absent | Present(val: V)

  lemma {:induction false} DistinctCount<T>(s: seq<T>)
    requires forall i, j :: 0 <= i < j < |s| ==> s[i] != s[j]
    ensures |set x | x in s| == |s|
  {
    if s != [] {
      var rest := s[..|s| - 1];
      DistinctCount(rest);
      assert (set x | x in s) == (set x | x in rest) + {s[|s| - 1]};
    } else {
      assert (set x | x in s) == {};
    }
  }
}
