/** Generations, identity, and the previous pointer, over every interleaving. */
module StoreOrder {
  import opened Text
  import opened Store

  // ---------------------------------------------------------------- pointers stay allocated

  lemma PCFrame(w: World, w': World, pc: PC)
    requires PCInHeap(w, pc) && w.heap <= w'.heap
    ensures PCInHeap(w', pc)
  {
  }

  lemma SoundFrame(w: World, w': World, t: nat, pc: PC)
    requires Sound(w) && t < |w.threads| && w.heap <= w'.heap
    requires w'.threads == w.threads[t := pc] && PCInHeap(w', pc)
    requires OptInHeap(w', w'.active) && OptInHeap(w', w'.previous)
    requires forall i :: 0 <= i < |w'.history| ==> InHeap(w', w'.history[i].p)
    ensures Sound(w')
  {
    forall s | 0 <= s < |w'.threads| ensures PCInHeap(w', w'.threads[s]) {
      if s != t { PCFrame(w, w', w.threads[s]); }
    }
  }

  /** The pointers an effect mentions are allocated once it has happened. */
  ghost predicate EffectInHeap(w: World, e: Effect) {
    match e
    case Move(pc) => PCInHeap(w, pc)
    case Allocate(s, pc) => PCInHeap(w.(heap := w.heap + [s]), pc)
    case StoreBit(_, pc) => PCInHeap(w, pc)
    case Publish(d, _, pc) => DraftInHeap(w, d) && PCInHeap(w, pc)
    case StorePrevious(p, pc) => InHeap(w, p) && PCInHeap(w, pc)
    case Leave => true
  }

  lemma NextInHeap(c: Config, w: World, pc: PC, k: Pick)
    requires Sound(w) && PCInHeap(w, pc) && !pc.Idle?
    ensures EffectInHeap(w, Next(c, w, pc, k))
  {
  }

  lemma SoundPublish(w: World, t: nat, d: Draft, who: Option<Caller>, pc: PC)
    requires Sound(w) && t < |w.threads| && DraftInHeap(w, d) && PCInHeap(w, pc)
    ensures Sound(Perform(w, t, Publish(d, who, pc)))
  {
    var w' := Perform(w, t, Publish(d, who, pc));
    PCFrame(w, w', pc);
    forall i | 0 <= i < |w'.history| ensures InHeap(w', w'.history[i].p) {
      if i < |w.history| { assert w'.history[i] == w.history[i]; }
    }
    SoundFrame(w, w', t, pc);
  }

  lemma SoundAllocate(w: World, t: nat, s: Snapshot, pc: PC)
    requires Sound(w) && t < |w.threads| && EffectInHeap(w, Allocate(s, pc))
    ensures Sound(Perform(w, t, Allocate(s, pc)))
  {
    var w' := Perform(w, t, Allocate(s, pc));
    assert PCInHeap(w', pc);
    SoundFrame(w, w', t, pc);
  }

  lemma SoundQuiet(w: World, w': World, t: nat, pc: PC)
    requires Sound(w) && t < |w.threads| && w'.heap == w.heap && w'.history == w.history && w'.active == w.active
    requires w'.threads == w.threads[t := pc] && PCInHeap(w, pc) && OptInHeap(w, w'.previous)
    ensures Sound(w')
  {
    PCFrame(w, w', pc);
    SoundFrame(w, w', t, pc);
  }

  lemma SoundPerform(w: World, t: nat, e: Effect)
    requires Sound(w) && t < |w.threads| && EffectInHeap(w, e)
    ensures Sound(Perform(w, t, e))
  {
    match e
    case Publish(d, who, pc) => SoundPublish(w, t, d, who, pc);
    case Allocate(s, pc) => SoundAllocate(w, t, s, pc);
    case Move(pc) => SoundQuiet(w, Perform(w, t, e), t, pc);
    case StoreBit(_, pc) => SoundQuiet(w, Perform(w, t, e), t, pc);
    case StorePrevious(_, pc) => SoundQuiet(w, Perform(w, t, e), t, pc);
    case Leave => SoundQuiet(w, Perform(w, t, e), t, Idle);
  }

  /** Every step keeps every pointer allocated, so a run is never cut short. */
  lemma SoundStep(c: Config, w: World, a: Action)
    requires Sound(w) && Enabled(c, w, a)
    ensures Sound(Do(c, w, a))
  {
    match a
    case Alloc(s) =>
      var w' := Do(c, w, a);
      forall t | 0 <= t < |w.threads| ensures PCInHeap(w', w'.threads[t]) { PCFrame(w, w', w.threads[t]); }
    case Start(t, b) =>
      SoundFrame(w, Do(c, w, a), t, Started(b));
    case Go(t, k) =>
      NextInHeap(c, w, w.threads[t], k);
      SoundPerform(w, t, Next(c, w, w.threads[t], k));
  }

  // ---------------------------------------------------------------- generations and previous

  ghost function Gen(w: World, p: Ptr): nat
    requires InHeap(w, p)
  {
    w.heap[p].generation
  }

  ghost predicate OrderedHistory(w: World)
    requires Sound(w)
  {
    forall i, j :: 0 <= i < j < |w.history| ==> Gen(w, w.history[i].p) < Gen(w, w.history[j].p)
  }

  /** `p` was active once and has been displaced since. */
  ghost predicate Displaced(w: World, p: Ptr) {
    exists i :: 0 <= i < |w.history| - 1 && w.history[i].p == p
  }

  ghost predicate ThreadOrdered(w: World, pc: PC)
    requires PCInHeap(w, pc)
  {
    match pc
    case SwapCAS(_, _, prev, d) => prev.Some? ==> Gen(w, prev.value) < DraftOf(w, d).generation
    case PrevLoad(d, _, _) => Displaced(w, d)
    case PrevCAS(d, cur, _, _) => Displaced(w, d) && (cur.Some? ==> Gen(w, cur.value) < Gen(w, d))
    case StampCAS(live, s, _) => Gen(w, live) < s.generation
    case _ => true
  }

  /** A thread that is still going to offer `p` to the previous pointer. */
  ghost predicate Publishing(pc: PC, p: Ptr) {
    (pc.PrevLoad? || pc.PrevCAS?) && pc.displaced == p
  }

  /** The immediate predecessor of active is in previous already, or some thread carries it. */
  ghost predicate Covered(w: World)
    requires Sound(w)
  {
    |w.history| >= 2 ==>
      var pred := w.history[|w.history| - 2].p;
      || (w.previous.Some? && Gen(w, pred) <= Gen(w, w.previous.value))
      || exists t :: 0 <= t < |w.threads| && Publishing(w.threads[t], pred)
  }

  ghost predicate ActiveIsLast(w: World) {
    && (w.active.None? <==> w.history == [])
    && (w.history != [] ==> w.active == Some(w.history[|w.history| - 1].p))
  }

  ghost predicate Ordered(w: World) {
    && Sound(w) && OrderedHistory(w) && ActiveIsLast(w)
    && (w.previous.Some? ==> Displaced(w, w.previous.value))
    && (forall t :: 0 <= t < |w.threads| ==> ThreadOrdered(w, w.threads[t]))
    && Covered(w)
  }

  lemma ThreadFrame(w: World, w': World, pc: PC)
    requires PCInHeap(w, pc) && ThreadOrdered(w, pc) && w.heap <= w'.heap && w.history <= w'.history
    ensures PCInHeap(w', pc) && ThreadOrdered(w', pc)
  {
    PCFrame(w, w', pc);
    if (pc.PrevLoad? || pc.PrevCAS?) {
      var i :| 0 <= i < |w.history| - 1 && w.history[i].p == pc.displaced;
      assert w'.history[i].p == pc.displaced;
    }
  }

  lemma OthersOrdered(w: World, w': World, t: nat, pc: PC)
    requires Ordered(w) && Sound(w') && t < |w.threads| && w.heap <= w'.heap && w.history <= w'.history
    requires w'.threads == w.threads[t := pc] && PCInHeap(w', pc) && ThreadOrdered(w', pc)
    ensures forall s :: 0 <= s < |w'.threads| ==> ThreadOrdered(w', w'.threads[s])
  {
    forall s | 0 <= s < |w'.threads| ensures ThreadOrdered(w', w'.threads[s]) {
      if s != t { ThreadFrame(w, w', w.threads[s]); }
    }
  }

  /** A step that leaves active and the history alone, and does not drop the predecessor. */
  lemma OrderedQuiet(w: World, w': World, t: nat, pc: PC)
    requires Ordered(w) && Sound(w') && t < |w.threads| && w.heap <= w'.heap
    requires w'.history == w.history && w'.active == w.active && w'.previous == w.previous
    requires w'.threads == w.threads[t := pc] && PCInHeap(w', pc) && ThreadOrdered(w', pc)
    requires forall p :: InHeap(w, p) && Publishing(w.threads[t], p) ==>
               Publishing(pc, p) || (w.previous.Some? && Gen(w, p) <= Gen(w, w.previous.value))
    ensures Ordered(w')
  {
    OthersOrdered(w, w', t, pc);
    assert OrderedHistory(w');
    if |w.history| >= 2 {
      var pred := w.history[|w.history| - 2].p;
      if s :| 0 <= s < |w.threads| && Publishing(w.threads[s], pred) {
        assert s != t ==> w'.threads[s] == w.threads[s];
        assert Publishing(w'.threads[s], pred) || (w.previous.Some? && Gen(w, pred) <= Gen(w, w.previous.value));
      }
    }
  }

  lemma DisplacedGrows(w: World, w': World, p: Ptr)
    requires Displaced(w, p) && w.history <= w'.history
    ensures Displaced(w', p)
  {
    var i :| 0 <= i < |w.history| - 1 && w.history[i].p == p;
    assert w'.history[i].p == p;
  }

  /** `w'` extends the history of `w` by one snapshot, larger than the one it displaces. */
  ghost predicate Extends(w: World, w': World) {
    && Sound(w) && Sound(w') && w.heap <= w'.heap && w.history <= w'.history && |w'.history| == |w.history| + 1
    && (w.history != [] ==> Gen(w, w.history[|w.history| - 1].p) < Gen(w', w'.history[|w.history|].p))
  }

  lemma HistoryGrows(w: World, w': World)
    requires Extends(w, w') && OrderedHistory(w)
    ensures OrderedHistory(w')
  {
    var n := |w.history|;
    forall i, j | 0 <= i < j < |w'.history| ensures Gen(w', w'.history[i].p) < Gen(w', w'.history[j].p) {
      assert w'.history[i] == w.history[i] && InHeap(w, w.history[i].p);
      if j < n {
        assert w'.history[j] == w.history[j] && InHeap(w, w.history[j].p);
      } else {
        assert i < n - 1 ==> Gen(w, w.history[i].p) < Gen(w, w.history[n - 1].p);
      }
    }
  }

  /** A publication: the new snapshot has a larger generation than the one it displaces,
      and the publisher goes on to offer the displaced one. */
  lemma OrderedPublish(w: World, t: nat, d: Draft, who: Option<Caller>, pc: PC)
    requires Ordered(w) && t < |w.threads| && DraftInHeap(w, d) && PCInHeap(w, pc)
    requires w.active.Some? ==> Gen(w, w.active.value) < DraftOf(w, d).generation
    requires w.active.Some? ==> pc.PrevLoad? && pc.displaced == w.active.value
    requires w.active.None? ==> pc.StampLoad?
    ensures Ordered(Perform(w, t, Publish(d, who, pc)))
  {
    var w' := Perform(w, t, Publish(d, who, pc));
    SoundPerform(w, t, Publish(d, who, pc));
    assert w'.heap[w'.history[|w.history|].p] == DraftOf(w, d);
    OrderedExtended(w, w', t, pc);
  }

  lemma OrderedExtended(w: World, w': World, t: nat, pc: PC)
    requires Ordered(w) && Extends(w, w') && t < |w.threads| && w'.threads == w.threads[t := pc]
    requires w'.previous == w.previous
    requires w'.active == Some(w'.history[|w.history|].p)
    requires if w.active.Some? then pc.PrevLoad? && pc.displaced == w.active.value else pc.StampLoad?
    ensures Ordered(w')
  {
    var n := |w.history|;
    HistoryGrows(w, w');
    if w.previous.Some? { DisplacedGrows(w, w', w.previous.value); }
    if n > 0 {
      assert w'.history[n - 1].p == w.active.value;
      assert Displaced(w', w.active.value);
      assert Publishing(w'.threads[t], w'.history[n - 1].p);
    }
    assert PCInHeap(w', w'.threads[t]) && ThreadOrdered(w', pc);
    OthersOrdered(w, w', t, pc);
  }

  lemma OrderedStorePrevious(w: World, t: nat, p: Ptr, pc: PC)
    requires Ordered(w) && t < |w.threads| && InHeap(w, p) && PCInHeap(w, pc)
    requires Displaced(w, p) && Publishing(w.threads[t], p)
    requires w.previous.Some? ==> Gen(w, w.previous.value) < Gen(w, p)
    requires pc.StampLoad? || pc.Idle? || pc.Unlock?
    ensures Ordered(Perform(w, t, StorePrevious(p, pc)))
  {
    SoundPerform(w, t, StorePrevious(p, pc));
    PreviousStored(w, Perform(w, t, StorePrevious(p, pc)), t, p, pc);
  }

  lemma PreviousStored(w: World, w': World, t: nat, p: Ptr, pc: PC)
    requires Ordered(w) && Sound(w') && t < |w.threads| && InHeap(w, p) && Displaced(w, p)
    requires Publishing(w.threads[t], p)
    requires w.previous.Some? ==> Gen(w, w.previous.value) < Gen(w, p)
    requires w'.heap == w.heap && w'.history == w.history && w'.active == w.active && w'.previous == Some(p)
    requires w'.threads == w.threads[t := pc] && (pc.StampLoad? || pc.Idle? || pc.Unlock?)
    ensures Ordered(w')
  {
    assert PCInHeap(w', w'.threads[t]);
    DisplacedGrows(w, w', p);
    SameHistory(w, w');
    OthersOrdered(w, w', t, pc);
    CoveredStorePrevious(w, w', t, p);
  }

  lemma SameHistory(w: World, w': World)
    requires Sound(w) && Sound(w') && OrderedHistory(w) && ActiveIsLast(w)
    requires w'.heap == w.heap && w'.history == w.history && w'.active == w.active
    ensures OrderedHistory(w') && ActiveIsLast(w')
  {
  }

  lemma CoveredStorePrevious(w: World, w': World, t: nat, p: Ptr)
    requires Sound(w) && Sound(w') && Covered(w) && t < |w.threads| && InHeap(w, p)
    requires w'.heap == w.heap && w'.history == w.history && w'.previous == Some(p)
    requires |w'.threads| == |w.threads| && forall s :: 0 <= s < |w.threads| && s != t ==> w'.threads[s] == w.threads[s]
    requires Publishing(w.threads[t], p)
    requires w.previous.Some? ==> Gen(w, w.previous.value) < Gen(w, p)
    ensures Covered(w')
  {
    if |w.history| >= 2 {
      var pred := w.history[|w.history| - 2].p;
      if s :| 0 <= s < |w.threads| && Publishing(w.threads[s], pred) {
        if s != t { assert Publishing(w'.threads[s], pred); }
      }
    }
  }

  /** What an effect needs in order to keep `Ordered`. */
  ghost predicate EffectOrdered(w: World, from: PC, e: Effect)
    requires Sound(w) && EffectInHeap(w, e)
  {
    match e
    case Move(pc) => ThreadOrdered(w, pc) && KeepsOffer(w, from, pc)
    case Allocate(_, pc) => (pc.SwapLoad? || pc.ResetClear?) && KeepsOffer(w, from, pc)
    case StoreBit(_, pc) => (pc.SwapLoad? || pc.StampLoad?) && KeepsOffer(w, from, pc)
    case Publish(d, _, pc) =>
      && (w.active.Some? ==> Gen(w, w.active.value) < DraftOf(w, d).generation
                             && pc.PrevLoad? && pc.displaced == w.active.value)
      && (w.active.None? ==> pc.StampLoad?)
    case StorePrevious(p, pc) =>
      && Displaced(w, p) && Publishing(from, p) && (pc.StampLoad? || pc.Idle? || pc.Unlock?)
      && (w.previous.Some? ==> Gen(w, w.previous.value) < Gen(w, p))
    case Leave => !from.PrevLoad? && !from.PrevCAS?
  }

  /** A thread drops its offer only when previous already holds something as new. */
  ghost predicate KeepsOffer(w: World, from: PC, pc: PC)
    requires Sound(w)
  {
    from.PrevLoad? || from.PrevCAS? ==>
      || Publishing(pc, from.displaced)
      || (InHeap(w, from.displaced) && w.previous.Some? && Gen(w, from.displaced) <= Gen(w, w.previous.value))
  }

  lemma NextOrdered(c: Config, w: World, pc: PC, k: Pick)
    requires Sound(w) && PCInHeap(w, pc) && ThreadOrdered(w, pc) && !pc.Idle?
    ensures EffectInHeap(w, Next(c, w, pc, k)) && EffectOrdered(w, pc, Next(c, w, pc, k))
  {
    NextInHeap(c, w, pc, k);
  }

  lemma OrderedPerform(w: World, t: nat, e: Effect)
    requires Ordered(w) && t < |w.threads| && EffectInHeap(w, e) && EffectOrdered(w, w.threads[t], e)
    ensures Ordered(Perform(w, t, e))
  {
    match e
    case Publish(d, who, pc) =>
      OrderedPublish(w, t, d, who, pc);
    case StorePrevious(p, pc) =>
      OrderedStorePrevious(w, t, p, pc);
    case _ =>
      SoundPerform(w, t, e);
      OrderedQuiet(w, Perform(w, t, e), t, Landing(e));
  }

  lemma OrderedStep(c: Config, w: World, a: Action)
    requires Ordered(w) && Enabled(c, w, a)
    ensures Ordered(Do(c, w, a))
  {
    SoundStep(c, w, a);
    var w' := Do(c, w, a);
    match a
    case Alloc(s) =>
      if |w.threads| > 0 {
        ThreadFrame(w, w', w.threads[0]);
        assert w'.threads == w.threads[0 := w.threads[0]];
        OrderedQuiet(w, w', 0, w.threads[0]);
      }
    case Start(t, b) =>
      OrderedQuiet(w, w', t, Started(b));
    case Go(t, k) =>
      NextOrdered(c, w, w.threads[t], k);
      OrderedPerform(w, t, Next(c, w, w.threads[t], k));
  }

  lemma {:induction false} OrderedRun(c: Config, ws: seq<World>, acts: seq<Action>, i: nat)
    requires IsRun(c, ws, acts) && i < |ws|
    ensures Ordered(ws[i])
  {
    if i > 0 {
      OrderedRun(c, ws, acts, i - 1);
      OrderedStep(c, ws[i - 1], acts[i - 1]);
    }
  }

  /** In every interleaving: generations strictly increase along the publication history, so
      no pointer is ever active twice, and active is the last publication. */
  lemma NoPointerTwice(c: Config, ws: seq<World>, acts: seq<Action>, i: nat)
    requires IsRun(c, ws, acts) && i < |ws|
    ensures var w := ws[i];
            && Sound(w) && ActiveIsLast(w)
            && (forall a, b :: 0 <= a < b < |w.history| ==>
                  w.heap[w.history[a].p].generation < w.heap[w.history[b].p].generation)
            && (forall a, b :: 0 <= a < b < |w.history| ==> w.history[a].p != w.history[b].p)
  {
    OrderedRun(c, ws, acts, i);
  }

  /** Whenever no operation is in flight, previous is exactly the immediate predecessor of
      active in the publication history, and is unset when there is none. */
  lemma PreviousIsPredecessor(c: Config, ws: seq<World>, acts: seq<Action>, i: nat)
    requires IsRun(c, ws, acts) && i < |ws| && Quiescent(ws[i])
    ensures var w := ws[i];
            w.previous == if |w.history| >= 2 then Some(w.history[|w.history| - 2].p) else None
  {
    OrderedRun(c, ws, acts, i);
    var w := ws[i];
    if w.previous.Some? {
      var j :| 0 <= j < |w.history| - 1 && w.history[j].p == w.previous.value;
    }
  }
}
