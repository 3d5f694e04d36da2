/** No lost updates: App.mu plus the revision check make the canonical history one chain of
    operation folds and resets, although emergency stamps bypass the lock. */
module StoreUpdates {
  import opened Text
  import opened Store
  import opened StoreOrder
  import opened StoreInhibit

  /** Same canonical document and same revision; generation and inhibit bit may differ. */
  ghost predicate SameDoc(a: Snapshot, b: Snapshot) {
    a.canonical == b.canonical && a.revision == b.revision
  }

  /** The thread is between taking and releasing App.mu. */
  ghost predicate Locking(pc: PC) {
    || pc.ApplyBase? || pc.ApplyCheck? || pc.ApplyBuild? || pc.ResetLoad? || pc.ResetClear? || pc.Unlock?
    || (CallerOf(pc).Some? && HoldsMu(CallerOf(pc).value))
  }

  ghost predicate ActiveIs(w: World, base: Ptr)
    requires Sound(w) && InHeap(w, base)
  {
    w.active.Some? && SameDoc(w.heap[w.active.value], w.heap[base])
  }

  /** What an Apply knows while it is inside Swap, up to its compare-and-swap. */
  ghost predicate Committing(c: Config, w: World, who: Caller, next: Ptr)
    requires Sound(w) && InHeap(w, next) && CallerInHeap(w, who)
  {
    && HoldsMu(who)
    && (who.Apply? ==>
          && ActiveIs(w, who.base) && w.heap[who.base].revision == who.expected
          && Candidate(c, w.heap[who.base].canonical, who.ops) == Some(w.heap[next].canonical))
  }

  ghost predicate ThreadUpdates(c: Config, w: World, pc: PC)
    requires Sound(w) && PCInHeap(w, pc)
  {
    match pc
    case ApplyCheck(_, _, base) => ActiveIs(w, base)
    case ApplyBuild(e, _, base) => ActiveIs(w, base) && w.heap[base].revision == e
    case SwapLoad(next, who) => Committing(c, w, who, next)
    case SwapEmergency(next, who, _) => Committing(c, w, who, next)
    case SwapStartup(next, who, _) => Committing(c, w, who, next)
    case SwapCAS(next, who, _, d) => Committing(c, w, who, next) && SameDoc(DraftOf(w, d), w.heap[next])
    case StampCAS(live, s, _) => SameDoc(s, w.heap[live])
    case _ => true
  }

  /** How one publication follows from the one it displaced. */
  ghost predicate Link(c: Config, before: Snapshot, after: Snapshot, swap: Option<Caller>, heap: seq<Snapshot>) {
    match swap
    case None => SameDoc(before, after)
    case Some(Apply(expected, ops, base)) =>
      && base < |heap| && SameDoc(before, heap[base]) && before.revision == expected
      && Candidate(c, before.canonical, ops) == Some(after.canonical)
    case Some(Reset) => true
    case Some(Install) => true
    case Some(_) => false
  }

  ghost predicate Chained(c: Config, w: World)
    requires Sound(w)
  {
    forall i :: 0 < i < |w.history| ==>
      Link(c, w.heap[w.history[i - 1].p], w.heap[w.history[i].p], w.history[i].swap, w.heap)
  }

  ghost predicate Exclusive(w: World) {
    forall t :: 0 <= t < |w.threads| && Locking(w.threads[t]) ==> w.mu == Some(t)
  }

  ghost predicate Updates(c: Config, w: World) {
    && Sound(w)
    && (!w.direct ==>
          && Exclusive(w) && Chained(c, w)
          && (forall t :: 0 <= t < |w.threads| ==> ThreadUpdates(c, w, w.threads[t])))
  }

  // ---------------------------------------------------------------- one effect

  ghost predicate EffectUpdates(c: Config, w: World, from: PC, e: Effect)
    requires Sound(w) && EffectInHeap(w, e)
  {
    && (Locking(Landing(e)) ==> Locking(from))
    && match e
       case Move(pc) => ThreadUpdates(c, w, pc)
       case Allocate(s, pc) =>
         || pc.ResetClear?
         || (pc.SwapLoad? && pc.next == |w.heap| && CallerInHeap(w, pc.who) && HoldsMu(pc.who) &&
             (pc.who.Apply? ==>
               && ActiveIs(w, pc.who.base) && w.heap[pc.who.base].revision == pc.who.expected
               && Candidate(c, w.heap[pc.who.base].canonical, pc.who.ops) == Some(s.canonical)))
       case StoreBit(_, pc) => ThreadUpdates(c, w, pc)
       case Publish(d, swap, pc) =>
         && (pc.PrevLoad? || pc.StampLoad?) && (swap.Some? ==> Locking(from))
         && (w.active.Some? ==> Link(c, w.heap[w.active.value], DraftOf(w, d), swap, w.heap))
         && (swap.None? ==> w.active.Some?)
       case StorePrevious(_, pc) => pc.StampLoad? || Resting(pc)
       case Leave => from.Unlock?
  }

  /** The steps of Apply and Reset before Swap. */
  predicate Calling(pc: PC) {
    pc.ApplyBase? || pc.ApplyCheck? || pc.ApplyBuild? || pc.ResetLoad? || pc.ResetClear?
  }

  predicate Swapping(pc: PC) {
    pc.SwapLoad? || pc.SwapEmergency? || pc.SwapStartup? || pc.SwapCAS?
  }

  lemma CallerUpdates(c: Config, w: World, pc: PC, k: Pick)
    requires Calling(pc) && Sound(w) && PCInHeap(w, pc) && ThreadUpdates(c, w, pc) && EffectInHeap(w, Next(c, w, pc, k))
    ensures EffectUpdates(c, w, pc, Next(c, w, pc, k))
  {
  }

  lemma SwapUpdates(c: Config, w: World, pc: PC, k: Pick)
    requires Swapping(pc) && Sound(w) && PCInHeap(w, pc) && ThreadUpdates(c, w, pc)
    requires EffectInHeap(w, Next(c, w, pc, k))
    ensures EffectUpdates(c, w, pc, Next(c, w, pc, k))
  {
  }

  lemma OtherUpdates(c: Config, w: World, pc: PC, k: Pick)
    requires !Calling(pc) && !Swapping(pc) && !pc.Idle?
    requires Sound(w) && PCInHeap(w, pc) && ThreadUpdates(c, w, pc) && EffectInHeap(w, Next(c, w, pc, k))
    ensures EffectUpdates(c, w, pc, Next(c, w, pc, k))
  {
  }

  lemma NextUpdates(c: Config, w: World, pc: PC, k: Pick)
    requires Sound(w) && PCInHeap(w, pc) && !pc.Idle? && ThreadUpdates(c, w, pc)
    ensures EffectInHeap(w, Next(c, w, pc, k)) && EffectUpdates(c, w, pc, Next(c, w, pc, k))
  {
    NextInHeap(c, w, pc, k);
    if Calling(pc) {
      CallerUpdates(c, w, pc, k);
    } else if Swapping(pc) {
      SwapUpdates(c, w, pc, k);
    } else {
      OtherUpdates(c, w, pc, k);
    }
  }

  /** The active document is unchanged: every other thread keeps what it knew. */
  lemma ThreadKeeps(c: Config, w: World, w': World, pc: PC)
    requires Sound(w) && Sound(w') && PCInHeap(w, pc) && ThreadUpdates(c, w, pc) && w.heap <= w'.heap
    requires w.active.Some? ==> w'.active.Some? && SameDoc(w'.heap[w'.active.value], w.heap[w.active.value])
    ensures PCInHeap(w', pc) && ThreadUpdates(c, w', pc)
  {
    PCFrame(w, w', pc);
  }

  /** The active document may change: threads outside the lock rely on none of it. */
  lemma OutsiderKeeps(c: Config, w: World, w': World, pc: PC)
    requires Sound(w) && Sound(w') && PCInHeap(w, pc) && ThreadUpdates(c, w, pc) && w.heap <= w'.heap
    requires !Locking(pc)
    ensures PCInHeap(w', pc) && ThreadUpdates(c, w', pc)
  {
    PCFrame(w, w', pc);
  }

  lemma UpdatesFrame(c: Config, w: World, w': World, t: nat, pc: PC)
    requires Updates(c, w) && !w.direct && Sound(w') && t < |w.threads| && w.heap <= w'.heap
    requires w'.threads == w.threads[t := pc] && PCInHeap(w', pc) && ThreadUpdates(c, w', pc)
    requires w'.mu == w.mu && (Locking(pc) ==> Locking(w.threads[t])) && Chained(c, w')
    requires Locking(w.threads[t]) ||
             (w.active.Some? ==> w'.active.Some? && SameDoc(w'.heap[w'.active.value], w.heap[w.active.value]))
    ensures Updates(c, w')
  {
    forall s | 0 <= s < |w'.threads| ensures ThreadUpdates(c, w', w'.threads[s]) {
      if s != t {
        if Locking(w.threads[t]) {
          assert w.mu == Some(t) && !Locking(w.threads[s]);
          OutsiderKeeps(c, w, w', w.threads[s]);
        } else {
          ThreadKeeps(c, w, w', w.threads[s]);
        }
      }
    }
  }

  lemma ChainedFrame(c: Config, w: World, w': World)
    requires Sound(w) && Sound(w') && Chained(c, w) && w.heap <= w'.heap && w'.history == w.history
    ensures Chained(c, w')
  {
    forall i | 0 < i < |w'.history|
      ensures Link(c, w'.heap[w'.history[i - 1].p], w'.heap[w'.history[i].p], w'.history[i].swap, w'.heap)
    {
      assert Link(c, w.heap[w.history[i - 1].p], w.heap[w.history[i].p], w.history[i].swap, w.heap);
    }
  }

  lemma ChainedPublish(c: Config, w: World, w': World, d: Draft, swap: Option<Caller>)
    requires Sound(w) && Sound(w') && Chained(c, w) && ActiveIsLast(w) && DraftInHeap(w, d)
    requires w.heap <= w'.heap && |w'.history| == |w.history| + 1 && w'.history[..|w.history|] == w.history
    requires w'.history[|w.history|].swap == swap && w'.heap[w'.history[|w.history|].p] == DraftOf(w, d)
    requires w.active.Some? ==> Link(c, w.heap[w.active.value], DraftOf(w, d), swap, w.heap)
    ensures Chained(c, w')
  {
    var n := |w.history|;
    assert forall i :: 0 <= i < n ==> w'.history[i] == w.history[i];
    forall i | 0 < i < |w'.history|
      ensures Link(c, w'.heap[w'.history[i - 1].p], w'.heap[w'.history[i].p], w'.history[i].swap, w'.heap)
    {
      if i < n { assert Link(c, w.heap[w.history[i - 1].p], w.heap[w.history[i].p], w.history[i].swap, w.heap); }
    }
  }

  lemma PublishUpdates(c: Config, w: World, t: nat, d: Draft, swap: Option<Caller>, pc: PC)
    requires Updates(c, w) && !w.direct && ActiveIsLast(w) && t < |w.threads|
    requires EffectInHeap(w, Publish(d, swap, pc)) && EffectUpdates(c, w, w.threads[t], Publish(d, swap, pc))
    ensures Updates(c, Perform(w, t, Publish(d, swap, pc)))
  {
    var w' := Perform(w, t, Publish(d, swap, pc));
    SoundPerform(w, t, Publish(d, swap, pc));
    PCFrame(w, w', pc);
    assert w'.history[..|w.history|] == w.history;
    ChainedPublish(c, w, w', d, swap);
    UpdatesFrame(c, w, w', t, pc);
  }

  lemma QuietUpdates(c: Config, w: World, t: nat, e: Effect)
    requires Updates(c, w) && !w.direct && t < |w.threads| && !e.Publish? && !e.Leave?
    requires EffectInHeap(w, e) && EffectUpdates(c, w, w.threads[t], e)
    ensures Updates(c, Perform(w, t, e))
  {
    SoundPerform(w, t, e);
    match e
    case Move(pc) => KnownUpdates(c, w, Perform(w, t, e), t, pc);
    case StoreBit(_, pc) => KnownUpdates(c, w, Perform(w, t, e), t, pc);
    case StorePrevious(_, pc) => KnownUpdates(c, w, Perform(w, t, e), t, pc);
    case Allocate(s, pc) => AllocateUpdates(c, w, t, s, pc);
  }

  /** The document, the heap and the lock are as before. */
  lemma KnownUpdates(c: Config, w: World, w': World, t: nat, pc: PC)
    requires Updates(c, w) && !w.direct && Sound(w') && t < |w.threads| && w'.heap == w.heap && w'.history == w.history
    requires w'.active == w.active && w'.mu == w.mu && w'.threads == w.threads[t := pc]
    requires PCInHeap(w, pc) && ThreadUpdates(c, w, pc) && (Locking(pc) ==> Locking(w.threads[t]))
    ensures Updates(c, w')
  {
    ThreadKeeps(c, w, w', pc);
    ChainedFrame(c, w, w');
    UpdatesFrame(c, w, w', t, pc);
  }

  lemma AllocateUpdates(c: Config, w: World, t: nat, s: Snapshot, pc: PC)
    requires Updates(c, w) && !w.direct && t < |w.threads| && Sound(Perform(w, t, Allocate(s, pc)))
    requires EffectInHeap(w, Allocate(s, pc)) && EffectUpdates(c, w, w.threads[t], Allocate(s, pc))
    ensures Updates(c, Perform(w, t, Allocate(s, pc)))
  {
    var w' := Perform(w, t, Allocate(s, pc));
    ChainedFrame(c, w, w');
    assert w'.heap[|w.heap|] == s && ThreadUpdates(c, w', pc);
    UpdatesFrame(c, w, w', t, pc);
  }

  lemma LeaveUpdates(c: Config, w: World, t: nat)
    requires Updates(c, w) && !w.direct && t < |w.threads| && w.threads[t].Unlock?
    ensures Updates(c, Perform(w, t, Leave))
  {
    var w' := Perform(w, t, Leave);
    SoundPerform(w, t, Leave);
    ChainedFrame(c, w, w');
    assert w.mu == Some(t);
    forall s | 0 <= s < |w'.threads| ensures ThreadUpdates(c, w', w'.threads[s]) && !Locking(w'.threads[s]) {
      if s != t { ThreadKeeps(c, w, w', w.threads[s]); }
    }
  }

  lemma StartUpdates(c: Config, w: World, t: nat, b: Begin)
    requires Updates(c, w) && Enabled(c, w, Start(t, b))
    ensures Updates(c, DoStart(w, t, b))
  {
    var w' := DoStart(w, t, b);
    SoundFrame(w, w', t, Started(b));
    if !w'.direct {
      ChainedFrame(c, w, w');
      forall s | 0 <= s < |w'.threads|
        ensures ThreadUpdates(c, w', w'.threads[s]) && (Locking(w'.threads[s]) ==> w'.mu == Some(s))
      {
        if s != t { ThreadKeeps(c, w, w', w.threads[s]); }
      }
    }
  }

  lemma AllocUpdates(c: Config, w: World, s: Snapshot)
    requires Updates(c, w) && Sound(w.(heap := w.heap + [s]))
    ensures Updates(c, w.(heap := w.heap + [s]))
  {
    var w' := w.(heap := w.heap + [s]);
    if !w.direct {
      ChainedFrame(c, w, w');
      forall t | 0 <= t < |w'.threads| ensures ThreadUpdates(c, w', w'.threads[t]) {
        ThreadKeeps(c, w, w', w.threads[t]);
      }
    }
  }

  lemma UpdatesStep(c: Config, w: World, a: Action)
    requires Updates(c, w) && Ordered(w) && Enabled(c, w, a)
    ensures Updates(c, Do(c, w, a))
  {
    SoundStep(c, w, a);
    match a
    case Alloc(s) => AllocUpdates(c, w, s);
    case Start(t, b) => StartUpdates(c, w, t, b);
    case Go(t, k) =>
      if !w.direct {
        NextUpdates(c, w, w.threads[t], k);
        PerformUpdates(c, w, t, Next(c, w, w.threads[t], k));
      }
  }

  lemma PerformUpdates(c: Config, w: World, t: nat, e: Effect)
    requires Updates(c, w) && !w.direct && ActiveIsLast(w) && t < |w.threads|
    requires EffectInHeap(w, e) && EffectUpdates(c, w, w.threads[t], e)
    ensures Updates(c, Perform(w, t, e))
  {
    match e
    case Publish(d, swap, pc) => PublishUpdates(c, w, t, d, swap, pc);
    case Leave => LeaveUpdates(c, w, t);
    case _ => QuietUpdates(c, w, t, e);
  }

  lemma {:induction false} UpdatesRun(c: Config, ws: seq<World>, acts: seq<Action>, i: nat)
    requires IsRun(c, ws, acts) && i < |ws|
    ensures Updates(c, ws[i])
  {
    if i > 0 {
      UpdatesRun(c, ws, acts, i - 1);
      OrderedRun(c, ws, acts, i - 1);
      UpdatesStep(c, ws[i - 1], acts[i - 1]);
    }
  }

  /** At every Apply commit the snapshot that Swap displaced has the canonical document and
      the revision of the base the candidate was built from, which is the revision the caller
      expected; and its successor is the fold of the requested operations over exactly that
      document. Stamps change neither document nor revision. Only Install and Reset start over.
      This holds in every interleaving in which every Swap is called under App.mu. */
  lemma NoLostUpdates(c: Config, ws: seq<World>, acts: seq<Action>, i: nat, j: nat)
    requires IsRun(c, ws, acts) && i < |ws| && !ws[i].direct && 0 < j < |ws[i].history|
    ensures Sound(ws[i])
    ensures var w := ws[i];
            var before, after := w.heap[w.history[j - 1].p], w.heap[w.history[j].p];
            match w.history[j].swap
            case None => after.canonical == before.canonical && after.revision == before.revision
            case Some(Apply(expected, ops, base)) =>
              && base < |w.heap| && before.canonical == w.heap[base].canonical
              && before.revision == w.heap[base].revision == expected
              && Candidate(c, before.canonical, ops) == Some(after.canonical)
            case Some(who) => who.Reset? || who.Install?
  {
    UpdatesRun(c, ws, acts, i);
    var w := ws[i];
    assert Link(c, w.heap[w.history[j - 1].p], w.heap[w.history[j].p], w.history[j].swap, w.heap);
  }
}
