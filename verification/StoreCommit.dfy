/** What a call does that nobody disturbs: from every world, whatever the other threads have done so far,
    running one thread alone finishes its call, and the call has its effect
    (internal/app/mutate.go:83-133, 322-335; internal/app/reset.go; internal/snapshot/store.go:39-115). */
module StoreCommit {
  import opened Text
  import Patch
  import opened Store
  import opened StoreOrder
  import opened StoreInhibit

  /** `n` steps of `step`, each where it is enabled, lead from `s` to `s'`. */
  ghost predicate Iterates<S>(step: S -> S, able: S -> bool, s: S, n: nat, s': S)
    decreases n
  {
    if n == 0 then s' == s else able(s) && Iterates(step, able, step(s), n - 1, s')
  }

  lemma {:induction false} IteratesMore<S>(step: S -> S, able: S -> bool, s: S, n: nat, s1: S, m: nat, s2: S)
    requires Iterates(step, able, s, n, s1) && Iterates(step, able, s1, m, s2)
    ensures Iterates(step, able, s, n + m, s2)
    decreases n
  {
    if n > 0 { IteratesMore(step, able, step(s), n - 1, s1, m, s2); }
  }

  ghost predicate Able(w: World, t: nat) {
    Sound(w) && t < |w.threads| && !w.threads[t].Idle?
  }

  ghost function Alone(c: Config, t: nat, k: Pick): World -> World {
    w => if Able(w, t) then Do(c, w, Go(t, k)) else w
  }

  ghost function Ready(t: nat): World -> bool {
    w => Able(w, t)
  }

  /** Thread `t` alone gets from `w` to `w'`. */
  ghost predicate Reaches(c: Config, w: World, t: nat, k: Pick, w': World) {
    exists n: nat :: Iterates(Alone(c, t, k), Ready(t), w, n, w')
  }

  type Relation = (World, World) -> bool

  ghost function Reach(c: Config, t: nat, k: Pick): Relation {
    (w, w') => Reaches(c, w, t, k, w')
  }

  /** `reach` is transitive and has every step of the thread. */
  ghost predicate Admits(c: Config, t: nat, k: Pick, reach: Relation) {
    && (forall a, b, d :: reach(a, b) && reach(b, d) ==> reach(a, d))
    && (forall w {:trigger Do(c, w, Go(t, k))} :: Able(w, t) ==> reach(w, Do(c, w, Go(t, k))))
  }

  lemma ReachAdmits(c: Config, t: nat, k: Pick)
    ensures Admits(c, t, k, Reach(c, t, k))
  {
    var step, able := Alone(c, t, k), Ready(t);
    forall a, b, d | Reaches(c, a, t, k, b) && Reaches(c, b, t, k, d) ensures Reaches(c, a, t, k, d) {
      var n: nat :| Iterates(step, able, a, n, b);
      var m: nat :| Iterates(step, able, b, m, d);
      IteratesMore(step, able, a, n, b, m, d);
    }
    forall w | Able(w, t) ensures Reaches(c, w, t, k, Do(c, w, Go(t, k))) {
      IteratesOnce(step, able, w);
    }
  }

  lemma IteratesOnce<S>(step: S -> S, able: S -> bool, s: S)
    requires able(s)
    ensures Iterates(step, able, s, 1, step(s))
  {
    assert Iterates(step, able, step(s), 0, step(s));
  }

  lemma Onwards(c: Config, t: nat, k: Pick, reach: Relation, a: World, b: World, d: World)
    requires Admits(c, t, k, reach) && reach(a, b) && reach(b, d)
    ensures reach(a, d)
  {
  }

  /** One step, given its effect. */
  lemma OneStep(c: Config, w: World, t: nat, k: Pick, reach: Relation, e: Effect)
    requires Admits(c, t, k, reach)
    requires Sound(w) && t < |w.threads| && !w.threads[t].Idle? && Next(c, w, w.threads[t], k) == e
    ensures reach(w, Perform(w, t, e)) && Sound(Perform(w, t, e))
  {
    SoundStep(c, w, Go(t, k));
    assert Do(c, w, Go(t, k)) == Perform(w, t, e);
  }

  // ---------------------------------------------------------------- publishPrevious

  lemma PrevRuns(c: Config, w: World, t: nat, k: Pick, reach: Relation) returns (w': World)
    requires Admits(c, t, k, reach)
    requires Sound(w) && t < |w.threads| && w.threads[t].PrevLoad?
    ensures reach(w, w') && Sound(w')
    ensures w' == Goto(w, t, AfterPrev(w.threads[t].after, w.threads[t].who)).(previous := w'.previous)
  {
    var pc := w.threads[t];
    var e := Next(c, w, pc, k);
    OneStep(c, w, t, k, reach, e);
    if w.previous.Some? && w.heap[w.previous.value].generation >= w.heap[pc.displaced].generation {
      w' := Perform(w, t, e);
    } else {
      var w1 := Perform(w, t, e);
      var e1 := StorePrevious(pc.displaced, AfterPrev(pc.after, pc.who));
      assert Next(c, w1, w1.threads[t], k) == e1;
      OneStep(c, w1, t, k, reach, e1);
      w' := Perform(w1, t, e1);
      Onwards(c, t, k, reach, w, w1, w');
      assert w'.threads == w.threads[t := AfterPrev(pc.after, pc.who)];
    }
  }

  // ---------------------------------------------------------------- StampEmergency

  /** What a stamp leaves: the bit right, the document as it was, and at most one publication more. */
  ghost predicate Stamps(w: World, w': World, t: nat, who: Caller) {
    && t < |w.threads| && Sound(w) && Sound(w') && Settled(w') && w'.threads == w.threads[t := Return(who)]
    && w.heap <= w'.heap && w'.emergency == w.emergency && w'.startup == w.startup && w'.mu == w.mu
    && (if w.active.None? || Settled(w) then w'.active == w.active && w'.history == w.history
        else
          && w'.active.Some? && w'.history == w.history + [Publication(w'.active.value, None)]
          && w'.heap[w'.active.value].canonical == w.heap[w.active.value].canonical
          && w'.heap[w'.active.value].revision == w.heap[w.active.value].revision)
  }

  /** Up to the decision: the thread returns, or it is about to publish the right copy. */
  lemma StampDecides(c: Config, w: World, t: nat, k: Pick, reach: Relation) returns (w': World)
    requires Admits(c, t, k, reach)
    requires Sound(w) && t < |w.threads| && w.threads[t].StampLoad? && w.active.Some?
    ensures reach(w, w') && Sound(w')
    ensures w' == Goto(w, t, StampDecide(w, w.active.value, w.threads[t].who, w.emergency || w.startup))
  {
    var who, live := w.threads[t].who, w.active.value;
    var e := Move(StampEmergency(live, who));
    OneStep(c, w, t, k, reach, e);
    var w1 := Perform(w, t, e);
    var e1 := Next(c, w1, w1.threads[t], k);
    OneStep(c, w1, t, k, reach, e1);
    var w2 := Perform(w1, t, e1);
    Onwards(c, t, k, reach, w, w1, w2);
    if w.emergency {
      w' := w2;
    } else {
      var e2 := Next(c, w2, w2.threads[t], k);
      OneStep(c, w2, t, k, reach, e2);
      w' := Perform(w2, t, e2);
      Onwards(c, t, k, reach, w, w2, w');
    }
    assert w'.threads == w.threads[t := StampDecide(w, live, who, w.emergency || w.startup)];
  }

  lemma StampPublishes(c: Config, w: World, t: nat, k: Pick, reach: Relation) returns (w': World)
    requires Admits(c, t, k, reach)
    requires Sound(w) && t < |w.threads| && w.threads[t].StampCAS? && w.active == Some(w.threads[t].live)
    ensures reach(w, w') && Sound(w') && w'.threads == w.threads[t := Return(w.threads[t].who)]
    ensures w'.heap == w.heap + [w.threads[t].copied] && w'.active == Some(|w.heap|)
    ensures w'.history == w.history + [Publication(|w.heap|, None)]
    ensures w'.emergency == w.emergency && w'.startup == w.startup && w'.mu == w.mu
  {
    var pc := w.threads[t];
    var e := Publish(Private(pc.copied), None, PrevLoad(pc.live, ThenReturn, pc.who));
    OneStep(c, w, t, k, reach, e);
    var w1 := Perform(w, t, e);
    w' := PrevRuns(c, w1, t, k, reach);
    Onwards(c, t, k, reach, w, w1, w');
    assert w'.threads == w.threads[t := Return(pc.who)];
  }

  lemma StampRuns(c: Config, w: World, t: nat, k: Pick, reach: Relation) returns (w': World)
    requires Admits(c, t, k, reach)
    requires Sound(w) && t < |w.threads| && w.threads[t].StampLoad?
    ensures reach(w, w') && Stamps(w, w', t, w.threads[t].who)
  {
    var who := w.threads[t].who;
    if w.active.None? {
      OneStep(c, w, t, k, reach, Move(Return(who)));
      w' := Perform(w, t, Move(Return(who)));
      return;
    }
    var w1 := StampDecides(c, w, t, k, reach);
    w' := w1;
    if !Settled(w) {
      w' := StampPublishes(c, w1, t, k, reach);
      Onwards(c, t, k, reach, w, w1, w');
      assert w'.threads == w.threads[t := Return(who)];
    }
  }

  // ---------------------------------------------------------------- Swap

  /** What Swap leaves: the snapshot published under the caller's name, with the bit right. */
  ghost predicate Swaps(w: World, w': World, t: nat, next: Ptr, who: Caller) {
    && t < |w.threads| && Sound(w) && Sound(w') && InHeap(w, next) && w'.threads == w.threads[t := Return(who)]
    && w.heap <= w'.heap && w'.emergency == w.emergency && w'.startup == w.startup && w'.mu == w.mu
    && w'.active.Some? && w'.history == w.history + [Publication(w'.active.value, Some(who))] && Settled(w')
    && Published(w, w'.heap[w'.active.value], next)
  }

  /** The document and revision of `next`, with a generation above the one displaced. */
  ghost predicate Published(w: World, s: Snapshot, next: Ptr)
    requires Sound(w) && InHeap(w, next)
  {
    && s.canonical == w.heap[next].canonical && s.revision == w.heap[next].revision
    && s.generation >= w.heap[next].generation
    && (w.active.Some? ==> s.generation > w.heap[w.active.value].generation)
  }

  lemma SwapDrafts(c: Config, w: World, t: nat, k: Pick, reach: Relation) returns (w': World)
    requires Admits(c, t, k, reach)
    requires Sound(w) && t < |w.threads| && w.threads[t].SwapLoad?
    ensures reach(w, w') && Sound(w')
    ensures var pc := w.threads[t];
            w' == Goto(w, t, SwapCAS(pc.next, pc.who, w.active,
                                     SwapDraft(w, pc.next, w.active, w.emergency || w.startup)))
  {
    var pc := w.threads[t];
    var e := Move(SwapEmergency(pc.next, pc.who, w.active));
    OneStep(c, w, t, k, reach, e);
    var w1 := Perform(w, t, e);
    var e1 := Next(c, w1, w1.threads[t], k);
    OneStep(c, w1, t, k, reach, e1);
    var w2 := Perform(w1, t, e1);
    Onwards(c, t, k, reach, w, w1, w2);
    if w.emergency {
      w' := w2;
    } else {
      var e2 := Next(c, w2, w2.threads[t], k);
      OneStep(c, w2, t, k, reach, e2);
      w' := Perform(w2, t, e2);
      Onwards(c, t, k, reach, w, w2, w');
    }
  }

  lemma DraftIsRight(w: World, next: Ptr)
    requires Sound(w) && InHeap(w, next)
    ensures var d := SwapDraft(w, next, w.active, w.emergency || w.startup);
            && DraftInHeap(w, d) && Published(w, DraftOf(w, d), next)
            && (DraftOf(w, d).off <==> Want(w, DraftOf(w, d)))
  {
  }

  lemma PublishGives(w: World, t: nat, d: Draft, who: Option<Caller>, pc: PC)
    requires t < |w.threads| && DraftInHeap(w, d)
    ensures var w' := Perform(w, t, Publish(d, who, pc));
            && w.heap <= w'.heap && w'.active.Some? && w'.active.value < |w'.heap|
            && w'.heap[w'.active.value] == DraftOf(w, d)
            && w'.history == w.history + [Publication(w'.active.value, who)] && w'.threads == w.threads[t := pc]
            && w'.emergency == w.emergency && w'.startup == w.startup && w'.mu == w.mu
  {
  }

  /** The compare-and-swap succeeds, previous is offered the displaced snapshot, and the stamp finds the
      bit right. */
  lemma SwapPublishes(c: Config, w: World, t: nat, k: Pick, reach: Relation) returns (w': World)
    requires Admits(c, t, k, reach)
    requires Sound(w) && t < |w.threads| && w.threads[t].SwapCAS? && w.active == w.threads[t].prev
    requires var s := DraftOf(w, w.threads[t].draft); s.off <==> Want(w, s)
    ensures reach(w, w') && Sound(w') && Settled(w')
    ensures w'.threads == w.threads[t := Return(w.threads[t].who)] && w.heap <= w'.heap
    ensures w'.emergency == w.emergency && w'.startup == w.startup && w'.mu == w.mu && w'.active.Some?
    ensures w'.history == w.history + [Publication(w'.active.value, Some(w.threads[t].who))]
    ensures w'.heap[w'.active.value] == DraftOf(w, w.threads[t].draft)
  {
    var pc := w.threads[t];
    var e := Publish(pc.draft, Some(pc.who),
                     if pc.prev.Some? then PrevLoad(pc.prev.value, ThenStamp, pc.who) else StampLoad(pc.who));
    OneStep(c, w, t, k, reach, e);
    var w1 := Perform(w, t, e);
    PublishGives(w, t, pc.draft, Some(pc.who), e.pc);
    assert Settled(w1);
    w' := SwapFinishes(c, w1, t, k, reach, pc.who);
    Onwards(c, t, k, reach, w, w1, w');
    assert w'.threads == w.threads[t := Return(pc.who)];
  }

  lemma SwapFinishes(c: Config, w: World, t: nat, k: Pick, reach: Relation, who: Caller) returns (w': World)
    requires Admits(c, t, k, reach)
    requires Sound(w) && Settled(w) && w.active.Some? && t < |w.threads|
    requires w.threads[t] == StampLoad(who) || (w.threads[t].PrevLoad? && w.threads[t].after.ThenStamp?)
    requires w.threads[t].PrevLoad? ==> w.threads[t].who == who
    ensures reach(w, w') && Sound(w') && Settled(w') && w'.threads == w.threads[t := Return(who)]
    ensures w.heap <= w'.heap && w'.active == w.active && w'.history == w.history
    ensures w'.emergency == w.emergency && w'.startup == w.startup && w'.mu == w.mu
  {
    if w.threads[t].PrevLoad? {
      var w1 := PrevRuns(c, w, t, k, reach);
      w' := StampRuns(c, w1, t, k, reach);
      Onwards(c, t, k, reach, w, w1, w');
      assert w'.threads == w.threads[t := Return(who)];
    } else {
      w' := StampRuns(c, w, t, k, reach);
    }
  }

  lemma SwapRuns(c: Config, w: World, t: nat, k: Pick, reach: Relation) returns (w': World)
    requires Admits(c, t, k, reach)
    requires Sound(w) && t < |w.threads| && w.threads[t].SwapLoad?
    ensures reach(w, w') && Swaps(w, w', t, w.threads[t].next, w.threads[t].who)
  {
    var pc := w.threads[t];
    var w1 := SwapDrafts(c, w, t, k, reach);
    DraftIsRight(w, pc.next);
    w' := SwapPublishes(c, w1, t, k, reach);
    Onwards(c, t, k, reach, w, w1, w');
    assert w'.threads == w.threads[t := Return(pc.who)];
  }

  // ---------------------------------------------------------------- Apply and Reset

  lemma Unlocks(c: Config, w: World, t: nat, k: Pick, reach: Relation)
    requires Admits(c, t, k, reach)
    requires Sound(w) && t < |w.threads| && w.threads[t].Unlock?
    ensures reach(w, Perform(w, t, Leave)) && Sound(Perform(w, t, Leave))
  {
    OneStep(c, w, t, k, reach, Leave);
  }

  /** What an Apply needs to be accepted. */
  ghost predicate Accepts(c: Config, w: World, expected: string, ops: seq<Patch.Operation>, st: Patch.State)
    requires Sound(w)
  {
    && w.active.Some? && expected != "" && expected == w.heap[w.active.value].revision
    && Candidate(c, w.heap[w.active.value].canonical, ops) == Some(st)
  }

  /** Up to Swap: the candidate is compiled and allocated. */
  lemma ApplyBuilds(c: Config, w: World, t: nat, k: Pick, reach: Relation, st: Patch.State) returns (w': World)
    requires Admits(c, t, k, reach)
    requires Sound(w) && t < |w.threads| && w.threads[t].ApplyBase?
    requires Accepts(c, w, w.threads[t].expected, w.threads[t].ops, st)
    ensures reach(w, w') && Sound(w')
    ensures var pc, base := w.threads[t], w.heap[w.active.value];
            && w'.threads == w.threads[t := SwapLoad(|w.heap|, Apply(pc.expected, pc.ops, w.active.value))]
            && |w'.heap| == |w.heap| + 1 && w.heap <= w'.heap && w'.heap[|w.heap|].canonical == st
            && w'.heap[|w.heap|].revision == c.revision(st)
            && w' == w.(threads := w'.threads, heap := w'.heap)
  {
    var pc, base := w.threads[t], w.active.value;
    var e := Move(ApplyCheck(pc.expected, pc.ops, base));
    OneStep(c, w, t, k, reach, e);
    var w1 := Perform(w, t, e);
    var e1 := Move(ApplyBuild(pc.expected, pc.ops, base));
    OneStep(c, w1, t, k, reach, e1);
    var w2 := Perform(w1, t, e1);
    Onwards(c, t, k, reach, w, w1, w2);
    var e2 := Next(c, w2, w2.threads[t], k);
    assert e2.Allocate? && e2.s.canonical == st;
    OneStep(c, w2, t, k, reach, e2);
    w' := Perform(w2, t, e2);
    Onwards(c, t, k, reach, w, w2, w');
    assert w'.threads == w.threads[t := e2.pc];
  }

  /** The call is over and the lock free: `st` is active, published in the caller's name over what was. */
  ghost predicate Committed(c: Config, w: World, w': World, t: nat, st: Patch.State, who: Caller) {
    && t < |w.threads| && Sound(w) && Sound(w') && w'.threads == w.threads[t := Idle] && w'.mu.None?
    && w'.startup == w.startup && w'.active.Some? && Settled(w')
    && w'.history == w.history + [Publication(w'.active.value, Some(who))]
    && (var s := w'.heap[w'.active.value];
        && s.canonical == st && s.revision == c.revision(st)
        && (w.active.Some? ==> s.generation > w.heap[w.active.value].generation))
  }

  lemma ApplyRuns(c: Config, w: World, t: nat, k: Pick, reach: Relation, st: Patch.State) returns (w': World)
    requires Admits(c, t, k, reach)
    requires Sound(w) && t < |w.threads| && w.threads[t].ApplyBase?
    requires Accepts(c, w, w.threads[t].expected, w.threads[t].ops, st)
    ensures reach(w, w') && w'.emergency == w.emergency
    ensures Committed(c, w, w', t, st, Apply(w.threads[t].expected, w.threads[t].ops, w.active.value))
  {
    var w1 := ApplyBuilds(c, w, t, k, reach, st);
    var w2 := SwapRuns(c, w1, t, k, reach);
    Onwards(c, t, k, reach, w, w1, w2);
    Unlocks(c, w2, t, k, reach);
    w' := Perform(w2, t, Leave);
    Onwards(c, t, k, reach, w, w2, w');
    assert w'.threads == w.threads[t := Idle];
  }

  lemma ApplyStops(c: Config, w: World, t: nat, k: Pick, reach: Relation) returns (w': World)
    requires Admits(c, t, k, reach)
    requires Sound(w) && t < |w.threads| && w.threads[t].ApplyBase?
    requires forall st :: !Accepts(c, w, w.threads[t].expected, w.threads[t].ops, st)
    ensures reach(w, w') && Sound(w') && w' == Goto(w, t, Unlock)
  {
    var pc := w.threads[t];
    var e := Next(c, w, pc, k);
    OneStep(c, w, t, k, reach, e);
    var w1 := Perform(w, t, e);
    w' := w1;
    if w.active.Some? {
      var e1 := Next(c, w1, w1.threads[t], k);
      OneStep(c, w1, t, k, reach, e1);
      var w2 := Perform(w1, t, e1);
      Onwards(c, t, k, reach, w, w1, w2);
      w' := w2;
      if w2.threads[t].ApplyBuild? {
        if st :| Candidate(c, w.heap[w.active.value].canonical, pc.ops) == Some(st) {
          assert Accepts(c, w, pc.expected, pc.ops, st);
        }
        assert Candidate(c, w.heap[w.active.value].canonical, pc.ops).None?;
        OneStep(c, w2, t, k, reach, Move(Unlock));
        w' := Perform(w2, t, Move(Unlock));
        Onwards(c, t, k, reach, w, w2, w');
      }
    }
    assert w'.threads == w.threads[t := Unlock];
  }

  lemma ResetBuilds(c: Config, w: World, t: nat, k: Pick, reach: Relation) returns (w': World)
    requires Admits(c, t, k, reach)
    requires Sound(w) && t < |w.threads| && w.threads[t].ResetLoad? && k.bootstrap.Some?
    ensures reach(w, w') && Sound(w')
    ensures w'.threads == w.threads[t := SwapLoad(|w.heap|, Reset)] && |w'.heap| == |w.heap| + 1 && w.heap <= w'.heap
    ensures w'.heap[|w.heap|].canonical == k.bootstrap.value
    ensures w'.heap[|w.heap|].revision == c.revision(k.bootstrap.value)
    ensures w' == w.(threads := w'.threads, heap := w'.heap, emergency := false)
  {
    var e := Next(c, w, w.threads[t], k);
    OneStep(c, w, t, k, reach, e);
    var w1 := Perform(w, t, e);
    var e1 := StoreBit(false, SwapLoad(|w.heap|, Reset));
    OneStep(c, w1, t, k, reach, e1);
    w' := Perform(w1, t, e1);
    Onwards(c, t, k, reach, w, w1, w');
    assert w'.threads == w.threads[t := SwapLoad(|w.heap|, Reset)];
  }

  lemma ResetRuns(c: Config, w: World, t: nat, k: Pick, reach: Relation) returns (w': World)
    requires Admits(c, t, k, reach)
    requires Sound(w) && t < |w.threads| && w.threads[t].ResetLoad? && k.bootstrap.Some?
    ensures reach(w, w') && !w'.emergency && Committed(c, w, w', t, k.bootstrap.value, Reset)
  {
    var w1 := ResetBuilds(c, w, t, k, reach);
    var w2 := SwapRuns(c, w1, t, k, reach);
    Onwards(c, t, k, reach, w, w1, w2);
    Unlocks(c, w2, t, k, reach);
    w' := Perform(w2, t, Leave);
    Onwards(c, t, k, reach, w, w2, w');
    assert w'.threads == w.threads[t := Idle];
  }

  // ---------------------------------------------------------------- the calls

  /** Swap by itself publishes what it was given. */
  lemma SwapCommits(c: Config, w: World, t: nat, k: Pick) returns (w': World)
    requires Sound(w) && t < |w.threads| && w.threads[t].SwapLoad? && w.threads[t].who == Direct
    ensures Reaches(c, w, t, k, w') && Swaps(w, w', t, w.threads[t].next, Direct) && w'.threads[t].Idle?
  {
    ReachAdmits(c, t, k);
    w' := SwapRuns(c, w, t, k, Reach(c, t, k));
  }

  /** Emergency-disable and emergency-enable by themselves set the bit, and the active snapshot follows
      with its document unchanged. */
  lemma BitTakesEffect(c: Config, w: World, t: nat, k: Pick) returns (w': World)
    requires Sound(w) && t < |w.threads| && w.threads[t].SetBit? && !HoldsMu(w.threads[t].who)
    ensures Reaches(c, w, t, k, w') && Sound(w') && w'.threads == w.threads[t := Idle] && w'.mu == w.mu
    ensures w'.emergency == w.threads[t].off && w'.startup == w.startup && Settled(w')
    ensures w'.active.Some? <==> w.active.Some?
    ensures w.active.Some? ==> w'.heap[w'.active.value].canonical == w.heap[w.active.value].canonical
  {
    ReachAdmits(c, t, k);
    var pc, reach := w.threads[t], Reach(c, t, k);
    var e := StoreBit(pc.off, StampLoad(pc.who));
    OneStep(c, w, t, k, reach, e);
    var w1 := Perform(w, t, e);
    w' := StampRuns(c, w1, t, k, reach);
    Onwards(c, t, k, reach, w, w1, w');
    assert w'.threads == w.threads[t := Idle];
  }

  /** An Apply that names the active revision and whose operations give a document that compiles: the
      document is published in place of the one it was built from. */
  lemma ApplyCommits(c: Config, w: World, t: nat, k: Pick, st: Patch.State) returns (w': World)
    requires Sound(w) && t < |w.threads| && w.threads[t].ApplyBase?
    requires Accepts(c, w, w.threads[t].expected, w.threads[t].ops, st)
    ensures Reaches(c, w, t, k, w') && w'.emergency == w.emergency
    ensures Committed(c, w, w', t, st, Apply(w.threads[t].expected, w.threads[t].ops, w.active.value))
  {
    ReachAdmits(c, t, k);
    w' := ApplyRuns(c, w, t, k, Reach(c, t, k), st);
  }

  /** The call left everything but its own thread and the lock as it was. */
  ghost predicate Untouched(w: World, w': World, t: nat) {
    t < |w.threads| && w' == w.(threads := w.threads[t := Idle], mu := None)
  }

  /** Every other Apply is refused: nothing is allocated or published, and the lock is free. */
  lemma ApplyRefuses(c: Config, w: World, t: nat, k: Pick) returns (w': World)
    requires Sound(w) && t < |w.threads| && w.threads[t].ApplyBase?
    requires forall st :: !Accepts(c, w, w.threads[t].expected, w.threads[t].ops, st)
    ensures Reaches(c, w, t, k, w') && Untouched(w, w', t)
  {
    ReachAdmits(c, t, k);
    var reach := Reach(c, t, k);
    var w1 := ApplyStops(c, w, t, k, reach);
    Unlocks(c, w1, t, k, reach);
    w' := Perform(w1, t, Leave);
    Onwards(c, t, k, reach, w, w1, w');
    assert w'.threads == w.threads[t := Idle];
  }

  /** Reset with a bootstrap document that loads: the bit is clear, and that document is published. */
  lemma ResetCommits(c: Config, w: World, t: nat, k: Pick) returns (w': World)
    requires Sound(w) && t < |w.threads| && w.threads[t].ResetLoad? && k.bootstrap.Some?
    ensures Reaches(c, w, t, k, w') && !w'.emergency && Committed(c, w, w', t, k.bootstrap.value, Reset)
  {
    ReachAdmits(c, t, k);
    w' := ResetRuns(c, w, t, k, Reach(c, t, k));
  }

  /** Reset with one that does not: nothing changes. */
  lemma ResetRefuses(c: Config, w: World, t: nat, k: Pick) returns (w': World)
    requires Sound(w) && t < |w.threads| && w.threads[t].ResetLoad? && k.bootstrap.None?
    ensures Reaches(c, w, t, k, w') && Untouched(w, w', t)
  {
    ReachAdmits(c, t, k);
    var reach := Reach(c, t, k);
    OneStep(c, w, t, k, reach, Move(Unlock));
    var w1 := Perform(w, t, Move(Unlock));
    Unlocks(c, w1, t, k, reach);
    w' := Perform(w1, t, Leave);
    Onwards(c, t, k, reach, w, w1, w');
    assert w'.threads == w.threads[t := Idle];
  }
}
