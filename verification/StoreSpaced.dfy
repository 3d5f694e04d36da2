/** Reconciliation for callers, who see which calls overlap and nothing more: what an enable has to keep
    away from, so that every change of the emergency bit takes effect. Swap, Apply, StampEmergency,
    emergency-disable and Reset may overlap each other at will. */
module StoreSpaced {
  import opened Text
  import opened Store
  import opened StoreOrder
  import opened StoreInhibit
  import StoreUpdates

  // ---------------------------------------------------------------- what callers see to

  /** The thread is an enable that has not cleared the bit yet. */
  ghost predicate Pending(pc: PC) {
    pc.SetBit? && !pc.off
  }

  /** The thread is a disable that has not set the bit yet. */
  ghost predicate Setting(pc: PC) {
    pc.SetBit? && pc.off
  }

  /** The thread is inside an emergency-enable. */
  ghost predicate InEnable(pc: PC) {
    Pending(pc) || CallerOf(pc) == Some(Enable)
  }

  /** The thread is going to clear the bit. */
  ghost predicate Clearing(pc: PC) {
    Pending(pc) || pc.ResetLoad? || pc.ResetClear?
  }

  ghost predicate MayStart(emergency: bool, b: Begin, other: PC) {
    match b
    case BeginDisable => !InEnable(other)
    case BeginEnable => !Setting(other) && (emergency ==> Resting(other) || Clearing(other))
    case BeginReset => true
    case _ => emergency ==> !Pending(other)
  }

  /** No disable starts during an enable, nor an enable beside a disable that has yet to set the bit; an
      enable with something to clear starts beside nothing but others that are about to clear it, and
      nothing but these starts before it has. */
  ghost predicate Spaced(w: World, a: Action) {
    a.Start? ==> forall s :: 0 <= s < |w.threads| && s != a.t ==> MayStart(w.emergency, a.what, w.threads[s])
  }

  // ---------------------------------------------------------------- facts of every run

  /** What a thread inside Swap replaces was active; enables clear the bit and disables set it. */
  ghost predicate Grounded(w: World, pc: PC) {
    match pc
    case SwapEmergency(_, _, prev) => prev.Some? ==> WasActive(w, prev.value)
    case SwapStartup(_, _, prev) => prev.Some? ==> WasActive(w, prev.value)
    case SwapCAS(_, _, prev, _) => prev.Some? ==> WasActive(w, prev.value)
    case SetBit(off, who) => who == if off then Disable else Enable
    case _ => true
  }

  ghost predicate AllGrounded(w: World) {
    forall t :: 0 <= t < |w.threads| ==> Grounded(w, w.threads[t])
  }

  lemma GroundedFrame(w: World, w': World, pc: PC)
    requires Grounded(w, pc) && w.history <= w'.history
    ensures Grounded(w', pc)
  {
    if (pc.SwapEmergency? || pc.SwapStartup? || pc.SwapCAS?) && pc.prev.Some? { WasActiveGrows(w, w', pc.prev.value); }
  }

  lemma NextGrounded(c: Config, w: World, pc: PC, k: Pick)
    requires Sound(w) && PCInHeap(w, pc) && !pc.Idle? && Grounded(w, pc) && ActiveIsLast(w)
    ensures Grounded(w, Landing(Next(c, w, pc, k)))
  {
    if pc.SwapLoad? && w.active.Some? { assert w.history[|w.history| - 1].p == w.active.value; }
  }

  lemma NextLocks(c: Config, w: World, pc: PC, k: Pick)
    requires Sound(w) && PCInHeap(w, pc) && !pc.Idle?
    ensures var e := Next(c, w, pc, k);
            (StoreUpdates.Locking(Landing(e)) ==> StoreUpdates.Locking(pc)) && (e.Leave? ==> pc.Unlock?)
  {
  }

  ghost predicate Facts(w: World) {
    Ordered(w) && AllGrounded(w) && StoreUpdates.Exclusive(w)
  }

  lemma PerformKeeps(w: World, t: nat, e: Effect)
    requires t < |w.threads|
    ensures var w' := Perform(w, t, e);
            && w'.threads == w.threads[t := Landing(e)] && w.history <= w'.history
            && w'.mu == if e.Leave? then None else w.mu
  {
  }

  lemma FactsGo(c: Config, w: World, t: nat, k: Pick)
    requires Facts(w) && t < |w.threads| && !w.threads[t].Idle?
    ensures AllGrounded(Do(c, w, Go(t, k))) && StoreUpdates.Exclusive(Do(c, w, Go(t, k)))
  {
    var e, w' := Next(c, w, w.threads[t], k), Do(c, w, Go(t, k));
    NextGrounded(c, w, w.threads[t], k);
    NextLocks(c, w, w.threads[t], k);
    PerformKeeps(w, t, e);
    GroundedFrame(w, w', Landing(e));
    forall s | 0 <= s < |w'.threads| ensures Grounded(w', w'.threads[s]) {
      if s != t { GroundedFrame(w, w', w.threads[s]); }
    }
  }

  lemma FactsStart(w: World, t: nat, b: Begin)
    requires AllGrounded(w) && StoreUpdates.Exclusive(w) && t < |w.threads| && w.threads[t].Idle?
    requires b.BeginApply? || b.BeginReset? ==> w.mu.None?
    ensures AllGrounded(DoStart(w, t, b)) && StoreUpdates.Exclusive(DoStart(w, t, b))
  {
    var w' := DoStart(w, t, b);
    forall s | 0 <= s < |w'.threads| ensures Grounded(w', w'.threads[s]) {
      if s != t { GroundedFrame(w, w', w.threads[s]); }
    }
  }

  lemma FactsStep(c: Config, w: World, a: Action)
    requires Facts(w) && Enabled(c, w, a)
    ensures Facts(Do(c, w, a))
  {
    OrderedStep(c, w, a);
    match a
    case Alloc(s) =>
      forall t | 0 <= t < |w.threads| ensures Grounded(Do(c, w, a), w.threads[t]) {
        GroundedFrame(w, Do(c, w, a), w.threads[t]);
      }
    case Start(t, b) => FactsStart(w, t, b);
    case Go(t, k) => FactsGo(c, w, t, k);
  }

  // ---------------------------------------------------------------- the invariant

  /** The inhibit bit is what startup and YAML make it. */
  ghost predicate Fits(w: World, s: Snapshot) {
    s.off <==> Fixed(w, s)
  }

  /** While the bit is set and an enable is about to clear it, nothing else is under way. */
  ghost predicate Waiting(w: World)
    requires Sound(w)
  {
    w.emergency && (exists t :: 0 <= t < |w.threads| && Pending(w.threads[t])) ==>
      Settled(w) && forall t :: 0 <= t < |w.threads| ==> Resting(w.threads[t]) || Clearing(w.threads[t])
  }

  /** A disable that is about to set the bit overlaps no enable. */
  ghost predicate Apart(w: World) {
    forall s, t :: 0 <= s < |w.threads| && 0 <= t < |w.threads| && Setting(w.threads[s]) ==> !InEnable(w.threads[t])
  }

  ghost predicate ResetSwaps(pc: PC) {
    BeforeSwap(pc) && CallerOf(pc) == Some(Reset)
  }

  /** A Reset has cleared the bit and has yet to publish. */
  ghost predicate ResetAhead(w: World) {
    exists t :: 0 <= t < |w.threads| && ResetSwaps(w.threads[t])
  }

  /** What a thread is about to publish over the active snapshot fits. */
  ghost predicate Offers(w: World, pc: PC)
    requires PCInHeap(w, pc)
  {
    match pc
    case SwapCAS(_, who, prev, d) => prev == w.active || who == Reset ==> Fits(w, DraftOf(w, d))
    case StampCAS(live, s, _) => w.active == Some(live) ==> Fits(w, s)
    case _ => true
  }

  /** A Reset that read the bit after clearing it read what it still is. */
  ghost predicate ResetFits(w: World)
    requires Sound(w)
  {
    !w.emergency ==> forall t :: 0 <= t < |w.threads| && ResetSwaps(w.threads[t]) ==> Offers(w, w.threads[t])
  }

  /** With the bit clear the thread will stamp the active snapshot if that does not fit. */
  ghost predicate Earnest(w: World, pc: PC)
    requires PCInHeap(w, pc)
  {
    match pc
    case StampLoad(_) => true
    case StampEmergency(live, _) => !Fits(w, w.heap[live])
    case StampStartup(live, _) => !Fits(w, w.heap[live])
    case StampCAS(_, _, _) => true
    case _ => false
  }

  ghost predicate ActiveFits(w: World)
    requires Sound(w)
  {
    w.active.Some? ==> Fits(w, w.heap[w.active.value])
  }

  /** With the bit clear and no Reset ahead, whatever is published fits, and if the active snapshot does
      not, an enable is still going to stamp it. */
  ghost predicate Tidy(w: World)
    requires Sound(w)
  {
    !w.emergency && !ResetAhead(w) ==>
      && (forall t :: 0 <= t < |w.threads| ==> Offers(w, w.threads[t]))
      && (ActiveFits(w) || exists t :: 0 <= t < |w.threads| && InEnable(w.threads[t]) && Earnest(w, w.threads[t]))
  }

  ghost predicate Spacing(w: World) {
    Sound(w) && Waiting(w) && Apart(w) && ResetFits(w) && Tidy(w)
  }

  // ---------------------------------------------------------------- every store is calm

  lemma ClearIsCalm(c: Config, w: World, t: nat, k: Pick)
    requires Spacing(w) && t < |w.threads| && Pending(w.threads[t]) && w.emergency
    ensures Calm(c, w, Go(t, k))
  {
    SoundStep(c, w, Go(t, k));
    var w' := Do(c, w, Go(t, k));
    forall s: nat | s < |w'.threads| ensures !Stale(w', w'.threads[s]) {
      assert Resting(w.threads[s]) || Clearing(w.threads[s]);
    }
  }

  /** With the bit about to be set, either a Reset still swaps or no stamp is under way. */
  lemma SetIsCalm(c: Config, w: World, t: nat, k: Pick)
    requires Spacing(w) && AllRead(w) && t < |w.threads| && Setting(w.threads[t]) && !w.emergency
    ensures Calm(c, w, Go(t, k))
  {
    SoundStep(c, w, Go(t, k));
    var w' := Do(c, w, Go(t, k));
    if r :| 0 <= r < |w.threads| && ResetSwaps(w.threads[r]) {
      assert w'.threads[r] == w.threads[r] && Rescues(w', w'.threads[r]) && !Stale(w', w'.threads[r]);
    } else {
      assert forall u :: 0 <= u < |w.threads| ==> !InEnable(w.threads[u]);
      forall s: nat | s < |w'.threads| ensures !Stale(w', w'.threads[s]) {
        if s != t { assert Offers(w, w.threads[s]) && Reads(w, w.threads[s]); }
      }
    }
  }

  lemma SpacedIsCalm(c: Config, w: World, a: Action)
    requires Spacing(w) && AllRead(w) && Enabled(c, w, a)
    ensures Calm(c, w, a)
  {
    if a.Go? && w.threads[a.t].SetBit? && w.threads[a.t].off != w.emergency {
      if w.emergency { ClearIsCalm(c, w, a.t, a.pick); } else { SetIsCalm(c, w, a.t, a.pick); }
    }
  }

  // ---------------------------------------------------------------- one step of a thread

  /** Which operation a step belongs to, and how far it is. */
  ghost predicate Steers(from: PC, e: Effect) {
    var pc := Landing(e);
    && !Setting(pc) && !Pending(pc) && (InEnable(pc) ==> InEnable(from)) && (Clearing(pc) ==> Clearing(from))
    && (Resting(from) || Clearing(from) ==> Resting(pc) || Clearing(pc) || e.StoreBit?)
    && (ResetSwaps(pc) ==> ResetSwaps(from) || e.StoreBit?) && (ResetSwaps(from) ==> ResetSwaps(pc) || e.Publish?)
    && (e.Publish? ==> !Resting(from) && !Clearing(from))
  }

  /** What a step reads and publishes. */
  ghost predicate Guides(w: World, from: PC, e: Effect)
    requires Sound(w) && PCInHeap(w, from) && EffectInHeap(w, e)
  {
    match e
    case Move(pc) =>
      && (Offers(w, pc) || w.emergency)
      && (!w.emergency && !ActiveFits(w) && Earnest(w, from) ==> Earnest(w, pc) && (InEnable(from) ==> InEnable(pc)))
    case Allocate(s, pc) => (pc.SwapLoad? || pc.ResetClear?) && !Earnest(w, from)
    case StoreBit(bit, pc) =>
      if from.ResetClear? then !bit && pc.SwapLoad? && pc.who == Reset
      else from.SetBit? && bit == from.off && pc == StampLoad(from.who)
    case Publish(d, _, pc) =>
      && (pc.StampLoad? || pc.PrevLoad?)
      && (if from.StampCAS? then d == Private(from.copied) && w.active == Some(from.live)
          else from.SwapCAS? && d == from.draft && w.active == from.prev)
    case StorePrevious(_, pc) => (pc.StampLoad? || Resting(pc)) && !Earnest(w, from)
    case Leave => from.Unlock?
  }

  lemma SwapSteers(c: Config, w: World, pc: PC, k: Pick)
    requires InSwap(pc) && Sound(w) && PCInHeap(w, pc)
    ensures Steers(pc, Next(c, w, pc, k))
  {
  }

  lemma StampSteers(c: Config, w: World, pc: PC, k: Pick)
    requires InStamp(pc) && Sound(w) && PCInHeap(w, pc)
    ensures Steers(pc, Next(c, w, pc, k))
  {
  }

  lemma NextSteers(c: Config, w: World, pc: PC, k: Pick)
    requires Sound(w) && PCInHeap(w, pc) && !pc.Idle? && Grounded(w, pc)
    ensures Steers(pc, Next(c, w, pc, k))
  {
    if InStamp(pc) { StampSteers(c, w, pc, k); } else if InSwap(pc) { SwapSteers(c, w, pc, k); }
  }

  lemma SwapGuides(c: Config, w: World, pc: PC, k: Pick)
    requires InSwap(pc) && Sound(w) && PCInHeap(w, pc) && EffectInHeap(w, Next(c, w, pc, k))
    ensures Guides(w, pc, Next(c, w, pc, k))
  {
  }

  lemma StampGuides(c: Config, w: World, pc: PC, k: Pick)
    requires InStamp(pc) && Sound(w) && PCInHeap(w, pc) && EffectInHeap(w, Next(c, w, pc, k))
    ensures Guides(w, pc, Next(c, w, pc, k))
  {
  }

  lemma NextGuides(c: Config, w: World, pc: PC, k: Pick)
    requires Sound(w) && PCInHeap(w, pc) && !pc.Idle?
    ensures EffectInHeap(w, Next(c, w, pc, k)) && Guides(w, pc, Next(c, w, pc, k))
  {
    NextInHeap(c, w, pc, k);
    if InStamp(pc) { StampGuides(c, w, pc, k); } else if InSwap(pc) { SwapGuides(c, w, pc, k); }
  }

  // ---------------------------------------------------------------- steps that leave bits and active alone

  lemma ApartFrame(w: World, w': World, t: nat, pc: PC)
    requires Apart(w) && t < |w.threads| && w'.threads == w.threads[t := pc]
    requires !Setting(pc) && (InEnable(pc) ==> InEnable(w.threads[t]))
    ensures Apart(w')
  {
    forall s, u | 0 <= s < |w'.threads| && 0 <= u < |w'.threads| && Setting(w'.threads[s])
      ensures !InEnable(w'.threads[u])
    {
      assert s != t && Setting(w.threads[s]) && !InEnable(w.threads[u]);
    }
  }

  lemma WaitingFrame(w: World, w': World, t: nat, pc: PC)
    requires Sound(w) && Sound(w') && Waiting(w) && t < |w.threads| && w.heap <= w'.heap
    requires w'.startup == w.startup && w'.emergency == w.emergency && w'.threads == w.threads[t := pc]
    requires Resting(w.threads[t]) || Clearing(w.threads[t]) ==> (Resting(pc) || Clearing(pc)) && w'.active == w.active
    requires Pending(pc) ==> Pending(w.threads[t])
    ensures Waiting(w')
  {
    if w'.emergency && exists s :: 0 <= s < |w'.threads| && Pending(w'.threads[s]) {
      var s :| 0 <= s < |w'.threads| && Pending(w'.threads[s]);
      assert Pending(w.threads[s]);
      assert Resting(w.threads[t]) || Clearing(w.threads[t]);
    }
  }

  lemma OffersFrame(w: World, w': World, pc: PC)
    requires PCInHeap(w, pc) && SameBits(w, w')
    ensures PCInHeap(w', pc) && (Offers(w', pc) <==> Offers(w, pc)) && (Earnest(w', pc) <==> Earnest(w, pc))
  {
    PCFrame(w, w', pc);
  }

  lemma ResetFitsFrame(w: World, w': World, t: nat, pc: PC)
    requires Sound(w) && Sound(w') && ResetFits(w) && t < |w.threads| && SameBits(w, w')
    requires w'.threads == w.threads[t := pc] && PCInHeap(w', pc) && (Offers(w', pc) || w.emergency)
    ensures ResetFits(w')
  {
    forall s | 0 <= s < |w'.threads| && ResetSwaps(w'.threads[s]) && !w'.emergency ensures Offers(w', w'.threads[s]) {
      if s != t { OffersFrame(w, w', w.threads[s]); }
    }
  }

  lemma TidyFrame(w: World, w': World, t: nat, pc: PC)
    requires Sound(w) && Sound(w') && Tidy(w) && t < |w.threads| && SameBits(w, w')
    requires w'.threads == w.threads[t := pc] && PCInHeap(w', pc) && (Offers(w', pc) || w.emergency)
    requires ResetSwaps(w.threads[t]) ==> ResetSwaps(pc)
    requires !w.emergency && !ActiveFits(w) && InEnable(w.threads[t]) && Earnest(w, w.threads[t]) ==>
               InEnable(pc) && Earnest(w', pc)
    ensures Tidy(w')
  {
    if !w'.emergency && !ResetAhead(w') {
      forall s | 0 <= s < |w.threads| ensures !ResetSwaps(w.threads[s]) {
        assert !ResetSwaps(w'.threads[s]);
      }
      forall s | 0 <= s < |w'.threads| ensures Offers(w', w'.threads[s]) {
        if s != t { OffersFrame(w, w', w.threads[s]); }
      }
      if !ActiveFits(w') {
        assert !ActiveFits(w);
        var s :| 0 <= s < |w.threads| && InEnable(w.threads[s]) && Earnest(w, w.threads[s]);
        OffersFrame(w, w', w.threads[s]);
        assert InEnable(w'.threads[s]) && Earnest(w', w'.threads[s]);
      }
    }
  }

  lemma QuietSpacing(w: World, w': World, t: nat, pc: PC)
    requires Spacing(w) && Sound(w') && t < |w.threads| && SameBits(w, w')
    requires w'.threads == w.threads[t := pc] && PCInHeap(w', pc) && (Offers(w', pc) || w.emergency)
    requires !Setting(pc) && !Pending(pc) && (InEnable(pc) ==> InEnable(w.threads[t]))
    requires Resting(w.threads[t]) || Clearing(w.threads[t]) ==> Resting(pc) || Clearing(pc)
    requires ResetSwaps(w.threads[t]) ==> ResetSwaps(pc)
    requires !w.emergency && !ActiveFits(w) && InEnable(w.threads[t]) && Earnest(w, w.threads[t]) ==>
               InEnable(pc) && Earnest(w', pc)
    ensures Spacing(w')
  {
    ApartFrame(w, w', t, pc);
    WaitingFrame(w, w', t, pc);
    ResetFitsFrame(w, w', t, pc);
    TidyFrame(w, w', t, pc);
  }

  // ---------------------------------------------------------------- a publication

  /** No other thread is about to replace the new snapshot. */
  lemma OthersOffer(w: World, w': World, t: nat, pc: PC, s: nat)
    requires Sound(w) && Sound(w') && t < |w.threads| && w'.threads == w.threads[t := pc] && w.heap <= w'.heap
    requires w'.startup == w.startup && AllRead(w) && AllGrounded(w) && (pc.StampLoad? || pc.PrevLoad?)
    requires w'.active.Some? && !WasActive(w, w'.active.value)
    requires s < |w.threads| && !ResetSwaps(w'.threads[s])
    ensures Offers(w', w'.threads[s])
  {
    if s != t { assert Reads(w, w.threads[s]) && Grounded(w, w.threads[s]); }
  }

  /** Of two threads only one can be inside Reset. */
  lemma OneReset(w: World, s: nat, t: nat)
    requires StoreUpdates.Exclusive(w) && s < |w.threads| && t < |w.threads|
    requires ResetSwaps(w.threads[s]) && (ResetSwaps(w.threads[t]) || w.threads[t].ResetClear?)
    ensures s == t
  {
    assert StoreUpdates.Locking(w.threads[s]) && StoreUpdates.Locking(w.threads[t]);
  }

  lemma PublishedFits(w: World, t: nat, d: Draft, who: Option<Caller>, pc: PC)
    requires Spacing(w) && StoreUpdates.Exclusive(w) && t < |w.threads| && !w.emergency
    requires EffectInHeap(w, Publish(d, who, pc)) && Guides(w, w.threads[t], Publish(d, who, pc))
    requires forall s :: 0 <= s < |w.threads| && s != t ==> !ResetSwaps(w.threads[s])
    ensures Fits(w, DraftOf(w, d))
  {
    if ResetSwaps(w.threads[t]) {
      assert Offers(w, w.threads[t]);
    } else {
      assert !ResetAhead(w);
      assert Offers(w, w.threads[t]);
    }
  }

  lemma PublishTidies(w: World, w': World, t: nat, d: Draft, who: Option<Caller>, pc: PC)
    requires Spacing(w) && Facts(w) && AllRead(w) && t < |w.threads| && Sound(w')
    requires EffectInHeap(w, Publish(d, who, pc)) && Guides(w, w.threads[t], Publish(d, who, pc))
    requires w' == Perform(w, t, Publish(d, who, pc)) && !WasActive(w, w'.active.value)
    ensures ResetFits(w') && Tidy(w')
  {
    assert w'.heap[w'.active.value] == DraftOf(w, d);
    if !w'.emergency {
      forall s: nat | s < |w'.threads| && ResetSwaps(w'.threads[s]) ensures Offers(w', w'.threads[s]) {
        assert s != t && Offers(w, w.threads[s]);
      }
      if !ResetAhead(w') {
        forall s | 0 <= s < |w.threads| && s != t ensures !ResetSwaps(w.threads[s]) {
          assert !ResetSwaps(w'.threads[s]);
        }
        PublishedFits(w, t, d, who, pc);
        forall s: nat | s < |w'.threads| ensures Offers(w', w'.threads[s]) { OthersOffer(w, w', t, pc, s); }
      }
    }
  }

  lemma PublishSpacing(w: World, t: nat, d: Draft, who: Option<Caller>, pc: PC)
    requires Spacing(w) && Facts(w) && AllRead(w) && t < |w.threads|
    requires EffectInHeap(w, Publish(d, who, pc)) && Guides(w, w.threads[t], Publish(d, who, pc))
    requires Steers(w.threads[t], Publish(d, who, pc)) && (d.Shared? ==> !WasActive(w, d.p))
    ensures Spacing(Perform(w, t, Publish(d, who, pc)))
  {
    var w' := Perform(w, t, Publish(d, who, pc));
    SoundPerform(w, t, Publish(d, who, pc));
    ApartFrame(w, w', t, pc);
    WaitingFrame(w, w', t, pc);
    PublishTidies(w, w', t, d, who, pc);
  }

  // ---------------------------------------------------------------- a store of the bit

  lemma SetSpacing(w: World, t: nat, pc: PC)
    requires Spacing(w) && t < |w.threads| && Setting(w.threads[t]) && pc.StampLoad? && !InEnable(pc) && PCInHeap(w, pc)
    ensures Spacing(Perform(w, t, StoreBit(true, pc)))
  {
    var w' := Perform(w, t, StoreBit(true, pc));
    SoundPerform(w, t, StoreBit(true, pc));
    ApartFrame(w, w', t, pc);
    assert Waiting(w') by {
      assert forall u :: 0 <= u < |w.threads| ==> !InEnable(w.threads[u]);
    }
  }

  /** An enable clears the bit: nothing else is under way if it was set. */
  lemma ClearSpacing(w: World, t: nat, pc: PC)
    requires Spacing(w) && t < |w.threads| && Pending(w.threads[t]) && pc == StampLoad(Enable) && PCInHeap(w, pc)
    ensures Spacing(Perform(w, t, StoreBit(false, pc)))
  {
    var w' := Perform(w, t, StoreBit(false, pc));
    SoundPerform(w, t, StoreBit(false, pc));
    ApartFrame(w, w', t, pc);
    if w.emergency {
      forall s: nat | s < |w'.threads| ensures Offers(w', w'.threads[s]) {
        assert Resting(w.threads[s]) || Clearing(w.threads[s]);
      }
      assert InEnable(w'.threads[t]) && Earnest(w', w'.threads[t]);
    } else {
      ResetFitsFrame(w, w', t, pc);
      TidyFrame(w, w', t, pc);
    }
  }

  /** Reset clears the bit and goes on to swap. */
  lemma ResetSpacing(w: World, t: nat, pc: PC)
    requires Spacing(w) && StoreUpdates.Exclusive(w) && t < |w.threads| && w.threads[t].ResetClear?
    requires pc.SwapLoad? && pc.who == Reset && PCInHeap(w, pc)
    ensures Spacing(Perform(w, t, StoreBit(false, pc)))
  {
    var w' := Perform(w, t, StoreBit(false, pc));
    SoundPerform(w, t, StoreBit(false, pc));
    ApartFrame(w, w', t, pc);
    assert ResetSwaps(w'.threads[t]);
    forall s: nat | s < |w'.threads| && ResetSwaps(w'.threads[s]) ensures s == t {
      if s != t { OneReset(w, s, t); }
    }
  }

  // ---------------------------------------------------------------- every step

  lemma GoSpacing(w: World, t: nat, e: Effect)
    requires Spacing(w) && Facts(w) && AllRead(w) && t < |w.threads| && Sound(Perform(w, t, e))
    requires EffectInHeap(w, e) && Steers(w.threads[t], e) && Guides(w, w.threads[t], e)
    requires e.Publish? && e.draft.Shared? ==> !WasActive(w, e.draft.p)
    ensures Spacing(Perform(w, t, e))
  {
    match e
    case Publish(d, who, pc) => PublishSpacing(w, t, d, who, pc);
    case StoreBit(bit, pc) => BitSpacing(w, t, bit, pc);
    case Move(pc) => MoveSpacing(w, t, pc);
    case Allocate(s, pc) => AllocateSpacing(w, t, s, pc);
    case StorePrevious(p, pc) => PreviousSpacing(w, t, p, pc);
    case Leave => LeaveSpacing(w, t);
  }

  lemma BitSpacing(w: World, t: nat, bit: bool, pc: PC)
    requires Spacing(w) && Facts(w) && t < |w.threads| && EffectInHeap(w, StoreBit(bit, pc))
    requires Guides(w, w.threads[t], StoreBit(bit, pc))
    ensures Spacing(Perform(w, t, StoreBit(bit, pc)))
  {
    assert Grounded(w, w.threads[t]);
    if bit {
      SetSpacing(w, t, pc);
    } else if w.threads[t].ResetClear? {
      ResetSpacing(w, t, pc);
    } else {
      ClearSpacing(w, t, pc);
    }
  }

  lemma MoveSpacing(w: World, t: nat, pc: PC)
    requires Spacing(w) && t < |w.threads| && EffectInHeap(w, Move(pc)) && Sound(Perform(w, t, Move(pc)))
    requires Steers(w.threads[t], Move(pc)) && Guides(w, w.threads[t], Move(pc))
    ensures Spacing(Perform(w, t, Move(pc)))
  {
    OffersFrame(w, Perform(w, t, Move(pc)), pc);
    QuietSpacing(w, Perform(w, t, Move(pc)), t, pc);
  }

  lemma AllocateSpacing(w: World, t: nat, s: Snapshot, pc: PC)
    requires Spacing(w) && t < |w.threads| && EffectInHeap(w, Allocate(s, pc)) && Sound(Perform(w, t, Allocate(s, pc)))
    requires Steers(w.threads[t], Allocate(s, pc)) && Guides(w, w.threads[t], Allocate(s, pc))
    ensures Spacing(Perform(w, t, Allocate(s, pc)))
  {
    QuietSpacing(w, Perform(w, t, Allocate(s, pc)), t, pc);
  }

  lemma PreviousSpacing(w: World, t: nat, p: Ptr, pc: PC)
    requires Spacing(w) && t < |w.threads| && EffectInHeap(w, StorePrevious(p, pc))
    requires Sound(Perform(w, t, StorePrevious(p, pc)))
    requires Steers(w.threads[t], StorePrevious(p, pc)) && Guides(w, w.threads[t], StorePrevious(p, pc))
    ensures Spacing(Perform(w, t, StorePrevious(p, pc)))
  {
    QuietSpacing(w, Perform(w, t, StorePrevious(p, pc)), t, pc);
  }

  lemma LeaveSpacing(w: World, t: nat)
    requires Spacing(w) && t < |w.threads| && w.threads[t].Unlock? && Sound(Perform(w, t, Leave))
    ensures Spacing(Perform(w, t, Leave))
  {
    QuietSpacing(w, Perform(w, t, Leave), t, Idle);
  }

  lemma StartApart(w: World, w': World, t: nat, b: Begin)
    requires Apart(w) && t < |w.threads| && Spaced(w, Start(t, b)) && w'.threads == w.threads[t := Started(b)]
    ensures Apart(w')
  {
    forall s, u | 0 <= s < |w'.threads| && 0 <= u < |w'.threads| && Setting(w'.threads[s])
      ensures !InEnable(w'.threads[u])
    {
      if s != t { assert MayStart(w.emergency, b, w.threads[s]); }
      if u != t { assert MayStart(w.emergency, b, w.threads[u]); }
    }
  }

  lemma StartWaiting(w: World, w': World, t: nat, b: Begin)
    requires Sound(w) && Sound(w') && Covers(w) && Waiting(w) && t < |w.threads| && w.threads[t].Idle?
    requires Spaced(w, Start(t, b)) && w'.threads == w.threads[t := Started(b)]
    requires w'.heap == w.heap && w'.active == w.active && w'.startup == w.startup && w'.emergency == w.emergency
    ensures Waiting(w')
  {
    if w'.emergency && exists s :: 0 <= s < |w'.threads| && Pending(w'.threads[s]) {
      if s :| 0 <= s < |w.threads| && s != t && Pending(w.threads[s]) {
        assert MayStart(w.emergency, b, w.threads[s]);
      } else {
        assert b.BeginEnable?;
        forall u | 0 <= u < |w.threads| && u != t ensures Resting(w.threads[u]) || Clearing(w.threads[u]) {
          assert MayStart(w.emergency, b, w.threads[u]);
        }
        assert forall u :: 0 <= u < |w.threads| ==> !Responsible(w, w.threads[u]);
      }
    }
  }

  lemma StartSpacing(w: World, t: nat, b: Begin)
    requires Spacing(w) && Covers(w) && t < |w.threads| && w.threads[t].Idle? && Spaced(w, Start(t, b))
    requires Sound(DoStart(w, t, b))
    ensures Spacing(DoStart(w, t, b))
  {
    var w' := DoStart(w, t, b);
    StartApart(w, w', t, b);
    StartWaiting(w, w', t, b);
    assert PCInHeap(w', w'.threads[t]);
    ResetFitsFrame(w, w', t, Started(b));
    TidyFrame(w, w', t, Started(b));
  }

  lemma AllocSpacing(w: World, s: Snapshot)
    requires Spacing(w) && Sound(w.(heap := w.heap + [s]))
    ensures Spacing(w.(heap := w.heap + [s]))
  {
    var w' := w.(heap := w.heap + [s]);
    if |w.threads| > 0 {
      var pc := w.threads[0];
      assert w'.threads == w.threads[0 := pc];
      OffersFrame(w, w', pc);
      WaitingFrame(w, w', 0, pc);
      AllocTidy(w, w');
    }
  }

  lemma AllocTidy(w: World, w': World)
    requires Sound(w) && Sound(w') && ResetFits(w) && Tidy(w) && SameBits(w, w') && w'.threads == w.threads
    ensures ResetFits(w') && Tidy(w')
  {
    forall u | 0 <= u < |w.threads|
      ensures Offers(w', w.threads[u]) <==> Offers(w, w.threads[u])
      ensures Earnest(w', w.threads[u]) <==> Earnest(w, w.threads[u])
    {
      OffersFrame(w, w', w.threads[u]);
    }
  }

  lemma SpacingStep(c: Config, w: World, a: Action)
    requires Spacing(w) && Inhibit(w) && Facts(w) && Enabled(c, w, a) && Spaced(w, a)
    ensures Spacing(Do(c, w, a))
  {
    SoundStep(c, w, a);
    match a
    case Alloc(s) => AllocSpacing(w, s);
    case Start(t, b) => StartSpacing(w, t, b);
    case Go(t, k) =>
      assert Grounded(w, w.threads[t]);
      NextSteers(c, w, w.threads[t], k);
      NextGuides(c, w, w.threads[t], k);
      PublishedIsNew(c, w, t, k);
      GoSpacing(w, t, Next(c, w, w.threads[t], k));
  }

  // ---------------------------------------------------------------- runs

  ghost predicate SpacedRun(ws: seq<World>, acts: seq<Action>)
    requires |acts| < |ws|
  {
    forall j :: 0 <= j < |acts| ==> Spaced(ws[j], acts[j])
  }

  ghost predicate Good(w: World) {
    Spacing(w) && Inhibit(w) && Facts(w)
  }

  lemma GoodStep(c: Config, w: World, a: Action)
    requires Good(w) && Enabled(c, w, a) && Spaced(w, a)
    ensures Calm(c, w, a) && Good(Do(c, w, a))
  {
    SpacedIsCalm(c, w, a);
    InhibitStep(c, w, a);
    FactsStep(c, w, a);
    SpacingStep(c, w, a);
  }

  lemma GoodStart(c: Config, w: World)
    requires Init(c, w) && Sound(w)
    ensures Good(w)
  {
    assert Settled(w) && AllRead(w) && Backed(w) && Covers(w);
  }

  lemma {:induction false} GoodRun(c: Config, ws: seq<World>, acts: seq<Action>, i: nat)
    requires IsRun(c, ws, acts) && SpacedRun(ws, acts) && i < |ws|
    ensures Good(ws[i])
  {
    if i > 0 {
      GoodRun(c, ws, acts, i - 1);
      GoodStep(c, ws[i - 1], acts[i - 1]);
    } else {
      OrderedRun(c, ws, acts, 0);
      GoodStart(c, ws[0]);
    }
  }

  /** In a run in which enables keep apart from disables as `Spaced` says, every change of the bit is calm,
      so the active snapshot carries exactly emergency or startup or YAML whenever nothing is in flight. */
  lemma SpacedIsReconciled(c: Config, ws: seq<World>, acts: seq<Action>, i: nat)
    requires IsRun(c, ws, acts) && SpacedRun(ws, acts) && i < |ws|
    ensures CalmRun(c, ws, acts) && Sound(ws[i]) && (Quiescent(ws[i]) ==> Settled(ws[i]))
  {
    forall j: nat | j < |acts| ensures Calm(c, ws[j], acts[j]) {
      GoodRun(c, ws, acts, j);
      GoodStep(c, ws[j], acts[j]);
    }
    GoodRun(c, ws, acts, i);
  }

  // ---------------------------------------------------------------- without enables, and without overlap

  ghost predicate StartsEnable(a: Action) {
    a.Start? && a.what.BeginEnable?
  }

  ghost predicate NoneEnables(w: World) {
    Facts(w) && forall t :: 0 <= t < |w.threads| ==> !InEnable(w.threads[t])
  }

  lemma {:induction false} NoEnableStarts(c: Config, ws: seq<World>, acts: seq<Action>, i: nat)
    requires IsRun(c, ws, acts) && i < |ws| && forall j :: 0 <= j < |acts| ==> !StartsEnable(acts[j])
    ensures NoneEnables(ws[i])
  {
    if i > 0 {
      NoEnableStarts(c, ws, acts, i - 1);
      NoEnableStep(c, ws[i - 1], acts[i - 1]);
    }
  }

  lemma NoEnableStep(c: Config, w: World, a: Action)
    requires NoneEnables(w) && Enabled(c, w, a) && !StartsEnable(a)
    ensures NoneEnables(Do(c, w, a))
  {
    FactsStep(c, w, a);
    if a.Go? {
      assert Grounded(w, w.threads[a.t]);
      NextSteers(c, w, w.threads[a.t], a.pick);
      PerformKeeps(w, a.t, Next(c, w, w.threads[a.t], a.pick));
    }
  }

  /** In every run of concurrent Swaps, stamps, disables, Applies and Resets the active snapshot at rest
      carries exactly emergency or startup or YAML. */
  lemma NoEnableIsReconciled(c: Config, ws: seq<World>, acts: seq<Action>, i: nat)
    requires IsRun(c, ws, acts) && i < |ws| && forall j :: 0 <= j < |acts| ==> !StartsEnable(acts[j])
    ensures Sound(ws[i]) && (Quiescent(ws[i]) ==> Settled(ws[i]))
  {
    forall j: nat | j < |acts| ensures Spaced(ws[j], acts[j]) { NoEnableStarts(c, ws, acts, j); }
    SpacedIsReconciled(c, ws, acts, i);
  }

  /** Whenever a thread is inside an enable, every other thread rests. */
  ghost predicate EnablesAlone(w: World) {
    forall s, t :: 0 <= s < |w.threads| && 0 <= t < |w.threads| && s != t && InEnable(w.threads[s]) ==>
      Resting(w.threads[t])
  }

  /** The same in every run in which no call overlaps an enable. */
  lemma LoneEnablesReconciled(c: Config, ws: seq<World>, acts: seq<Action>, i: nat)
    requires IsRun(c, ws, acts) && i < |ws| && forall j :: 0 <= j < |ws| ==> EnablesAlone(ws[j])
    ensures Sound(ws[i]) && (Quiescent(ws[i]) ==> Settled(ws[i]))
  {
    forall j: nat | j < |acts| ensures Spaced(ws[j], acts[j]) {
      assert EnablesAlone(ws[j + 1]) && ws[j + 1] == Do(c, ws[j], acts[j]) && Enabled(c, ws[j], acts[j]);
      AloneIsSpaced(c, ws[j], acts[j]);
    }
    SpacedIsReconciled(c, ws, acts, i);
  }

  lemma AloneIsSpaced(c: Config, w: World, a: Action)
    requires Sound(w) && Enabled(c, w, a) && EnablesAlone(Do(c, w, a))
    ensures Spaced(w, a)
  {
    if a.Start? {
      var w' := Do(c, w, a);
      assert w'.threads[a.t] == Started(a.what);
      forall s | 0 <= s < |w.threads| && s != a.t ensures MayStart(w.emergency, a.what, w.threads[s]) {
        assert w'.threads[s] == w.threads[s];
      }
    }
  }
}
