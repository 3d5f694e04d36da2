/** The emergency inhibit bit on published snapshots. */
module StoreInhibit {
  import opened Text
  import opened Store
  import opened StoreOrder

  // ---------------------------------------------------------------- the startup lock

  ghost predicate ThreadLocked(w: World, pc: PC)
    requires PCInHeap(w, pc)
  {
    match pc
    case SwapCAS(_, _, _, d) => DraftOf(w, d).off
    case StampCAS(_, s, _) => s.off
    case _ => true
  }

  ghost predicate Locked(w: World) {
    && Sound(w)
    && (w.startup ==>
          && (forall i :: 0 <= i < |w.history| ==> w.heap[w.history[i].p].off)
          && (forall t :: 0 <= t < |w.threads| ==> ThreadLocked(w, w.threads[t])))
  }

  ghost predicate EffectLocked(w: World, e: Effect)
    requires EffectInHeap(w, e)
  {
    match e
    case Publish(d, _, pc) => DraftOf(w, d).off && (pc.PrevLoad? || pc.StampLoad?)
    case Move(pc) => ThreadLocked(w, pc)
    case Allocate(s, pc) => ThreadLocked(w.(heap := w.heap + [s]), pc)
    case StoreBit(_, pc) => ThreadLocked(w, pc)
    case StorePrevious(_, pc) => ThreadLocked(w, pc)
    case Leave => true
  }

  lemma NextLocked(c: Config, w: World, pc: PC, k: Pick)
    requires Sound(w) && PCInHeap(w, pc) && !pc.Idle? && w.startup && ThreadLocked(w, pc)
    ensures EffectInHeap(w, Next(c, w, pc, k)) && EffectLocked(w, Next(c, w, pc, k))
  {
    NextInHeap(c, w, pc, k);
  }

  lemma LockedFrame(w: World, w': World, t: nat, pc: PC)
    requires Locked(w) && Sound(w') && t < |w.threads| && w.startup && w'.startup && w.heap <= w'.heap
    requires w'.threads == w.threads[t := pc] && PCInHeap(w', pc) && ThreadLocked(w', pc)
    requires forall i :: 0 <= i < |w'.history| ==> w'.heap[w'.history[i].p].off
    ensures Locked(w')
  {
    forall s | 0 <= s < |w'.threads| ensures ThreadLocked(w', w'.threads[s]) {
      if s != t { assert PCInHeap(w, w.threads[s]) && ThreadLocked(w, w.threads[s]); }
    }
  }

  lemma LockedPerform(w: World, t: nat, e: Effect)
    requires Locked(w) && w.startup && t < |w.threads| && EffectInHeap(w, e) && EffectLocked(w, e)
    ensures Locked(Perform(w, t, e))
  {
    SoundPerform(w, t, e);
    match e
    case Publish(d, who, pc) => LockedPublish(w, t, d, who, pc);
    case Move(pc) => LockedQuiet(w, Perform(w, t, e), t, pc);
    case Allocate(_, pc) => LockedQuiet(w, Perform(w, t, e), t, pc);
    case StoreBit(_, pc) => LockedQuiet(w, Perform(w, t, e), t, pc);
    case StorePrevious(_, pc) => LockedQuiet(w, Perform(w, t, e), t, pc);
    case Leave => LockedQuiet(w, Perform(w, t, e), t, Idle);
  }

  lemma LockedQuiet(w: World, w': World, t: nat, pc: PC)
    requires Locked(w) && Sound(w') && t < |w.threads| && w.startup && w'.startup && w.heap <= w'.heap
    requires w'.history == w.history && w'.threads == w.threads[t := pc] && PCInHeap(w', pc) && ThreadLocked(w', pc)
    ensures Locked(w')
  {
    LockedFrame(w, w', t, pc);
  }

  lemma LockedPublish(w: World, t: nat, d: Draft, who: Option<Caller>, pc: PC)
    requires Locked(w) && w.startup && t < |w.threads| && Sound(Perform(w, t, Publish(d, who, pc)))
    requires EffectInHeap(w, Publish(d, who, pc)) && EffectLocked(w, Publish(d, who, pc))
    ensures Locked(Perform(w, t, Publish(d, who, pc)))
  {
    var w' := Perform(w, t, Publish(d, who, pc));
    PCFrame(w, w', pc);
    assert w'.heap[w'.active.value] == DraftOf(w, d);
    forall i | 0 <= i < |w'.history| ensures w'.heap[w'.history[i].p].off {
      if i < |w.history| { assert w'.history[i] == w.history[i] && InHeap(w, w.history[i].p); }
    }
    LockedFrame(w, w', t, pc);
  }

  lemma LockedAlloc(c: Config, w: World, s: Snapshot)
    requires Locked(w) && Sound(w) && w.startup && Enabled(c, w, Alloc(s)) && Sound(Do(c, w, Alloc(s)))
    ensures Locked(Do(c, w, Alloc(s)))
  {
    var w' := Do(c, w, Alloc(s));
    if |w.threads| > 0 {
      assert w'.threads == w.threads[0 := w.threads[0]];
      assert PCInHeap(w, w.threads[0]) && ThreadLocked(w, w.threads[0]);
      LockedFrame(w, w', 0, w.threads[0]);
    }
  }

  lemma LockedStart(w: World, t: nat, b: Begin)
    requires Locked(w) && w.startup && t < |w.threads| && Sound(DoStart(w, t, b))
    ensures Locked(DoStart(w, t, b))
  {
    assert PCInHeap(DoStart(w, t, b), DoStart(w, t, b).threads[t]);
    LockedQuiet(w, DoStart(w, t, b), t, Started(b));
  }

  lemma LockedGo(c: Config, w: World, t: nat, k: Pick)
    requires Locked(w) && w.startup && t < |w.threads| && !w.threads[t].Idle?
    ensures Locked(Perform(w, t, Next(c, w, w.threads[t], k)))
  {
    NextLocked(c, w, w.threads[t], k);
    LockedPerform(w, t, Next(c, w, w.threads[t], k));
  }

  lemma StartupStays(c: Config, w: World, a: Action)
    requires Sound(w) && Enabled(c, w, a)
    ensures Do(c, w, a).startup == w.startup
  {
  }

  lemma LockedStep(c: Config, w: World, a: Action)
    requires Locked(w) && Enabled(c, w, a)
    ensures Locked(Do(c, w, a)) && Do(c, w, a).startup == w.startup
  {
    SoundStep(c, w, a);
    StartupStays(c, w, a);
    if w.startup {
      match a
      case Alloc(s) => LockedAlloc(c, w, s);
      case Start(t, b) => LockedStart(w, t, b);
      case Go(t, k) => LockedGo(c, w, t, k);
    }
  }

  lemma {:induction false} LockedRun(c: Config, ws: seq<World>, acts: seq<Action>, i: nat)
    requires IsRun(c, ws, acts) && i < |ws|
    ensures Locked(ws[i]) && ws[i].startup == ws[0].startup
  {
    if i > 0 {
      LockedRun(c, ws, acts, i - 1);
      LockedStep(c, ws[i - 1], acts[i - 1]);
    }
  }

  /** With the startup lock armed before the first install, every snapshot ever published
      carries the inhibit bit, in every interleaving, Reset and emergency-enable included. */
  lemma StartupLockHolds(c: Config, ws: seq<World>, acts: seq<Action>, i: nat)
    requires IsRun(c, ws, acts) && i < |ws| && ws[0].startup
    ensures Sound(ws[i]) && forall j :: 0 <= j < |ws[i].history| ==> ws[i].heap[ws[i].history[j].p].off
  {
    LockedRun(c, ws, acts, i);
  }

  // ---------------------------------------------------------------- reconciliation

  ghost predicate Want(w: World, s: Snapshot) {
    w.emergency || w.startup || Yaml(s)
  }

  /** active.EmergencyChaosOff equals emergency or startup or YAML. */
  ghost predicate Settled(w: World)
    requires Sound(w)
  {
    w.active.Some? ==> (w.heap[w.active.value].off <==> Want(w, w.heap[w.active.value]))
  }

  ghost predicate Resting(pc: PC) {
    pc.Idle? || pc.Unlock?
  }

  ghost function CallerOf(pc: PC): Option<Caller> {
    match pc
    case SetBit(_, who) => Some(who)
    case SwapLoad(_, who) => Some(who)
    case SwapEmergency(_, who, _) => Some(who)
    case SwapStartup(_, who, _) => Some(who)
    case SwapCAS(_, who, _, _) => Some(who)
    case PrevLoad(_, _, who) => Some(who)
    case PrevCAS(_, _, _, who) => Some(who)
    case StampLoad(who) => Some(who)
    case StampEmergency(_, who) => Some(who)
    case StampStartup(_, who) => Some(who)
    case StampCAS(_, _, who) => Some(who)
    case _ => None
  }

  /** What keeps the bit set whatever the emergency bit says. */
  ghost predicate Fixed(w: World, s: Snapshot) {
    w.startup || Yaml(s)
  }

  /** The thread is inside Swap and has not published yet. */
  predicate BeforeSwap(pc: PC) {
    pc.SwapLoad? || pc.SwapEmergency? || pc.SwapStartup? || pc.SwapCAS?
  }

  /** The thread is about to stamp the active snapshot with a bit it read before the bit changed. */
  ghost predicate Stale(w: World, pc: PC)
    requires PCInHeap(w, pc)
  {
    match pc
    case StampStartup(live, _) =>
      w.active == Some(live) && w.emergency && w.heap[live].off && !Fixed(w, w.heap[live])
    case StampCAS(live, s, _) => w.active == Some(live) && !(s.off <==> Want(w, w.heap[live]))
    case _ => false
  }

  /** The thread stamps again if another one publishes a stale stamp first. */
  ghost predicate Rescues(w: World, pc: PC)
    requires PCInHeap(w, pc)
  {
    BeforeSwap(pc) || Stale(w, pc)
  }

  /** One stale stamp, and no other thread whose compare-and-swap is still to come. */
  ghost predicate Lone(w: World, t: nat)
    requires Sound(w)
  {
    && t < |w.threads| && Stale(w, w.threads[t])
    && forall u :: 0 <= u < |w.threads| && u != t ==> !Rescues(w, w.threads[u])
  }

  ghost predicate Backed(w: World)
    requires Sound(w)
  {
    forall t: nat :: t < |w.threads| ==> !Lone(w, t)
  }

  /** What the callers of emergency-disable and emergency-enable have to see to: the store that changes
      the bit leaves no lone stale stamp. Nothing is asked of Swap, Apply, Reset and StampEmergency. */
  ghost predicate Calm(c: Config, w: World, a: Action)
    requires Sound(w) && Enabled(c, w, a)
  {
    a.Go? && w.threads[a.t].SetBit? && w.threads[a.t].off != w.emergency ==>
      Sound(Do(c, w, a)) && Backed(Do(c, w, a))
  }

  // ---------------------------------------------------------------- the invariant

  ghost predicate WasActive(w: World, p: Ptr) {
    exists i :: 0 <= i < |w.history| && w.history[i].p == p
  }

  /** What a thread inside StampEmergency holds: a snapshot that was active, and a copy that differs in the bit. */
  ghost predicate Reads(w: World, pc: PC)
    requires PCInHeap(w, pc)
  {
    match pc
    case StampEmergency(live, _) => WasActive(w, live)
    case StampStartup(live, _) => WasActive(w, live)
    case StampCAS(live, s, _) =>
      WasActive(w, live) && s.canonical == w.heap[live].canonical && s.off != w.heap[live].off
    case _ => true
  }

  /** The thread will still stamp the active snapshot with the bits as they are now: it has yet to read
      them, has read them as they are, or will fail its compare-and-swap and read them again. */
  ghost predicate Responsible(w: World, pc: PC)
    requires PCInHeap(w, pc)
  {
    match pc
    case SwapLoad(_, _) => true
    case SwapEmergency(_, _, _) => true
    case SwapStartup(_, _, _) => true
    case SwapCAS(_, _, _, _) => true
    case PrevLoad(_, after, _) => after.ThenStamp?
    case PrevCAS(_, _, after, _) => after.ThenStamp?
    case StampLoad(_) => true
    case StampEmergency(live, _) => w.active == Some(live)
    case StampStartup(live, _) =>
      if w.active == Some(live) then w.emergency ==> Fixed(w, w.heap[live])
      else !(w.heap[live].off <==> Fixed(w, w.heap[live]))
    case StampCAS(live, s, _) => w.active == Some(live) ==> (s.off <==> Want(w, w.heap[live]))
    case _ => false
  }

  ghost predicate Covers(w: World)
    requires Sound(w)
  {
    Settled(w) || exists t :: 0 <= t < |w.threads| && Responsible(w, w.threads[t])
  }

  ghost predicate AllRead(w: World)
    requires Sound(w)
  {
    forall t :: 0 <= t < |w.threads| ==> Reads(w, w.threads[t])
  }

  ghost predicate Inhibit(w: World) {
    Sound(w) && AllRead(w) && Covers(w) && Backed(w)
  }

  // ---------------------------------------------------------------- one step of a thread

  /** What a step does to the thread's knowledge, and what it publishes. */
  ghost predicate Tells(w: World, from: PC, e: Effect)
    requires Sound(w) && PCInHeap(w, from) && EffectInHeap(w, e)
  {
    match e
    case Move(pc) =>
      && Reads(w, pc) && (Responsible(w, from) && !Settled(w) ==> Responsible(w, pc))
      && (Rescues(w, from) ==> Rescues(w, pc)) && (Stale(w, pc) ==> Stale(w, from))
    case Allocate(s, pc) => (pc.SwapLoad? || pc.ResetClear?) && !Responsible(w, from) && !Rescues(w, from)
    case StoreBit(bit, pc) =>
      !Rescues(w, from) && ((from.SetBit? && bit == from.off && pc.StampLoad?) || (from.ResetClear? && pc.SwapLoad?))
    case Publish(d, _, pc) =>
      if from.StampCAS? then pc.PrevLoad? && d == Private(from.copied) && w.active == Some(from.live)
      else pc.StampLoad? || (pc.PrevLoad? && pc.after.ThenStamp?)
    case StorePrevious(_, pc) =>
      !Rescues(w, from) && (pc.StampLoad? || Resting(pc)) && (Responsible(w, from) ==> pc.StampLoad?)
    case Leave => from.Unlock?
  }

  predicate InStamp(pc: PC) {
    pc.StampLoad? || pc.StampEmergency? || pc.StampStartup? || pc.StampCAS?
  }

  predicate InSwap(pc: PC) {
    BeforeSwap(pc) || pc.PrevLoad? || pc.PrevCAS?
  }

  lemma NextTells(c: Config, w: World, pc: PC, k: Pick)
    requires Sound(w) && PCInHeap(w, pc) && !pc.Idle? && Reads(w, pc) && ActiveIsLast(w)
    ensures EffectInHeap(w, Next(c, w, pc, k)) && Tells(w, pc, Next(c, w, pc, k))
  {
    NextInHeap(c, w, pc, k);
    if InStamp(pc) {
      StampTells(c, w, pc, k);
    } else if InSwap(pc) {
      SwapTells(c, w, pc, k);
    }
  }

  /** The steps inside Swap and publishPrevious. */
  lemma SwapTells(c: Config, w: World, pc: PC, k: Pick)
    requires InSwap(pc)
    requires Sound(w) && PCInHeap(w, pc) && Reads(w, pc) && EffectInHeap(w, Next(c, w, pc, k))
    ensures Tells(w, pc, Next(c, w, pc, k))
  {
  }

  /** The steps inside StampEmergency. */
  lemma StampTells(c: Config, w: World, pc: PC, k: Pick)
    requires InStamp(pc)
    requires Sound(w) && PCInHeap(w, pc) && Reads(w, pc) && ActiveIsLast(w) && EffectInHeap(w, Next(c, w, pc, k))
    ensures Tells(w, pc, Next(c, w, pc, k))
  {
    if pc.StampLoad? && w.active.Some? {
      assert w.history[|w.history| - 1].p == w.active.value;
    }
  }

  // ---------------------------------------------------------------- what other threads keep

  lemma WasActiveGrows(w: World, w': World, p: Ptr)
    requires w.history <= w'.history && WasActive(w, p)
    ensures WasActive(w', p)
  {
    var i :| 0 <= i < |w.history| && w.history[i].p == p;
    assert w'.history[i].p == p;
  }

  lemma ReadsFrame(w: World, w': World, pc: PC)
    requires PCInHeap(w, pc) && Reads(w, pc) && w.heap <= w'.heap && w.history <= w'.history
    ensures PCInHeap(w', pc) && Reads(w', pc)
  {
    PCFrame(w, w', pc);
    if pc.StampEmergency? || pc.StampStartup? || pc.StampCAS? { WasActiveGrows(w, w', pc.live); }
  }

  lemma AllReadFrame(w: World, w': World, t: nat, pc: PC)
    requires Sound(w) && Sound(w') && AllRead(w) && t < |w.threads| && w.heap <= w'.heap && w.history <= w'.history
    requires w'.threads == w.threads[t := pc] && PCInHeap(w', pc) && Reads(w', pc)
    ensures AllRead(w')
  {
    forall s | 0 <= s < |w'.threads| ensures Reads(w', w'.threads[s]) {
      if s != t { ReadsFrame(w, w', w.threads[s]); }
    }
  }

  /** Bits and active are as before, so the other threads are as responsible and as stale as before. */
  ghost predicate SameBits(w: World, w': World) {
    w'.startup == w.startup && w'.emergency == w.emergency && w'.active == w.active && w.heap <= w'.heap
  }

  lemma KnowledgeFrame(w: World, w': World, pc: PC)
    requires PCInHeap(w, pc) && SameBits(w, w')
    ensures PCInHeap(w', pc) && (Responsible(w', pc) <==> Responsible(w, pc))
    ensures (Stale(w', pc) <==> Stale(w, pc)) && (Rescues(w', pc) <==> Rescues(w, pc))
  {
    PCFrame(w, w', pc);
  }

  lemma CoversFrame(w: World, w': World, t: nat, pc: PC)
    requires Sound(w) && Sound(w') && Covers(w) && t < |w.threads| && SameBits(w, w')
    requires w'.threads == w.threads[t := pc] && PCInHeap(w', pc)
    requires Responsible(w, w.threads[t]) && !Settled(w) ==> Responsible(w', pc)
    ensures Covers(w')
  {
    if !Settled(w') {
      var s :| 0 <= s < |w.threads| && Responsible(w, w.threads[s]);
      KnowledgeFrame(w, w', w.threads[s]);
      assert Responsible(w', w'.threads[s]);
    }
  }

  lemma BackedFrame(w: World, w': World, t: nat, pc: PC)
    requires Sound(w) && Sound(w') && Backed(w) && t < |w.threads| && SameBits(w, w')
    requires w'.threads == w.threads[t := pc] && PCInHeap(w', pc)
    requires (Rescues(w, w.threads[t]) ==> Rescues(w', pc)) && (Stale(w', pc) ==> Stale(w, w.threads[t]))
    ensures Backed(w')
  {
    forall s: nat | s < |w'.threads| ensures !Lone(w', s) {
      KnowledgeFrame(w, w', w.threads[s]);
      if Stale(w', w'.threads[s]) {
        assert Stale(w, w.threads[s]) && !Lone(w, s);
        var u :| 0 <= u < |w.threads| && u != s && Rescues(w, w.threads[u]);
        KnowledgeFrame(w, w', w.threads[u]);
        assert Rescues(w', w'.threads[u]);
      }
    }
  }

  /** Bits and active are as before. */
  lemma QuietStep(w: World, w': World, t: nat, pc: PC)
    requires Inhibit(w) && Sound(w') && t < |w.threads| && SameBits(w, w') && w.history <= w'.history
    requires w'.threads == w.threads[t := pc] && PCInHeap(w', pc) && Reads(w', pc)
    requires Responsible(w, w.threads[t]) && !Settled(w) ==> Responsible(w', pc)
    requires (Rescues(w, w.threads[t]) ==> Rescues(w', pc)) && (Stale(w', pc) ==> Stale(w, w.threads[t]))
    ensures Inhibit(w')
  {
    AllReadFrame(w, w', t, pc);
    CoversFrame(w, w', t, pc);
    BackedFrame(w, w', t, pc);
  }

  // ---------------------------------------------------------------- a publication

  /** No thread holds the new snapshot yet, so none is stale. */
  lemma NoneStale(w: World, w': World, t: nat, pc: PC)
    requires Sound(w) && AllRead(w) && Sound(w') && t < |w.threads| && w'.threads == w.threads[t := pc]
    requires w'.active.Some? && !WasActive(w, w'.active.value) && (pc.StampLoad? || pc.PrevLoad?)
    ensures Backed(w')
  {
    forall s: nat | s < |w'.threads| ensures !Stale(w', w'.threads[s]) {
      if s != t { assert Reads(w, w.threads[s]); }
    }
  }

  /** A thread that rescues stamps the snapshot that a stale stamp published. */
  lemma RescueIsResponsible(w: World, w': World, pc: PC)
    requires PCInHeap(w, pc) && PCInHeap(w', pc) && Rescues(w, pc) && Reads(w, pc)
    requires w.heap <= w'.heap && w'.startup == w.startup
    requires w'.active.Some? && !WasActive(w, w'.active.value)
    ensures Responsible(w', pc)
  {
  }

  lemma PublishCovers(w: World, w': World, t: nat, d: Draft, who: Option<Caller>, pc: PC)
    requires Inhibit(w) && t < |w.threads| && EffectInHeap(w, Publish(d, who, pc)) && Sound(w')
    requires Tells(w, w.threads[t], Publish(d, who, pc)) && w' == Perform(w, t, Publish(d, who, pc))
    requires w'.active.Some? && !WasActive(w, w'.active.value)
    ensures Covers(w')
  {
    var from := w.threads[t];
    assert w'.heap[w'.active.value] == DraftOf(w, d);
    if !from.StampCAS? {
      assert Responsible(w', w'.threads[t]);
    } else if Stale(w, from) {
      assert !Lone(w, t);
      var u :| 0 <= u < |w.threads| && u != t && Rescues(w, w.threads[u]);
      assert w'.threads[u] == w.threads[u] && PCInHeap(w', w'.threads[u]) && Reads(w, w.threads[u]);
      RescueIsResponsible(w, w', w.threads[u]);
    } else {
      assert Reads(w, from) && Settled(w');
    }
  }

  /** A successful compare-and-swap on active. */
  lemma PublishStep(w: World, t: nat, d: Draft, who: Option<Caller>, pc: PC)
    requires Inhibit(w) && t < |w.threads| && EffectInHeap(w, Publish(d, who, pc))
    requires Tells(w, w.threads[t], Publish(d, who, pc)) && (d.Shared? ==> !WasActive(w, d.p))
    ensures Inhibit(Perform(w, t, Publish(d, who, pc)))
  {
    var w' := Perform(w, t, Publish(d, who, pc));
    SoundPerform(w, t, Publish(d, who, pc));
    assert PCInHeap(w', pc) && w.history <= w'.history;
    AllReadFrame(w, w', t, pc);
    NoneStale(w, w', t, pc);
    PublishCovers(w, w', t, d, who, pc);
  }

  // ---------------------------------------------------------------- the other steps

  /** Whoever stores the bit goes on to stamp; Reset publishes first, and an enable or disable is calm. */
  lemma BitStep(w: World, t: nat, bit: bool, pc: PC)
    requires Inhibit(w) && t < |w.threads| && EffectInHeap(w, StoreBit(bit, pc))
    requires Tells(w, w.threads[t], StoreBit(bit, pc)) && Sound(Perform(w, t, StoreBit(bit, pc)))
    requires pc.SwapLoad? || bit == w.emergency || Backed(Perform(w, t, StoreBit(bit, pc)))
    ensures Inhibit(Perform(w, t, StoreBit(bit, pc)))
  {
    var w' := Perform(w, t, StoreBit(bit, pc));
    AllReadFrame(w, w', t, pc);
    assert Responsible(w', w'.threads[t]);
    if pc.SwapLoad? {
      forall s: nat | s < |w'.threads| ensures !Lone(w', s) {
        assert Rescues(w', w'.threads[t]) && !Stale(w', w'.threads[t]);
      }
    } else if bit == w.emergency {
      BackedFrame(w, w', t, pc);
    }
  }

  lemma InhibitPerform(w: World, t: nat, e: Effect)
    requires Inhibit(w) && t < |w.threads| && EffectInHeap(w, e) && Tells(w, w.threads[t], e)
    requires e.Publish? && e.draft.Shared? ==> !WasActive(w, e.draft.p)
    requires Sound(Perform(w, t, e))
    requires e.StoreBit? ==> e.pc.SwapLoad? || e.bit == w.emergency || Backed(Perform(w, t, e))
    ensures Inhibit(Perform(w, t, e))
  {
    match e
    case Publish(d, who, pc) => PublishStep(w, t, d, who, pc);
    case StoreBit(bit, pc) => BitStep(w, t, bit, pc);
    case Move(pc) => MoveStep(w, t, pc);
    case Allocate(s, pc) => AllocateStep(w, t, s, pc);
    case StorePrevious(p, pc) => PreviousStep(w, t, p, pc);
    case Leave => LeaveStep(w, t);
  }

  lemma AllocateStep(w: World, t: nat, s: Snapshot, pc: PC)
    requires Inhibit(w) && t < |w.threads| && EffectInHeap(w, Allocate(s, pc))
    requires Tells(w, w.threads[t], Allocate(s, pc)) && Sound(Perform(w, t, Allocate(s, pc)))
    ensures Inhibit(Perform(w, t, Allocate(s, pc)))
  {
    QuietStep(w, Perform(w, t, Allocate(s, pc)), t, pc);
  }

  lemma PreviousStep(w: World, t: nat, p: Ptr, pc: PC)
    requires Inhibit(w) && t < |w.threads| && EffectInHeap(w, StorePrevious(p, pc))
    requires Tells(w, w.threads[t], StorePrevious(p, pc)) && Sound(Perform(w, t, StorePrevious(p, pc)))
    ensures Inhibit(Perform(w, t, StorePrevious(p, pc)))
  {
    QuietStep(w, Perform(w, t, StorePrevious(p, pc)), t, pc);
  }

  lemma LeaveStep(w: World, t: nat)
    requires Inhibit(w) && t < |w.threads| && w.threads[t].Unlock? && Sound(Perform(w, t, Leave))
    ensures Inhibit(Perform(w, t, Leave))
  {
    QuietStep(w, Perform(w, t, Leave), t, Idle);
  }

  lemma MoveStep(w: World, t: nat, pc: PC)
    requires Inhibit(w) && t < |w.threads| && EffectInHeap(w, Move(pc)) && Tells(w, w.threads[t], Move(pc))
    requires Sound(Perform(w, t, Move(pc)))
    ensures Inhibit(Perform(w, t, Move(pc)))
  {
    var w' := Perform(w, t, Move(pc));
    ReadsFrame(w, w', pc);
    KnowledgeFrame(w, w', pc);
    QuietStep(w, w', t, pc);
  }

  // ---------------------------------------------------------------- the run

  lemma InhibitStart(w: World, t: nat, b: Begin)
    requires Inhibit(w) && t < |w.threads| && w.threads[t].Idle?
    requires b.BeginSwap? ==> InHeap(w, b.next)
    ensures Inhibit(DoStart(w, t, b))
  {
    var w' := DoStart(w, t, b);
    SoundFrame(w, w', t, Started(b));
    QuietStep(w, w', t, Started(b));
  }

  lemma InhibitAlloc(w: World, s: Snapshot)
    requires Inhibit(w) && Sound(w.(heap := w.heap + [s]))
    ensures Inhibit(w.(heap := w.heap + [s]))
  {
    var w' := w.(heap := w.heap + [s]);
    if |w.threads| > 0 {
      var pc := w.threads[0];
      assert w'.threads == w.threads[0 := pc];
      ReadsFrame(w, w', pc);
      KnowledgeFrame(w, w', pc);
      QuietStep(w, w', 0, pc);
    }
  }

  /** What Swap publishes has not been active before. */
  lemma PublishedIsNew(c: Config, w: World, t: nat, k: Pick)
    requires Ordered(w) && t < |w.threads| && !w.threads[t].Idle?
    ensures var e := Next(c, w, w.threads[t], k); e.Publish? && e.draft.Shared? ==> !WasActive(w, e.draft.p)
  {
    var pc := w.threads[t];
    var e := Next(c, w, pc, k);
    assert ThreadOrdered(w, pc) && OrderedHistory(w);
    if e.Publish? && e.draft.Shared? {
      var last := |w.history| - 1;
      forall i | 0 <= i < |w.history| ensures w.history[i].p != e.draft.p {
        assert i < last ==> Gen(w, w.history[i].p) < Gen(w, w.history[last].p);
      }
    }
  }

  lemma InhibitGo(c: Config, w: World, t: nat, k: Pick)
    requires Inhibit(w) && Ordered(w) && t < |w.threads| && !w.threads[t].Idle? && Calm(c, w, Go(t, k))
    ensures Inhibit(Do(c, w, Go(t, k)))
  {
    SoundStep(c, w, Go(t, k));
    NextTells(c, w, w.threads[t], k);
    PublishedIsNew(c, w, t, k);
    InhibitPerform(w, t, Next(c, w, w.threads[t], k));
  }

  lemma InhibitStep(c: Config, w: World, a: Action)
    requires Inhibit(w) && Ordered(w) && Enabled(c, w, a) && Calm(c, w, a)
    ensures Inhibit(Do(c, w, a))
  {
    SoundStep(c, w, a);
    match a
    case Alloc(s) => InhibitAlloc(w, s);
    case Start(t, b) => InhibitStart(w, t, b);
    case Go(t, k) => InhibitGo(c, w, t, k);
  }

  /** Every change of the bit in the run is calm. */
  ghost predicate CalmRun(c: Config, ws: seq<World>, acts: seq<Action>)
    requires IsRun(c, ws, acts)
  {
    forall j :: 0 <= j < |acts| ==> Calm(c, ws[j], acts[j])
  }

  lemma {:induction false} InhibitRun(c: Config, ws: seq<World>, acts: seq<Action>, i: nat)
    requires IsRun(c, ws, acts) && i < |ws| && CalmRun(c, ws, acts)
    ensures Inhibit(ws[i])
  {
    if i > 0 {
      InhibitRun(c, ws, acts, i - 1);
      OrderedRun(c, ws, acts, i - 1);
      InhibitStep(c, ws[i - 1], acts[i - 1]);
    } else {
      assert Sound(ws[0]) && Settled(ws[0]) && AllRead(ws[0]) && Backed(ws[0]);
    }
  }

  /** In every run in which no enable or disable leaves a lone stale stamp, whatever else overlaps them,
      the active snapshot carries exactly emergency or startup or YAML whenever nothing is in flight. */
  lemma InhibitReconciled(c: Config, ws: seq<World>, acts: seq<Action>, i: nat)
    requires IsRun(c, ws, acts) && i < |ws| && Quiescent(ws[i]) && CalmRun(c, ws, acts)
    ensures Sound(ws[i]) && Settled(ws[i])
  {
    InhibitRun(c, ws, acts, i);
  }
}
