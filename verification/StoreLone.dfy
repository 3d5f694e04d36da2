/** The other half of reconciliation: a change of the emergency bit that leaves a lone stale stamp can
    always be followed by a schedule that comes to rest with the active snapshot wrong
    (internal/snapshot/store.go:96-115: StampEmergency does not read the bits again after its own
    compare-and-swap). */
module StoreLone {
  import opened Text
  import opened Store
  import opened StoreOrder
  import opened StoreInhibit

  const Any: Pick := Pick(false, None)

  // ---------------------------------------------------------------- longer runs

  lemma Advance(c: Config, ws: seq<World>, acts: seq<Action>, a: Action, w: World)
    requires IsRun(c, ws, acts) && Sound(ws[|acts|]) && Enabled(c, ws[|acts|], a) && w == Do(c, ws[|acts|], a)
    ensures IsRun(c, ws + [w], acts + [a])
  {
    var ws', acts' := ws + [w], acts + [a];
    forall i | 0 <= i < |acts'|
      ensures Sound(ws'[i]) && Enabled(c, ws'[i], acts'[i]) && ws'[i + 1] == Do(c, ws'[i], acts'[i])
    {
      assert ws'[i] == ws[i];
      if i < |acts| { assert acts'[i] == acts[i] && ws'[i + 1] == ws[i + 1]; }
    }
  }

  /** A longer run in which only operations that are in flight go on. */
  ghost predicate Continues(c: Config, ws: seq<World>, acts: seq<Action>, ws': seq<World>, acts': seq<Action>) {
    && IsRun(c, ws', acts') && ws <= ws' && acts <= acts'
    && forall i :: |acts| <= i < |acts'| ==> acts'[i].Go?
  }

  lemma ContinuesMore(c: Config, ws: seq<World>, acts: seq<Action>, ws1: seq<World>, acts1: seq<Action>,
                      ws2: seq<World>, acts2: seq<Action>)
    requires Continues(c, ws, acts, ws1, acts1) && Continues(c, ws1, acts1, ws2, acts2)
    ensures Continues(c, ws, acts, ws2, acts2)
  {
    forall i | |acts| <= i < |acts2| ensures acts2[i].Go? {
      if i < |acts1| { assert acts2[i] == acts1[i]; }
    }
  }

  lemma GoOn(c: Config, ws: seq<World>, acts: seq<Action>, t: nat) returns (ws': seq<World>, acts': seq<Action>)
    requires IsRun(c, ws, acts) && Sound(ws[|acts|]) && t < |ws[|acts|].threads| && !ws[|acts|].threads[t].Idle?
    ensures Continues(c, ws, acts, ws', acts') && |acts'| == |acts| + 1
    ensures ws'[|acts'|] == Do(c, ws[|acts|], Go(t, Any))
  {
    var w := Do(c, ws[|acts|], Go(t, Any));
    Advance(c, ws, acts, Go(t, Any), w);
    ws', acts' := ws + [w], acts + [Go(t, Any)];
  }

  // ---------------------------------------------------------------- threads on their way out

  /** The thread neither stores a bit nor enters Swap any more. */
  ghost predicate Winding(pc: PC) {
    Resting(pc) || InStamp(pc) || pc.PrevLoad? || pc.PrevCAS?
  }

  ghost predicate AllWinding(w: World) {
    forall t :: 0 <= t < |w.threads| ==> Winding(w.threads[t])
  }

  /** Steps left for a thread that runs alone and finds the active snapshot settled. */
  ghost function Rank(w: World, pc: PC): nat {
    match pc
    case Idle => 0
    case Unlock => 1
    case StampStartup(live, _) => if w.active == Some(live) then 2 else 6
    case StampEmergency(live, _) => if w.active == Some(live) then 3 else 7
    case StampLoad(_) => 4
    case StampCAS(_, _, _) => 5
    case PrevCAS(_, current, _, _) => if current == w.previous then 8 else 10
    case PrevLoad(_, _, _) => 9
    case _ => 11
  }

  /** A thread that is on its way out, not stale, and finds the active snapshot settled. */
  ghost predicate Harmless(w: World, pc: PC)
    requires PCInHeap(w, pc)
  {
    Winding(pc) && !Stale(w, pc) && Reads(w, pc)
  }

  /** Such a thread publishes nothing and comes closer to its return. */
  ghost predicate Retires(w: World, from: PC, e: Effect)
    requires Sound(w) && EffectInHeap(w, e)
  {
    match e
    case Move(pc) => Winding(pc) && !Stale(w, pc) && Rank(w, pc) < Rank(w, from)
    case StorePrevious(_, pc) => (pc.StampLoad? || Resting(pc)) && Rank(w, pc) < 8 <= Rank(w, from)
    case Leave => from.Unlock?
    case _ => false
  }

  lemma StampRetires(c: Config, w: World, pc: PC)
    requires Sound(w) && PCInHeap(w, pc) && Settled(w) && w.active.Some? && Harmless(w, pc) && InStamp(pc)
    ensures EffectInHeap(w, Next(c, w, pc, Any)) && Retires(w, pc, Next(c, w, pc, Any))
  {
    NextInHeap(c, w, pc, Any);
  }

  lemma NextRetires(c: Config, w: World, pc: PC)
    requires Sound(w) && PCInHeap(w, pc) && Settled(w) && w.active.Some? && Harmless(w, pc) && !pc.Idle?
    ensures EffectInHeap(w, Next(c, w, pc, Any)) && Retires(w, pc, Next(c, w, pc, Any))
  {
    NextInHeap(c, w, pc, Any);
    if InStamp(pc) { StampRetires(c, w, pc); }
  }

  // ---------------------------------------------------------------- the other threads finish first

  /** One stale stamp waits; every other thread is on its way out. */
  ghost predicate Poised(w: World, t: nat) {
    Ordered(w) && AllRead(w) && AllWinding(w) && Lone(w, t)
  }

  /** Before a stale stamp is published the active snapshot is right. */
  lemma PoisedIsSettled(w: World, t: nat)
    requires Poised(w, t)
    ensures Settled(w) && w.active.Some?
  {
    assert Reads(w, w.threads[t]);
  }

  ghost predicate Retired(w: World, w': World, u: nat, pc: PC)
    requires u < |w.threads|
  {
    && w'.threads == w.threads[u := pc] && w'.heap == w.heap && w'.history == w.history
    && w'.active == w.active && w'.emergency == w.emergency && w'.startup == w.startup
  }

  lemma RetireStep(c: Config, w: World, t: nat, u: nat) returns (pc: PC)
    requires Poised(w, t) && u < |w.threads| && u != t && !w.threads[u].Idle?
    ensures var w' := Do(c, w, Go(u, Any));
            Retired(w, w', u, pc) && Poised(w', t) && Rank(w', pc) < Rank(w, w.threads[u])
  {
    PoisedIsSettled(w, t);
    assert Reads(w, w.threads[u]) && !Rescues(w, w.threads[u]);
    NextRetires(c, w, w.threads[u]);
    NextTells(c, w, w.threads[u], Any);
    OrderedStep(c, w, Go(u, Any));
    var e := Next(c, w, w.threads[u], Any);
    pc := Landing(e);
    RetirePerform(w, u, e);
    RetiredIsPoised(w, Do(c, w, Go(u, Any)), t, u, pc);
  }

  lemma RetirePerform(w: World, u: nat, e: Effect)
    requires Sound(w) && u < |w.threads| && EffectInHeap(w, e) && Retires(w, w.threads[u], e)
    requires Tells(w, w.threads[u], e)
    ensures var w', pc := Perform(w, u, e), Landing(e);
            && Retired(w, w', u, pc) && Rank(w', pc) < Rank(w, w.threads[u])
            && PCInHeap(w, pc) && Reads(w, pc) && Winding(pc) && !Stale(w, pc)
  {
  }

  lemma RetiredIsPoised(w: World, w': World, t: nat, u: nat, pc: PC)
    requires Poised(w, t) && u < |w.threads| && u != t && Ordered(w') && Retired(w, w', u, pc)
    requires PCInHeap(w, pc) && Reads(w, pc) && Winding(pc) && !Stale(w, pc)
    ensures Poised(w', t)
  {
    ReadsFrame(w, w', pc);
    AllReadFrame(w, w', u, pc);
    KnowledgeFrame(w, w', w.threads[t]);
    forall s | 0 <= s < |w'.threads| && s != t ensures !Rescues(w', w'.threads[s]) {
      KnowledgeFrame(w, w', w'.threads[s]);
    }
  }

  /** Run thread `u` to its end. */
  lemma {:induction false} Retire(c: Config, ws: seq<World>, acts: seq<Action>, t: nat, u: nat)
    returns (ws': seq<World>, acts': seq<Action>)
    requires IsRun(c, ws, acts) && Poised(ws[|acts|], t) && u < |ws[|acts|].threads| && u != t
    ensures Continues(c, ws, acts, ws', acts') && Poised(ws'[|acts'|], t)
    ensures Retired(ws[|acts|], ws'[|acts'|], u, Idle)
    decreases Rank(ws[|acts|], ws[|acts|].threads[u])
  {
    var w := ws[|acts|];
    ws', acts' := ws, acts;
    if !w.threads[u].Idle? {
      var pc := RetireStep(c, w, t, u);
      var ws1, acts1 := GoOn(c, ws, acts, u);
      ws', acts' := Retire(c, ws1, acts1, t, u);
      ContinuesMore(c, ws, acts, ws1, acts1, ws', acts');
    }
  }

  /** Run every thread below `n` but `t` to its end. */
  lemma {:induction false} RetireAll(c: Config, ws: seq<World>, acts: seq<Action>, t: nat, n: nat)
    returns (ws': seq<World>, acts': seq<Action>)
    requires IsRun(c, ws, acts) && Poised(ws[|acts|], t) && n <= |ws[|acts|].threads|
    ensures Continues(c, ws, acts, ws', acts') && Poised(ws'[|acts'|], t)
    ensures |ws'[|acts'|].threads| == |ws[|acts|].threads| && BitsStay(ws[|acts|], ws'[|acts'|])
    ensures forall u :: 0 <= u < n && u != t ==> ws'[|acts'|].threads[u].Idle?
    decreases n
  {
    ws', acts' := ws, acts;
    if n > 0 {
      var ws1, acts1 := RetireAll(c, ws, acts, t, n - 1);
      ws', acts' := ws1, acts1;
      if n - 1 != t {
        ws', acts' := Retire(c, ws1, acts1, t, n - 1);
        ContinuesMore(c, ws, acts, ws1, acts1, ws', acts');
      }
    }
  }

  // ---------------------------------------------------------------- then the stale stamp is published

  ghost predicate BitsStay(w: World, w': World) {
    w'.emergency == w.emergency && w'.startup == w.startup
  }

  ghost predicate OthersIdle(w: World, t: nat) {
    t < |w.threads| && forall u :: 0 <= u < |w.threads| && u != t ==> w.threads[u].Idle?
  }

  /** The thread has published and only returns. */
  ghost predicate Returning(pc: PC) {
    Resting(pc) || (pc.PrevLoad? && pc.after.ThenReturn?) || (pc.PrevCAS? && pc.after.ThenReturn?)
  }

  lemma ReturnStep(c: Config, w: World, t: nat)
    requires Sound(w) && !Settled(w) && OthersIdle(w, t) && Returning(w.threads[t]) && !w.threads[t].Idle?
    ensures var w' := Do(c, w, Go(t, Any));
            && Sound(w') && !Settled(w') && OthersIdle(w', t) && Returning(w'.threads[t])
            && Rank(w', w'.threads[t]) < Rank(w, w.threads[t]) && BitsStay(w, w')
  {
    SoundStep(c, w, Go(t, Any));
    ReturnNext(c, w, w.threads[t]);
    ReturnPerform(w, t, Next(c, w, w.threads[t], Any));
  }

  ghost predicate OnlyReturns(w: World, from: PC, e: Effect) {
    match e
    case Move(pc) => Returning(pc) && Rank(w, pc) < Rank(w, from)
    case StorePrevious(_, pc) => Resting(pc) && 8 <= Rank(w, from)
    case Leave => from.Unlock?
    case _ => false
  }

  lemma ReturnNext(c: Config, w: World, pc: PC)
    requires Sound(w) && PCInHeap(w, pc) && Returning(pc) && !pc.Idle?
    ensures OnlyReturns(w, pc, Next(c, w, pc, Any))
  {
  }

  lemma ReturnPerform(w: World, t: nat, e: Effect)
    requires Sound(w) && !Settled(w) && OthersIdle(w, t) && OnlyReturns(w, w.threads[t], e) && Sound(Perform(w, t, e))
    ensures var w' := Perform(w, t, e);
            && !Settled(w') && OthersIdle(w', t) && Returning(w'.threads[t])
            && Rank(w', w'.threads[t]) < Rank(w, w.threads[t]) && BitsStay(w, w')
  {
  }

  lemma {:induction false} Returns(c: Config, ws: seq<World>, acts: seq<Action>, t: nat)
    returns (ws': seq<World>, acts': seq<Action>)
    requires IsRun(c, ws, acts) && Sound(ws[|acts|]) && !Settled(ws[|acts|])
    requires OthersIdle(ws[|acts|], t) && Returning(ws[|acts|].threads[t])
    ensures Continues(c, ws, acts, ws', acts') && Quiescent(ws'[|acts'|])
    ensures Sound(ws'[|acts'|]) && !Settled(ws'[|acts'|]) && BitsStay(ws[|acts|], ws'[|acts'|])
    decreases Rank(ws[|acts|], ws[|acts|].threads[t])
  {
    ws', acts' := ws, acts;
    if !ws[|acts|].threads[t].Idle? {
      ReturnStep(c, ws[|acts|], t);
      var ws1, acts1 := GoOn(c, ws, acts, t);
      ws', acts' := Returns(c, ws1, acts1, t);
      ContinuesMore(c, ws, acts, ws1, acts1, ws', acts');
    }
  }

  lemma StampGoesStale(c: Config, w: World, t: nat)
    requires Poised(w, t) && OthersIdle(w, t) && w.threads[t].StampStartup?
    ensures var w' := Do(c, w, Go(t, Any));
            Poised(w', t) && OthersIdle(w', t) && w'.threads[t].StampCAS? && BitsStay(w, w')
  {
    var w', pc := Do(c, w, Go(t, Any)), Landing(Next(c, w, w.threads[t], Any));
    OrderedStep(c, w, Go(t, Any));
    NextTells(c, w, w.threads[t], Any);
    assert Next(c, w, w.threads[t], Any) == Move(pc) && pc.StampCAS? && Stale(w, pc);
    ReadsFrame(w, w', pc);
    AllReadFrame(w, w', t, pc);
    KnowledgeFrame(w, w', pc);
  }

  lemma StalePublishes(c: Config, w: World, t: nat)
    requires Poised(w, t) && OthersIdle(w, t) && w.threads[t].StampCAS?
    ensures var w' := Do(c, w, Go(t, Any));
            Sound(w') && !Settled(w') && OthersIdle(w', t) && Returning(w'.threads[t]) && BitsStay(w, w')
  {
    SoundStep(c, w, Go(t, Any));
    assert Reads(w, w.threads[t]);
  }

  lemma Publishes(c: Config, ws: seq<World>, acts: seq<Action>, t: nat)
    returns (ws': seq<World>, acts': seq<Action>)
    requires IsRun(c, ws, acts) && Poised(ws[|acts|], t) && OthersIdle(ws[|acts|], t)
    ensures Continues(c, ws, acts, ws', acts') && Sound(ws'[|acts'|]) && !Settled(ws'[|acts'|])
    ensures OthersIdle(ws'[|acts'|], t) && Returning(ws'[|acts'|].threads[t]) && BitsStay(ws[|acts|], ws'[|acts'|])
  {
    ws', acts' := ws, acts;
    if ws[|acts|].threads[t].StampStartup? {
      StampGoesStale(c, ws[|acts|], t);
      ws', acts' := GoOn(c, ws, acts, t);
    }
    var ws1, acts1 := ws', acts';
    StalePublishes(c, ws1[|acts1|], t);
    ws', acts' := GoOn(c, ws1, acts1, t);
    ContinuesMore(c, ws, acts, ws1, acts1, ws', acts');
  }

  // ---------------------------------------------------------------- every run

  lemma {:induction false} AllReadRun(c: Config, ws: seq<World>, acts: seq<Action>, i: nat)
    requires IsRun(c, ws, acts) && i < |ws|
    ensures Sound(ws[i]) && AllRead(ws[i])
  {
    OrderedRun(c, ws, acts, i);
    if i > 0 {
      AllReadRun(c, ws, acts, i - 1);
      OrderedRun(c, ws, acts, i - 1);
      AllReadStep(c, ws[i - 1], acts[i - 1]);
    }
  }

  lemma AllReadStep(c: Config, w: World, a: Action)
    requires Ordered(w) && AllRead(w) && Enabled(c, w, a)
    ensures Sound(Do(c, w, a)) && AllRead(Do(c, w, a))
  {
    SoundStep(c, w, a);
    var w' := Do(c, w, a);
    match a
    case Alloc(_) =>
      forall s | 0 <= s < |w'.threads| ensures Reads(w', w'.threads[s]) { ReadsFrame(w, w', w.threads[s]); }
    case Start(t, b) => AllReadFrame(w, w', t, Started(b));
    case Go(t, k) =>
      NextTells(c, w, w.threads[t], k);
      GoReads(w, t, Next(c, w, w.threads[t], k));
  }

  lemma GoReads(w: World, t: nat, e: Effect)
    requires Sound(w) && AllRead(w) && t < |w.threads| && EffectInHeap(w, e) && Tells(w, w.threads[t], e)
    requires Sound(Perform(w, t, e))
    ensures AllRead(Perform(w, t, e))
  {
    var w' := Perform(w, t, e);
    assert w'.threads == w.threads[t := Landing(e)] && PCInHeap(w', w'.threads[t]);
    if e.Move? { ReadsFrame(w, w', e.pc); }
    AllReadFrame(w, w', t, Landing(e));
  }

  /** From every world of every run with a lone stale stamp, and nothing in flight that stores the bit
      or swaps: finishing what is in flight can leave the active snapshot wrong. */
  lemma LoneLoses(c: Config, ws: seq<World>, acts: seq<Action>, t: nat)
    returns (ws': seq<World>, acts': seq<Action>)
    requires IsRun(c, ws, acts) && Sound(ws[|acts|]) && Lone(ws[|acts|], t) && AllWinding(ws[|acts|])
    ensures Continues(c, ws, acts, ws', acts') && Quiescent(ws'[|acts'|])
    ensures Sound(ws'[|acts'|]) && !Settled(ws'[|acts'|]) && BitsStay(ws[|acts|], ws'[|acts'|])
  {
    OrderedRun(c, ws, acts, |acts|);
    AllReadRun(c, ws, acts, |acts|);
    var ws1, acts1 := RetireAll(c, ws, acts, t, |ws[|acts|].threads|);
    var ws2, acts2 := Publishes(c, ws1, acts1, t);
    ContinuesMore(c, ws, acts, ws1, acts1, ws2, acts2);
    ws', acts' := Returns(c, ws2, acts2, t);
    ContinuesMore(c, ws, acts, ws2, acts2, ws', acts');
  }

  // ---------------------------------------------------------------- the exact condition

  /** Some way of finishing what is in flight leaves the active snapshot wrong. */
  ghost predicate MayEndWrong(c: Config, ws: seq<World>, acts: seq<Action>) {
    exists ws', acts' :: Continues(c, ws, acts, ws', acts') && EndsWrong(ws'[|acts'|])
  }

  ghost predicate EndsWrong(w: World) {
    Quiescent(w) && Sound(w) && !Settled(w)
  }

  /** The thread stores no bit any more, and is past the point where Apply and Reset can give up. */
  ghost predicate Finishing(pc: PC) {
    Winding(pc) || BeforeSwap(pc)
  }

  ghost predicate AllFinishing(w: World) {
    forall t :: 0 <= t < |w.threads| ==> Finishing(w.threads[t])
  }

  lemma FinishingNext(c: Config, w: World, pc: PC, k: Pick)
    requires Sound(w) && PCInHeap(w, pc) && Finishing(pc) && !pc.Idle?
    ensures Finishing(Landing(Next(c, w, pc, k)))
  {
  }

  lemma LandsAt(w: World, t: nat, e: Effect)
    requires t < |w.threads|
    ensures Perform(w, t, e).threads == w.threads[t := Landing(e)]
  {
  }

  lemma FinishingStep(c: Config, w: World, a: Action)
    requires Inhibit(w) && Ordered(w) && AllFinishing(w) && Enabled(c, w, a) && a.Go?
    ensures Inhibit(Do(c, w, a)) && AllFinishing(Do(c, w, a))
  {
    assert Finishing(w.threads[a.t]);
    InhibitGo(c, w, a.t, a.pick);
    FinishingNext(c, w, w.threads[a.t], a.pick);
    LandsAt(w, a.t, Next(c, w, w.threads[a.t], a.pick));
  }

  ghost predicate StillRight(ws: seq<World>, i: nat) {
    i < |ws| && Inhibit(ws[i]) && AllFinishing(ws[i])
  }

  ghost predicate OnlyGo(acts: seq<Action>, n: nat) {
    forall j :: n <= j < |acts| ==> acts[j].Go?
  }

  lemma {:induction false} Climb(p: nat -> bool, n: nat, i: nat)
    requires n <= i && p(n) && forall j: nat :: n <= j < i && p(j) ==> p(j + 1)
    ensures p(i)
    decreases i
  {
    if i > n {
      Climb(p, n, i - 1);
      assert p(i - 1) ==> p(i - 1 + 1);
    }
  }

  /** A backed world stays so while what is in flight finishes. */
  lemma FinishingIsRight(c: Config, ws: seq<World>, acts: seq<Action>, n: nat, i: nat)
    requires IsRun(c, ws, acts) && n <= i < |ws| && StillRight(ws, n) && OnlyGo(acts, n)
    ensures StillRight(ws, i)
  {
    forall j: nat | n <= j < i && StillRight(ws, j) ensures StillRight(ws, j + 1) {
      FinishingAt(c, ws, acts, j);
    }
    Climb((j: nat) => StillRight(ws, j), n, i);
  }

  lemma FinishingAt(c: Config, ws: seq<World>, acts: seq<Action>, i: nat)
    requires IsRun(c, ws, acts) && i < |acts| && acts[i].Go? && StillRight(ws, i)
    ensures StillRight(ws, i + 1)
  {
    OrderedRun(c, ws, acts, i);
    var w, a := ws[i], acts[i];
    assert Enabled(c, w, a);
    FinishingStep(c, w, a);
  }

  /** After a calm run, the store of an enable or disable, beside any threads that store no bit any more
      and are not in the part of Apply and Reset that can still give up: it is calm exactly when no way
      of finishing them leaves the active snapshot wrong. */
  lemma CalmExactly(c: Config, ws: seq<World>, acts: seq<Action>, t: nat)
    requires IsRun(c, ws, acts) && CalmRun(c, ws, acts) && Sound(ws[|acts|])
    requires t < |ws[|acts|].threads| && ws[|acts|].threads[t].SetBit?
    requires forall u :: 0 <= u < |ws[|acts|].threads| && u != t ==> Finishing(ws[|acts|].threads[u])
    ensures var w, a := ws[|acts|], Go(t, Any);
            Calm(c, w, a) <==> !MayEndWrong(c, ws + [Do(c, w, a)], acts + [a])
  {
    var w, a := ws[|acts|], Go(t, Any);
    var w' := Do(c, w, a);
    Advance(c, ws, acts, a, w');
    SoundStep(c, w, a);
    InhibitRun(c, ws, acts, |acts|);
    OrderedRun(c, ws, acts, |acts|);
    assert AllFinishing(w');
    if Calm(c, w, a) {
      InhibitStep(c, w, a);
      CalmEndsRight(c, ws + [w'], acts + [a]);
    } else {
      var s: nat :| s < |w'.threads| && Lone(w', s);
      LoneWinds(w', s);
      var ws2, acts2 := LoneLoses(c, ws + [w'], acts + [a], s);
      assert EndsWrong(ws2[|acts2|]);
    }
  }

  lemma LoneWinds(w: World, t: nat)
    requires Sound(w) && AllFinishing(w) && Lone(w, t)
    ensures AllWinding(w)
  {
    forall u | 0 <= u < |w.threads| ensures Winding(w.threads[u]) {
      assert Finishing(w.threads[u]);
    }
  }

  lemma CalmEndsRight(c: Config, ws: seq<World>, acts: seq<Action>)
    requires IsRun(c, ws, acts) && Inhibit(ws[|acts|]) && AllFinishing(ws[|acts|])
    ensures !MayEndWrong(c, ws, acts)
  {
    forall ws', acts' | Continues(c, ws, acts, ws', acts') ensures !EndsWrong(ws'[|acts'|]) {
      assert ws'[|acts|] == ws[|acts|];
      FinishingIsRight(c, ws', acts', |acts|, |acts'|);
    }
  }

  /** A caller who changes the bit while no other stamp is in flight is calm. */
  lemma AloneIsCalm(c: Config, w: World, t: nat)
    requires Sound(w) && t < |w.threads| && w.threads[t].SetBit?
    requires forall u :: 0 <= u < |w.threads| && u != t ==> !InStamp(w.threads[u])
    ensures Calm(c, w, Go(t, Any))
  {
    SoundStep(c, w, Go(t, Any));
  }
}
