/** Runs with a lone stale stamp: StampEmergency does not read the bits again after its own
    compare-and-swap, so a disable that is about to publish can undo an enable that finished in
    between, and an enable a disable. */
module StoreOverlap {
  import opened Text
  import Patch
  import opened Store
  import opened StoreOrder
  import opened StoreInhibit
  import opened StoreLone
  import opened StoreSpaced

  ghost function Boot(c: Config, st: Patch.State): Snapshot {
    Snapshot(st, c.revision(st), 0, false)
  }

  ghost function Inhibited(c: Config, st: Patch.State): Snapshot {
    Boot(c, st).(off := true, generation := 1)
  }

  /** Three threads: the installer, a disable, and an enable. */
  ghost function Booting(c: Config, st: Patch.State, pc: PC): World {
    World([Boot(c, st)], None, None, false, false, Some(0), [pc, Idle, Idle], [], false)
  }

  ghost function Installed(c: Config, st: Patch.State, emergency: bool, disable: PC, enable: PC): World {
    World([Boot(c, st)], Some(0), None, emergency, false, None, [Idle, disable, enable],
          [Publication(0, Some(Install))], false)
  }

  ghost function Installing(c: Config, st: Patch.State, pc: PC): World {
    Installed(c, st, false, Idle, Idle).(mu := Some(0), threads := [pc, Idle, Idle])
  }

  /** After the disable's stamp. */
  ghost function Disabled(c: Config, st: Patch.State, emergency: bool, previous: Option<Ptr>, disable: PC,
                          enable: PC): World {
    World([Boot(c, st), Inhibited(c, st)], Some(1), previous, emergency, false, None, [Idle, disable, enable],
          [Publication(0, Some(Install)), Publication(1, None)], false)
  }

  // ---------------------------------------------------------------- the runs

  /** Install, then a disable up to its compare-and-swap. */
  ghost function Common(c: Config, st: Patch.State, i: nat): World {
    if i == 0 then Booting(c, st, SwapLoad(0, Install))
    else if i == 1 then Booting(c, st, SwapEmergency(0, Install, None))
    else if i == 2 then Booting(c, st, SwapStartup(0, Install, None))
    else if i == 3 then Booting(c, st, SwapCAS(0, Install, None, Shared(0)))
    else if i == 4 then Installing(c, st, StampLoad(Install))
    else if i == 5 then Installing(c, st, StampEmergency(0, Install))
    else if i == 6 then Installing(c, st, StampStartup(0, Install))
    else if i == 7 then Installing(c, st, Unlock)
    else if i == 8 then Installed(c, st, false, Idle, Idle)
    else if i == 9 then Installed(c, st, false, SetBit(true, Disable), Idle)
    else if i == 10 then Installed(c, st, true, StampLoad(Disable), Idle)
    else if i == 11 then Installed(c, st, true, StampEmergency(0, Disable), Idle)
    else Installed(c, st, true, StampCAS(0, Inhibited(c, st), Disable), Idle)
  }

  /** An enable starts and clears the bit. */
  ghost function Enabling(c: Config, st: Patch.State, i: nat): World {
    var cas := StampCAS(0, Inhibited(c, st), Disable);
    if i <= 12 then Common(c, st, i)
    else if i == 13 then Installed(c, st, true, cas, SetBit(false, Enable))
    else Installed(c, st, false, cas, StampLoad(Enable))
  }

  /** The disable finishes, an enable goes up to its compare-and-swap, and a disable sets the bit. */
  ghost function Disabling(c: Config, st: Patch.State, i: nat): World {
    var cas := StampCAS(1, Boot(c, st).(generation := 2), Enable);
    if i <= 12 then Common(c, st, i)
    else if i == 13 then Disabled(c, st, true, None, PrevLoad(0, ThenReturn, Disable), Idle)
    else if i == 14 then Disabled(c, st, true, None, PrevCAS(0, None, ThenReturn, Disable), Idle)
    else if i == 15 then Disabled(c, st, true, Some(0), Idle, Idle)
    else if i == 16 then Disabled(c, st, true, Some(0), Idle, SetBit(false, Enable))
    else if i == 17 then Disabled(c, st, false, Some(0), Idle, StampLoad(Enable))
    else if i == 18 then Disabled(c, st, false, Some(0), Idle, StampEmergency(1, Enable))
    else if i == 19 then Disabled(c, st, false, Some(0), Idle, StampStartup(1, Enable))
    else if i == 20 then Disabled(c, st, false, Some(0), Idle, cas)
    else if i == 21 then Disabled(c, st, false, Some(0), SetBit(true, Disable), cas)
    else Disabled(c, st, true, Some(0), StampLoad(Disable), cas)
  }

  ghost function CommonAct(i: nat): Action {
    if i < 8 then Go(0, Any) else if i == 8 then Start(1, BeginDisable) else Go(1, Any)
  }

  /** An enable starts before the disable sets the bit. */
  ghost function Crossing(c: Config, st: Patch.State, i: nat): World {
    var clear := SetBit(false, Enable);
    if i <= 9 then Common(c, st, i)
    else if i == 10 then Installed(c, st, false, SetBit(true, Disable), clear)
    else if i == 11 then Installed(c, st, true, StampLoad(Disable), clear)
    else if i == 12 then Installed(c, st, true, StampEmergency(0, Disable), clear)
    else Enabling(c, st, i)
  }

  ghost function CrossingAct(i: nat): Action {
    if i < 9 then CommonAct(i) else if i == 9 then Start(2, BeginEnable) else if i < 13 then Go(1, Any) else Go(2, Any)
  }

  ghost function EnablingAct(i: nat): Action {
    if i < 12 then CommonAct(i) else if i == 12 then Start(2, BeginEnable) else Go(2, Any)
  }

  ghost function DisablingAct(i: nat): Action {
    if i < 15 then CommonAct(i)
    else if i == 15 then Start(2, BeginEnable)
    else if i < 20 then Go(2, Any)
    else if i == 20 then Start(1, BeginDisable)
    else Go(1, Any)
  }

  ghost predicate Leads(c: Config, w: World, a: Action, w': World) {
    Sound(w) && Enabled(c, w, a) && w' == Do(c, w, a)
  }

  lemma InstallSteps(c: Config, st: Patch.State, i: nat)
    requires !st.emergencyDisabled && i < 4
    ensures Leads(c, Common(c, st, i), CommonAct(i), Common(c, st, i + 1))
  {
  }

  lemma InstallStampSteps(c: Config, st: Patch.State, i: nat)
    requires !st.emergencyDisabled && 4 <= i < 8
    ensures Leads(c, Common(c, st, i), CommonAct(i), Common(c, st, i + 1))
  {
  }

  lemma DisableSteps(c: Config, st: Patch.State, i: nat)
    requires !st.emergencyDisabled && 8 <= i < 12
    ensures Leads(c, Common(c, st, i), CommonAct(i), Common(c, st, i + 1))
  {
  }

  lemma CommonSteps(c: Config, st: Patch.State, i: nat)
    requires !st.emergencyDisabled && i < 12
    ensures Leads(c, Common(c, st, i), CommonAct(i), Common(c, st, i + 1))
  {
    if i < 4 { InstallSteps(c, st, i); } else if i < 8 { InstallStampSteps(c, st, i); } else { DisableSteps(c, st, i); }
  }

  lemma EnablingSteps(c: Config, st: Patch.State, i: nat)
    requires !st.emergencyDisabled && 12 <= i < 14
    ensures Leads(c, Enabling(c, st, i), EnablingAct(i), Enabling(c, st, i + 1))
  {
  }

  lemma CrossingSteps(c: Config, st: Patch.State, i: nat)
    requires !st.emergencyDisabled && 9 <= i < 14
    ensures Leads(c, Crossing(c, st, i), CrossingAct(i), Crossing(c, st, i + 1))
  {
    if i == 13 { EnablingSteps(c, st, 13); } else { CrossingDisables(c, st, i); }
  }

  lemma CrossingDisables(c: Config, st: Patch.State, i: nat)
    requires !st.emergencyDisabled && 9 <= i < 13
    ensures Leads(c, Crossing(c, st, i), CrossingAct(i), Crossing(c, st, i + 1))
  {
  }

  lemma PublishSteps(c: Config, st: Patch.State, i: nat)
    requires !st.emergencyDisabled && 12 <= i < 15
    ensures Leads(c, Disabling(c, st, i), DisablingAct(i), Disabling(c, st, i + 1))
  {
  }

  lemma EnableSteps(c: Config, st: Patch.State, i: nat)
    requires !st.emergencyDisabled && 15 <= i < 19
    ensures Leads(c, Disabling(c, st, i), DisablingAct(i), Disabling(c, st, i + 1))
  {
  }

  lemma DisableAgainSteps(c: Config, st: Patch.State, i: nat)
    requires !st.emergencyDisabled && 19 <= i < 22
    ensures Leads(c, Disabling(c, st, i), DisablingAct(i), Disabling(c, st, i + 1))
  {
  }

  lemma DisablingSteps(c: Config, st: Patch.State, i: nat)
    requires !st.emergencyDisabled && 12 <= i < 22
    ensures Leads(c, Disabling(c, st, i), DisablingAct(i), Disabling(c, st, i + 1))
  {
    if i < 15 { PublishSteps(c, st, i); }
    else if i < 19 { EnableSteps(c, st, i); }
    else { DisableAgainSteps(c, st, i); }
  }

  ghost predicate Matches<T>(xs: seq<T>, at: nat -> T, n: nat) {
    |xs| == n && forall i: nat :: i < n ==> xs[i] == at(i)
  }

  lemma MatchesNext<T>(xs: seq<T>, at: nat -> T, n: nat)
    requires Matches(xs, at, n)
    ensures Matches(xs + [at(n)], at, n + 1)
  {
  }

  /** Worlds joined by the acts between them are a run. */
  lemma {:induction false} Follow(c: Config, at: nat -> World, act: nat -> Action, n: nat)
    returns (ws: seq<World>, acts: seq<Action>)
    requires Init(c, at(0)) && forall i: nat :: i < n ==> Leads(c, at(i), act(i), at(i + 1))
    ensures IsRun(c, ws, acts) && Matches(ws, at, n + 1) && Matches(acts, act, n)
  {
    if n == 0 {
      ws, acts := [at(0)], [];
    } else {
      ws, acts := Follow(c, at, act, n - 1);
      LeadsOn(c, ws, acts, act(n - 1), at(n - 1), at(n));
      MatchesNext(ws, at, n);
      MatchesNext(acts, act, n - 1);
      ws, acts := ws + [at(n)], acts + [act(n - 1)];
    }
  }

  lemma LeadsOn(c: Config, ws: seq<World>, acts: seq<Action>, a: Action, w: World, w': World)
    requires IsRun(c, ws, acts) && ws[|acts|] == w && Leads(c, w, a, w')
    ensures IsRun(c, ws + [w'], acts + [a])
  {
    Advance(c, ws, acts, a, w');
  }

  lemma Begins(c: Config, st: Patch.State)
    ensures Init(c, Common(c, st, 0))
  {
  }

  lemma EnablingEnds(c: Config, st: Patch.State)
    requires !st.emergencyDisabled
    ensures var w := Enabling(c, st, 14); Sound(w) && AllWinding(w) && Lone(w, 1)
  {
  }

  lemma DisablingEnds(c: Config, st: Patch.State)
    requires !st.emergencyDisabled
    ensures var w := Disabling(c, st, 22); Sound(w) && AllWinding(w) && Lone(w, 2)
  {
  }

  /** Every start but the one at `n` is spaced. */
  ghost predicate OnlyUnspaced(ws: seq<World>, acts: seq<Action>, n: nat)
    requires |acts| < |ws|
  {
    && n < |acts| && !Spaced(ws[n], acts[n])
    && forall j :: 0 <= j < |acts| && j != n ==> Spaced(ws[j], acts[j])
  }

  /** A run whose last act changes the bit under a lone stale stamp, after one start that is not spaced,
      and its bad end. */
  lemma LosesAfter(c: Config, ws: seq<World>, acts: seq<Action>, n: nat, t: nat, start: nat)
    returns (ws': seq<World>, acts': seq<Action>)
    requires IsRun(c, ws, acts) && |acts| == n + 1 && Sound(ws[n + 1]) && Lone(ws[n + 1], t) && AllWinding(ws[n + 1])
    requires acts[n].Go? && ws[n].threads[acts[n].t].SetBit? && ws[n].threads[acts[n].t].off != ws[n].emergency
    requires OnlyUnspaced(ws, acts, start)
    ensures IsRun(c, ws', acts') && acts <= acts' && EndsWrong(ws'[|acts'|]) && BitsStay(ws[n + 1], ws'[|acts'|])
    ensures |acts'| > n && acts'[n] == acts[n] && !Calm(c, ws'[n], acts'[n]) && OnlyUnspaced(ws', acts', start)
  {
    ws', acts' := LoneLoses(c, ws, acts, t);
    assert ws'[n] == ws[n] && acts'[n] == acts[n];
    forall j | 0 <= j < |acts'| ensures Spaced(ws'[j], acts'[j]) <==> j != start {
      if j < |acts| { assert ws'[j] == ws[j] && acts'[j] == acts[j]; }
    }
  }

  lemma WrongWithBit(w: World)
    requires EndsWrong(w) && w.emergency
    ensures w.active.Some? && !w.heap[w.active.value].off
  {
  }

  lemma EnablingRun(c: Config, st: Patch.State) returns (ws: seq<World>, acts: seq<Action>)
    requires !st.emergencyDisabled
    ensures IsRun(c, ws, acts) && |acts| == 14 && acts[13] == Go(2, Any) && OnlyUnspaced(ws, acts, 12)
    ensures ws[13] == Enabling(c, st, 13) && ws[14] == Enabling(c, st, 14)
  {
    Begins(c, st);
    forall i: nat | i < 14 ensures Leads(c, Enabling(c, st, i), EnablingAct(i), Enabling(c, st, i + 1)) {
      if i < 12 { CommonSteps(c, st, i); } else { EnablingSteps(c, st, i); }
    }
    ws, acts := Follow(c, (i: nat) => Enabling(c, st, i), EnablingAct, 14);
    forall i: nat | i < 14 ensures Spaced(ws[i], acts[i]) <==> i != 12 { EnablingSpaced(c, st, i); }
  }

  lemma EnablingSpaced(c: Config, st: Patch.State, i: nat)
    requires i < 14
    ensures Spaced(Enabling(c, st, i), EnablingAct(i)) <==> i != 12
  {
    if i == 12 { assert !MayStart(true, BeginEnable, Enabling(c, st, 12).threads[1]); }
  }

  lemma CrossingRun(c: Config, st: Patch.State) returns (ws: seq<World>, acts: seq<Action>)
    requires !st.emergencyDisabled
    ensures IsRun(c, ws, acts) && |acts| == 14 && acts[13] == Go(2, Any) && OnlyUnspaced(ws, acts, 9)
    ensures ws[13] == Enabling(c, st, 13) && ws[14] == Enabling(c, st, 14)
  {
    Begins(c, st);
    forall i: nat | i < 14 ensures Leads(c, Crossing(c, st, i), CrossingAct(i), Crossing(c, st, i + 1)) {
      if i < 9 { CommonSteps(c, st, i); } else { CrossingSteps(c, st, i); }
    }
    ws, acts := Follow(c, (i: nat) => Crossing(c, st, i), CrossingAct, 14);
    forall i: nat | i < 14 ensures Spaced(ws[i], acts[i]) <==> i != 9 { CrossingSpaced(c, st, i); }
  }

  lemma CrossingSpaced(c: Config, st: Patch.State, i: nat)
    requires i < 14
    ensures Spaced(Crossing(c, st, i), CrossingAct(i)) <==> i != 9
  {
    if i == 9 { assert !MayStart(false, BeginEnable, Crossing(c, st, 9).threads[1]); }
  }

  lemma DisablingRun(c: Config, st: Patch.State) returns (ws: seq<World>, acts: seq<Action>)
    requires !st.emergencyDisabled
    ensures IsRun(c, ws, acts) && |acts| == 22 && acts[21] == Go(1, Any) && OnlyUnspaced(ws, acts, 20)
    ensures ws[21] == Disabling(c, st, 21) && ws[22] == Disabling(c, st, 22)
  {
    Begins(c, st);
    forall i: nat | i < 22 ensures Leads(c, Disabling(c, st, i), DisablingAct(i), Disabling(c, st, i + 1)) {
      if i < 12 { CommonSteps(c, st, i); } else { DisablingSteps(c, st, i); }
    }
    ws, acts := Follow(c, (i: nat) => Disabling(c, st, i), DisablingAct, 22);
    forall i: nat | i < 22 ensures Spaced(ws[i], acts[i]) <==> i != 20 { DisablingSpaced(c, st, i); }
  }

  lemma DisablingSpaced(c: Config, st: Patch.State, i: nat)
    requires i < 22
    ensures Spaced(Disabling(c, st, i), DisablingAct(i)) <==> i != 20
  {
    if i == 20 { assert !MayStart(false, BeginDisable, Disabling(c, st, 20).threads[2]); }
  }

  /** For every document that does not inhibit chaos itself: a run of one install, one disable and one
      enable that starts during the disable, which comes to rest with every bit clear and the active
      snapshot wrong. */
  lemma OverlapLosesEnable(c: Config, st: Patch.State) returns (ws: seq<World>, acts: seq<Action>)
    requires !st.emergencyDisabled
    ensures IsRun(c, ws, acts) && EndsWrong(ws[|acts|]) && !ws[|acts|].emergency && !ws[|acts|].startup
    ensures |acts| > 13 && acts[13] == Go(2, Any) && !Calm(c, ws[13], acts[13])
    ensures OnlyUnspaced(ws, acts, 12)
  {
    var ws1, acts1 := EnablingRun(c, st);
    EnablingEnds(c, st);
    ws, acts := LosesAfter(c, ws1, acts1, 13, 1, 12);
  }

  /** The same with an enable that starts when the disable has yet to set the bit. */
  lemma CrossingLosesEnable(c: Config, st: Patch.State) returns (ws: seq<World>, acts: seq<Action>)
    requires !st.emergencyDisabled
    ensures IsRun(c, ws, acts) && EndsWrong(ws[|acts|]) && !ws[|acts|].emergency && !ws[|acts|].startup
    ensures OnlyUnspaced(ws, acts, 9)
  {
    var ws1, acts1 := CrossingRun(c, st);
    EnablingEnds(c, st);
    ws, acts := LosesAfter(c, ws1, acts1, 13, 1, 9);
  }

  /** The same with a disable that starts during an enable, which undoes it: the bit is set and chaos
      runs. */
  lemma OverlapLosesDisable(c: Config, st: Patch.State) returns (ws: seq<World>, acts: seq<Action>)
    requires !st.emergencyDisabled
    ensures IsRun(c, ws, acts) && EndsWrong(ws[|acts|])
    ensures var w := ws[|acts|]; w.emergency && w.active.Some? && !w.heap[w.active.value].off
    ensures |acts| > 21 && acts[21] == Go(1, Any) && !Calm(c, ws[21], acts[21])
    ensures OnlyUnspaced(ws, acts, 20)
  {
    var ws1, acts1 := DisablingRun(c, st);
    DisablingEnds(c, st);
    ws, acts := LosesAfter(c, ws1, acts1, 21, 2, 20);
  }
}
