/** Why nothing starts while the bit is set and an enable is about to clear it: a Swap that read the bit
    before the enable cleared it can publish after the enable found a snapshot that YAML inhibits, and a
    later disable, which overlaps no enable, is undone by that Swap's own stamp. */
module StoreOvertake {
  import opened Text
  import Patch
  import opened Store
  import opened StoreOrder
  import opened StoreInhibit
  import opened StoreLone
  import opened StoreSpaced
  import opened StoreOverlap

  /** The document that is active first inhibits chaos, the one that is swapped in does not. */
  ghost function First(c: Config, st: Patch.State): Snapshot {
    Snapshot(st, c.revision(st), 0, true)
  }

  ghost function Second(c: Config, st: Patch.State): Snapshot {
    Snapshot(st, c.revision(st), 1, false)
  }

  ghost predicate Documents(st: Patch.State, st2: Patch.State) {
    st.emergencyDisabled && !st2.emergencyDisabled
  }

  ghost function Boots(c: Config, st: Patch.State, pc: PC): World {
    World([First(c, st)], None, None, false, false, Some(0), [pc, Idle, Idle], [], false)
  }

  ghost function Installs(c: Config, st: Patch.State, pc: PC, mu: Option<nat>): World {
    World([First(c, st)], Some(0), None, false, false, mu, [pc, Idle, Idle], [Publication(0, Some(Install))], false)
  }

  /** Both snapshots allocated; threads are the Swap, the disables and the enable. */
  ghost function Runs(c: Config, st: Patch.State, st2: Patch.State, emergency: bool, direct: bool, swap: PC,
                      disable: PC, enable: PC): World {
    World([First(c, st), Second(c, st2)], Some(0), None, emergency, false, None, [swap, disable, enable],
          [Publication(0, Some(Install))], direct)
  }

  ghost function Inhibits(c: Config, st2: Patch.State): Snapshot {
    Second(c, st2).(off := true)
  }

  /** The Swap has published. */
  ghost function Swapped(c: Config, st: Patch.State, st2: Patch.State, emergency: bool, previous: Option<Ptr>, swap: PC,
                         disable: PC): World {
    World([First(c, st), Second(c, st2), Inhibits(c, st2)], Some(2), previous, emergency, false, None,
          [swap, disable, Idle], [Publication(0, Some(Install)), Publication(2, Some(Direct))], true)
  }

  ghost function At(c: Config, st: Patch.State, st2: Patch.State, i: nat): World {
    var clear, cas := SetBit(false, Enable), SwapCAS(1, Direct, Some(0), Private(Inhibits(c, st2)));
    if i == 0 then Boots(c, st, SwapLoad(0, Install))
    else if i == 1 then Boots(c, st, SwapEmergency(0, Install, None))
    else if i == 2 then Boots(c, st, SwapStartup(0, Install, None))
    else if i == 3 then Boots(c, st, SwapCAS(0, Install, None, Shared(0)))
    else if i == 4 then Installs(c, st, StampLoad(Install), Some(0))
    else if i == 5 then Installs(c, st, StampEmergency(0, Install), Some(0))
    else if i == 6 then Installs(c, st, StampStartup(0, Install), Some(0))
    else if i == 7 then Installs(c, st, Unlock, Some(0))
    else if i == 8 then Installs(c, st, Idle, None)
    else if i == 9 then Runs(c, st, st2, false, false, Idle, Idle, Idle)
    else if i == 10 then Runs(c, st, st2, false, false, Idle, SetBit(true, Disable), Idle)
    else if i == 11 then Runs(c, st, st2, true, false, Idle, StampLoad(Disable), Idle)
    else if i == 12 then Runs(c, st, st2, true, false, Idle, StampEmergency(0, Disable), Idle)
    else if i == 13 then Runs(c, st, st2, true, false, Idle, Idle, Idle)
    else if i == 14 then Runs(c, st, st2, true, false, Idle, Idle, clear)
    else if i == 15 then Runs(c, st, st2, true, true, SwapLoad(1, Direct), Idle, clear)
    else if i == 16 then Runs(c, st, st2, true, true, SwapEmergency(1, Direct, Some(0)), Idle, clear)
    else if i == 17 then Runs(c, st, st2, true, true, cas, Idle, clear)
    else if i == 18 then Runs(c, st, st2, false, true, cas, Idle, StampLoad(Enable))
    else if i == 19 then Runs(c, st, st2, false, true, cas, Idle, StampEmergency(0, Enable))
    else if i == 20 then Runs(c, st, st2, false, true, cas, Idle, StampStartup(0, Enable))
    else if i == 21 then Runs(c, st, st2, false, true, cas, Idle, Idle)
    else if i == 22 then Swapped(c, st, st2, false, None, PrevLoad(0, ThenStamp, Direct), Idle)
    else if i == 23 then Swapped(c, st, st2, false, None, PrevCAS(0, None, ThenStamp, Direct), Idle)
    else if i == 24 then Swapped(c, st, st2, false, Some(0), StampLoad(Direct), Idle)
    else if i == 25 then Swapped(c, st, st2, false, Some(0), StampEmergency(2, Direct), Idle)
    else if i == 26 then Swapped(c, st, st2, false, Some(0), StampStartup(2, Direct), Idle)
    else if i == 27 then Swapped(c, st, st2, false, Some(0), StampStartup(2, Direct), SetBit(true, Disable))
    else Swapped(c, st, st2, true, Some(0), StampStartup(2, Direct), StampLoad(Disable))
  }

  ghost function Act(c: Config, st2: Patch.State, i: nat): Action {
    if i == 8 then Alloc(Second(c, st2))
    else if i == 9 || i == 26 then Start(1, BeginDisable)
    else if i == 13 then Start(2, BeginEnable)
    else if i == 14 then Start(0, BeginSwap(1))
    else if 10 <= i < 13 || i == 27 then Go(1, Any)
    else if 17 <= i < 21 then Go(2, Any)
    else Go(0, Any)
  }

  lemma FirstSteps(c: Config, st: Patch.State, st2: Patch.State, i: nat)
    requires Documents(st, st2) && i < 4
    ensures Leads(c, At(c, st, st2, i), Act(c, st2, i), At(c, st, st2, i + 1))
  {
  }

  lemma FirstStampSteps(c: Config, st: Patch.State, st2: Patch.State, i: nat)
    requires Documents(st, st2) && 4 <= i < 9
    ensures Leads(c, At(c, st, st2, i), Act(c, st2, i), At(c, st, st2, i + 1))
  {
  }

  lemma FirstDisableSteps(c: Config, st: Patch.State, st2: Patch.State, i: nat)
    requires Documents(st, st2) && 9 <= i < 13
    ensures Leads(c, At(c, st, st2, i), Act(c, st2, i), At(c, st, st2, i + 1))
  {
  }

  lemma OvertakeSteps(c: Config, st: Patch.State, st2: Patch.State, i: nat)
    requires Documents(st, st2) && 13 <= i < 17
    ensures Leads(c, At(c, st, st2, i), Act(c, st2, i), At(c, st, st2, i + 1))
  {
  }

  lemma ClearSteps(c: Config, st: Patch.State, st2: Patch.State, i: nat)
    requires Documents(st, st2) && 17 <= i < 21
    ensures Leads(c, At(c, st, st2, i), Act(c, st2, i), At(c, st, st2, i + 1))
  {
  }

  lemma SwapSteps(c: Config, st: Patch.State, st2: Patch.State, i: nat)
    requires Documents(st, st2) && 21 <= i < 24
    ensures Leads(c, At(c, st, st2, i), Act(c, st2, i), At(c, st, st2, i + 1))
  {
  }

  lemma LastSteps(c: Config, st: Patch.State, st2: Patch.State, i: nat)
    requires Documents(st, st2) && 24 <= i < 28
    ensures Leads(c, At(c, st, st2, i), Act(c, st2, i), At(c, st, st2, i + 1))
  {
  }

  lemma Steps(c: Config, st: Patch.State, st2: Patch.State, i: nat)
    requires Documents(st, st2) && i < 28
    ensures Leads(c, At(c, st, st2, i), Act(c, st2, i), At(c, st, st2, i + 1))
  {
    if i < 4 { FirstSteps(c, st, st2, i); }
    else if i < 9 { FirstStampSteps(c, st, st2, i); }
    else if i < 13 { FirstDisableSteps(c, st, st2, i); }
    else if i < 17 { OvertakeSteps(c, st, st2, i); }
    else if i < 21 { ClearSteps(c, st, st2, i); }
    else if i < 24 { SwapSteps(c, st, st2, i); }
    else { LastSteps(c, st, st2, i); }
  }

  lemma StepsSpaced(c: Config, st: Patch.State, st2: Patch.State, i: nat)
    requires i < 28
    ensures Spaced(At(c, st, st2, i), Act(c, st2, i)) <==> i != 14
  {
    if i == 14 { assert !MayStart(true, BeginSwap(1), At(c, st, st2, 14).threads[2]); }
  }

  lemma BeginsFirst(c: Config, st: Patch.State, st2: Patch.State)
    ensures Init(c, At(c, st, st2, 0))
  {
  }

  lemma EndsLone(c: Config, st: Patch.State, st2: Patch.State)
    requires Documents(st, st2)
    ensures var w := At(c, st, st2, 28); Sound(w) && AllWinding(w) && Lone(w, 0) && w.emergency
    ensures var w := At(c, st, st2, 27); w.threads[1] == SetBit(true, Disable) && !w.emergency
  {
  }

  ghost predicate Overtaking(c: Config, st: Patch.State, st2: Patch.State, ws: seq<World>, acts: seq<Action>) {
    && IsRun(c, ws, acts) && |acts| == 28
    && (forall i: nat :: i <= 28 ==> ws[i] == At(c, st, st2, i))
    && (forall i: nat :: i < 28 ==> acts[i] == Act(c, st2, i))
  }

  lemma OvertakingRun(c: Config, st: Patch.State, st2: Patch.State) returns (ws: seq<World>, acts: seq<Action>)
    requires Documents(st, st2)
    ensures Overtaking(c, st, st2, ws, acts)
  {
    BeginsFirst(c, st, st2);
    forall i: nat | i < 28 ensures Leads(c, At(c, st, st2, i), Act(c, st2, i), At(c, st, st2, i + 1)) {
      Steps(c, st, st2, i);
    }
    ws, acts := Follow(c, (i: nat) => At(c, st, st2, i), (i: nat) => Act(c, st2, i), 28);
  }

  lemma OvertakingStarts(c: Config, st: Patch.State, st2: Patch.State, ws: seq<World>, acts: seq<Action>)
    requires Overtaking(c, st, st2, ws, acts)
    ensures OnlyUnspaced(ws, acts, 14) && acts[14] == Start(0, BeginSwap(1)) && acts[27] == Go(1, Any)
  {
    forall i: nat | i < 28 ensures Spaced(ws[i], acts[i]) <==> i != 14 { StepsSpaced(c, st, st2, i); }
    assert acts[14] == Act(c, st2, 14) && acts[27] == Act(c, st2, 27);
  }

  lemma OvertakingEnds(c: Config, st: Patch.State, st2: Patch.State, ws: seq<World>, acts: seq<Action>)
    requires Documents(st, st2) && Overtaking(c, st, st2, ws, acts)
    ensures |ws[27].threads| == 3 && ws[27].threads[1] == SetBit(true, Disable) && !ws[27].emergency
    ensures Sound(ws[28]) && AllWinding(ws[28]) && Lone(ws[28], 0) && ws[28].emergency
  {
    EndsLone(c, st, st2);
    assert ws[27] == At(c, st, st2, 27) && ws[28] == At(c, st, st2, 28);
  }

  /** A run in which no enable and disable overlap, and only a Swap starts while an enable is about to
      clear the bit: it rests with the emergency bit set and the active snapshot not inhibited. */
  lemma OvertakingLosesDisable(c: Config, st: Patch.State, st2: Patch.State)
    returns (ws: seq<World>, acts: seq<Action>)
    requires Documents(st, st2)
    ensures IsRun(c, ws, acts) && EndsWrong(ws[|acts|]) && OnlyUnspaced(ws, acts, 14)
    ensures acts[14] == Start(0, BeginSwap(1))
    ensures var w := ws[|acts|]; w.emergency && w.active.Some? && !w.heap[w.active.value].off
  {
    var ws1, acts1 := OvertakingRun(c, st, st2);
    OvertakingStarts(c, st, st2, ws1, acts1);
    OvertakingEnds(c, st, st2, ws1, acts1);
    ws, acts := LosesAfter(c, ws1, acts1, 27, 0, 14);
    WrongWithBit(ws[|acts|]);
  }
}
