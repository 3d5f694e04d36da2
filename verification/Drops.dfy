/** The drop-probability allocator over the reals (internal/chaos/drop_allocation.go:15-79,
    internal/chaos/gates.go:102-135). */
module Drops {

  const BeforeResolution := "before-resolution"
  const BeforeUpstream := "before-upstream"
  const AfterUpstream := "after-upstream"
  const BeforeResponse := "before-response"

  /** `value` is normalized; `phase` is "" when not configured. */
  datatype Action = Drop(phase: string) | Pressure(value: string, phase: string) | Other

  datatype Outcome = Outcome(weight: real, actions: seq<Action>)

  datatype Policy = Policy(probability: real, outcomes: seq<Outcome>)

  /** The two times a plan is decided. */
  datatype Window = PreResolution | Response

  predicate CanDrop(a: Action) {
    a.Drop? || (a.Pressure? && a.value == "drop")
  }

  /** actionPhaseOf, for the actions that can drop */
  function PhaseOf(a: Action): string {
    match a
    case Drop(phase) => if phase != "" then phase else BeforeResponse
    case Pressure(_, phase) => if phase != "" then phase else BeforeResolution
    case Other => ""
  }

  /** actionInPhase */
  predicate InWindow(phase: string, w: Window) {
    match w
    case PreResolution => phase == BeforeResolution || phase == BeforeUpstream
    case Response => phase == AfterUpstream || phase == BeforeResponse || phase == ""
  }

  predicate DropsIn(a: Action, w: Window) {
    CanDrop(a) && InWindow(PhaseOf(a), w)
  }

  /** A drop without a phase drops the response, drop pressure without one the resolution, and with a
      phase each acts in the window of that phase. */
  lemma DropsWhere(phase: string, w: Window)
    ensures DropsIn(Drop(""), w) <==> w == Response
    ensures DropsIn(Pressure("drop", ""), w) <==> w == PreResolution
    ensures phase in {BeforeResolution, BeforeUpstream} ==>
              && (DropsIn(Drop(phase), w) <==> w == PreResolution)
              && (DropsIn(Pressure("drop", phase), w) <==> w == PreResolution)
    ensures phase in {AfterUpstream, BeforeResponse} ==>
              && (DropsIn(Drop(phase), w) <==> w == Response)
              && (DropsIn(Pressure("drop", phase), w) <==> w == Response)
    ensures !DropsIn(Other, w) && forall v :: v != "drop" ==> !DropsIn(Pressure(v, phase), w)
  {
    assert BeforeResolution[7] == 'r' && BeforeUpstream[7] == 'u' && AfterUpstream[0] == 'a';
    assert BeforeResolution[10] == 'o' && BeforeResponse[10] == 'p';
  }

  ghost predicate ActionsDrop(actions: seq<Action>, n: nat, w: Window)
    requires n <= |actions|
  {
    exists j :: 0 <= j < n && DropsIn(actions[j], w)
  }

  ghost predicate OutcomeDrops(o: Outcome, w: Window) {
    o.weight > 0.0 && ActionsDrop(o.actions, |o.actions|, w)
  }

  /** One of the first `n` outcomes can drop. */
  ghost predicate DropsWithin(p: Policy, n: nat, w: Window)
    requires n <= |p.outcomes|
  {
    exists i :: 0 <= i < n && OutcomeDrops(p.outcomes[i], w)
  }

  ghost predicate CanDropIn(p: Policy, w: Window) {
    DropsWithin(p, |p.outcomes|, w)
  }

  /** In how many windows the policy can drop. */
  ghost function Phases(p: Policy): nat {
    (if CanDropIn(p, PreResolution) then 1 else 0) + (if CanDropIn(p, Response) then 1 else 0)
  }

  lemma OneMoreAction(actions: seq<Action>, n: nat, w: Window)
    requires n < |actions|
    ensures ActionsDrop(actions, n + 1, w) <==> ActionsDrop(actions, n, w) || DropsIn(actions[n], w)
  {
  }

  method ScanActions(actions: seq<Action>) returns (pre: bool, response: bool)
    ensures pre <==> ActionsDrop(actions, |actions|, PreResolution)
    ensures response <==> ActionsDrop(actions, |actions|, Response)
  {
    pre, response := false, false;
    for i := 0 to |actions|
      invariant pre <==> ActionsDrop(actions, i, PreResolution)
      invariant response <==> ActionsDrop(actions, i, Response)
    {
      OneMoreAction(actions, i, PreResolution);
      OneMoreAction(actions, i, Response);
      if CanDrop(actions[i]) {
        pre := pre || InWindow(PhaseOf(actions[i]), PreResolution);
        response := response || InWindow(PhaseOf(actions[i]), Response);
      }
    }
  }

  lemma OneMoreOutcome(p: Policy, n: nat, w: Window)
    requires n < |p.outcomes|
    ensures DropsWithin(p, n + 1, w) <==> DropsWithin(p, n, w) || OutcomeDrops(p.outcomes[n], w)
  {
  }

  /** dropPhaseCount */
  method DropPhaseCount(p: Policy) returns (count: nat)
    ensures count == Phases(p) <= 2
  {
    var pre, response := false, false;
    for i := 0 to |p.outcomes|
      invariant pre <==> DropsWithin(p, i, PreResolution)
      invariant response <==> DropsWithin(p, i, Response)
    {
      OneMoreOutcome(p, i, PreResolution);
      OneMoreOutcome(p, i, Response);
      if p.outcomes[i].weight > 0.0 {
        var a, b := ScanActions(p.outcomes[i].actions);
        pre, response := pre || a, response || b;
      }
    }
    count := (if pre then 1 else 0) + (if response then 1 else 0);
  }

  // ---------------------------------------------------------------- the bound

  /** What a policy asks for: a threshold, used in up to two windows. */
  datatype Load = Load(p: real, phases: nat)

  ghost function Loads(ps: seq<Policy>): (ls: seq<Load>)
    ensures |ls| == |ps| && forall i :: 0 <= i < |ps| ==> ls[i] == Load(ps[i].probability, Phases(ps[i]))
  {
    seq(|ps|, i requires 0 <= i < |ps| => Load(ps[i].probability, Phases(ps[i])))
  }

  /** Thresholds are probabilities, as validation requires. */
  ghost predicate Sane(ls: seq<Load>) {
    forall i :: 0 <= i < |ls| ==> 0.0 <= ls[i].p <= 1.0 && ls[i].phases <= 2
  }

  /** Threshold times phases. */
  function Cost(x: real, phases: nat): real {
    if phases == 0 then 0.0 else if phases == 1 then x else x + x
  }

  method Weigh(x: real, phases: nat) returns (cost: real)
    requires phases <= 2
    ensures cost == Cost(x, phases)
  {
    cost := x * phases as real;
  }

  /** The first `n` thresholds times their phases, summed: a union bound on every drop event. */
  ghost function Bound(ls: seq<Load>, xs: seq<real>, n: nat): real
    requires n <= |ls| == |xs|
  {
    if n == 0 then 0.0 else Bound(ls, xs, n - 1) + Cost(xs[n - 1], ls[n - 1].phases)
  }

  ghost function Asked(ls: seq<Load>): (xs: seq<real>)
    ensures |xs| == |ls| && forall i :: 0 <= i < |ls| ==> xs[i] == ls[i].p
  {
    seq(|ls|, i requires 0 <= i < |ls| => ls[i].p)
  }

  ghost function Total(ls: seq<Load>): real {
    Bound(ls, Asked(ls), |ls|)
  }

  /** How many phases belong to positive thresholds. */
  ghost function ActivePhases(ls: seq<Load>, n: nat): nat
    requires n <= |ls|
  {
    if n == 0 then 0 else ActivePhases(ls, n - 1) + (if ls[n - 1].p > 0.0 then ls[n - 1].phases else 0)
  }

  /** dropPhaseCount of every policy. */
  method CountPhases(ps: seq<Policy>) returns (ls: seq<Load>)
    ensures ls == Loads(ps)
  {
    ls := [];
    for i := 0 to |ps|
      invariant |ls| == i && forall j :: 0 <= j < i ==> ls[j] == Load(ps[j].probability, Phases(ps[j]))
    {
      var phases := DropPhaseCount(ps[i]);
      ls := ls + [Load(ps[i].probability, phases)];
    }
  }

  /** The first loop: the requested bound and the number of active phases. */
  method Measure(ls: seq<Load>) returns (total: real, phaseCount: nat)
    requires Sane(ls)
    ensures total == Total(ls) && phaseCount == ActivePhases(ls, |ls|)
  {
    total, phaseCount := 0.0, 0;
    for i := 0 to |ls|
      invariant total == Bound(ls, Asked(ls), i) && phaseCount == ActivePhases(ls, i)
    {
      if ls[i].p > 0.0 {
        phaseCount := phaseCount + ls[i].phases;
      }
      var cost := Weigh(ls[i].p, ls[i].phases);
      total := total + cost;
    }
  }

  // ---------------------------------------------------------------- one active phase

  function Capped(l: Load, cap: real): real {
    if l.phases != 0 && l.p > cap then cap else l.p
  }

  /** With at most one active phase the capped thresholds stay within the cap. */
  lemma {:induction false} OneActivePhase(ls: seq<Load>, xs: seq<real>, cap: real, n: nat)
    requires Sane(ls) && cap > 0.0 && n <= |ls| == |xs| && ActivePhases(ls, n) <= 1
    requires forall i :: 0 <= i < |ls| ==> xs[i] == Capped(ls[i], cap)
    ensures 0.0 <= Bound(ls, xs, n) <= cap && (ActivePhases(ls, n) == 0 ==> Bound(ls, xs, n) == 0.0)
  {
    if n > 0 {
      OneActivePhase(ls, xs, cap, n - 1);
    }
  }

  /** If that one phase asks for more than the cap, it gets the cap. */
  lemma {:induction false} OneActiveUsesCap(ls: seq<Load>, xs: seq<real>, cap: real, n: nat)
    requires Sane(ls) && cap > 0.0 && n <= |ls| == |xs| && ActivePhases(ls, n) <= 1
    requires forall i :: 0 <= i < |ls| ==> xs[i] == Capped(ls[i], cap)
    ensures ActivePhases(ls, n) == 0 ==> Bound(ls, Asked(ls), n) == 0.0
    ensures Bound(ls, xs, n) == if Bound(ls, Asked(ls), n) > cap then cap else Bound(ls, Asked(ls), n)
  {
    if n > 0 { OneActiveUsesCap(ls, xs, cap, n - 1); }
  }

  method CapSingle(ls: seq<Load>, cap: real, probs: array<real>)
    requires 0.0 < cap && probs.Length == |ls| && forall i :: 0 <= i < |ls| ==> probs[i] == ls[i].p
    modifies probs
    ensures forall i :: 0 <= i < |ls| ==> probs[i] == Capped(ls[i], cap)
  {
    for i := 0 to |ls|
      invariant forall j :: 0 <= j < i ==> probs[j] == Capped(ls[j], cap)
      invariant forall j :: i <= j < |ls| ==> probs[j] == ls[j].p
    {
      if ls[i].phases != 0 && ls[i].p > 0.0 {
        probs[i] := if probs[i] < cap then probs[i] else cap;
      }
    }
  }

  // ---------------------------------------------------------------- scaling

  /** A rounded multiplication by a factor in [0, 1]: it never raises a threshold. */
  ghost predicate Shrinks(f: real -> real) {
    forall p :: 0.0 <= p ==> 0.0 <= f(p) <= p
  }

  /** The scaled threshold, but no more than what is left per phase. */
  function Share(scaled: real, phases: nat, left: real): real {
    var most := if phases <= 1 then left else left / 2.0;
    if scaled < most then scaled else most
  }

  /** What is left of the cap after the first `n` policies. */
  ghost function Left(ls: seq<Load>, cap: real, f: real -> real, n: nat): real
    requires n <= |ls|
  {
    if n == 0 then cap else LeftAfter(ls[n - 1], Left(ls, cap, f, n - 1), f)
  }

  function LeftAfter(l: Load, left: real, f: real -> real): real {
    if l.phases == 0 then left
    else
      var rest := left - Cost(Share(f(l.p), l.phases, left), l.phases);
      if rest > 0.0 then rest else 0.0
  }

  ghost function Scaled(ls: seq<Load>, cap: real, f: real -> real, i: nat): real
    requires i < |ls|
  {
    if ls[i].phases == 0 then ls[i].p else Share(f(ls[i].p), ls[i].phases, Left(ls, cap, f, i))
  }

  /** One turn of the scaling loop. */
  method ShareOut(p: real, phases: nat, f: real -> real, remaining: real) returns (probability: real, rest: real)
    requires 1 <= phases <= 2
    ensures probability == Share(f(p), phases, remaining)
    ensures rest == LeftAfter(Load(p, phases), remaining, f)
  {
    probability := f(p);
    var most := remaining / phases as real;
    assert most == if phases == 1 then remaining else remaining / 2.0;
    if !(probability < most) {
      probability := most;
    }
    var cost := Weigh(probability, phases);
    rest := remaining - cost;
    if !(rest > 0.0) {
      rest := 0.0;
    }
  }

  /** The scaling loop. */
  method ScaleAll(ls: seq<Load>, cap: real, f: real -> real, probs: array<real>)
    requires Sane(ls) && probs.Length == |ls| && forall i :: 0 <= i < |ls| ==> probs[i] == ls[i].p
    modifies probs
    ensures forall i :: 0 <= i < |ls| ==> probs[i] == Scaled(ls, cap, f, i)
  {
    var remaining := cap;
    for i := 0 to |ls|
      invariant remaining == Left(ls, cap, f, i)
      invariant forall j :: 0 <= j < i ==> probs[j] == Scaled(ls, cap, f, j)
      invariant forall j :: i <= j < |ls| ==> probs[j] == ls[j].p
    {
      if ls[i].phases != 0 {
        var probability;
        probability, remaining := ShareOut(ls[i].p, ls[i].phases, f, remaining);
        probs[i] := probability;
      }
    }
  }

  lemma ShareFits(p: real, y: real, phases: nat, left: real)
    requires 0.0 <= y <= p && 0.0 <= left && 1 <= phases <= 2
    ensures var x := Share(y, phases, left); 0.0 <= x <= p && 0.0 <= Cost(x, phases) <= left
  {
  }

  /** The scaled thresholds and what is left always add up to the cap. */
  lemma {:induction false} ScaledAddsUp(ls: seq<Load>, xs: seq<real>, cap: real, f: real -> real, n: nat)
    requires Sane(ls) && 0.0 <= cap && Shrinks(f) && n <= |ls| == |xs|
    requires forall i :: 0 <= i < |ls| ==> xs[i] == Scaled(ls, cap, f, i)
    ensures Bound(ls, xs, n) + Left(ls, cap, f, n) == cap && Left(ls, cap, f, n) >= 0.0
    ensures forall i :: 0 <= i < n ==> 0.0 <= xs[i] <= ls[i].p
  {
    if n > 0 {
      ScaledAddsUp(ls, xs, cap, f, n - 1);
      var l := ls[n - 1];
      if l.phases > 0 {
        ShareFits(l.p, f(l.p), l.phases, Left(ls, cap, f, n - 1));
      }
    }
  }

  // ---------------------------------------------------------------- the allocation

  /** The threshold each policy ends up with. */
  ghost function Allotted(ls: seq<Load>, cap: real, f: real -> real, i: nat): real
    requires i < |ls|
  {
    if Total(ls) <= cap then ls[i].p
    else if ActivePhases(ls, |ls|) == 1 then Capped(ls[i], cap)
    else Scaled(ls, cap, f, i)
  }

  /** allocateDropProbabilities, where `f` multiplies by the rounded factor cap/total: the bound drops
      to the cap, no threshold is raised, and a list within the cap is left alone. */
  method Allocate(ps: seq<Policy>, cap: real, f: real -> real, probs: array<real>)
    requires Sane(Loads(ps)) && Shrinks(f)
    requires probs.Length == |ps| && forall i :: 0 <= i < |ps| ==> probs[i] == ps[i].probability
    modifies probs
    ensures 0.0 < cap < 1.0 ==> Bound(Loads(ps), probs[..], |ps|) <= cap
    ensures forall i :: 0 <= i < |ps| ==> 0.0 <= probs[i] <= ps[i].probability
    ensures cap <= 0.0 || cap >= 1.0 || Total(Loads(ps)) <= cap ==>
              forall i :: 0 <= i < |ps| ==> probs[i] == ps[i].probability
    ensures forall i :: 0 <= i < |ps| ==>
              probs[i] == if 0.0 < cap < 1.0 then Allotted(Loads(ps), cap, f, i) else ps[i].probability
  {
    assert forall i :: 0 <= i < |ps| ==> Loads(ps)[i].p == ps[i].probability;
    if cap <= 0.0 || cap >= 1.0 {
      return;
    }
    var ls := CountPhases(ps);
    AllocateLoads(ls, cap, f, probs);
  }

  method AllocateLoads(ls: seq<Load>, cap: real, f: real -> real, probs: array<real>)
    requires Sane(ls) && Shrinks(f) && 0.0 < cap
    requires probs.Length == |ls| && forall i :: 0 <= i < |ls| ==> probs[i] == ls[i].p
    modifies probs
    ensures Bound(ls, probs[..], |ls|) <= cap
    ensures forall i :: 0 <= i < |ls| ==> 0.0 <= probs[i] <= ls[i].p
    ensures forall i :: 0 <= i < |ls| ==> probs[i] == Allotted(ls, cap, f, i)
  {
    var total, phaseCount := Measure(ls);
    if total <= cap {
      assert probs[..] == Asked(ls);
      return;
    }
    if phaseCount == 1 {
      CapSingle(ls, cap, probs);
      OneActivePhase(ls, probs[..], cap, |ls|);
      return;
    }
    ScaleAll(ls, cap, f, probs);
    ScaledAddsUp(ls, probs[..], cap, f, |ls|);
  }

  // ---------------------------------------------------------------- without rounding

  lemma {:induction false} BoundGrows(ls: seq<Load>, ys: seq<real>, n: nat)
    requires n <= |ls| == |ys| && forall i :: 0 <= i < |ys| ==> 0.0 <= ys[i]
    ensures Bound(ls, ys, n) <= Bound(ls, ys, |ls|)
    decreases |ls| - n
  {
    if n < |ls| {
      BoundGrows(ls, ys, n + 1);
    }
  }

  /** When the scaled thresholds fit the cap together, none is cut short. */
  lemma {:induction false} NothingCut(ls: seq<Load>, ys: seq<real>, cap: real, f: real -> real, n: nat)
    requires Sane(ls) && n <= |ls| == |ys| && Bound(ls, ys, |ls|) <= cap
    requires forall i :: 0 <= i < |ls| ==> 0.0 <= ys[i] && ys[i] == f(ls[i].p)
    ensures Left(ls, cap, f, n) == cap - Bound(ls, ys, n)
    ensures forall i :: 0 <= i < n && ls[i].phases > 0 ==> Scaled(ls, cap, f, i) == ys[i]
  {
    if n > 0 {
      NothingCut(ls, ys, cap, f, n - 1);
      BoundGrows(ls, ys, n);
      FitsWhole(ls[n - 1], ys[n - 1], Left(ls, cap, f, n - 1), f);
    }
  }

  lemma FitsWhole(l: Load, y: real, left: real, f: real -> real)
    requires y == f(l.p) && l.phases <= 2 && Cost(y, l.phases) <= left
    ensures LeftAfter(l, left, f) == left - Cost(y, l.phases)
    ensures l.phases > 0 ==> Share(y, l.phases, left) == y
  {
  }

  ghost predicate IsProduct(y: real, p: real, scale: real) {
    y == p * scale
  }

  lemma ScaleStep(sum: real, scaled: real, p: real, y: real, phases: nat, scale: real)
    requires IsProduct(scaled, sum, scale) && IsProduct(y, p, scale) && phases <= 2
    ensures IsProduct(scaled + Cost(y, phases), sum + Cost(p, phases), scale)
  {
  }

  /** Multiplying every threshold multiplies the bound. */
  lemma {:induction false} BoundScales(ls: seq<Load>, ys: seq<real>, scale: real, n: nat)
    requires Sane(ls) && n <= |ls| == |ys| && forall i :: 0 <= i < |ls| ==> IsProduct(ys[i], ls[i].p, scale)
    ensures IsProduct(Bound(ls, ys, n), Bound(ls, Asked(ls), n), scale)
  {
    if n > 0 {
      BoundScales(ls, ys, scale, n - 1);
      ScaleStep(Bound(ls, Asked(ls), n - 1), Bound(ls, ys, n - 1), ls[n - 1].p, ys[n - 1], ls[n - 1].phases, scale);
    }
  }

  /** With the exact factor cap/total every threshold shrinks in proportion and the cap is used up. */
  lemma ExactScaleUsesCap(ls: seq<Load>, xs: seq<real>, cap: real, f: real -> real, scale: real)
    requires Sane(ls) && 0.0 <= cap && Shrinks(f) && IsProduct(cap, Total(ls), scale) && |xs| == |ls|
    requires forall i :: 0 <= i < |ls| ==> IsProduct(f(ls[i].p), ls[i].p, scale) && xs[i] == Scaled(ls, cap, f, i)
    ensures forall i :: 0 <= i < |ls| && ls[i].phases > 0 ==> IsProduct(xs[i], ls[i].p, scale)
    ensures Bound(ls, xs, |ls|) == cap
  {
    var ys := seq(|ls|, i requires 0 <= i < |ls| => f(ls[i].p));
    assert forall i :: 0 <= i < |ls| ==> ys[i] == f(ls[i].p) && 0.0 <= ys[i];
    BoundScales(ls, ys, scale, |ls|);
    SameProduct(Bound(ls, ys, |ls|), cap, Total(ls), scale);
    NothingCut(ls, ys, cap, f, |ls|);
    ScaledAddsUp(ls, xs, cap, f, |ls|);
  }

  lemma SameProduct(a: real, b: real, p: real, scale: real)
    requires IsProduct(a, p, scale) && IsProduct(b, p, scale)
    ensures a == b
  {
  }
}
