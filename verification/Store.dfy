/** The snapshot store as a small-step protocol (internal/snapshot/store.go), with the
    lock-holding callers of internal/app/mutate.go and internal/app/reset.go on top.

    One step is one atomic load, store, compare-and-swap, or lock operation. Snapshots live
    in a heap that only grows, so a `Ptr` is a Go pointer and pointer equality is equality of
    `Ptr`s. A copy that has not been published yet is private to its thread and enters the
    heap when the compare-and-swap publishes it. */
module Store {
  import opened Text
  import Patch

  type Ptr = nat

  datatype Snapshot = Snapshot(canonical: Patch.State, revision: string, generation: nat, off: bool)

  /** What the compiler supplies: the revision of a document, and normalization plus
      validation, which can refuse a document. */
  datatype Config = Config(revision: Patch.State -> string, normalize: Patch.State -> Option<Patch.State>)

  /** The document a change set compiles to: fold the operations, then normalize. */
  function Candidate(c: Config, base: Patch.State, ops: seq<Patch.Operation>): Option<Patch.State> {
    match Patch.ApplyAll(base, ops)
    case Err(_) => None
    case Ok(st) => c.normalize(st)
  }

  /** Who is running Swap or StampEmergency. Apply remembers its request and the base it read. */
  datatype Caller = Direct | Install | Reset | Apply(expected: string, ops: seq<Patch.Operation>, base: Ptr)
                  | Disable | Enable | Restamp

  predicate HoldsMu(who: Caller) {
    who.Install? || who.Reset? || who.Apply?
  }

  datatype Draft = Shared(p: Ptr) | Private(s: Snapshot)

  /** What follows publishPrevious: Swap goes on to stamp, StampEmergency returns. */
  datatype After = ThenStamp | ThenReturn

  /** The next atomic step of a thread, with the locals it has read so far. */
  datatype PC =
    | Idle
    | ApplyBase(expected: string, ops: seq<Patch.Operation>)
    | ApplyCheck(expected: string, ops: seq<Patch.Operation>, base: Ptr)
    | ApplyBuild(expected: string, ops: seq<Patch.Operation>, base: Ptr)
    | ResetLoad
    | ResetClear(next: Ptr)
    | SetBit(off: bool, who: Caller)
    | SwapLoad(next: Ptr, who: Caller)
    | SwapEmergency(next: Ptr, who: Caller, prev: Option<Ptr>)
    | SwapStartup(next: Ptr, who: Caller, prev: Option<Ptr>)
    | SwapCAS(next: Ptr, who: Caller, prev: Option<Ptr>, draft: Draft)
    | PrevLoad(displaced: Ptr, after: After, who: Caller)
    | PrevCAS(displaced: Ptr, current: Option<Ptr>, after: After, who: Caller)
    | StampLoad(who: Caller)
    | StampEmergency(live: Ptr, who: Caller)
    | StampStartup(live: Ptr, who: Caller)
    | StampCAS(live: Ptr, copied: Snapshot, who: Caller)
    | Unlock

  /** One successful publication: the pointer, and the Swap caller (None for a stamp). */
  datatype Publication = Publication(p: Ptr, swap: Option<Caller>)

  /** `history` and `direct` are history variables: every publication in order, and whether
      any caller has ever entered Swap without holding App.mu. */
  datatype World = World(heap: seq<Snapshot>, active: Option<Ptr>, previous: Option<Ptr>,
                         emergency: bool, startup: bool, mu: Option<nat>, threads: seq<PC>,
                         history: seq<Publication>, direct: bool)

  // ---------------------------------------------------------------- steps

  predicate InHeap(w: World, p: Ptr) {
    p < |w.heap|
  }

  predicate OptInHeap(w: World, p: Option<Ptr>) {
    p.Some? ==> p.value < |w.heap|
  }

  predicate CallerInHeap(w: World, who: Caller) {
    who.Apply? ==> who.base < |w.heap|
  }

  predicate DraftInHeap(w: World, d: Draft) {
    d.Shared? ==> d.p < |w.heap|
  }

  /** Every pointer a thread holds is allocated. */
  predicate PCInHeap(w: World, pc: PC) {
    match pc
    case ApplyCheck(_, _, base) => InHeap(w, base)
    case ApplyBuild(_, _, base) => InHeap(w, base)
    case ResetClear(next) => InHeap(w, next)
    case SetBit(_, who) => CallerInHeap(w, who)
    case SwapLoad(next, who) => InHeap(w, next) && CallerInHeap(w, who)
    case SwapEmergency(next, who, prev) => InHeap(w, next) && CallerInHeap(w, who) && OptInHeap(w, prev)
    case SwapStartup(next, who, prev) => InHeap(w, next) && CallerInHeap(w, who) && OptInHeap(w, prev)
    case SwapCAS(next, who, prev, d) => InHeap(w, next) && CallerInHeap(w, who) && OptInHeap(w, prev)
      && DraftInHeap(w, d)
    case PrevLoad(d, _, who) => InHeap(w, d) && CallerInHeap(w, who)
    case PrevCAS(d, cur, _, who) => InHeap(w, d) && OptInHeap(w, cur) && CallerInHeap(w, who)
    case StampLoad(who) => CallerInHeap(w, who)
    case StampEmergency(live, who) => InHeap(w, live) && CallerInHeap(w, who)
    case StampStartup(live, who) => InHeap(w, live) && CallerInHeap(w, who)
    case StampCAS(live, _, who) => InHeap(w, live) && CallerInHeap(w, who)
    case _ => true
  }

  predicate Sound(w: World) {
    && OptInHeap(w, w.active) && OptInHeap(w, w.previous)
    && (forall t :: 0 <= t < |w.threads| ==> PCInHeap(w, w.threads[t]))
    && (forall i :: 0 <= i < |w.history| ==> InHeap(w, w.history[i].p))
  }

  function Yaml(s: Snapshot): bool {
    s.canonical.emergencyDisabled
  }

  /** stampEmergency: the snapshot itself when the bit already matches, else a private copy. */
  function Stamped(w: World, p: Ptr, want: bool): Draft
    requires InHeap(w, p)
  {
    var s := w.heap[p];
    var off := want || Yaml(s);
    if s.off == off then Shared(p) else Private(s.(off := off))
  }

  function DraftOf(w: World, d: Draft): Snapshot
    requires DraftInHeap(w, d)
  {
    match d case Shared(p) => w.heap[p] case Private(s) => s
  }

  /** What Swap will try to publish over `prev`: stamped, with the generation raised above it. */
  function SwapDraft(w: World, next: Ptr, prev: Option<Ptr>, want: bool): Draft
    requires InHeap(w, next) && OptInHeap(w, prev)
  {
    var d := Stamped(w, next, want);
    var s := DraftOf(w, d);
    if prev.Some? && s.generation <= w.heap[prev.value].generation
    then Private(s.(generation := w.heap[prev.value].generation + 1))
    else d
  }

  /** What one atomic step does to shared memory, and where the thread goes next. */
  datatype Effect =
    | Move(pc: PC)                                            // a load, or a failed compare-and-swap
    | Allocate(s: Snapshot, pc: PC)                           // a compiled candidate
    | StoreBit(bit: bool, pc: PC)                             // emergency.Store
    | Publish(draft: Draft, swap: Option<Caller>, pc: PC)     // a successful compare-and-swap on active
    | StorePrevious(p: Ptr, pc: PC)                           // a successful compare-and-swap on previous
    | Leave                                                   // App.mu.Unlock

  function Goto(w: World, t: nat, pc: PC): World
    requires t < |w.threads|
  {
    w.(threads := w.threads[t := pc])
  }

  function Perform(w: World, t: nat, e: Effect): World
    requires t < |w.threads|
  {
    match e
    case Move(pc) => Goto(w, t, pc)
    case Allocate(s, pc) => Goto(w, t, pc).(heap := w.heap + [s])
    case StoreBit(bit, pc) => Goto(w, t, pc).(emergency := bit)
    case Publish(Shared(p), who, pc) =>
      Goto(w, t, pc).(active := Some(p), history := w.history + [Publication(p, who)])
    case Publish(Private(s), who, pc) =>
      Goto(w, t, pc).(heap := w.heap + [s], active := Some(|w.heap|),
                      history := w.history + [Publication(|w.heap|, who)])
    case StorePrevious(p, pc) => Goto(w, t, pc).(previous := Some(p))
    case Leave => Goto(w, t, Idle).(mu := None)
  }

  /** Where the thread is after the effect. */
  function Landing(e: Effect): PC {
    match e
    case Move(pc) => pc
    case Allocate(_, pc) => pc
    case StoreBit(_, pc) => pc
    case Publish(_, _, pc) => pc
    case StorePrevious(_, pc) => pc
    case Leave => Idle
  }

  /** After the caller's store operation: lock holders still have to unlock. */
  function Return(who: Caller): PC {
    if HoldsMu(who) then Unlock else Idle
  }

  /** After both bits are known inside StampEmergency. */
  function StampDecide(w: World, live: Ptr, who: Caller, want: bool): PC
    requires InHeap(w, live)
  {
    match Stamped(w, live, want)
    case Shared(_) => Return(who)
    case Private(s) => StampCAS(live, s.(generation := w.heap[live].generation + 1), who)
  }

  function AfterPrev(after: After, who: Caller): PC {
    match after case ThenStamp => StampLoad(who) case ThenReturn => Return(who)
  }

  /** Free choices of the environment: the bit loads of buildCandidate, and what the
      bootstrap file holds (None when it cannot be loaded or compiled). */
  datatype Pick = Pick(off: bool, bootstrap: Option<Patch.State>)

  datatype Begin = BeginSwap(next: Ptr) | BeginStamp | BeginDisable | BeginEnable
                 | BeginApply(expected: string, ops: seq<Patch.Operation>) | BeginReset

  datatype Action = Alloc(s: Snapshot) | Start(t: nat, what: Begin) | Go(t: nat, pick: Pick)

  predicate Enabled(c: Config, w: World, a: Action) {
    match a
    case Alloc(s) => s.revision == c.revision(s.canonical)
    case Start(t, b) =>
      && t < |w.threads| && w.threads[t].Idle?
      && (b.BeginSwap? ==> InHeap(w, b.next))
      && (b.BeginApply? || b.BeginReset? ==> w.mu.None?)
    case Go(t, _) => t < |w.threads| && !w.threads[t].Idle?
  }

  function Started(b: Begin): PC {
    match b
    case BeginSwap(next) => SwapLoad(next, Direct)
    case BeginStamp => StampLoad(Restamp)
    case BeginDisable => SetBit(true, Disable)
    case BeginEnable => SetBit(false, Enable)
    case BeginApply(e, ops) => ApplyBase(e, ops)
    case BeginReset => ResetLoad
  }

  function DoStart(w: World, t: nat, b: Begin): World
    requires t < |w.threads|
  {
    Goto(w, t, Started(b)).(mu := if b.BeginApply? || b.BeginReset? then Some(t) else w.mu,
                            direct := w.direct || b.BeginSwap?)
  }

  /** buildCandidate after the revision check: compile, allocate, and call Swap. */
  function BuildEffect(c: Config, w: World, pc: PC, off: bool): Effect
    requires Sound(w) && PCInHeap(w, pc) && pc.ApplyBuild?
  {
    var b := w.heap[pc.base];
    match Candidate(c, b.canonical, pc.ops)
    case None => Move(Unlock)
    case Some(st) =>
      Allocate(Snapshot(st, c.revision(st), b.generation + 1, b.off || off || st.emergencyDisabled),
               SwapLoad(|w.heap|, Apply(pc.expected, pc.ops, pc.base)))
  }

  function ResetEffect(c: Config, w: World, bootstrap: Option<Patch.State>): Effect
    requires Sound(w)
  {
    var gen := if w.active.Some? then w.heap[w.active.value].generation + 1 else 0;
    match bootstrap
    case None => Move(Unlock)
    case Some(st) => Allocate(Snapshot(st, c.revision(st), gen, st.emergencyDisabled), ResetClear(|w.heap|))
  }

  /** The next atomic step of a thread at `pc`. */
  function Next(c: Config, w: World, pc: PC, k: Pick): Effect
    requires Sound(w) && PCInHeap(w, pc) && !pc.Idle?
  {
    match pc
    case ApplyBase(e, ops) => Move(if w.active.None? then Unlock else ApplyCheck(e, ops, w.active.value))
    case ApplyCheck(e, ops, base) =>
      Move(if w.active.None? || e == "" || e != w.heap[w.active.value].revision then Unlock
           else ApplyBuild(e, ops, base))
    case ApplyBuild(_, _, _) => BuildEffect(c, w, pc, k.off)
    case ResetLoad => ResetEffect(c, w, k.bootstrap)
    case ResetClear(next) => StoreBit(false, SwapLoad(next, Reset))
    case SetBit(off, who) => StoreBit(off, StampLoad(who))
    case SwapLoad(next, who) => Move(SwapEmergency(next, who, w.active))
    case SwapEmergency(next, who, prev) =>
      Move(if w.emergency then SwapCAS(next, who, prev, SwapDraft(w, next, prev, true))
           else SwapStartup(next, who, prev))
    case SwapStartup(next, who, prev) => Move(SwapCAS(next, who, prev, SwapDraft(w, next, prev, w.startup)))
    case SwapCAS(next, who, prev, draft) =>
      if w.active != prev then Move(SwapLoad(next, who))
      else Publish(draft, Some(who), if prev.Some? then PrevLoad(prev.value, ThenStamp, who) else StampLoad(who))
    case PrevLoad(d, after, who) =>
      Move(if w.previous.Some? && w.heap[w.previous.value].generation >= w.heap[d].generation
           then AfterPrev(after, who) else PrevCAS(d, w.previous, after, who))
    case PrevCAS(d, current, after, who) =>
      if w.previous != current then Move(PrevLoad(d, after, who))
      else StorePrevious(d, AfterPrev(after, who))
    case StampLoad(who) => Move(if w.active.None? then Return(who) else StampEmergency(w.active.value, who))
    case StampEmergency(live, who) =>
      Move(if w.emergency then StampDecide(w, live, who, true) else StampStartup(live, who))
    case StampStartup(live, who) => Move(StampDecide(w, live, who, w.startup))
    case StampCAS(live, copied, who) =>
      if w.active != Some(live) then Move(StampLoad(who))
      else Publish(Private(copied), None, PrevLoad(live, ThenReturn, who))
    case Unlock => Leave
  }

  function Do(c: Config, w: World, a: Action): World
    requires Sound(w) && Enabled(c, w, a)
  {
    match a
    case Alloc(s) => w.(heap := w.heap + [s])
    case Start(t, b) => DoStart(w, t, b)
    case Go(t, k) => Perform(w, t, Next(c, w, w.threads[t], k))
  }

  /** serve.go: the startup bit is armed or not before InstallBootstrap, which is thread 0's
      first call and finishes before any management request can take App.mu. */
  ghost predicate Init(c: Config, w: World) {
    && |w.heap| == 1 && w.heap[0].revision == c.revision(w.heap[0].canonical)
    && w.active.None? && w.previous.None? && !w.emergency && w.mu == Some(0)
    && |w.threads| > 0 && w.threads[0] == SwapLoad(0, Install)
    && (forall t :: 0 < t < |w.threads| ==> w.threads[t].Idle?)
    && w.history == [] && !w.direct
  }

  /** A run: worlds joined by the actions between them. */
  ghost predicate IsRun(c: Config, ws: seq<World>, acts: seq<Action>) {
    && |ws| == |acts| + 1 && Init(c, ws[0])
    && forall i :: 0 <= i < |acts| ==> Sound(ws[i]) && Enabled(c, ws[i], acts[i]) && ws[i + 1] == Do(c, ws[i], acts[i])
  }

  ghost predicate Quiescent(w: World) {
    forall t :: 0 <= t < |w.threads| ==> w.threads[t].Idle?
  }
}
