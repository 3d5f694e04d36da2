/** Delay reservations: one table shared by all sessions, one token per delayed request
    (internal/chaos/budget.go:11-164, internal/chaos/effects/delay.go:18-137, 182-212).
    Timers and contexts are left out: a session's step is the part under its mutex. */
module Budget {
  import opened Text

  /** The budget of one policy; 0 is unlimited. */
  datatype Limits = Limits(maxConcurrency: int, maxDelay: int)

  /** Safety caps and policy budgets of the snapshot. */
  datatype Config = Config(maxConcurrentDelayed: int, maxDelay: int, policies: map<string, Limits>)

  function LimitOf(cfg: Config, id: string): Limits {
    if id in cfg.policies then cfg.policies[id] else Limits(0, 0)
  }

  /** The reservation table. */
  datatype Books = Books(global: int, perPolicy: map<string, int>)

  function Get(m: map<string, int>, id: string): int {
    if id in m then m[id] else 0
  }

  predicate Room(cap: int, used: int) {
    cap <= 0 || used < cap
  }

  // ---------------------------------------------------------------- the table's operations

  function AddOne(b: Books, id: string): (r: Books)
    ensures forall k :: Get(r.perPolicy, k) == Get(b.perPolicy, k) + (if k == id then 1 else 0)
  {
    b.(perPolicy := b.perPolicy[id := Get(b.perPolicy, id) + 1])
  }

  function DropOne(m: map<string, int>, id: string): (r: map<string, int>)
    ensures forall k :: Get(r, k) == Get(m, k) - (if k == id && Get(m, id) > 0 then 1 else 0)
    ensures (forall k :: k in m ==> m[k] > 0) ==> forall k :: k in r ==> r[k] > 0
  {
    if Get(m, id) <= 0 then m
    else if m[id] == 1 then m - {id}
    else m[id := m[id] - 1]
  }

  function DropAll(m: map<string, int>, ids: seq<string>): map<string, int> {
    if ids == [] then m else DropOne(DropAll(m, ids[..|ids| - 1]), ids[|ids| - 1])
  }

  lemma DropAllNext(m: map<string, int>, ids: seq<string>, n: nat)
    requires n < |ids|
    ensures DropAll(m, ids[..n + 1]) == DropOne(DropAll(m, ids[..n]), ids[n])
  {
    assert ids[..n + 1][..n] == ids[..n];
  }

  function Freed(b: Books, ids: seq<string>): Books {
    Books(if b.global > 0 then b.global - 1 else b.global, DropAll(b.perPolicy, ids))
  }

  // ---------------------------------------------------------------- the objects

  class Budgets {
    var global: int
    var perPolicy: map<string, int>
    var cancels: seq<nat>
    var nextID: nat

    ghost function Table(): Books
      reads this
    {
      Books(global, perPolicy)
    }

    /** Registration IDs are distinct and all issued. */
    ghost predicate Valid()
      reads this
    {
      && (forall i :: 0 <= i < |cancels| ==> cancels[i] <= nextID)
      && (forall i, j :: 0 <= i < j < |cancels| ==> cancels[i] != cancels[j])
    }

    constructor ()
      ensures Valid() && Table() == Books(0, map[]) && cancels == []
    {
      global, perPolicy, cancels, nextID := 0, map[], [], 0;
    }

    /** ReserveDelay: null when a cap is reached. */
    method ReserveDelay(id: string, maxGlobal: int, maxPolicy: int) returns (t: Token?)
      modifies this`global, this`perPolicy
      ensures t != null <==> Room(maxGlobal, old(global)) && Room(maxPolicy, Get(old(perPolicy), id))
      ensures t == null ==> Table() == old(Table())
      ensures t != null ==> fresh(t) && t.b == this && t.ids == [id] && !t.released
      ensures t != null ==> Table() == AddOne(old(Table()), id).(global := old(global) + 1)
    {
      if maxGlobal > 0 && global >= maxGlobal {
        return null;
      }
      if maxPolicy > 0 && Get(perPolicy, id) >= maxPolicy {
        return null;
      }
      global := global + 1;
      perPolicy := perPolicy[id := Get(perPolicy, id) + 1];
      t := new Token(this, id);
    }

    /** WatchCancel: the ID that unregisters it. */
    method WatchCancel() returns (id: nat)
      requires Valid()
      modifies this`cancels, this`nextID
      ensures Valid() && id !in old(cancels) && cancels == old(cancels) + [id] && nextID > old(nextID)
    {
      nextID := nextID + 1;
      id := nextID;
      cancels := cancels + [id];
    }

    /** The returned unregister: compacts the list in place and keeps every other registration. */
    method Unregister(id: nat)
      requires Valid()
      modifies this`cancels
      ensures Valid() && id !in cancels
      ensures forall k :: k != id ==> (k in cancels <==> k in old(cancels))
    {
      var kept: seq<nat> := [];
      for i := 0 to |cancels|
        invariant forall k :: k in kept <==> k != id && k in cancels[..i]
        invariant forall a, b :: 0 <= a < b < |kept| ==> kept[a] != kept[b]
      {
        if cancels[i] != id {
          assert cancels[i] !in cancels[..i];
          kept := kept + [cancels[i]];
        }
      }
      assert cancels[..|cancels|] == cancels;
      forall i | 0 <= i < |kept| ensures kept[i] <= nextID { assert kept[i] in cancels; }
      cancels := kept;
    }

    /** One policy of a released token: a count that reaches zero leaves the table. */
    method FreePolicy(id: string)
      modifies this`perPolicy
      ensures perPolicy == DropOne(old(perPolicy), id)
    {
      if Get(perPolicy, id) > 0 {
        perPolicy := perPolicy[id := perPolicy[id] - 1];
        if perPolicy[id] == 0 {
          perPolicy := perPolicy - {id};
        }
      }
    }

    /** CancelAll: every registered watch is called once, and none stays registered. */
    method CancelAll() returns (called: seq<nat>)
      requires Valid()
      modifies this`cancels
      ensures Valid() && called == old(cancels) && cancels == []
    {
      called := cancels;
      cancels := [];
    }
  }

  class Token {
    const b: Budgets
    var ids: seq<string>
    var released: bool

    constructor (budgets: Budgets, id: string)
      ensures b == budgets && ids == [id] && !released
    {
      b, ids, released := budgets, [id], false;
    }

    /** ReservePolicy: a policy already on the token costs nothing. */
    method ReservePolicy(id: string, maxPolicy: int) returns (ok: bool)
      modifies this`ids, b`perPolicy
      ensures ok <==> id in old(ids) || Room(maxPolicy, Get(old(b.perPolicy), id))
      ensures !ok || id in old(ids) ==> ids == old(ids) && b.Table() == old(b.Table())
      ensures ok && id !in old(ids) ==> ids == old(ids) + [id] && b.Table() == AddOne(old(b.Table()), id)
    {
      for i := 0 to |ids|
        invariant forall j :: 0 <= j < i ==> ids[j] != id
      {
        if ids[i] == id {
          return true;
        }
      }
      if maxPolicy > 0 && Get(b.perPolicy, id) >= maxPolicy {
        return false;
      }
      b.perPolicy := b.perPolicy[id := Get(b.perPolicy, id) + 1];
      ids := ids + [id];
      return true;
    }

    /** Release: only the first call counts. */
    method Release()
      modifies this`released, b`global, b`perPolicy
      ensures released && b.Table() == if old(released) then old(b.Table()) else Freed(old(b.Table()), ids)
    {
      if released {
        return;
      }
      released := true;
      ghost var per := b.perPolicy;
      if b.global > 0 {
        b.global := b.global - 1;
      }
      for i := 0 to |ids|
        invariant released && b.perPolicy == DropAll(per, ids[..i])
        invariant b.global == if old(b.global) > 0 then old(b.global) - 1 else old(b.global)
      {
        DropAllNext(per, ids, i);
        b.FreePolicy(ids[i]);
      }
      assert ids[..|ids|] == ids;
    }
  }

  // ---------------------------------------------------------------- a session

  /** `tok` holds the policies on the session's token. */
  datatype Sess = Sess(tok: Option<seq<string>>, delayed: int, policyDelayed: map<string, int>,
                       skipped: bool, stopped: bool)

  function NewSess(): Sess {
    Sess(None, 0, map[], false, false)
  }

  function Clamped(cfg: Config, s: Sess, id: string, d: int): int {
    var a := if cfg.maxDelay > 0 && d > cfg.maxDelay - s.delayed then cfg.maxDelay - s.delayed else d;
    var p := LimitOf(cfg, id).maxDelay;
    if p > 0 && a > p - Get(s.policyDelayed, id) then p - Get(s.policyDelayed, id) else a
  }

  /** The table and token after asking for one more delay by `id`; None when a cap is reached. */
  function Reserved(cfg: Config, b: Books, tok: Option<seq<string>>, id: string): Option<(Books, seq<string>)> {
    var cap := LimitOf(cfg, id).maxConcurrency;
    match tok
    case None =>
      if Room(cfg.maxConcurrentDelayed, b.global) && Room(cap, Get(b.perPolicy, id))
      then Some((AddOne(b, id).(global := b.global + 1), [id])) else None
    case Some(ids) =>
      if id in ids then Some((b, ids))
      else if Room(cap, Get(b.perPolicy, id)) then Some((AddOne(b, id), ids + [id])) else None
  }

  function Charged(s: Sess, id: string, d: int): Sess {
    s.(delayed := s.delayed + d, policyDelayed := s.policyDelayed[id := Get(s.policyDelayed, id) + d])
  }

  /** sleepOne up to the wait: the new table and session, and the delay granted. */
  function SleepOne(cfg: Config, b: Books, s: Sess, id: string, d: int): (Books, Sess, int) {
    var a := Clamped(cfg, s, id, d);
    if s.skipped || s.stopped || a <= 0 then (b, s, 0)
    else
      match Reserved(cfg, b, s.tok, id)
      case None => (b, s.(skipped := true), 0)
      case Some(r) => (r.0, Charged(s.(tok := Some(r.1)), id, a), a)
  }

  class Session {
    const budgets: Budgets
    var tok: Token?
    var delayed: int
    var policyDelayed: map<string, int>
    var skipped: bool
    var stopped: bool

    ghost predicate Valid()
      reads this, tok
    {
      tok != null ==> tok.b == budgets && !tok.released
    }

    ghost function Value(): Sess
      reads this, tok
    {
      Sess(if tok == null then None else Some(tok.ids), delayed, policyDelayed, skipped, stopped)
    }

    constructor (b: Budgets)
      ensures Valid() && Value() == NewSess() && budgets == b
    {
      budgets, tok, delayed, policyDelayed, skipped, stopped := b, null, 0, map[], false, false;
    }

    /** Reserve on the session's token, making one if it has none. */
    method Reserve(cfg: Config, id: string) returns (ok: bool)
      requires Valid()
      modifies this`tok, tok, budgets`global, budgets`perPolicy
      ensures Valid() && (tok == old(tok) || fresh(tok))
      ensures delayed == old(delayed) && policyDelayed == old(policyDelayed) && skipped == old(skipped)
      ensures stopped == old(stopped)
      ensures var r := Reserved(cfg, old(budgets.Table()), old(Value()).tok, id);
              && (ok <==> r.Some?)
              && (ok ==> budgets.Table() == r.value.0 && Value().tok == Some(r.value.1))
              && (!ok ==> budgets.Table() == old(budgets.Table()) && Value().tok == old(Value()).tok)
    {
      var cap := LimitOf(cfg, id).maxConcurrency;
      if tok == null {
        tok := budgets.ReserveDelay(id, cfg.maxConcurrentDelayed, cap);
        ok := tok != null;
      } else {
        ok := tok.ReservePolicy(id, cap);
      }
    }

    /** sleepOne up to the wait */
    method Sleep(cfg: Config, id: string, d: int) returns (granted: int)
      requires Valid()
      modifies this, tok, budgets`global, budgets`perPolicy
      ensures Valid() && (tok == old(tok) || fresh(tok))
      ensures (budgets.Table(), Value(), granted) == SleepOne(cfg, old(budgets.Table()), old(Value()), id, d)
    {
      granted := 0;
      if skipped || stopped {
        return;
      }
      var a := d;
      if cfg.maxDelay > 0 && a > cfg.maxDelay - delayed {
        a := cfg.maxDelay - delayed;
      }
      var p := LimitOf(cfg, id).maxDelay;
      if p > 0 && a > p - Get(policyDelayed, id) {
        a := p - Get(policyDelayed, id);
      }
      if a <= 0 {
        return;
      }
      var ok := Reserve(cfg, id);
      if !ok {
        skipped := true;
        return;
      }
      delayed := delayed + a;
      policyDelayed := policyDelayed[id := Get(policyDelayed, id) + a];
      granted := a;
    }

    /** Release: take the token out, then release it. */
    method Release()
      requires Valid()
      modifies this`tok, tok, budgets`global, budgets`perPolicy
      ensures Valid() && Value() == old(Value()).(tok := None)
      ensures budgets.Table() ==
                match old(Value()).tok
                case None => old(budgets.Table())
                case Some(ids) => Freed(old(budgets.Table()), ids)
    {
      var t := tok;
      tok := null;
      if t != null {
        t.Release();
      }
    }
  }

  // ---------------------------------------------------------------- all sessions, interleaved

  /** `detached` are tokens a session has let go of but not yet released. */
  datatype Machine = Machine(books: Books, sessions: seq<Sess>, detached: seq<seq<string>>)

  /** A session sleeps under the configuration of the snapshot it carries. */
  datatype Event =
    | Open
    | Sleep(k: nat, cfg: Config, id: string, d: int)
    | Stop(k: nat)
    | Detach(k: nat)
    | Free(j: nat)

  function Next(m: Machine, e: Event): Machine {
    match e
    case Open => m.(sessions := m.sessions + [NewSess()])
    case Sleep(k, cfg, id, d) =>
      if k < |m.sessions| then
        var r := SleepOne(cfg, m.books, m.sessions[k], id, d);
        m.(books := r.0, sessions := m.sessions[k := r.1])
      else m
    case Stop(k) => if k < |m.sessions| then m.(sessions := m.sessions[k := m.sessions[k].(stopped := true)]) else m
    case Detach(k) =>
      if k < |m.sessions| && m.sessions[k].tok.Some?
      then m.(sessions := m.sessions[k := m.sessions[k].(tok := None)],
              detached := m.detached + [m.sessions[k].tok.value])
      else m
    case Free(j) =>
      if j < |m.detached|
      then m.(books := Freed(m.books, m.detached[j]), detached := m.detached[..j] + m.detached[j + 1..]) else m
  }

  function After(events: seq<Event>): Machine {
    if events == [] then Machine(Books(0, map[]), [], [])
    else Next(After(events[..|events| - 1]), events[|events| - 1])
  }

  // ---------------------------------------------------------------- counting tokens

  function Weight(s: Sess): nat {
    if s.tok.Some? then 1 else 0
  }

  function WeightOf(s: Sess, id: string): nat {
    if s.tok.Some? && id in s.tok.value then 1 else 0
  }

  /** How many sessions hold a token, and one that carries the policy. */
  function Holders(sessions: seq<Sess>): nat {
    if sessions == [] then 0 else Holders(sessions[..|sessions| - 1]) + Weight(sessions[|sessions| - 1])
  }

  function HoldersOf(sessions: seq<Sess>, id: string): nat {
    if sessions == [] then 0 else HoldersOf(sessions[..|sessions| - 1], id) + WeightOf(sessions[|sessions| - 1], id)
  }

  /** How many of the tokens carry the policy. */
  function Carrying(toks: seq<seq<string>>, id: string): nat {
    if toks == [] then 0 else Carrying(toks[..|toks| - 1], id) + (if id in toks[|toks| - 1] then 1 else 0)
  }

  function Live(m: Machine): nat {
    Holders(m.sessions) + |m.detached|
  }

  function LiveOf(m: Machine, id: string): nat {
    HoldersOf(m.sessions, id) + Carrying(m.detached, id)
  }

  predicate NoRepeats(ids: seq<string>) {
    forall i, j :: 0 <= i < j < |ids| ==> ids[i] != ids[j]
  }

  ghost predicate Conserved(m: Machine) {
    && m.books.global == Live(m)
    && (forall id :: Get(m.books.perPolicy, id) == LiveOf(m, id))
    && (forall id :: id in m.books.perPolicy ==> m.books.perPolicy[id] > 0)
  }

  ghost predicate TokensDistinct(m: Machine) {
    && (forall k :: 0 <= k < |m.sessions| && m.sessions[k].tok.Some? ==> NoRepeats(m.sessions[k].tok.value))
    && (forall j :: 0 <= j < |m.detached| ==> NoRepeats(m.detached[j]))
  }

  ghost predicate WithinCaps(cfg: Config, m: Machine) {
    && (cfg.maxConcurrentDelayed > 0 ==> m.books.global <= cfg.maxConcurrentDelayed)
    && (forall id :: LimitOf(cfg, id).maxConcurrency > 0 ==>
          Get(m.books.perPolicy, id) <= LimitOf(cfg, id).maxConcurrency)
  }

  ghost predicate WithinDelays(cfg: Config, s: Sess) {
    && (cfg.maxDelay > 0 ==> s.delayed <= cfg.maxDelay)
    && (forall id :: LimitOf(cfg, id).maxDelay > 0 ==> Get(s.policyDelayed, id) <= LimitOf(cfg, id).maxDelay)
  }

  predicate CapTighter(a: int, b: int) {
    b > 0 ==> 0 < a <= b
  }

  /** Every cap of `a` is at most that of `b`. */
  ghost predicate Tighter(a: Config, b: Config) {
    && CapTighter(a.maxConcurrentDelayed, b.maxConcurrentDelayed) && CapTighter(a.maxDelay, b.maxDelay)
    && (forall id :: CapTighter(LimitOf(a, id).maxConcurrency, LimitOf(b, id).maxConcurrency))
    && (forall id :: CapTighter(LimitOf(a, id).maxDelay, LimitOf(b, id).maxDelay))
  }

  /** Every session sleeps under caps no looser than these. */
  ghost predicate AllTighter(events: seq<Event>, cfg: Config) {
    forall i :: 0 <= i < |events| && events[i].Sleep? ==> Tighter(events[i].cfg, cfg)
  }

  /** Session `k` does. */
  ghost predicate OwnTighter(events: seq<Event>, k: nat, cfg: Config) {
    forall i :: 0 <= i < |events| && events[i].Sleep? && events[i].k == k ==> Tighter(events[i].cfg, cfg)
  }

  lemma {:induction false} HoldersUpdate(sessions: seq<Sess>, k: nat, s: Sess, id: string)
    requires k < |sessions|
    ensures Holders(sessions[k := s]) == Holders(sessions) - Weight(sessions[k]) + Weight(s)
    ensures HoldersOf(sessions[k := s], id) == HoldersOf(sessions, id) - WeightOf(sessions[k], id) + WeightOf(s, id)
    decreases |sessions|
  {
    var n := |sessions| - 1;
    if k < n {
      HoldersUpdate(sessions[..n], k, s, id);
      assert sessions[k := s][..n] == sessions[..n][k := s];
    } else {
      assert sessions[k := s][..n] == sessions[..n];
    }
  }

  lemma {:induction false} CarryingRemove(toks: seq<seq<string>>, j: nat, id: string)
    requires j < |toks|
    ensures Carrying(toks[..j] + toks[j + 1..], id) == Carrying(toks, id) - (if id in toks[j] then 1 else 0)
    decreases |toks|
  {
    var n := |toks| - 1;
    if j == n {
      assert toks[..j] + toks[j + 1..] == toks[..n];
    } else {
      var less := toks[..j] + toks[j + 1..];
      assert less[..|less| - 1] == toks[..n][..j] + toks[..n][j + 1..];
      assert less[|less| - 1] == toks[n];
      CarryingRemove(toks[..n], j, id);
    }
  }

  /** Releasing a token takes one off each policy it carries. */
  lemma {:induction false} DropAllCounts(m: map<string, int>, ids: seq<string>, id: string)
    requires NoRepeats(ids) && (forall k :: k in ids ==> Get(m, k) > 0) && (forall k :: k in m ==> m[k] > 0)
    ensures Get(DropAll(m, ids), id) == Get(m, id) - (if id in ids then 1 else 0)
    ensures forall k :: k in DropAll(m, ids) ==> DropAll(m, ids)[k] > 0
    decreases |ids|
  {
    if ids != [] {
      var n := |ids| - 1;
      DropAllCounts(m, ids[..n], id);
      DropAllCounts(m, ids[..n], ids[n]);
    }
  }

  // ---------------------------------------------------------------- every step keeps the invariants

  lemma {:induction false} CarriedIsCounted(toks: seq<seq<string>>, j: nat, id: string)
    requires j < |toks| && id in toks[j]
    ensures Carrying(toks, id) > 0
  {
    CarryingRemove(toks, j, id);
  }

  /** What one reservation adds: a token if there was none, and the policy if it was new. */
  lemma ReserveCounts(cfg: Config, b: Books, tok: Option<seq<string>>, id: string, k: string)
    requires Reserved(cfg, b, tok, id).Some? && (tok.Some? ==> NoRepeats(tok.value))
    requires forall i :: i in b.perPolicy ==> b.perPolicy[i] > 0
    ensures var (b', ids) := Reserved(cfg, b, tok, id).value; var had := tok.Some? && k in tok.value;
            && NoRepeats(ids)
            && b'.global == b.global + (if tok.None? then 1 else 0)
            && Get(b'.perPolicy, k) == Get(b.perPolicy, k) - (if had then 1 else 0) + (if k in ids then 1 else 0)
            && (forall i :: i in b'.perPolicy ==> b'.perPolicy[i] > 0)
  {
  }

  lemma SleepConserves(cfg: Config, m: Machine, k: nat, id: string, d: int)
    requires k < |m.sessions| && Conserved(m) && TokensDistinct(m)
    ensures Conserved(Next(m, Sleep(k, cfg, id, d))) && TokensDistinct(Next(m, Sleep(k, cfg, id, d)))
  {
    var s := m.sessions[k];
    var (b', s', _) := SleepOne(cfg, m.books, s, id, d);
    var m' := Next(m, Sleep(k, cfg, id, d));
    HoldersUpdate(m.sessions, k, s', id);
    forall i ensures Get(m'.books.perPolicy, i) == LiveOf(m', i) {
      HoldersUpdate(m.sessions, k, s', i);
      if s'.tok != s.tok || b' != m.books { ReserveCounts(cfg, m.books, s.tok, id, i); }
    }
    if s'.tok != s.tok || b' != m.books { ReserveCounts(cfg, m.books, s.tok, id, id); }
  }

  lemma FreeConserves(m: Machine, j: nat)
    requires j < |m.detached| && Conserved(m) && TokensDistinct(m)
    ensures Conserved(Next(m, Free(j))) && TokensDistinct(Next(m, Free(j)))
  {
    var m', ids := Next(m, Free(j)), m.detached[j];
    forall i | i in ids ensures Get(m.books.perPolicy, i) > 0 { CarriedIsCounted(m.detached, j, i); }
    forall i ensures Get(m'.books.perPolicy, i) == LiveOf(m', i) {
      DropAllCounts(m.books.perPolicy, ids, i);
      CarryingRemove(m.detached, j, i);
    }
    DropAllCounts(m.books.perPolicy, ids, "");
  }

  lemma DetachConserves(m: Machine, k: nat)
    requires k < |m.sessions| && m.sessions[k].tok.Some? && Conserved(m) && TokensDistinct(m)
    ensures Conserved(Next(m, Detach(k))) && TokensDistinct(Next(m, Detach(k)))
  {
    var m', ids := Next(m, Detach(k)), m.sessions[k].tok.value;
    assert (m.detached + [ids])[..|m.detached|] == m.detached;
    HoldersUpdate(m.sessions, k, m.sessions[k].(tok := None), "");
    forall i ensures LiveOf(m', i) == LiveOf(m, i) {
      HoldersUpdate(m.sessions, k, m.sessions[k].(tok := None), i);
    }
  }

  lemma OpenConserves(m: Machine)
    requires Conserved(m) && TokensDistinct(m)
    ensures Conserved(Next(m, Open)) && TokensDistinct(Next(m, Open))
  {
    assert (m.sessions + [NewSess()])[..|m.sessions|] == m.sessions;
  }

  lemma StopConserves(m: Machine, k: nat)
    requires Conserved(m) && TokensDistinct(m) && k < |m.sessions|
    ensures Conserved(Next(m, Stop(k))) && TokensDistinct(Next(m, Stop(k)))
  {
    var s' := m.sessions[k].(stopped := true);
    HoldersUpdate(m.sessions, k, s', "");
    forall i ensures HoldersOf(m.sessions[k := s'], i) == HoldersOf(m.sessions, i) {
      HoldersUpdate(m.sessions, k, s', i);
    }
  }

  /** Every step of every session keeps the table equal to the tokens. */
  lemma StepConserves(m: Machine, e: Event)
    requires Conserved(m) && TokensDistinct(m)
    ensures Conserved(Next(m, e)) && TokensDistinct(Next(m, e))
  {
    match e
    case Open => OpenConserves(m);
    case Sleep(k, cfg, id, d) => if k < |m.sessions| { SleepConserves(cfg, m, k, id, d); }
    case Stop(k) => if k < |m.sessions| { StopConserves(m, k); }
    case Detach(k) => if k < |m.sessions| && m.sessions[k].tok.Some? { DetachConserves(m, k); }
    case Free(j) => if j < |m.detached| { FreeConserves(m, j); }
  }

  /** A grant stays within the session's and the policy's delay caps. */
  lemma SleepWithin(own: Config, cfg: Config, b: Books, s: Sess, id: string, d: int)
    requires WithinDelays(cfg, s) && Tighter(own, cfg)
    ensures WithinDelays(cfg, SleepOne(own, b, s, id, d).1)
  {
    assert CapTighter(LimitOf(own, id).maxDelay, LimitOf(cfg, id).maxDelay);
  }

  /** A reservation stays within the concurrency caps. */
  lemma ReserveWithin(own: Config, cfg: Config, m: Machine, k: nat, id: string, d: int)
    requires WithinCaps(cfg, m) && Tighter(own, cfg) && k < |m.sessions|
    ensures WithinCaps(cfg, Next(m, Sleep(k, own, id, d)))
  {
    assert CapTighter(LimitOf(own, id).maxConcurrency, LimitOf(cfg, id).maxConcurrency);
  }

  /** A delay is granted whole, or up to the session's or the policy's cap; nothing is granted only when
      nothing was asked for, a cap is used up, a reservation failed, or the session is over. */
  lemma GrantIsExact(cfg: Config, b: Books, s: Sess, id: string, d: int)
    requires WithinDelays(cfg, s) && d >= 0
    ensures var (b', s', g) := SleepOne(cfg, b, s, id, d); var cap := LimitOf(cfg, id).maxDelay;
            && 0 <= g <= d && s'.delayed == s.delayed + g
            && Get(s'.policyDelayed, id) == Get(s.policyDelayed, id) + g
            && (g < d ==>
                  || s.skipped || s.stopped || s'.skipped
                  || (cfg.maxDelay > 0 && s'.delayed == cfg.maxDelay)
                  || (cap > 0 && Get(s'.policyDelayed, id) == cap))
            && (s'.skipped ==> s.skipped || Reserved(cfg, b, s.tok, id).None?)
            && (g > 0 ==> s'.tok.Some? && id in s'.tok.value)
  {
    assert cfg.maxDelay > 0 ==> s.delayed <= cfg.maxDelay;
  }

  /** A reservation succeeds exactly when no cap is in the way: a token that carries the policy needs
      nothing, one that does not needs room for the policy, and a new one also needs room for itself. */
  lemma ReservedExactly(cfg: Config, b: Books, tok: Option<seq<string>>, id: string)
    ensures var cap, used := LimitOf(cfg, id).maxConcurrency, Get(b.perPolicy, id);
            Reserved(cfg, b, tok, id).Some? <==>
              || (tok.Some? && id in tok.value)
              || ((cap <= 0 || used < cap)
                  && (tok.Some? || cfg.maxConcurrentDelayed <= 0 || b.global < cfg.maxConcurrentDelayed))
  {
  }

  lemma FreeOnlyLowers(b: Books, ids: seq<string>, id: string)
    ensures Freed(b, ids).global <= b.global && Get(Freed(b, ids).perPolicy, id) <= Get(b.perPolicy, id)
  {
    DropAllLowers(b.perPolicy, ids, id);
  }

  lemma {:induction false} DropAllLowers(m: map<string, int>, ids: seq<string>, id: string)
    ensures Get(DropAll(m, ids), id) <= Get(m, id)
    decreases |ids|
  {
    if ids != [] { DropAllLowers(m, ids[..|ids| - 1], id); }
  }

  lemma CapsStep(cfg: Config, m: Machine, e: Event)
    requires WithinCaps(cfg, m) && (e.Sleep? ==> Tighter(e.cfg, cfg))
    ensures WithinCaps(cfg, Next(m, e))
  {
    match e
    case Open =>
    case Sleep(k, own, id, d) => if k < |m.sessions| { ReserveWithin(own, cfg, m, k, id, d); }
    case Stop(k) =>
    case Detach(k) =>
    case Free(j) =>
      if j < |m.detached| {
        forall id ensures Get(Freed(m.books, m.detached[j]).perPolicy, id) <= Get(m.books.perPolicy, id) {
          FreeOnlyLowers(m.books, m.detached[j], id);
        }
      }
  }

  lemma DelaysStep(cfg: Config, m: Machine, e: Event, k: nat)
    requires k < |Next(m, e).sessions| && (k < |m.sessions| ==> WithinDelays(cfg, m.sessions[k]))
    requires e.Sleep? && e.k == k ==> Tighter(e.cfg, cfg)
    ensures WithinDelays(cfg, Next(m, e).sessions[k])
  {
    if e.Sleep? && e.k == k { SleepWithin(e.cfg, cfg, m.books, m.sessions[k], e.id, e.d); }
  }

  /** In every interleaving, whatever configuration each session carries: the counters are exactly the
      live tokens. */
  lemma {:induction false} ReservationsConserved(events: seq<Event>)
    ensures Conserved(After(events)) && TokensDistinct(After(events))
    decreases |events|
  {
    if events != [] {
      var before := events[..|events| - 1];
      ReservationsConserved(before);
      StepConserves(After(before), events[|events| - 1]);
    }
  }

  /** The counters stay within every cap that no session's configuration exceeds. */
  lemma {:induction false} CapsHold(cfg: Config, events: seq<Event>)
    requires AllTighter(events, cfg)
    ensures WithinCaps(cfg, After(events))
    decreases |events|
  {
    if events != [] {
      var before := events[..|events| - 1];
      CapsHold(cfg, before);
      CapsStep(cfg, After(before), events[|events| - 1]);
    }
  }

  /** No session is delayed beyond its own or a policy's maximum, whatever the other sessions carry. */
  lemma {:induction false} DelaysHold(cfg: Config, events: seq<Event>, k: nat)
    requires k < |After(events).sessions| && OwnTighter(events, k, cfg)
    ensures WithinDelays(cfg, After(events).sessions[k])
    decreases |events|
  {
    var before := events[..|events| - 1];
    if k < |After(before).sessions| { DelaysHold(cfg, before, k); }
    DelaysStep(cfg, After(before), events[|events| - 1], k);
  }

  /** Once every session has released its token the table is empty. */
  lemma AllReleasedIsZero(events: seq<Event>)
    requires var m := After(events);
             m.detached == [] && forall k :: 0 <= k < |m.sessions| ==> m.sessions[k].tok == None
    ensures After(events).books == Books(0, map[])
  {
    var m := After(events);
    ReservationsConserved(events);
    NoHolders(m.sessions, "");
    forall id ensures id !in m.books.perPolicy {
      NoHolders(m.sessions, id);
      assert Get(m.books.perPolicy, id) == LiveOf(m, id) == 0;
    }
  }

  lemma {:induction false} NoHolders(sessions: seq<Sess>, id: string)
    requires forall k :: 0 <= k < |sessions| ==> sessions[k].tok == None
    ensures Holders(sessions) == 0 && HoldersOf(sessions, id) == 0
    decreases |sessions|
  {
    if sessions != [] { NoHolders(sessions[..|sessions| - 1], id); }
  }

  /** A session's total delay is the sum of what its policies were granted. */
  ghost predicate Sums(s: Sess, ids: seq<string>) {
    NoRepeats(ids) && s.policyDelayed.Keys == Members(ids) && s.delayed == SumOf(s.policyDelayed, ids)
  }

  ghost function Members(ids: seq<string>): set<string> {
    set id | id in ids
  }

  ghost function SumOf(m: map<string, int>, ids: seq<string>): int {
    if ids == [] then 0 else SumOf(m, ids[..|ids| - 1]) + Get(m, ids[|ids| - 1])
  }

  lemma {:induction false} SumOfUpdate(m: map<string, int>, ids: seq<string>, id: string, v: int)
    requires NoRepeats(ids)
    ensures SumOf(m[id := v], ids) == SumOf(m, ids) + (if id in ids then v - Get(m, id) else 0)
    decreases |ids|
  {
    if ids != [] {
      var n := |ids| - 1;
      SumOfUpdate(m, ids[..n], id, v);
      assert ids == ids[..n] + [ids[n]];
    }
  }

  lemma SumOfSnoc(m: map<string, int>, ids: seq<string>, id: string)
    ensures SumOf(m, ids + [id]) == SumOf(m, ids) + Get(m, id)
  {
    assert (ids + [id])[..|ids|] == ids;
  }

  lemma SumOfNew(m: map<string, int>, ids: seq<string>, id: string, d: int)
    requires NoRepeats(ids) && id !in ids
    ensures SumOf(m[id := d], ids + [id]) == SumOf(m, ids) + d
  {
    SumOfUpdate(m, ids, id, d);
    SumOfSnoc(m[id := d], ids, id);
  }

  lemma NoRepeatsSnoc(ids: seq<string>, id: string)
    requires NoRepeats(ids) && id !in ids
    ensures NoRepeats(ids + [id])
  {
  }

  lemma MembersSnoc(ids: seq<string>, id: string)
    ensures Members(ids + [id]) == Members(ids) + {id}
  {
  }

  lemma ChargeKnown(s: Sess, ids: seq<string>, id: string, d: int)
    requires Sums(s, ids) && id in ids
    ensures Sums(Charged(s, id, d), ids)
  {
    SumOfUpdate(s.policyDelayed, ids, id, Get(s.policyDelayed, id) + d);
    assert id in Members(ids);
  }

  lemma ChargeNew(s: Sess, ids: seq<string>, id: string, d: int)
    requires Sums(s, ids) && id !in ids
    ensures Sums(Charged(s, id, d), ids + [id])
  {
    var m := s.policyDelayed;
    var m' := m[id := d];
    assert id !in Members(ids) && id !in m;
    SumOfNew(m, ids, id, d);
    NoRepeatsSnoc(ids, id);
    MembersSnoc(ids, id);
    assert m'.Keys == m.Keys + {id};
  }

  lemma SleepKeepsSum(cfg: Config, b: Books, s: Sess, ids: seq<string>, id: string, d: int)
    requires Sums(s, ids)
    ensures exists ids' :: Sums(SleepOne(cfg, b, s, id, d).1, ids')
  {
    var s' := SleepOne(cfg, b, s, id, d).1;
    var a := Clamped(cfg, s, id, d);
    if s.skipped || s.stopped || a <= 0 || Reserved(cfg, b, s.tok, id).None? {
      assert Sums(s', ids);
    } else {
      var held := s.(tok := s'.tok);
      if id in ids { ChargeKnown(held, ids, id, a); } else { ChargeNew(held, ids, id, a); }
    }
  }

  /** In every run a session's total delay is what its policies were granted, summed. */
  lemma {:induction false} DelaysAddUp(events: seq<Event>, k: nat)
    requires k < |After(events).sessions|
    ensures exists ids :: Sums(After(events).sessions[k], ids)
    decreases |events|
  {
    var m, e := After(events[..|events| - 1]), events[|events| - 1];
    if k == |m.sessions| {
      assert Sums(NewSess(), []);
    } else {
      DelaysAddUp(events[..|events| - 1], k);
      var ids :| Sums(m.sessions[k], ids);
      if e.Sleep? && e.k == k {
        SleepKeepsSum(e.cfg, m.books, m.sessions[k], ids, e.id, e.d);
        assert After(events).sessions[k] == SleepOne(e.cfg, m.books, m.sessions[k], e.id, e.d).1;
      } else {
        assert Sums(After(events).sessions[k], ids);
      }
    }
  }
}
