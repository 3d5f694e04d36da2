/** Whole runs of the server: queries, management resolves, policy changes and flushes over one
    shared cache, and what every reply in them is (internal/dnsquery/handler.go:89-439,
    internal/app/query.go:182-211). */
module Serving {
  import opened Text
  import opened Names
  import opened Lookup
  import opened Resolver
  import opened Provenance
  import opened Recency
  import opened Ttl
  import opened Cache
  import opened Query
  import opened Handler

  // ---------------------------------------------------------------- upstream entries

  /** The Put stores the upstream answer `up` to a question that forwarding clients send to `to` under
      `policy`. */
  ghost predicate ForwardedFor(sn: Snap, q: Question, up: Answer, to: Name, policy: string, op: Op) {
    var plan := Decide(sn.content, SettingsOf(sn), q, true);
    && op.OpPut? && plan.Forward? && plan.to == to && plan.policy == policy
    && op.key == UpstreamKey(sn, q, OriginalPolicy(sn, q, true)) && op.ent.result == Joined(plan.local, up)
  }

  lemma PutForIsForwarded(sn: Snap, q: Question, allow: bool, fid: string, plan: Plan, up: Answer, op: Op)
    requires PutFor(sn, q, allow, fid, plan, up, op) && !op.key.local
    ensures plan.Forward? && fid != "" && op.key == UpstreamKey(sn, q, fid) && op.ent.result == Joined(plan.local, up)
  {
    assert op.(popts := PutOpts(Request(sn), false)) == StoreOf(sn, q, allow, fid, plan, up, op.now)[0];
  }

  lemma UpstreamPutIsForwarded(snaps: set<Snap>, op: Op)
    returns (sn: Snap, q: Question, up: Answer, to: Name, policy: string)
    requires Issued(snaps, op) && op.OpPut? && !op.key.local
    ensures sn in snaps && ForwardedFor(sn, q, up, to, policy, op)
  {
    var allow;
    sn, q, allow, up :| sn in snaps && HandlerPut(sn, q, allow, up, op);
    var plan := Decide(sn.content, SettingsOf(sn), q, allow);
    PutForIsForwarded(sn, q, allow, OriginalPolicy(sn, q, allow), plan, up, op);
    to, policy := plan.to, plan.policy;
  }

  /** Plans on like answers have the same shape. */
  ghost predicate SameShape(a: Plan, b: Plan) {
    match a
    case Final(_) => b.Final?
    case Cut(_) => b.Cut?
    case Refuse => b.Refuse?
    case Forward(to, policy, _) => b.Forward? && b.to == to && b.policy == policy
  }

  lemma LikePlans(c: Content, name: Name, allow: bool, a: Answer, b: Answer)
    requires Like(a, b) && LastTarget(a.answers) == LastTarget(b.answers)
    ensures SameShape(PlanFrom(c, name, allow, Some(a)), PlanFrom(c, name, allow, Some(b)))
  {
  }

  lemma PlansKeepShape(c: Content, s1: Settings, s2: Settings, q: Question, allow: bool)
    requires SameButGeneration(s1, s2)
    ensures SameShape(Decide(c, s1, q, allow), Decide(c, s2, q, allow))
  {
    match ZoneFor(c, q.name)
    case None =>
    case Some(z) =>
      AnswerIgnoresGeneration(z, c.ttl, s1, s2, q.name, q.typ);
      var a, b := InZoneAnswer(z, c.ttl, s1, q.name, q.typ), InZoneAnswer(z, c.ttl, s2, q.name, q.typ);
      LikeTargets(a.answers, b.answers);
      LikePlans(c, q.name, allow, a, b);
  }

  /** The n-th operation of the run is the latest to store under this upstream key: it stored the
      answer of an exchange with `to` under `policy`, and `reply` is that answer, aged. */
  ghost predicate ExchangedAt(p: Policy, ops: seq<Op>, snaps: set<Snap>, n: nat, sn: Snap, q: Question, fid: string,
                              to: Name, policy: string, reply: Answer, now: int) {
    exists e, s1, up ::
      && WrittenAt(p, ops, n, UpstreamKey(sn, q, fid), e) && WithinPolicy(Run(p, ops[..n]), ops[n], e)
      && s1 in snaps && s1.content == sn.content && ForwardedFor(s1, q, up, to, policy, ops[n])
      && AgedFrom(reply, ops[n].ent.result, ops[n].now, now, e.expireAt.value)
  }

  /** A hit on an upstream key: the question is one that is forwarded, and an earlier operation of the
      run stored the reply of that exchange. */
  lemma UpstreamHitIsForwarded(p: Policy, ops: seq<Op>, snaps: set<Snap>, sn: Snap, q: Question, fid: string,
                               opts: GetOpts, now: int)
    requires AllIssued(snaps, ops) && Coherent(snaps) && sn in snaps
    requires Fetch(Run(p, ops), UpstreamKey(sn, q, fid), opts, now).Hit?
    ensures var plan := Decide(sn.content, SettingsOf(sn), q, true);
            plan.Forward? && exists n: nat ::
              ExchangedAt(p, ops, snaps, n, sn, q, fid, plan.to, plan.policy,
                          Fetch(Run(p, ops), UpstreamKey(sn, q, fid), opts, now).ent.result, now)
  {
    var key := UpstreamKey(sn, q, fid);
    HitIsAgedPut(p, ops, key, opts, now);
    var served := Fetch(Run(p, ops), key, opts, now).ent.result;
    var n: nat, e :| WrittenAt(p, ops, n, key, e) && WithinPolicy(Run(p, ops[..n]), ops[n], e)
      && AgedFrom(served, ops[n].ent.result, ops[n].now, now, e.expireAt.value);
    assert Issued(snaps, ops[n]);
    var s1, q', up, to, policy := UpstreamPutIsForwarded(snaps, ops[n]);
    assert q' == q && s1.content == sn.content;
    PlansKeepShape(sn.content, SettingsOf(s1), SettingsOf(sn), q, true);
    assert ExchangedAt(p, ops, snaps, n, sn, q, fid, to, policy, served, now);
  }

  /** Operations that are not Puts leave the latest Put where it was. */
  lemma ExchangedBefore(p: Policy, ops: seq<Op>, op: Op, snaps: set<Snap>, n: nat, sn: Snap, q: Question, fid: string,
                        to: Name, policy: string, reply: Answer, now: int)
    requires !op.OpPut? && ExchangedAt(p, ops + [op], snaps, n, sn, q, fid, to, policy, reply, now)
    ensures ExchangedAt(p, ops, snaps, n, sn, q, fid, to, policy, reply, now)
  {
    var more, key := ops + [op], UpstreamKey(sn, q, fid);
    var e, s1, up :|
      && WrittenAt(p, more, n, key, e) && WithinPolicy(Run(p, more[..n]), more[n], e)
      && s1 in snaps && s1.content == sn.content && ForwardedFor(s1, q, up, to, policy, more[n])
      && AgedFrom(reply, more[n].ent.result, more[n].now, now, e.expireAt.value);
    WrittenBefore(p, ops, op, n, key, e);
  }

  lemma WrittenBefore(p: Policy, ops: seq<Op>, op: Op, n: nat, key: Key, e: Entry)
    requires !op.OpPut? && WrittenAt(p, ops + [op], n, key, e)
    ensures n < |ops| && (ops + [op])[..n] == ops[..n] && (ops + [op])[n] == ops[n] && WrittenAt(p, ops, n, key, e)
  {
    var more := ops + [op];
    assert more[n].OpPut? && n < |ops|;
    forall m: nat | m < |ops| ensures Writes(p, ops, m, key) <==> Writes(p, more, m, key) {
      assert more[..m] == ops[..m] && more[m] == ops[m];
    }
    forall m: nat | n < m ensures !Writes(p, ops, m, key) {
      if m < |ops| { assert !Writes(p, more, m, key); }
    }
    assert more[..n] == ops[..n];
  }

  // ---------------------------------------------------------------- every reply

  /** The reply is what the uncached path gives this client: locally kept answers up to TTLs and
      automatic serials, REFUSED as such, and a forwarded question exchanged now or, as `earlier`
      says, before. */
  ghost predicate Faithful(sn: Snap, q: Question, plan: Plan, up: Answer, h: Handled, earlier: bool) {
    match plan
    case Refuse => h.sent == None && h.reply == Refusal()
    case Forward(to, policy, local) =>
      (h.sent == Some(Sent(to, policy)) && h.reply == Joined(local, up)) || (h.sent == None && earlier)
    case _ => h.sent == None && ZoneFor(sn.content, q.name).Some?
              && SameReply(Automatic(ZoneFor(sn.content, q.name).value), h.reply, plan.r)
  }

  /** The reply comes from an exchange that an earlier operation of the run stored. */
  ghost predicate EarlierExchange(p: Policy, ops: seq<Op>, snaps: set<Snap>, sn: Snap, q: Question, fid: string,
                                  plan: Plan, reply: Answer, now: int) {
    plan.Forward? && exists n: nat :: ExchangedAt(p, ops, snaps, n, sn, q, fid, plan.to, plan.policy, reply, now)
  }

  lemma SameReplyReflexive(auto: bool, r: Answer)
    ensures SameReply(auto, r, r)
  {
  }

  lemma DirectIsFaithful(sn: Snap, q: Question, plan: Plan, up: Answer, h: Handled, earlier: bool)
    requires h.reply == ReplyOf(plan, up) && h.sent == SentBy(plan)
    requires plan.Final? || plan.Cut? ==> ZoneFor(sn.content, q.name).Some?
    ensures Faithful(sn, q, plan, up, h, earlier)
  {
    if plan.Final? || plan.Cut? {
      SameReplyReflexive(Automatic(ZoneFor(sn.content, q.name).value), plan.r);
    }
  }

  lemma KeptHasZone(c: Content, s: Settings, q: Question, allow: bool)
    ensures var plan := Decide(c, s, q, allow); plan.Final? || plan.Cut? ==> ZoneFor(c, q.name).Some?
  {
    var local := LocalAnswer(c, s, q);
    var plan := PlanFrom(c, q.name, allow, local);
    if plan.Final? || plan.Cut? { KeptIsLocal(c, q, allow, local, plan.r); }
  }

  function Cached(r: Answer): Handled {
    Handled(r, None, [], false)
  }

  /** Being faithful is about the reply and the exchange only. */
  lemma FaithfulByReply(sn: Snap, q: Question, plan: Plan, up: Answer, h: Handled, h': Handled, earlier: bool)
    requires Faithful(sn, q, plan, up, h, earlier) && h'.reply == h.reply && h'.sent == h.sent
    ensures Faithful(sn, q, plan, up, h', earlier)
  {
  }

  /** In every run a hit of lookupCache is faithful. */
  lemma LookIsFaithful(p: Policy, ops: seq<Op>, snaps: set<Snap>, sn: Snap, q: Question, allow: bool, up: Answer,
                       now: int)
    requires AllIssued(snaps, ops) && Coherent(snaps) && sn in snaps
    requires LookIn(Run(p, ops), sn, q, OriginalPolicy(sn, q, allow), now).hit.Some?
    ensures var plan := Decide(sn.content, SettingsOf(sn), q, allow);
            var r := LookIn(Run(p, ops), sn, q, OriginalPolicy(sn, q, allow), now).hit.value;
            Faithful(sn, q, plan, up, Cached(r),
                     EarlierExchange(p, ops, snaps, sn, q, OriginalPolicy(sn, q, allow), plan, r, now))
  {
    var fid, get := OriginalPolicy(sn, q, allow), OpGet(LocalKey(sn, q), NormalGet(sn), now);
    if Usable(Fetch(Run(p, ops), LocalKey(sn, q), NormalGet(sn), now)) {
      CacheIsTransparent(p, ops, snaps, sn, q, allow, NormalGet(sn), now);
    } else {
      UpstreamLook(p, ops, snaps, sn, q, fid, get, now);
    }
  }

  /** A hit under the upstream key, after a miss under the local one. */
  lemma UpstreamLook(p: Policy, ops: seq<Op>, snaps: set<Snap>, sn: Snap, q: Question, fid: string, get: Op, now: int)
    requires AllIssued(snaps, ops) && Coherent(snaps) && sn in snaps && get.OpGet?
    requires Fetch(Step(Run(p, ops), get), UpstreamKey(sn, q, fid), NormalGet(sn), now).Hit?
    ensures var plan := Decide(sn.content, SettingsOf(sn), q, true);
            EarlierExchange(p, ops, snaps, sn, q, fid, plan,
                            Fetch(Step(Run(p, ops), get), UpstreamKey(sn, q, fid), NormalGet(sn), now).ent.result, now)
  {
    RunAfter(p, ops, get);
    UpstreamHitIsForwarded(p, ops + [get], snaps, sn, q, fid, NormalGet(sn), now);
    var plan := Decide(sn.content, SettingsOf(sn), q, true);
    var r := Fetch(Step(Run(p, ops), get), UpstreamKey(sn, q, fid), NormalGet(sn), now).ent.result;
    var n: nat :| ExchangedAt(p, ops + [get], snaps, n, sn, q, fid, plan.to, plan.policy, r, now);
    ExchangedBefore(p, ops, get, snaps, n, sn, q, fid, plan.to, plan.policy, r, now);
  }

  lemma RunAfter(p: Policy, ops: seq<Op>, op: Op)
    ensures Run(p, ops + [op]) == Step(Run(p, ops), op)
  {
    assert (ops + [op])[..|ops|] == ops;
  }

  /** After every run, whatever the cache holds, every client gets a faithful reply. */
  lemma EveryReplyIsFaithful(p: Policy, ops: seq<Op>, snaps: set<Snap>, sn: Snap, q: Question, allow: bool,
                             up: Answer, now: int)
    requires AllIssued(snaps, ops) && Coherent(snaps) && sn in snaps
    ensures var plan, h := Decide(sn.content, SettingsOf(sn), q, allow), Handle(Run(p, ops), sn, q, allow, up, now);
            Faithful(sn, q, plan, up, h,
                     EarlierExchange(p, ops, snaps, sn, q, OriginalPolicy(sn, q, allow), plan, h.reply, now))
  {
    var fid, plan := OriginalPolicy(sn, q, allow), Decide(sn.content, SettingsOf(sn), q, allow);
    var direct := Direct(sn, q, allow, fid, plan, up, now);
    var h := Through(Run(p, ops), sn, q, fid, direct, now);
    var earlier := EarlierExchange(p, ops, snaps, sn, q, fid, plan, h.reply, now);
    if LookIn(Run(p, ops), sn, q, fid, now).hit.Some? {
      LookIsFaithful(p, ops, snaps, sn, q, allow, up, now);
      FaithfulByReply(sn, q, plan, up, Cached(h.reply), h, earlier);
    } else {
      KeptHasZone(sn.content, SettingsOf(sn), q, allow);
      DirectIsFaithful(sn, q, plan, up, direct, earlier);
      FaithfulByReply(sn, q, plan, up, direct, h, earlier);
    }
  }

  // ---------------------------------------------------------------- runs of events

  datatype Event =
    | Asked(sn: Snap, q: Question, allow: bool, up: Answer, now: int)
    | Resolved(sn: Snap, q: Question, now: int)
    | Observed(r: RequestPolicy)
    | Flushed

  /** The cache operations of one event. */
  ghost function OpsOf(st: State, e: Event): seq<Op> {
    match e
    case Asked(sn, q, allow, up, now) =>
      [OpObserve(Request(sn).value)] + Handle(Observe(st, Request(sn).value), sn, q, allow, up, now).ops
    case Resolved(sn, q, now) => Managed(st, sn, q, LocalAnswer(sn.content, SettingsOf(sn), q), now).ops
    case Observed(r) => [OpObserve(r)]
    case Flushed => [OpFlush]
  }

  /** The operations a run of events makes on a new cache, when `f` gives those of one event. */
  ghost function Fold(p: Policy, events: seq<Event>, f: (State, Event) -> seq<Op>): seq<Op> {
    if events == [] then []
    else
      var before := Fold(p, events[..|events| - 1], f);
      before + f(Run(p, before), events[|events| - 1])
  }

  ghost function History(p: Policy, events: seq<Event>): seq<Op> {
    Fold(p, events, (st, e) => OpsOf(st, e))
  }

  /** Every operation of a run of events was made by one of them. */
  lemma {:induction false} OpHasEvent(p: Policy, events: seq<Event>, f: (State, Event) -> seq<Op>, n: nat)
    returns (j: nat)
    requires n < |Fold(p, events, f)|
    ensures j < |events| && Fold(p, events, f)[n] in f(Run(p, Fold(p, events[..j], f)), events[j])
    decreases |events|
  {
    var last := |events| - 1;
    var less := events[..last];
    if n < |Fold(p, less, f)| {
      j := OpHasEvent(p, less, f, n);
      assert less[..j] == events[..j];
    } else {
      j := last;
    }
  }

  ghost predicate Uses(snaps: set<Snap>, e: Event) {
    (e.Asked? ==> e.sn in snaps) && (e.Resolved? ==> e.sn in snaps)
  }

  lemma EventIsIssued(st: State, snaps: set<Snap>, e: Event)
    requires Uses(snaps, e)
    ensures AllIssued(snaps, OpsOf(st, e))
  {
    match e
    case Asked(sn, q, allow, up, now) => HandleIsIssued(Observe(st, Request(sn).value), snaps, sn, q, allow, up, now);
    case Resolved(sn, q, now) => ManagedIsIssued(st, snaps, sn, q, now);
    case Observed(_) =>
    case Flushed =>
  }

  lemma HistoryIsIssued(p: Policy, snaps: set<Snap>, events: seq<Event>)
    requires forall i :: 0 <= i < |events| ==> Uses(snaps, events[i])
    ensures AllIssued(snaps, History(p, events))
  {
    var f := (st, e) => OpsOf(st, e);
    forall n | 0 <= n < |Fold(p, events, f)| ensures Issued(snaps, Fold(p, events, f)[n]) {
      var j := OpHasEvent(p, events, f, n);
      var st := Run(p, Fold(p, events[..j], f));
      EventIsIssued(st, snaps, events[j]);
      IssuedMember(snaps, OpsOf(st, events[j]), Fold(p, events, f)[n]);
    }
  }

  lemma IssuedMember(snaps: set<Snap>, ops: seq<Op>, op: Op)
    requires AllIssued(snaps, ops) && op in ops
    ensures Issued(snaps, op)
  {
  }

  // ---------------------------------------------------------------- which query exchanged it

  /** What the handler did for the j-th event, a query. */
  ghost function HandledAt(p: Policy, events: seq<Event>, j: nat): Handled
    requires j < |events| && events[j].Asked?
  {
    var e := events[j];
    Handle(Observe(Run(p, History(p, events[..j])), Request(e.sn).value), e.sn, e.q, e.allow, e.up, e.now)
  }

  /** The Put of a query under its upstream key. */
  function UpstreamPut(sn: Snap, q: Question, fid: string, r: Answer, now: int): Op {
    OpPut(UpstreamKey(sn, q, fid), EntryOf(r), PutOpts(Request(sn), false), now)
  }

  lemma PutOfThrough(st: State, sn: Snap, q: Question, allow: bool, fid: string, plan: Plan, up: Answer, now: int,
                     op: Op)
    requires op in Through(st, sn, q, fid, Direct(sn, q, allow, fid, plan, up, now), now).ops && op.OpPut?
    requires !op.key.local
    ensures var h := Through(st, sn, q, fid, Direct(sn, q, allow, fid, plan, up, now), now);
            && plan.Forward? && fid != "" && h.sent == Some(Sent(plan.to, plan.policy))
            && op == UpstreamPut(sn, q, fid, h.reply, now)
  {
    var look := LookIn(st, sn, q, fid, now);
    if look.hit.None? { PutOfStore(look.ops, sn, q, allow, fid, plan, up, now, op); }
  }

  lemma PutOfStore(gets: seq<Op>, sn: Snap, q: Question, allow: bool, fid: string, plan: Plan, up: Answer, now: int,
                   op: Op)
    requires forall i :: 0 <= i < |gets| ==> gets[i].OpGet?
    requires op in gets + StoreOf(sn, q, allow, fid, plan, up, now) && op.OpPut? && !op.key.local
    ensures plan.Forward? && fid != "" && op == UpstreamPut(sn, q, fid, ReplyOf(plan, up), now)
  {
    assert op in StoreOf(sn, q, allow, fid, plan, up, now);
  }

  /** A Put under an upstream key is the store of a query that was forwarded. */
  lemma PutWasForwarded(st: State, sn: Snap, q: Question, allow: bool, up: Answer, now: int, op: Op)
    requires op in Handle(st, sn, q, allow, up, now).ops && op.OpPut? && !op.key.local
    ensures var h, plan := Handle(st, sn, q, allow, up, now), Decide(sn.content, SettingsOf(sn), q, allow);
            && allow && plan.Forward? && h.sent == Some(Sent(plan.to, plan.policy))
            && op == UpstreamPut(sn, q, OriginalPolicy(sn, q, true), h.reply, now)
  {
    var fid, plan := OriginalPolicy(sn, q, allow), Decide(sn.content, SettingsOf(sn), q, allow);
    PutOfThrough(st, sn, q, allow, fid, plan, up, now, op);
  }

  /** Of all events only queries put under an upstream key. */
  lemma EventPut(st: State, e: Event, op: Op)
    requires op in OpsOf(st, e) && op.OpPut? && !op.key.local
    ensures e.Asked? && op in Handle(Observe(st, Request(e.sn).value), e.sn, e.q, e.allow, e.up, e.now).ops
  {
    if e.Resolved? {
      ManagedIsLocal(st, e.sn, e.q, LocalAnswer(e.sn.content, SettingsOf(e.sn), e.q), e.now, op);
    }
  }

  lemma ManagedIsLocal(st: State, sn: Snap, q: Question, local: Option<Answer>, now: int, op: Op)
    requires op in Managed(st, sn, q, local, now).ops && op.OpPut?
    ensures op.key.local
  {
  }

  /** How long an upstream answer is kept. */
  ghost function KeptFor(sn: Snap, q: Question, fid: string, r: Answer): int {
    Lifetime(Classified(UpstreamKey(sn, q, fid), EntryOf(r)), sn.content.cachePolicy)
  }

  /** `reply` is the answer `h` that the query `e`, for the same question under the same content, got
      from an exchange with `to` under `policy`, aged by the cache within its lifetime. */
  ghost predicate AnsweredBy(e: Event, h: Handled, sn: Snap, q: Question, fid: string, to: Name, policy: string,
                             reply: Answer, now: int) {
    && e.Asked? && e.q == q && e.sn.content == sn.content && h.sent == Some(Sent(to, policy))
    && AgedFrom(reply, h.reply, e.now, now, e.now + KeptFor(e.sn, q, fid, h.reply))
  }

  ghost predicate AnsweredEarlier(p: Policy, events: seq<Event>, sn: Snap, q: Question, fid: string, plan: Plan,
                                  reply: Answer, now: int) {
    plan.Forward? && exists j: nat ::
      j < |events| && events[j].Asked?
        && AnsweredBy(events[j], HandledAt(p, events, j), sn, q, fid, plan.to, plan.policy, reply, now)
  }

  /** The query whose Put a hit comes from answered with it. */
  lemma PutAnswers(e: Event, h: Handled, sn: Snap, q: Question, fid: string, plan: Plan, reply: Answer, now: int,
                   st: State, expiry: int, orig: string)
    requires e.Asked? && e.sn.content == sn.content && plan.Forward? && h.sent == Some(Sent(plan.to, plan.policy))
    requires UpstreamKey(e.sn, e.q, orig) == UpstreamKey(sn, q, fid)
    requires var put := UpstreamPut(e.sn, e.q, orig, h.reply, e.now);
             AgedFrom(reply, h.reply, e.now, now, expiry)
               && Stamped(st, put.key, put.ent, put.popts, put.now).expireAt == Some(expiry)
    ensures AnsweredBy(e, h, sn, q, fid, plan.to, plan.policy, reply, now)
  {
    SameUpstreamKey(e.sn, e.q, orig, sn, q, fid);
    PutExpires(e.sn, e.q, orig, h.reply, e.now, st, expiry);
  }

  lemma SameUpstreamKey(s1: Snap, q1: Question, f1: string, s2: Snap, q2: Question, f2: string)
    requires UpstreamKey(s1, q1, f1) == UpstreamKey(s2, q2, f2)
    ensures q1 == q2 && f1 == f2
  {
  }

  lemma PutExpires(sn: Snap, q: Question, fid: string, r: Answer, now: int, st: State, expiry: int)
    requires var put := UpstreamPut(sn, q, fid, r, now);
             Stamped(st, put.key, put.ent, put.popts, put.now).expireAt == Some(expiry)
    ensures expiry == now + KeptFor(sn, q, fid, r)
  {
  }

  /** What an earlier operation of the run stored, an earlier query of the run got. */
  lemma ExchangeHasQuery(p: Policy, snaps: set<Snap>, events: seq<Event>, n: nat, sn: Snap, q: Question, fid: string,
                         plan: Plan, reply: Answer, now: int)
    requires Coherent(snaps) && sn in snaps && forall i :: 0 <= i < |events| ==> Uses(snaps, events[i])
    requires plan == Decide(sn.content, SettingsOf(sn), q, true) && plan.Forward?
    requires ExchangedAt(p, History(p, events), snaps, n, sn, q, fid, plan.to, plan.policy, reply, now)
    ensures AnsweredEarlier(p, events, sn, q, fid, plan, reply, now)
  {
    var ops, f := History(p, events), (st, e) => OpsOf(st, e);
    var e, s1, up :|
      && WrittenAt(p, ops, n, UpstreamKey(sn, q, fid), e) && WithinPolicy(Run(p, ops[..n]), ops[n], e)
      && s1 in snaps && s1.content == sn.content && ForwardedFor(s1, q, up, plan.to, plan.policy, ops[n])
      && AgedFrom(reply, ops[n].ent.result, ops[n].now, now, e.expireAt.value);
    var j := OpHasEvent(p, events, f, n);
    var st, ev := Run(p, Fold(p, events[..j], f)), events[j];
    EventPut(st, ev, ops[n]);
    var h := QueryPut(st, snaps, ev, ops[n], sn, q, fid, plan);
    PutAnswers(ev, h, sn, q, fid, plan, reply, now, Run(p, ops[..n]), e.expireAt.value,
               OriginalPolicy(ev.sn, ev.q, true));
    assert h == HandledAt(p, events, j);
  }

  /** The exchange of the query that put under this upstream key was the one of the plan. */
  lemma QueryPut(st: State, snaps: set<Snap>, ev: Event, op: Op, sn: Snap, q: Question, fid: string, plan: Plan)
    returns (h: Handled)
    requires Coherent(snaps) && sn in snaps && Uses(snaps, ev) && ev.Asked?
    requires op in Handle(Observe(st, Request(ev.sn).value), ev.sn, ev.q, ev.allow, ev.up, ev.now).ops
    requires op.OpPut? && op.key == UpstreamKey(sn, q, fid) && plan == Decide(sn.content, SettingsOf(sn), q, true)
    ensures h == Handle(Observe(st, Request(ev.sn).value), ev.sn, ev.q, ev.allow, ev.up, ev.now)
    ensures ev.sn.content == sn.content && plan.Forward? && h.sent == Some(Sent(plan.to, plan.policy))
    ensures op == UpstreamPut(ev.sn, ev.q, OriginalPolicy(ev.sn, ev.q, true), h.reply, ev.now)
  {
    h := Handle(Observe(st, Request(ev.sn).value), ev.sn, ev.q, ev.allow, ev.up, ev.now);
    PutWasForwarded(Observe(st, Request(ev.sn).value), ev.sn, ev.q, ev.allow, ev.up, ev.now, op);
    assert ev.q == q && ev.sn.content == sn.content;
    PlansKeepShape(sn.content, SettingsOf(ev.sn), SettingsOf(sn), q, true);
  }

  /** In every run of the server from an empty cache, the reply to every query is faithful: one that
      comes from an upstream entry is what an earlier query of the run got from the same exchange. */
  lemma EveryQueryIsFaithful(p: Policy, snaps: set<Snap>, events: seq<Event>, sn: Snap, q: Question, allow: bool,
                             up: Answer, now: int)
    requires Coherent(snaps) && sn in snaps && forall i :: 0 <= i < |events| ==> Uses(snaps, events[i])
    ensures var st := Observe(Run(p, History(p, events)), Request(sn).value);
            var plan, h := Decide(sn.content, SettingsOf(sn), q, allow), Handle(st, sn, q, allow, up, now);
            Faithful(sn, q, plan, up, h,
                     AnsweredEarlier(p, events, sn, q, OriginalPolicy(sn, q, allow), plan, h.reply, now))
  {
    var ops, observe := History(p, events), OpObserve(Request(sn).value);
    HistoryIsIssued(p, snaps, events);
    RunAfter(p, ops, observe);
    EveryReplyIsFaithful(p, ops + [observe], snaps, sn, q, allow, up, now);
    var plan, h := Decide(sn.content, SettingsOf(sn), q, allow), Handle(Run(p, ops + [observe]), sn, q, allow, up, now);
    var before := EarlierExchange(p, ops + [observe], snaps, sn, q, OriginalPolicy(sn, q, allow), plan, h.reply, now);
    if before { ExchangeIsAnswered(p, snaps, events, sn, q, allow, plan, h.reply, now); }
    FaithfulEarlier(sn, q, plan, up, h, before,
                    AnsweredEarlier(p, events, sn, q, OriginalPolicy(sn, q, allow), plan, h.reply, now));
  }

  lemma FaithfulEarlier(sn: Snap, q: Question, plan: Plan, up: Answer, h: Handled, a: bool, b: bool)
    requires Faithful(sn, q, plan, up, h, a) && (a ==> b)
    ensures Faithful(sn, q, plan, up, h, b)
  {
  }

  lemma ExchangeIsAnswered(p: Policy, snaps: set<Snap>, events: seq<Event>, sn: Snap, q: Question, allow: bool,
                           plan: Plan, reply: Answer, now: int)
    requires Coherent(snaps) && sn in snaps && forall i :: 0 <= i < |events| ==> Uses(snaps, events[i])
    requires plan == Decide(sn.content, SettingsOf(sn), q, allow)
    requires EarlierExchange(p, History(p, events) + [OpObserve(Request(sn).value)], snaps, sn, q,
                             OriginalPolicy(sn, q, allow), plan, reply, now)
    ensures AnsweredEarlier(p, events, sn, q, OriginalPolicy(sn, q, allow), plan, reply, now)
  {
    var ops, observe, fid := History(p, events), OpObserve(Request(sn).value), OriginalPolicy(sn, q, allow);
    var n: nat :| ExchangedAt(p, ops + [observe], snaps, n, sn, q, fid, plan.to, plan.policy, reply, now);
    ExchangedBefore(p, ops, observe, snaps, n, sn, q, fid, plan.to, plan.policy, reply, now);
    ForwardNeedsPermission(sn.content, q.name, allow, LocalAnswer(sn.content, SettingsOf(sn), q));
    ExchangeHasQuery(p, snaps, events, n, sn, q, fid, plan, reply, now);
  }

  lemma ForwardNeedsPermission(c: Content, name: Name, allow: bool, local: Option<Answer>)
    requires PlanFrom(c, name, allow, local).Forward?
    ensures allow
  {
  }
}
