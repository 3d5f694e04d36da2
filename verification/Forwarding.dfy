/** Which name goes upstream, under which policy, and what comes back: said on the chain that the zone
    resolves, not on the plan itself (internal/dnsquery/handler.go:293-439). */
module Forwarding {
  import opened Text
  import opened Names
  import opened Zones
  import opened Lookup
  import opened Resolver
  import opened Query

  // ---------------------------------------------------------------- where the chain ends

  lemma LastOf(rrs: seq<RR>, n: Name)
    requires rrs != [] && rrs[|rrs| - 1].typ == "CNAME" && rrs[|rrs| - 1].data == Host(n)
    ensures LastTarget(rrs) == Some(n)
  {
  }

  /** A result that falls through holds exactly the CNAMEs of its path, so the last target is the path's end. */
  lemma ChainTarget(v: View, s: Settings, path: seq<Name>, r: Answer)
    requires path != [] && Resolution(v, s, path, r) && r.fallthrough && r.rcode != ServFail
    ensures |r.answers| == |path| - 1
    ensures LastTarget(r.answers) == if |path| == 1 then None else Some(path[|path| - 1])
  {
    var last := |path| - 1;
    FallsEmpty(v, s, path[last], r.answers[last..], r);
    TargetOfChain(path, r.answers);
  }

  lemma FallsEmpty(v: View, s: Settings, last: Name, own: seq<RR>, r: Answer)
    requires Concludes(v, s, last, own, r) && r.fallthrough
    ensures own == []
  {
  }

  lemma TargetOfChain(path: seq<Name>, answers: seq<RR>)
    requires Chained(path, answers) && |answers| == |path| - 1
    ensures LastTarget(answers) == if |path| == 1 then None else Some(path[|path| - 1])
  {
    if |path| > 1 { LastOf(answers, path[|path| - 1]); }
  }

  /** What a local result that ends at `last` leads to. */
  ghost function Expected(c: Content, r: Answer, last: Name, allow: bool): Plan {
    if !r.fallthrough then Final(r)
    else if allow && Selected(c.forwarding, last) != "" then Forward(last, Selected(c.forwarding, last), Some(r))
    else if r.answers != [] then Cut(r.(fallthrough := false))
    else Refuse
  }

  /** The plan for a name in a zone: a final answer is the zone's; otherwise the name at which the zone's
      chain ends is forwarded, if the client may and a policy covers that name; otherwise the chain is
      answered as far as it goes, and a question without one is refused. */
  lemma PlanFollowsChain(c: Content, s: Settings, q: Question, allow: bool)
    requires ZoneFor(c, q.name).Some? && Compiles(ZoneFor(c, q.name).value, c.ttl)
    ensures var z := ZoneFor(c, q.name).value; var r := InZoneAnswer(z, c.ttl, s, q.name, q.typ);
            exists path: seq<Name> ::
              && path != [] && path[0] == q.name && Resolution(ViewOf(z, c.ttl, s, q.typ), s, path, r)
              && Decide(c, s, q, allow) == Expected(c, r, path[|path| - 1], allow)
  {
    var z := ZoneFor(c, q.name).value;
    var r := InZoneAnswer(z, c.ttl, s, q.name, q.typ);
    ResultIsChain(z, c.ttl, s, q.name, q.typ);
    var path: seq<Name> :| path != [] && path[0] == q.name && Resolution(ViewOf(z, c.ttl, s, q.typ), s, path, r);
    FallthroughIsNoFailure(z, c.ttl, s, q.name, q.typ);
    if r.fallthrough { ChainTarget(ViewOf(z, c.ttl, s, q.typ), s, path, r); }
    PlanIsExpected(c, q.name, allow, r, path[|path| - 1]);
  }

  lemma FallthroughIsNoFailure(z: Zone, ttl: int, s: Settings, q: Name, t: string)
    ensures var r := InZoneAnswer(z, ttl, s, q, t); r.fallthrough ==> r.rcode == NoError
  {
    var v := ViewOf(z, ttl, s, t);
    if z.mode == Overlay {
      OverlayIsTransparent(v, s, t, q, {}, 0, Start());
    } else {
      AuthoritativeIsFinal(v, s, t, q, {}, 0, Start());
    }
  }

  lemma PlanIsExpected(c: Content, name: Name, allow: bool, r: Answer, last: Name)
    requires r.fallthrough ==>
               LastTarget(r.answers) == Some(last) || (LastTarget(r.answers) == None && last == name)
    ensures PlanFrom(c, name, allow, Some(r)) == Expected(c, r, last, allow)
  {
  }

  /** The plan for a name in no zone: forwarded as it is, or refused. */
  lemma PlanOutsideZones(c: Content, s: Settings, q: Question, allow: bool)
    requires ZoneFor(c, q.name).None?
    ensures Decide(c, s, q, allow) ==
              if allow && Selected(c.forwarding, q.name) != ""
              then Forward(q.name, Selected(c.forwarding, q.name), None) else Refuse
  {
  }

  /** The policy is the one whose suffix is deepest, and there is one whenever some suffix covers the name. */
  lemma PolicyIsDeepest(c: Content, n: Name, id: string)
    requires "" !in c.forwarding
    ensures Selected(c.forwarding, n) != "" ==> Deepest(c.forwarding, n, Selected(c.forwarding, n))
    ensures id in c.forwarding && InZone(n, c.forwarding[id]) ==> Selected(c.forwarding, n) != ""
  {
    if id in c.forwarding && InZone(n, c.forwarding[id]) { DeepestExists(c.forwarding, n, id); }
  }

  /** Who shares an entry: under the local key the same revision, name, type and class; under an upstream
      key also the same CD bit and policy; and neither key is ever the other. */
  lemma KeysTellApart(s1: Snap, q1: Question, f1: string, s2: Snap, q2: Question, f2: string)
    ensures LocalKey(s1, q1) == LocalKey(s2, q2) <==>
              s1.revision == s2.revision && q1.name == q2.name && q1.typ == q2.typ && q1.dnsClass == q2.dnsClass
    ensures UpstreamKey(s1, q1, f1) == UpstreamKey(s2, q2, f2) <==> s1.revision == s2.revision && q1 == q2 && f1 == f2
    ensures LocalKey(s1, q1) != UpstreamKey(s2, q2, f2)
  {
  }

  /** The reply to a forwarded question: the zone's chain, then what the upstream answered; all else is the
      upstream's. */
  lemma ForwardedReply(plan: Plan, up: Answer)
    requires plan.Forward?
    requires plan.local.Some? && plan.local.value.answers != [] ==> LastTarget(plan.local.value.answers).Some?
    ensures var r := ReplyOf(plan, up);
            && r.answers == (if plan.local.Some? then plan.local.value.answers else []) + up.answers
            && r.rcode == up.rcode && r.authority == up.authority && r.additional == up.additional
            && r.aa == up.aa && r.source == up.source && r.fallthrough == up.fallthrough
  {
  }
}
