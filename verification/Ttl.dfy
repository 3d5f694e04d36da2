/** Cache lifetimes: what a stored answer may live for and how its TTLs decay
    (internal/cache/cache.go:24-34, 282-379, 421-460). Times and durations are in nanoseconds. */
module Ttl {
  import opened Text
  import opened Zones
  import opened Resolver
  import Lookup

  datatype Policy = Policy(enabled: bool, maxEntries: int, minimumTTL: int, maximumTTL: int,
                           maximumNegativeTTL: int, staleServing: bool)

  /** Absent times are Go's zero time. */
  datatype Entry = Entry(result: Answer, storedAt: Option<int>, expireAt: Option<int>, negative: bool, stale: bool)

  predicate Cacheable(r: Answer) {
    r.rcode in {NoError, NXDomain} && !r.fallthrough
  }

  predicate HasSOA(rrs: seq<RR>) {
    exists i :: 0 <= i < |rrs| && rrs[i].typ == "SOA"
  }

  /** A negative answer: NXDOMAIN, or only CNAMEs with an SOA in authority. */
  ghost predicate IsNegative(r: Answer, qtype: string) {
    || r.rcode == NXDomain
    || (r.rcode == NoError && qtype != "CNAME" && qtype != "ANY"
        && (forall i :: 0 <= i < |r.answers| ==> r.answers[i].typ == "CNAME") && HasSOA(r.authority))
  }

  method FindSOA(rrs: seq<RR>) returns (found: bool)
    ensures found <==> HasSOA(rrs)
  {
    for i := 0 to |rrs|
      invariant forall j :: 0 <= j < i ==> rrs[j].typ != "SOA"
    {
      if rrs[i].typ == "SOA" { return true; }
    }
    return false;
  }

  /** negativeResult */
  method NegativeResult(r: Answer, qtype: string) returns (negative: bool)
    ensures negative <==> IsNegative(r, qtype)
  {
    if r.rcode == NXDomain { return true; }
    if r.rcode != NoError || qtype == "CNAME" || qtype == "ANY" { return false; }
    for i := 0 to |r.answers|
      invariant forall j :: 0 <= j < i ==> r.answers[j].typ == "CNAME"
    {
      if r.answers[i].typ != "CNAME" { return false; }
    }
    negative := FindSOA(r.authority);
  }

  predicate IsSpace(c: char) {
    c in {' ', '\t', '\n', '\r', '\U{B}', '\U{C}', '\U{85}', '\U{A0}'}
  }

  /** len(strings.Fields(s)): runs of non-space characters. */
  function FieldCount(s: string): nat {
    if s == "" then 0
    else FieldCount(s[1..]) + (if !IsSpace(s[0]) && (|s| == 1 || IsSpace(s[1])) then 1 else 0)
  }

  /** The MINIMUM of an SOA, when its text splits into seven fields and the last fits 32 bits. */
  function SoaMinimum(rr: RR): Option<int> {
    if rr.typ == "SOA" && rr.data.SoaData?
       && FieldCount(rr.data.primary) + FieldCount(rr.data.administrator) + FieldCount(rr.data.serial) + 4 == 7
       && 0 <= rr.data.minimum < 0x1_0000_0000
    then Some(rr.data.minimum * Lookup.Second) else None
  }

  /** The TTL a record counts with: in a negative entry an SOA counts with its MINIMUM too. */
  function CountedTTL(rr: RR, negative: bool): (ttl: int)
    ensures ttl <= rr.ttl
  {
    if negative && SoaMinimum(rr).Some? && SoaMinimum(rr).value < rr.ttl then SoaMinimum(rr).value else rr.ttl
  }

  function Considered(e: Entry): seq<RR> {
    e.result.answers + (if e.negative then e.result.authority else [])
  }

  /** `m` is the least counted TTL of `rrs`. */
  ghost predicate IsLeastTTL(rrs: seq<RR>, negative: bool, m: int) {
    && (forall i :: 0 <= i < |rrs| ==> m <= CountedTTL(rrs[i], negative))
    && exists i :: 0 <= i < |rrs| && m == CountedTTL(rrs[i], negative)
  }

  function LeastTTL(rrs: seq<RR>, negative: bool): (m: int)
    requires rrs != []
    ensures IsLeastTTL(rrs, negative, m)
  {
    var n := |rrs| - 1;
    var last := CountedTTL(rrs[n], negative);
    if n == 0 then last
    else
      var m := LeastTTL(rrs[..n], negative);
      assert forall i :: 0 <= i < n ==> rrs[i] == rrs[..n][i];
      if last < m then last else m
  }

  ghost function Preset(e: Entry): Option<int> {
    if e.storedAt.Some? && e.expireAt.Some? && e.expireAt.value > e.storedAt.value
    then Some(e.expireAt.value - e.storedAt.value) else None
  }

  ghost function NaturalTTL(e: Entry): int {
    if e.negative && !HasSOA(e.result.authority) then 0
    else if Preset(e).Some? then Preset(e).value
    else if Considered(e) == [] then 0
    else LeastTTL(Considered(e), e.negative)
  }

  /** entryTTL */
  method EntryTTL(e: Entry) returns (ttl: int)
    ensures ttl == NaturalTTL(e)
  {
    if e.negative {
      var haveSOA := FindSOA(e.result.authority);
      if !haveSOA { return 0; }
    }
    if e.expireAt.Some? && e.storedAt.Some? {
      var d := e.expireAt.value - e.storedAt.value;
      if d > 0 { return d; }
    }
    ttl := LeastOf(Considered(e), e.negative);
  }

  /** The `consider` loops: a running minimum, 0 when there is nothing to consider. */
  method LeastOf(rrs: seq<RR>, negative: bool) returns (ttl: int)
    ensures ttl == if rrs == [] then 0 else LeastTTL(rrs, negative)
  {
    ttl := 0;
    var found := false;
    for i := 0 to |rrs|
      invariant found <==> i > 0
      invariant ttl == if i == 0 then 0 else LeastTTL(rrs[..i], negative)
    {
      var one := CountedTTL(rrs[i], negative);
      assert rrs[..i + 1][..i] == rrs[..i];
      if !found || one < ttl {
        ttl := one;
        found := true;
      }
    }
    assert rrs[..|rrs|] == rrs;
  }

  /** clampTTL */
  function Clamp(ttl: int, negative: bool, p: Policy): (life: int)
    ensures life >= 0
    ensures negative && p.maximumNegativeTTL > 0 ==> life <= p.maximumNegativeTTL
    ensures !negative && p.maximumTTL > 0 ==> life <= p.maximumTTL
    ensures negative && life > 0 ==> life <= ttl
    ensures !negative && life > ttl && ttl >= 0 ==> life <= p.minimumTTL
  {
    if negative then
      var a := if p.maximumNegativeTTL > 0 && ttl > p.maximumNegativeTTL then p.maximumNegativeTTL else ttl;
      if a < 0 then 0 else a
    else
      var a := if p.minimumTTL > 0 && ttl < p.minimumTTL then p.minimumTTL else ttl;
      var b := if p.maximumTTL > 0 && a > p.maximumTTL then p.maximumTTL else a;
      if b < 0 then 0 else b
  }

  ghost function Lifetime(e: Entry, p: Policy): int {
    Clamp(NaturalTTL(e), e.negative, p)
  }

  /** An SOA record bounds a negative lifetime by its TTL and by its MINIMUM field. */
  predicate WithinSOA(rr: RR, life: int) {
    rr.typ == "SOA" ==> life <= rr.ttl && (SoaMinimum(rr).Some? ==> life <= SoaMinimum(rr).value)
  }

  /** A negative entry without preset times is stored only with an SOA, and then for at most the
      SOA's TTL and MINIMUM (section 5 of RFC 2308). */
  lemma NegativeLifetime(e: Entry, p: Policy, i: nat)
    requires e.negative && Preset(e).None? && Lifetime(e, p) > 0
    ensures HasSOA(e.result.authority)
    ensures i < |e.result.authority| ==> WithinSOA(e.result.authority[i], Lifetime(e, p))
  {
    if i < |e.result.authority| {
      assert Considered(e)[|e.result.answers| + i] == e.result.authority[i];
    }
  }

  // ---------------------------------------------------------------- decay

  /** remainingTTL */
  function Remaining(e: Entry, now: int): (r: int)
    ensures r >= 0 && (r > 0 ==> e.expireAt.Some? && now + r == e.expireAt.value)
  {
    if e.expireAt.Some? && e.expireAt.value > now then e.expireAt.value - now else 0
  }

  function DecayedTTL(ttl: int, elapsed: int, remaining: int): (r: int)
    requires remaining >= 0
    ensures 0 <= r <= remaining && (r > 0 ==> r <= ttl)
  {
    var e := if elapsed < 0 then 0 else elapsed;
    var a := if ttl > e then ttl - e else 0;
    if a > remaining then remaining else a
  }

  function Decayed(rrs: seq<RR>, elapsed: int, remaining: int): (out: seq<RR>)
    requires remaining >= 0
    ensures |out| == |rrs|
    ensures forall i :: 0 <= i < |rrs| ==> out[i] == rrs[i].(ttl := DecayedTTL(rrs[i].ttl, elapsed, remaining))
  {
    seq(|rrs|, i requires 0 <= i < |rrs| => rrs[i].(ttl := DecayedTTL(rrs[i].ttl, elapsed, remaining)))
  }

  /** decayTTLs on one section: rewrite each TTL in place. */
  method DecaySection(rrs: seq<RR>, elapsed: int, remaining: int) returns (out: seq<RR>)
    requires remaining >= 0
    ensures out == Decayed(rrs, elapsed, remaining)
  {
    out := rrs;
    var passed := if elapsed < 0 then 0 else elapsed;
    for i := 0 to |rrs|
      invariant |out| == |rrs|
      invariant forall j :: 0 <= j < i ==> out[j] == rrs[j].(ttl := DecayedTTL(rrs[j].ttl, elapsed, remaining))
      invariant forall j :: i <= j < |rrs| ==> out[j] == rrs[j]
    {
      var ttl := out[i].ttl;
      if ttl > passed {
        ttl := ttl - passed;
      } else {
        ttl := 0;
      }
      if ttl > remaining {
        ttl := remaining;
      }
      out := out[i := out[i].(ttl := ttl)];
    }
  }

  function DecayedAnswer(r: Answer, elapsed: int, remaining: int): Answer
    requires remaining >= 0
  {
    r.(source := FromCache, answers := Decayed(r.answers, elapsed, remaining),
       authority := Decayed(r.authority, elapsed, remaining), additional := Decayed(r.additional, elapsed, remaining))
  }

  /** The copy a hit serves. */
  function Served(e: Entry, now: int, stale: bool): Entry {
    var since := if e.storedAt.Some? then now - e.storedAt.value else 0;
    e.(stale := e.stale || stale, result := DecayedAnswer(e.result, since, Remaining(e, now)))
  }

  method Serve(e: Entry, now: int, stale: bool) returns (out: Entry)
    ensures out == Served(e, now, stale)
  {
    var since := if e.storedAt.Some? then now - e.storedAt.value else 0;
    var rest := Remaining(e, now);
    var answers := DecaySection(e.result.answers, since, rest);
    var authority := DecaySection(e.result.authority, since, rest);
    var additional := DecaySection(e.result.additional, since, rest);
    out := e.(stale := e.stale || stale,
              result := e.result.(source := FromCache, answers := answers, authority := authority,
                                  additional := additional));
  }

  /** A TTL stored at `from`, as it is served at `now`: no longer than the stored one, ending with the
      record's own time and with the entry's expiry, and as long as these allow. */
  predicate AgedTTL(served: int, stored: int, from: int, now: int, expiry: int) {
    && 0 <= served
    && (served > 0 ==>
          && served <= stored && now + served <= expiry && (now >= from ==> now + served <= from + stored)
          && (served == stored || now + served == from + stored || now + served == expiry))
    && (served == 0 ==> stored <= 0 || from + stored <= now || expiry <= now)
  }

  /** Served records are the stored ones with their TTLs aged. */
  ghost predicate Aged(served: seq<RR>, stored: seq<RR>, from: int, now: int, expiry: int) {
    && |served| == |stored|
    && forall i :: 0 <= i < |stored| ==>
         && served[i] == stored[i].(ttl := served[i].ttl)
         && AgedTTL(served[i].ttl, stored[i].ttl, from, now, expiry)
  }

  lemma ServedIsAged(e: Entry, now: int, stale: bool)
    requires e.storedAt.Some? && e.expireAt.Some?
    ensures var r := Served(e, now, stale).result; var from, x := e.storedAt.value, e.expireAt.value;
            && Aged(r.answers, e.result.answers, from, now, x) && Aged(r.authority, e.result.authority, from, now, x)
            && Aged(r.additional, e.result.additional, from, now, x)
            && (now >= x ==> forall i :: 0 <= i < |r.answers| ==> r.answers[i].ttl == 0)
            && (Served(e, now, stale).stale <==> e.stale || stale)
  {
  }
}
