/** The overload reply: a byte walk over one DNS question, the SERVFAIL built from it, and the token
    bucket in front (internal/dnsserver/overflow.go:13-169). */
module Overflow {

  type Byte = b: int | 0 <= b < 256

  type Packet = seq<Byte>

  const HeaderLen: nat := 12
  const MaxName: nat := 255

  // ---------------------------------------------------------------- the header flags

  // The fields of the two flag octets (section 4.1.1 of RFC 1035, section 3.2 of RFC 4035). The masks
  // and shifts of the source are division and remainder here.

  function QR(hi: Byte): Byte { hi / 128 }
  function Opcode(hi: Byte): Byte { hi / 8 % 16 }
  function AA(hi: Byte): Byte { hi / 4 % 2 }
  function TC(hi: Byte): Byte { hi / 2 % 2 }
  function RD(hi: Byte): Byte { hi % 2 }
  function RA(lo: Byte): Byte { lo / 128 }
  function AD(lo: Byte): Byte { lo / 32 % 2 }
  function CD(lo: Byte): Byte { lo / 16 % 2 }
  function RCode(lo: Byte): Byte { lo % 16 }

  // ---------------------------------------------------------------- the grammar

  /** An ordinary label: 1 to 63 octets (section 3.1 of RFC 1035). */
  predicate IsLabel(l: seq<Byte>) {
    1 <= |l| <= 63
  }

  predicate AreLabels(ls: seq<seq<Byte>>) {
    forall i :: 0 <= i < |ls| ==> IsLabel(ls[i])
  }

  /** Wire form of a name without compression. */
  function Encoded(ls: seq<seq<Byte>>): Packet
    requires AreLabels(ls)
  {
    if ls == [] then [0] else [|ls[0]|] + ls[0] + Encoded(ls[1..])
  }

  /** A name of at most 255 octets stands at `i` and ends before `e`. */
  ghost predicate NameAt(pkt: Packet, i: nat, e: nat, used: nat) {
    i <= e <= |pkt| && exists ls :: AreLabels(ls) && pkt[i..e] == Encoded(ls) && used + |Encoded(ls)| <= MaxName
  }

  /** A query header: long enough, QR clear, QDCOUNT 1 (section 4.1.1 of RFC 1035). */
  predicate IsQueryHeader(pkt: Packet) {
    |pkt| >= HeaderLen && QR(pkt[2]) == 0 && pkt[4] == 0 && pkt[5] == 1
  }

  /** A query header, then a name, then QTYPE and QCLASS, ending before `end`. */
  ghost predicate QuestionEndsAt(pkt: Packet, end: nat) {
    IsQueryHeader(pkt) && HeaderLen + 4 <= end <= |pkt| && NameAt(pkt, HeaderLen, end - 4, 0)
  }

  /** A packet put together as section 4 of RFC 1035 says is recognised. */
  lemma QueryIsRecognised(header: Packet, ls: seq<seq<Byte>>, tail: Packet)
    requires |header| == HeaderLen && QR(header[2]) == 0 && header[4] == 0 && header[5] == 1 && |tail| == 4
    requires AreLabels(ls) && |Encoded(ls)| <= MaxName
    ensures QuestionEndsAt(header + Encoded(ls) + tail, HeaderLen + |Encoded(ls)| + 4)
  {
    var pkt, e := header + Encoded(ls) + tail, HeaderLen + |Encoded(ls)|;
    assert pkt[HeaderLen..e] == Encoded(ls);
  }

  // ---------------------------------------------------------------- the walk

  datatype Walk = Bad | End(at: nat)

  /** The label loop from offset `i` with `used` octets of name behind it. */
  function WalkName(pkt: Packet, i: nat, used: nat): (w: Walk)
    ensures w.End? ==> i < w.at <= |pkt|
    decreases |pkt| - i
  {
    if i >= |pkt| then Bad
    else
      var lab := pkt[i];
      if lab == 0 then (if used + 1 > MaxName then Bad else End(i + 1))
      else if lab / 64 != 0 then Bad
      else if used + 1 + lab > MaxName || i + 1 + lab > |pkt| then Bad
      else WalkName(pkt, i + 1 + lab, used + 1 + lab)
  }

  lemma EncodedCons(l: seq<Byte>, ls: seq<seq<Byte>>)
    requires IsLabel(l) && AreLabels(ls)
    ensures AreLabels([l] + ls) && Encoded([l] + ls) == [|l|] + l + Encoded(ls)
  {
    assert ([l] + ls)[1..] == ls;
  }

  lemma Pieces(pkt: Packet, i: nat, j: nat, e: nat)
    requires i < j <= e <= |pkt|
    ensures pkt[i..e] == [pkt[i]] + pkt[i + 1..j] + pkt[j..e]
  {
  }

  /** A label in front of a name is a name. */
  lemma NameCons(pkt: Packet, i: nat, e: nat, rest: seq<seq<Byte>>)
    requires i < |pkt| && 1 <= pkt[i] <= 63 && i + 1 + pkt[i] <= e <= |pkt|
    requires AreLabels(rest) && pkt[i + 1 + pkt[i]..e] == Encoded(rest)
    ensures var l := pkt[i + 1..i + 1 + pkt[i]];
            AreLabels([l] + rest) && pkt[i..e] == Encoded([l] + rest)
              && |Encoded([l] + rest)| == 1 + |l| + |Encoded(rest)|
  {
    var j := i + 1 + pkt[i];
    EncodedCons(pkt[i + 1..j], rest);
    Pieces(pkt, i, j, e);
  }

  /** What the walk accepts is a name. */
  lemma {:induction false} WalkIsName(pkt: Packet, i: nat, used: nat) returns (ls: seq<seq<Byte>>)
    requires WalkName(pkt, i, used).End?
    ensures AreLabels(ls) && pkt[i..WalkName(pkt, i, used).at] == Encoded(ls) && used + |Encoded(ls)| <= MaxName
    decreases |pkt| - i
  {
    var e, lab := WalkName(pkt, i, used).at, pkt[i];
    if lab == 0 {
      ls := [];
      assert pkt[i..e] == [pkt[i]];
    } else {
      var j := i + 1 + lab;
      var rest := WalkIsName(pkt, j, used + 1 + lab);
      NameCons(pkt, i, e, rest);
      ls := [pkt[i + 1..j]] + rest;
    }
  }

  /** The parts of a name that begins with a label. */
  lemma NameSplits(pkt: Packet, i: nat, e: nat, ls: seq<seq<Byte>>)
    requires i <= e <= |pkt| && ls != [] && AreLabels(ls) && pkt[i..e] == Encoded(ls)
    ensures i < e && pkt[i] == |ls[0]| && i + 1 + |ls[0]| <= e && pkt[i + 1 + |ls[0]|..e] == Encoded(ls[1..])
    ensures |Encoded(ls)| == 1 + |ls[0]| + |Encoded(ls[1..])|
  {
    var name, lab := pkt[i..e], |ls[0]|;
    assert name == [lab] + ls[0] + Encoded(ls[1..]);
    assert pkt[i] == name[0];
    assert pkt[i + 1 + lab..e] == name[1 + lab..];
    assert name[1 + lab..] == Encoded(ls[1..]);
  }

  /** Every name is accepted, and ends where the walk says. */
  lemma {:induction false} NameIsWalked(pkt: Packet, i: nat, e: nat, used: nat, ls: seq<seq<Byte>>)
    requires i <= e <= |pkt| && AreLabels(ls) && pkt[i..e] == Encoded(ls) && used + |Encoded(ls)| <= MaxName
    ensures WalkName(pkt, i, used) == End(e)
    decreases |ls|
  {
    if ls == [] {
      assert pkt[i] == pkt[i..e][0];
    } else {
      NameSplits(pkt, i, e, ls);
      NameIsWalked(pkt, i + 1 + |ls[0]|, e, used + 1 + |ls[0]|, ls[1..]);
    }
  }

  lemma WalkDecides(pkt: Packet, e: nat)
    ensures WalkName(pkt, HeaderLen, 0) == End(e) <==> NameAt(pkt, HeaderLen, e, 0)
  {
    if WalkName(pkt, HeaderLen, 0) == End(e) { var ls := WalkIsName(pkt, HeaderLen, 0); }
    if NameAt(pkt, HeaderLen, e, 0) {
      var ls :| AreLabels(ls) && pkt[HeaderLen..e] == Encoded(ls) && 0 + |Encoded(ls)| <= MaxName;
      NameIsWalked(pkt, HeaderLen, e, 0, ls);
    }
  }

  /** The label loop of overflowQuestionEnd. */
  method ScanName(pkt: Packet) returns (ok: bool, end: nat)
    requires |pkt| >= HeaderLen
    ensures WalkName(pkt, HeaderLen, 0) == if ok then End(end) else Bad
  {
    var i, consumed := HeaderLen, 0;
    while true
      invariant HeaderLen <= i <= |pkt| && consumed >= 0
      invariant WalkName(pkt, i, consumed) == WalkName(pkt, HeaderLen, 0)
      decreases |pkt| - i
    {
      if i >= |pkt| {
        return false, 0;
      }
      var lab := pkt[i];
      if lab == 0 {
        consumed := consumed + 1;
        if consumed > MaxName {
          return false, 0;
        }
        return true, i + 1;
      }
      if lab / 64 != 0 {
        return false, 0;
      }
      if consumed + 1 + lab > MaxName || i + 1 + lab > |pkt| {
        return false, 0;
      }
      consumed := consumed + 1 + lab;
      i := i + 1 + lab;
    }
  }

  /** overflowQuestionEnd accepts exactly the packets that begin with one well-formed question. */
  method OverflowQuestionEnd(pkt: Packet) returns (end: nat, ok: bool)
    ensures ok ==> QuestionEndsAt(pkt, end)
    ensures forall e: nat :: QuestionEndsAt(pkt, e) ==> ok && e == end
  {
    if |pkt| < HeaderLen || QR(pkt[2]) != 0 || pkt[4] != 0 || pkt[5] != 1 {
      return 0, false;
    }
    var named, at := ScanName(pkt);
    forall e: nat | QuestionEndsAt(pkt, e) ensures named && at == e - 4 { WalkDecides(pkt, e - 4); }
    if !named || at + 4 > |pkt| {
      return 0, false;
    }
    WalkDecides(pkt, at);
    return at + 4, true;
  }

  // ---------------------------------------------------------------- the reply

  /** QR set, opcode and RD kept, AA and TC clear. */
  function ReplyHigh(hi: Byte): (out: Byte)
    ensures QR(out) == 1 && Opcode(out) == Opcode(hi) && AA(out) == 0 && TC(out) == 0 && RD(out) == RD(hi)
  {
    128 + hi / 8 % 16 * 8 + hi % 2
  }

  /** CD kept, RA and AD clear, RCODE 2. */
  function ReplyLow(lo: Byte): (out: Byte)
    ensures RA(out) == 0 && AD(out) == 0 && CD(out) == CD(lo) && RCode(out) == 2
  {
    lo / 16 % 2 * 16 + 2
  }

  /** The reply to a query with its question ending at `end`: the ID and question of the query, no
      records, SERVFAIL. */
  ghost predicate IsReply(pkt: Packet, end: nat, reply: Packet)
    requires HeaderLen <= end <= |pkt|
  {
    && |reply| == end
    && reply[..2] == pkt[..2]
    && QR(reply[2]) == 1 && Opcode(reply[2]) == Opcode(pkt[2]) && RD(reply[2]) == RD(pkt[2])
    && AA(reply[2]) == TC(reply[2]) == 0
    && CD(reply[3]) == CD(pkt[3]) && RA(reply[3]) == AD(reply[3]) == 0 && RCode(reply[3]) == 2
    && reply[4..HeaderLen] == [0, 1, 0, 0, 0, 0, 0, 0]
    && reply[HeaderLen..] == pkt[HeaderLen..end]
  }

  /** buildOverflowServfail */
  method BuildOverflowServfail(pkt: Packet, end: nat) returns (reply: array<Byte>)
    requires HeaderLen <= end <= |pkt|
    ensures fresh(reply) && IsReply(pkt, end, reply[..])
  {
    reply := new Byte[end](i requires 0 <= i < end => pkt[i]);
    reply[2], reply[3] := ReplyHigh(pkt[2]), ReplyLow(pkt[3]);
    reply[4], reply[5] := 0, 1;
    reply[6], reply[7], reply[8], reply[9], reply[10], reply[11] := 0, 0, 0, 0, 0, 0;
    assert reply[..][4..HeaderLen] == [0, 1, 0, 0, 0, 0, 0, 0];
  }

  /** A reply is not longer than its query, and no overloaded server answers it again. */
  lemma ReplyIsFinal(pkt: Packet, end: nat, reply: Packet, e: nat)
    requires QuestionEndsAt(pkt, end) && IsReply(pkt, end, reply)
    ensures |reply| <= |pkt| && !QuestionEndsAt(reply, e)
  {
  }

  // ---------------------------------------------------------------- the token bucket

  datatype Bucket = Bucket(tokens: real, last: real)

  /** Refill for the time since `last`; a clock that stepped back adds nothing and moves nothing. */
  function Refilled(b: Bucket, rate: real, burst: real, now: real): Bucket {
    if now <= b.last then b
    else
      var t := b.tokens + (now - b.last) * rate;
      Bucket(if t > burst then burst else t, now)
  }

  function Allowed(b: Bucket, rate: real, burst: real, now: real): (bool, Bucket) {
    var r := Refilled(b, rate, burst, now);
    if r.tokens < 1.0 then (false, r) else (true, r.(tokens := r.tokens - 1.0))
  }

  class Limiter {
    const disabled: bool
    const rate: real
    const burst: real
    var tokens: real
    var last: real

    ghost function Value(): Bucket
      reads this
    {
      Bucket(tokens, last)
    }

    constructor (r: real, b: real, now: real)
      ensures disabled == (r < 0.0) && rate == r && burst == (if b < 1.0 then 1.0 else b)
      ensures Value() == Bucket(burst, now)
    {
      disabled := r < 0.0;
      rate := r;
      burst := if b < 1.0 then 1.0 else b;
      tokens := if b < 1.0 then 1.0 else b;
      last := now;
    }

    method Allow(now: real) returns (ok: bool)
      modifies this
      ensures disabled ==> !ok && Value() == old(Value())
      ensures !disabled ==> (ok, Value()) == Allowed(old(Value()), rate, burst, now)
    {
      if disabled {
        return false;
      }
      var elapsed := now - last;
      if elapsed > 0.0 {
        tokens := tokens + elapsed * rate;
        if tokens > burst {
          tokens := burst;
        }
        last := now;
      }
      if tokens < 1.0 {
        return false;
      }
      tokens := tokens - 1.0;
      return true;
    }

    /** replyInflightOverflow: a malformed packet is dropped without spending a token. */
    method Respond(pkt: Packet, now: real) returns (reply: array?<Byte>)
      modifies this
      ensures (forall e: nat :: !QuestionEndsAt(pkt, e)) ==> reply == null && Value() == old(Value())
      ensures forall e: nat :: QuestionEndsAt(pkt, e) ==>
                && (reply != null <==> !disabled && Allowed(old(Value()), rate, burst, now).0)
                && Value() == (if disabled then old(Value()) else Allowed(old(Value()), rate, burst, now).1)
                && (reply != null ==> IsReply(pkt, e, reply[..]))
    {
      var end, ok := OverflowQuestionEnd(pkt);
      if !ok {
        return null;
      }
      var pass := Allow(now);
      if !pass {
        return null;
      }
      reply := BuildOverflowServfail(pkt, end);
    }
  }

  /** The bucket and the number of replies let through, after calls at the given times. */
  function Drain(rate: real, burst: real, start: real, times: seq<real>): (Bucket, nat) {
    if times == [] then (Bucket(burst, start), 0)
    else
      var (b, n) := Drain(rate, burst, start, times[..|times| - 1]);
      var (ok, b') := Allowed(b, rate, burst, times[|times| - 1]);
      (b', if ok then n + 1 else n)
  }

  /** A full bucket lets its burst through at once. */
  lemma {:induction false} BurstIsServed(rate: real, burst: real, start: real, times: seq<real>)
    requires |times| as real <= burst && forall i :: 0 <= i < |times| ==> times[i] <= start
    ensures Drain(rate, burst, start, times) == (Bucket(burst - |times| as real, start), |times|)
    decreases |times|
  {
    if times != [] { BurstIsServed(rate, burst, start, times[..|times| - 1]); }
  }

  /** Whatever was spent before, a call is let through once time enough for one token has passed. */
  lemma WaitIsServed(b: Bucket, rate: real, burst: real, now: real)
    requires b.tokens >= 0.0 && burst >= 1.0 && now > b.last && (now - b.last) * rate >= 1.0
    ensures Allowed(b, rate, burst, now).0
  {
    var gain := (now - b.last) * rate;
    assert Refilled(b, rate, burst, now).tokens == if b.tokens + gain > burst then burst else b.tokens + gain;
  }

  lemma Product(a: real, b: real)
    requires a >= 0.0 && b >= 0.0
    ensures a * b >= 0.0
  {
  }

  lemma Distributes(a: real, b: real, c: real)
    ensures (a + b) * c == a * c + b * c
  {
  }

  lemma RefillBounded(b: Bucket, rate: real, burst: real, now: real)
    requires rate >= 0.0 && 0.0 <= b.tokens <= burst
    ensures var r := Refilled(b, rate, burst, now);
            0.0 <= r.tokens <= burst && r.last >= b.last && r.tokens <= b.tokens + (r.last - b.last) * rate
  {
    if now > b.last {
      Product(now - b.last, rate);
      var gain := (now - b.last) * rate;
      assert gain >= 0.0 && b.tokens + gain >= 0.0;
    } else {
      assert (b.last - b.last) * rate == 0.0;
    }
  }

  /** One call keeps replies plus tokens within burst plus rate times elapsed time. */
  lemma AllowBounded(b: Bucket, n: nat, rate: real, burst: real, start: real, now: real)
    requires rate >= 0.0 && burst >= 1.0 && 0.0 <= b.tokens <= burst && b.last >= start
    requires n as real + b.tokens <= burst + (b.last - start) * rate
    ensures var (ok, b') := Allowed(b, rate, burst, now);
            && 0.0 <= b'.tokens <= burst && b'.last >= start
            && (if ok then n + 1 else n) as real + b'.tokens <= burst + (b'.last - start) * rate
  {
    RefillBounded(b, rate, burst, now);
    var r := Refilled(b, rate, burst, now);
    Distributes(r.last - b.last, b.last - start, rate);
    assert (r.last - b.last) + (b.last - start) == r.last - start;
  }

  /** However the clock moves, the replies let through never exceed the burst plus the rate times the
      furthest the clock has got. */
  lemma {:induction false} RateIsBounded(rate: real, burst: real, start: real, times: seq<real>)
    requires rate >= 0.0 && burst >= 1.0
    ensures var (b, n) := Drain(rate, burst, start, times);
            && 0.0 <= b.tokens <= burst && b.last >= start
            && n as real + b.tokens <= burst + (b.last - start) * rate
    decreases |times|
  {
    if times != [] {
      var before := times[..|times| - 1];
      RateIsBounded(rate, burst, start, before);
      var (b, n) := Drain(rate, burst, start, before);
      AllowBounded(b, n, rate, burst, start, times[|times| - 1]);
    }
  }
}
