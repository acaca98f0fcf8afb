/**
 The Engine.IO packet and polling-payload codec: one packet per record, records
 joined by 0x1e, binary data in base64, and a size limit applied while decoding.
 */
module EnginePayload {
  import opened Octets
  import Base64

  const OPEN: Octet := 48       // '0'
  const CLOSE: Octet := 49
  const PING: Octet := 50
  const PONG: Octet := 51
  const MESSAGE: Octet := 52
  const UPGRADE: Octet := 53
  const NOOP: Octet := 54       // '6'

  const BINARY_MARK: Octet := 98 // 'b'
  const SEPARATOR: Octet := 0x1e

  datatype Packet = Packet(kind: Octet, data: Bytes, binary: bool)

  // ---------- one packet ----------

  function EncodePacket(p: Packet, supportsBinary: bool): (r: Bytes)
  {
    if p.binary then
      if supportsBinary then p.data else [BINARY_MARK] + Base64.Encode(p.data)
    else
      [p.kind] + p.data
  }

  function DecodePacket(b: Bytes, isBinary: bool): (r: Option<Packet>)
  {
    if isBinary then Some(Packet(MESSAGE, b, true))
    else if |b| == 0 then None
    else if b[0] == BINARY_MARK then
      match Base64.Decode(b[1..])
      case None => None
      case Some(data) => Some(Packet(MESSAGE, data, true))
    else if b[0] < OPEN || b[0] > NOOP then None
    else Some(Packet(b[0], b[1..], false))
  }

  /** What a packet must look like to survive a polling payload. */
  predicate Sendable(p: Packet) {
    if p.binary then p.kind == MESSAGE
    else OPEN <= p.kind <= NOOP && SEPARATOR !in p.data
  }

  /** A packet survives its own record exactly when its type is legal for its data. */
  lemma PacketRoundTrip(p: Packet)
    ensures DecodePacket(EncodePacket(p, false), false) == Some(p)
       <==> (if p.binary then p.kind == MESSAGE else OPEN <= p.kind <= NOOP)
  {
    var b := EncodePacket(p, false);
    if p.binary {
      Base64.RoundTrip(p.data);
      assert b[1..] == Base64.Encode(p.data);
    } else {
      assert b[0] == p.kind && b[1..] == p.data;
    }
  }

  /** Over the websocket a packet is its own frame, and only the frame kind tells binary from text. */
  lemma FrameRoundTrip(p: Packet)
    requires if p.binary then p.kind == MESSAGE else OPEN <= p.kind <= NOOP
    ensures DecodePacket(EncodePacket(p, true), p.binary) == Some(p)
  {
    if !p.binary {
      assert EncodePacket(p, true)[1..] == p.data;
    }
  }

  // ---------- records ----------

  /** The records of a payload: the stretches between separators. */
  function Split(b: Bytes): (parts: seq<Bytes>)
    ensures |parts| > 0
  {
    if |b| == 0 then [[]]
    else
      var rest := Split(b[1..]);
      if b[0] == SEPARATOR then [[]] + rest else [[b[0]] + rest[0]] + rest[1..]
  }

  function Join(parts: seq<Bytes>): (b: Bytes)
    requires |parts| > 0
  {
    if |parts| == 1 then parts[0] else parts[0] + [SEPARATOR] + Join(parts[1..])
  }

  function Separators(b: Bytes): (n: nat)
  {
    if |b| == 0 then 0 else (if b[0] == SEPARATOR then 1 else 0) + Separators(b[1..])
  }

  lemma {:induction false} JoinSplit(b: Bytes)
    ensures Join(Split(b)) == b
  {
    if |b| > 0 {
      JoinSplit(b[1..]);
      var rest := Split(b[1..]);
      if b[0] == SEPARATOR {
        assert ([[]] + rest)[1..] == rest;
      } else {
        var parts := [[b[0]] + rest[0]] + rest[1..];
        assert parts[1..] == rest[1..];
      }
      assert b == [b[0]] + b[1..];
    }
  }

  lemma {:induction false} SplitCount(b: Bytes)
    ensures |Split(b)| == Separators(b) + 1
  {
    if |b| > 0 {
      SplitCount(b[1..]);
    }
  }

  lemma {:induction false} SeparatorsConcat(a: Bytes, b: Bytes)
    ensures Separators(a + b) == Separators(a) + Separators(b)
  {
    if |a| == 0 {
      assert a + b == b;
    } else {
      SeparatorsConcat(a[1..], b);
      assert (a + b)[1..] == a[1..] + b;
    }
  }

  lemma {:induction false} SeparatorsZero(b: Bytes)
    ensures Separators(b) == 0 <==> SEPARATOR !in b
  {
    if |b| > 0 {
      SeparatorsZero(b[1..]);
      assert b == [b[0]] + b[1..];
    }
  }

  /** A separator-free record in front of a separator splits off whole. */
  lemma {:induction false} SplitFront(part: Bytes, tail: Bytes)
    requires SEPARATOR !in part
    ensures Split(part + [SEPARATOR] + tail) == [part] + Split(tail)
    ensures Split(part) == [part]
  {
    var b := part + [SEPARATOR] + tail;
    if |part| == 0 {
      assert b == [SEPARATOR] + tail;
      assert b[1..] == tail;
    } else {
      assert part == [part[0]] + part[1..];
      assert SEPARATOR !in part[1..];
      SplitFront(part[1..], tail);
      assert b[1..] == part[1..] + [SEPARATOR] + tail;
    }
  }

  lemma {:induction false} SplitJoin(parts: seq<Bytes>)
    requires |parts| > 0
    requires forall i :: 0 <= i < |parts| ==> SEPARATOR !in parts[i]
    ensures Split(Join(parts)) == parts
  {
    if |parts| == 1 {
      SplitFront(parts[0], []);
      assert parts == [parts[0]];
    } else {
      var rest := parts[1..];
      SplitJoin(rest);
      SplitFront(parts[0], Join(rest));
      assert parts == [parts[0]] + rest;
    }
  }

  function Records(ps: seq<Packet>): (parts: seq<Bytes>)
    ensures |parts| == |ps|
  {
    seq(|ps|, i requires 0 <= i < |ps| => EncodePacket(ps[i], false))
  }

  function EncodeAll(ps: seq<Packet>): (b: Bytes)
  {
    if |ps| == 0 then [] else Join(Records(ps))
  }

  lemma {:induction false} JoinSnoc(parts: seq<Bytes>, last: Bytes)
    requires |parts| > 0
    ensures Join(parts + [last]) == Join(parts) + [SEPARATOR] + last
  {
    if |parts| == 1 {
      assert (parts + [last])[1..] == [last];
    } else {
      JoinSnoc(parts[1..], last);
      assert (parts + [last])[1..] == parts[1..] + [last];
    }
  }

  /** The program's encoding loop. */
  method EncodePayload(pkts: seq<Packet>) returns (buf: Bytes)
    ensures buf == EncodeAll(pkts)
  {
    buf := [];
    for i := 0 to |pkts|
      invariant buf == EncodeAll(pkts[..i])
    {
      ghost var before := buf;
      if i > 0 {
        buf := buf + [SEPARATOR];
      }
      buf := buf + EncodePacket(pkts[i], false);
      assert Records(pkts[..i + 1]) == Records(pkts[..i]) + [EncodePacket(pkts[i], false)];
      if i > 0 {
        JoinSnoc(Records(pkts[..i]), EncodePacket(pkts[i], false));
      }
    }
    assert pkts[..|pkts|] == pkts;
  }

  // ---------- decoding under a limit ----------

  datatype Failure = TooLarge | Invalid

  /** Packets decoded so far, and the error that stopped decoding, if any. */
  datatype Outcome = Outcome(pkts: seq<Packet>, failure: Option<Failure>)

  function Total(parts: seq<Bytes>): (n: nat)
  {
    if |parts| == 0 then 0 else |parts[0]| + Total(parts[1..])
  }

  /** Decoding of the records from the one at hand on, with `spent` bytes used up. */
  function DecodeFrom(parts: seq<Bytes>, maxPayload: int, spent: nat): (r: Outcome)
  {
    if |parts| == 0 then Outcome([], None)
    else if maxPayload > 0 && |parts[0]| > maxPayload then Outcome([], Some(TooLarge))
    else if maxPayload > 0 && spent + |parts[0]| > maxPayload then Outcome([], None)
    else
      match DecodePacket(parts[0], false)
      case None => Outcome([], Some(Invalid))
      case Some(p) =>
        var rest := DecodeFrom(parts[1..], maxPayload, spent + |parts[0]|);
        Outcome([p] + rest.pkts, rest.failure)
  }

  function DecodeLimited(b: Bytes, maxPayload: int): (r: Outcome)
  {
    if |b| == 0 then Outcome([], None) else DecodeFrom(Split(b), maxPayload, 0)
  }

  lemma {:induction false} TotalConcat(a: seq<Bytes>, b: seq<Bytes>)
    ensures Total(a + b) == Total(a) + Total(b)
  {
    if |a| == 0 {
      assert a + b == b;
    } else {
      TotalConcat(a[1..], b);
      assert (a + b)[1..] == a[1..] + b;
    }
  }

  /** Records and the separators between them are all of the payload. */
  lemma {:induction false} JoinLength(parts: seq<Bytes>)
    requires |parts| > 0
    ensures |Join(parts)| == Total(parts) + |parts| - 1
  {
    if |parts| > 1 {
      JoinLength(parts[1..]);
    } else {
      assert Total(parts[1..]) == 0;
    }
  }

  lemma SplitLength(b: Bytes)
    ensures |b| == Total(Split(b)) + |Split(b)| - 1
  {
    JoinSplit(b);
    JoinLength(Split(b));
  }

  /**
   The program's decoding loop. The running size is a 64-bit sum, so it could
   wrap; no slice is long enough for that.
   */
  method DecodePayloadWithLimit(b: Bytes, maxPayload: int) returns (out: seq<Packet>, failure: Option<Failure>)
    requires |b| <= MAX_INT64
    requires maxPayload <= MAX_INT64
    ensures Outcome(out, failure) == DecodeLimited(b, maxPayload)
  {
    out, failure := [], None;
    if |b| == 0 {
      return;
    }
    var parts := Split(b);
    SplitLength(b);
    var decoded := 0;
    ghost var spent: nat := 0;
    var i := 0;
    while i < |parts|
      invariant 0 <= i <= |parts|
      invariant spent + Total(parts[i..]) == Total(parts)
      invariant maxPayload > 0 ==> decoded == spent
      invariant DecodeFrom(parts, maxPayload, 0)
             == Prepend(out, DecodeFrom(parts[i..], maxPayload, spent))
    {
      var part := parts[i];
      assert parts[i..][1..] == parts[i + 1..];
      assert spent + |part| <= |b|;
      if maxPayload > 0 {
        var size := |part|;
        if size > maxPayload {
          return out, Some(TooLarge);
        }
        if Wrap64(decoded + size) > maxPayload {
          return;
        }
        decoded := Wrap64(decoded + size);
      }
      var p := DecodePacket(part, false);
      if p == None {
        return out, Some(Invalid);
      }
      spent := spent + |part|;
      PrependStep(out, p.value, DecodeFrom(parts[i + 1..], maxPayload, spent));
      out := out + [p.value];
      i := i + 1;
    }
  }

  function Prepend(front: seq<Packet>, r: Outcome): (s: Outcome)
  {
    Outcome(front + r.pkts, r.failure)
  }

  lemma PrependStep(front: seq<Packet>, p: Packet, r: Outcome)
    ensures Prepend(front, Outcome([p] + r.pkts, r.failure)) == Prepend(front + [p], r)
  {
  }

  // ---------- what the limit means ----------

  predicate Oversize(parts: seq<Bytes>, maxPayload: int, i: nat)
    requires i < |parts|
  {
    maxPayload > 0 && |parts[i]| > maxPayload
  }

  predicate Overflowing(parts: seq<Bytes>, maxPayload: int, i: nat)
    requires i < |parts|
  {
    maxPayload > 0 && Total(parts[..i + 1]) > maxPayload
  }

  predicate Malformed(parts: seq<Bytes>, i: nat)
    requires i < |parts|
  {
    DecodePacket(parts[i], false) == None
  }

  /** Records 0..n-1 decode to `pkts`, fit one by one and fit together. */
  predicate Accepts(parts: seq<Bytes>, maxPayload: int, pkts: seq<Packet>)
  {
    && |pkts| <= |parts|
    && forall i :: 0 <= i < |pkts| ==>
         && !Oversize(parts, maxPayload, i)
         && !Overflowing(parts, maxPayload, i)
         && DecodePacket(parts[i], false) == Some(pkts[i])
  }

  /** The whole meaning of a limited decoding: the first offending record decides. */
  predicate FirstOffender(parts: seq<Bytes>, maxPayload: int, r: Outcome)
  {
    && Accepts(parts, maxPayload, r.pkts)
    && var n := |r.pkts|;
       if n == |parts| then r.failure == None
       else if Oversize(parts, maxPayload, n) then r.failure == Some(TooLarge)
       else if Overflowing(parts, maxPayload, n) then r.failure == None
       else Malformed(parts, n) && r.failure == Some(Invalid)
  }

  lemma TakeTotal(parts: seq<Bytes>, i: nat)
    requires 0 < |parts| && i < |parts|
    ensures Total(parts[..i + 1]) == |parts[0]| + Total(parts[1..][..i])
  {
    assert parts[..i + 1][1..] == parts[1..][..i];
  }

  lemma {:induction false} DecodeFromMeaning(parts: seq<Bytes>, maxPayload: int, spent: nat)
    ensures var r := DecodeFrom(parts, maxPayload, spent);
            var n := |r.pkts|;
            && n <= |parts|
            && (forall i :: 0 <= i < n ==>
                  && DecodePacket(parts[i], false) == Some(r.pkts[i])
                  && (maxPayload > 0 ==>
                        |parts[i]| <= maxPayload && spent + Total(parts[..i + 1]) <= maxPayload))
            && (n == |parts| ==> r.failure == None)
            && (n < |parts| ==>
                  if maxPayload > 0 && |parts[n]| > maxPayload then r.failure == Some(TooLarge)
                  else if maxPayload > 0 && spent + Total(parts[..n + 1]) > maxPayload then r.failure == None
                  else DecodePacket(parts[n], false) == None && r.failure == Some(Invalid))
  {
    var r := DecodeFrom(parts, maxPayload, spent);
    if |parts| > 0 {
      forall i | 0 <= i < |parts|
        ensures Total(parts[..i + 1]) == |parts[0]| + Total(parts[1..][..i])
      {
        TakeTotal(parts, i);
      }
      assert Total(parts[1..][..0]) == 0;
      if |r.pkts| > 0 {
        DecodeFromMeaning(parts[1..], maxPayload, spent + |parts[0]|);
      }
    }
  }

  /** Limited decoding reports exactly the first record that is oversize, overflowing or malformed. */
  lemma LimitIsExact(b: Bytes, maxPayload: int)
    requires |b| > 0
    ensures FirstOffender(Split(b), maxPayload, DecodeLimited(b, maxPayload))
  {
    DecodeFromMeaning(Split(b), maxPayload, 0);
  }

  /** ... and nothing else satisfies that description. */
  lemma OffenderIsUnique(parts: seq<Bytes>, maxPayload: int, r: Outcome, s: Outcome)
    requires FirstOffender(parts, maxPayload, r) && FirstOffender(parts, maxPayload, s)
    ensures r == s
  {
    if |r.pkts| == |s.pkts| {
      assert forall i :: 0 <= i < |r.pkts| ==> Some(r.pkts[i]) == DecodePacket(parts[i], false) == Some(s.pkts[i]);
    }
  }

  lemma {:induction false} TotalMonotone(parts: seq<Bytes>, i: nat, j: nat)
    requires i <= j <= |parts|
    ensures Total(parts[..i]) <= Total(parts[..j])
    ensures i < j ==> |parts[i]| + Total(parts[..i]) <= Total(parts[..j])
  {
    assert parts[..j] == parts[..i] + parts[i..j];
    TotalConcat(parts[..i], parts[i..j]);
  }

  /** A successful limited decoding keeps the longest prefix of records that fits the limit. */
  lemma KeepsLongestPrefix(b: Bytes, maxPayload: int, k: nat)
    requires |b| > 0 && maxPayload > 0
    requires DecodeLimited(b, maxPayload).failure == None
    requires k <= |Split(b)|
    ensures Total(Split(b)[..k]) <= maxPayload <==> k <= |DecodeLimited(b, maxPayload).pkts|
  {
    var parts, n := Split(b), |DecodeLimited(b, maxPayload).pkts|;
    LimitIsExact(b, maxPayload);
    assert Total(parts[..0]) == 0;
    if n > 0 {
      assert !Overflowing(parts, maxPayload, n - 1);
    }
    if k <= n {
      TotalMonotone(parts, k, n);
    } else {
      assert Overflowing(parts, maxPayload, n);
      TotalMonotone(parts, n + 1, k);
    }
  }

  // ---------- the HTTP size gate ----------

  /**
   Reads a POST body through a limited reader of maxBufferSize+1 bytes and
   rejects it when more than maxBufferSize bytes arrived. The bound is a 64-bit
   sum and a non-positive bound reads nothing.
   */
  function ReadBody(sent: Bytes, maxBufferSize: int): (body: Bytes)
  {
    var n := Wrap64(maxBufferSize + 1);
    if n <= 0 then [] else if |sent| <= n then sent else sent[..n]
  }

  predicate PassesGate(sent: Bytes, maxBufferSize: int)
  {
    |ReadBody(sent, maxBufferSize)| <= maxBufferSize
  }

  lemma UnlimitedWhenSmall(parts: seq<Bytes>, maxPayload: int, spent: nat)
    requires maxPayload <= 0 || spent + Total(parts) <= maxPayload
    ensures DecodeFrom(parts, maxPayload, spent) == DecodeFrom(parts, 0, 0)
  {
    if |parts| > 0 {
      UnlimitedWhenSmall(parts[1..], maxPayload, spent + |parts[0]|);
      UnlimitedWhenSmall(parts[1..], 0, |parts[0]|);
    }
  }

  /** Behind the gate the limit never bites: truncation and too-large cannot happen there. */
  lemma GateMakesLimitIdle(sent: Bytes, maxBufferSize: int)
    requires -MAX_INT64 - 1 <= maxBufferSize <= MAX_INT64
    requires PassesGate(sent, maxBufferSize)
    ensures var body := ReadBody(sent, maxBufferSize);
            DecodeLimited(body, maxBufferSize) == DecodeLimited(body, 0)
  {
    var body := ReadBody(sent, maxBufferSize);
    if |body| > 0 {
      SplitLength(body);
      UnlimitedWhenSmall(Split(body), maxBufferSize, 0);
    }
  }

  /**
   The body decoded is the body sent exactly when the bound does not wrap: at
   the largest limit the reader is told to read a negative number of bytes.
   */
  lemma GatePassesWholeBody(sent: Bytes, maxBufferSize: int)
    requires 0 <= maxBufferSize <= MAX_INT64 && |sent| <= MAX_INT64
    ensures PassesGate(sent, maxBufferSize) && ReadBody(sent, maxBufferSize) == sent
       <==> |sent| <= maxBufferSize && (maxBufferSize < MAX_INT64 || sent == [])
  {
  }

  lemma LargestLimitReadsNothing()
    ensures PassesGate([MESSAGE], MAX_INT64) && ReadBody([MESSAGE], MAX_INT64) == []
  {
  }

  // ---------- round trip ----------

  lemma {:induction false} JoinSeparators(parts: seq<Bytes>)
    requires |parts| > 0
    ensures Separators(Join(parts)) >= |parts| - 1
    ensures forall i :: 0 <= i < |parts| && SEPARATOR in parts[i] ==> Separators(Join(parts)) > |parts| - 1
  {
    SeparatorsZero(parts[0]);
    if |parts| > 1 {
      JoinSeparators(parts[1..]);
      SeparatorsConcat(parts[0] + [SEPARATOR], Join(parts[1..]));
      SeparatorsConcat(parts[0], [SEPARATOR]);
      assert parts == [parts[0]] + parts[1..];
    }
  }

  lemma {:induction false} DecodeEach(parts: seq<Bytes>)
    requires forall i :: 0 <= i < |parts| ==> DecodePacket(parts[i], false).Some?
    ensures DecodeFrom(parts, 0, 0).failure == None
    ensures |DecodeFrom(parts, 0, 0).pkts| == |parts|
    ensures forall i :: 0 <= i < |parts| ==> Some(DecodeFrom(parts, 0, 0).pkts[i]) == DecodePacket(parts[i], false)
  {
    if |parts| > 0 {
      DecodeEach(parts[1..]);
      UnlimitedWhenSmall(parts[1..], 0, |parts[0]|);
    }
  }

  lemma RecordSeparatorFree(p: Packet)
    requires Sendable(p)
    ensures SEPARATOR !in EncodePacket(p, false)
  {
    if p.binary {
      var code := Base64.Encode(p.data);
      Base64.EncodeIsCode(p.data);
      forall i | 0 <= i < |code|
        ensures code[i] != SEPARATOR
      {
      }
    }
  }

  /** A list of packets survives a polling payload exactly when each packet is sendable. */
  lemma PayloadRoundTrip(ps: seq<Packet>)
    ensures DecodeLimited(EncodeAll(ps), 0) == Outcome(ps, None)
       <==> forall i :: 0 <= i < |ps| ==> Sendable(ps[i])
  {
    if |ps| > 0 {
      if forall i :: 0 <= i < |ps| ==> Sendable(ps[i]) {
        SendableRoundTrip(ps);
      } else if DecodeLimited(EncodeAll(ps), 0) == Outcome(ps, None) {
        SurvivorsAreSendable(ps);
      }
    }
  }

  lemma EncodedNotEmpty(ps: seq<Packet>)
    requires |ps| > 0
    ensures |EncodeAll(ps)| > 0
  {
    assert |EncodePacket(ps[0], false)| > 0;
  }

  lemma SendableRoundTrip(ps: seq<Packet>)
    requires |ps| > 0 && forall i :: 0 <= i < |ps| ==> Sendable(ps[i])
    ensures DecodeLimited(EncodeAll(ps), 0) == Outcome(ps, None)
  {
    var parts := Records(ps);
    EncodedNotEmpty(ps);
    forall i | 0 <= i < |ps|
      ensures SEPARATOR !in parts[i] && DecodePacket(parts[i], false) == Some(ps[i])
    {
      RecordSeparatorFree(ps[i]);
      PacketRoundTrip(ps[i]);
    }
    SplitJoin(parts);
    DecodeEach(parts);
    assert DecodeFrom(parts, 0, 0).pkts == ps;
  }

  lemma SurvivorsAreSendable(ps: seq<Packet>)
    requires |ps| > 0 && DecodeLimited(EncodeAll(ps), 0) == Outcome(ps, None)
    ensures forall i :: 0 <= i < |ps| ==> Sendable(ps[i])
  {
    var parts := Records(ps);
    EncodedNotEmpty(ps);
    LimitIsExact(EncodeAll(ps), 0);
    SplitCount(Join(parts));
    JoinSeparators(parts);
    SplitJoin(parts);
    forall i | 0 <= i < |ps|
      ensures Sendable(ps[i])
    {
      PacketRoundTrip(ps[i]);
      assert DecodePacket(parts[i], false) == Some(ps[i]);
      if !ps[i].binary {
        assert parts[i] == [ps[i].kind] + ps[i].data;
        assert SEPARATOR !in parts[i];
      }
    }
  }
}
