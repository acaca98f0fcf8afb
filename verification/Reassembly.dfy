/**
 From packet to frames and back: the sender splits a packet into one text frame
 and its binary attachments, the receiver scans text frames, collects
 attachments and dispatches restored packets.
 */
module Reassembly {
  import opened Octets
  import opened BinarySplit
  import J = Json
  import T = PacketText

  datatype Frame = Text(text: Bytes) | Blob(blob: Bytes)

  /** A packet above the wire: its payload may hold binary leaves. */
  datatype Message = Message(kind: Octet, nsp: Bytes, id: int, data: Value)

  // ---------- sending ----------

  /** A value with no binary leaf is its own JSON. */
  function PlainJson(v: Value): (d: J.Json)
  {
    match v
    case Null => J.Null
    case Bool(b) => J.Bool(b)
    case Num(n) => J.Num(n)
    case Str(s) => J.Str(s)
    case Raw(_) => J.Null
    case Reader(_) => J.Null
    case Arr(xs) => J.Arr(seq(|xs|, i requires 0 <= i < |xs| => PlainJson(xs[i])))
    case Obj(m) => J.Obj(map k | k in m :: PlainJson(m[k]))
  }

  function BinaryKind(kind: Octet): Octet {
    if kind == T.EVENT then T.BINARY_EVENT else if kind == T.ACK then T.BINARY_ACK else kind
  }

  function PlainKind(kind: Octet): Octet {
    if kind == T.BINARY_EVENT then T.EVENT else if kind == T.BINARY_ACK then T.ACK else kind
  }

  function PlainPacket(p: Message): T.Packet {
    T.Packet(p.kind, p.nsp, p.id, PlainJson(p.data), 0)
  }

  function Header(p: Message, d: J.Json, attachments: nat): T.Packet {
    T.Packet(BinaryKind(p.kind), p.nsp, p.id, d, attachments)
  }

  function Blobs(bufs: seq<Bytes>): (fs: seq<Frame>)
    ensures |fs| == |bufs|
  {
    seq(|bufs|, i requires 0 <= i < |bufs| => Blob(bufs[i]))
  }

  /** The frames one send may put on the wire; the split depends on map iteration order. */
  ghost predicate Emits(lib: J.Library, p: Message, frames: seq<Frame>)
  {
    if p.data == Null || !HasBinary(p.data) then
      frames == [Text(T.Encode(lib, PlainPacket(p)))]
    else if Unreadable(p.data) then
      frames == []
    else
      exists d, bufs, where ::
        && SplitInto(p.data, d, 0, bufs, where)
        && frames == [Text(T.Encode(lib, Header(p, d, |bufs|)))] + Blobs(bufs)
  }

  method SendPacket(lib: J.Library, p: Message) returns (frames: seq<Frame>)
    ensures Emits(lib, p, frames)
  {
    if p.data != Null && HasBinary(p.data) {
      ghost var where;
      var d, bufs;
      d, bufs, where := Deconstruct(p.data, []);
      if d == None {
        return [];
      }
      frames := [Text(T.Encode(lib, Header(p, d.value, |bufs|)))];
      for i := 0 to |bufs|
        invariant frames == [Text(T.Encode(lib, Header(p, d.value, |bufs|)))] + Blobs(bufs[..i])
      {
        assert Blobs(bufs[..i + 1]) == Blobs(bufs[..i]) + [Blob(bufs[i])];
        frames := frames + [Blob(bufs[i])];
      }
      assert bufs[..|bufs|] == bufs;
      return;
    }
    return [Text(T.Encode(lib, PlainPacket(p)))];
  }

  // ---------- receiving ----------

  /** Decoded JSON as a payload value, placeholders left alone. */
  function Embed(d: J.Json): (v: Value)
  {
    match d
    case Null => Null
    case Bool(b) => Bool(b)
    case Num(n) => Num(n)
    case Str(s) => Str(s)
    case Arr(xs) => Arr(seq(|xs|, i requires 0 <= i < |xs| => Embed(xs[i])))
    case Obj(m) => Obj(map k | k in m :: Embed(m[k]))
  }

  /** A binary packet waiting for the rest of its attachments. */
  datatype Pending = Pending(pkt: T.Packet, bufs: seq<Bytes>)

  type Recon = Option<Pending>

  function Plainly(pkt: T.Packet, data: Value): Message {
    Message(PlainKind(pkt.kind), pkt.nsp, pkt.id, data)
  }

  /** One frame: the next reconstruction state and what is dispatched at this frame. */
  function Receive(lib: J.Library, recon: Recon, f: Frame): (r: (Recon, seq<Message>))
  {
    match f
    case Blob(b) => Feed(recon, b)
    case Text(text) =>
      match T.Decode(lib, text)
      case Err(_) => (recon, [])
      case Ok(pkt) =>
        if T.IsBinary(pkt.kind) && pkt.attachments != 0 then (Some(Pending(pkt, [])), [])
        else (recon, [Plainly(pkt, Embed(pkt.data))])
  }

  function Feed(recon: Recon, b: Bytes): (r: (Recon, seq<Message>))
  {
    match recon
    case None => (None, [])
    case Some(Pending(pkt, bufs)) =>
      var more := bufs + [b];
      if |more| != pkt.attachments then (Some(Pending(pkt, more)), [])
      else (None, [Plainly(pkt, Reconstruct(pkt.data, more))])
  }

  /** The types each end acts on; the server passes over a refused connection. */
  predicate Heeds(server: bool, kind: Octet) {
    T.CONNECT <= kind <= T.ACK || (kind == T.CONNECT_ERROR && !server)
  }

  function Heeded(server: bool, ms: seq<Message>): (out: seq<Message>)
  {
    if ms == [] then []
    else (if Heeds(server, ms[0].kind) then [ms[0]] else []) + Heeded(server, ms[1..])
  }

  /** The receiver of one connection, fed by a single goroutine. */
  class Connection {
    var pending: Option<T.Packet>
    var bufs: seq<Bytes>
    var processed: seq<Message>
    var handled: seq<Message>
    const server: bool
    const lib: J.Library

    ghost function State(): Recon
      reads this
    {
      if pending == None then None else Some(Pending(pending.value, bufs))
    }

    constructor (lib: J.Library, server: bool)
      ensures this.lib == lib && this.server == server && State() == None && processed == handled == []
    {
      this.lib, this.server := lib, server;
      pending, bufs, processed, handled := None, [], [], [];
    }

    method Process(pkt: T.Packet, data: Value)
      modifies this`processed, this`handled
      ensures processed == old(processed) + [Plainly(pkt, data)]
      ensures handled == old(handled) + Heeded(server, [Plainly(pkt, data)])
    {
      var m := Message(PlainKind(pkt.kind), pkt.nsp, pkt.id, data);
      processed := processed + [m];
      match m.kind
      case 48 | 49 | 50 | 51 => handled := handled + [m];
      case 52 => if !server { handled := handled + [m]; }
      case _ =>
    }

    method HandleIn(data: Bytes, binary: bool)
      modifies this
      ensures State() == Receive(lib, old(State()), if binary then Blob(data) else Text(data)).0
      ensures var out := Receive(lib, old(State()), if binary then Blob(data) else Text(data)).1;
              processed == old(processed) + out && handled == old(handled) + Heeded(server, out)
    {
      if binary {
        FeedBinary(data);
        return;
      }
      var r := T.DecodeText(lib, data);
      if r.Err? {
        return;
      }
      var pkt := r.packet;
      if pkt.kind == T.BINARY_EVENT || pkt.kind == T.BINARY_ACK {
        if pkt.attachments == 0 {
          Process(pkt, Embed(pkt.data));
          return;
        }
        pending, bufs := Some(pkt), [];
        return;
      }
      Process(pkt, Embed(pkt.data));
    }

    method FeedBinary(data: Bytes)
      modifies this
      ensures State() == Feed(old(State()), data).0
      ensures var out := Feed(old(State()), data).1;
              processed == old(processed) + out && handled == old(handled) + Heeded(server, out)
    {
      if pending == None {
        return;
      }
      bufs := bufs + [data];
      if |bufs| != pending.value.attachments {
        return;
      }
      var pkt := pending.value;
      pending := None;
      Process(pkt, Reconstruct(pkt.data, bufs));
    }
  }

  // ---------- what the receiver accepts ----------

  predicate GoodHeader(p: Message) {
    && |p.nsp| > 0 && p.nsp[0] == T.SLASH && T.COMMA !in p.nsp
    && -1 <= p.id <= MAX_INT64
    && T.CONNECT <= p.kind <= T.CONNECT_ERROR
  }

  /** A payload the receiving side accepts for this packet type; nothing on the sending side checks it. */
  predicate GoodPayload(kind: Octet, v: Value)
  {
    if kind == T.CONNECT then v.Null? || v.Obj?
    else if kind == T.DISCONNECT then v.Null?
    else if kind == T.CONNECT_ERROR then v.Null? || v.Str? || v.Obj?
    else if kind == T.EVENT then
      v.Null? || (v.Arr? && |v.items| > 0
                  && (v.items[0].Num? || (v.items[0].Str? && v.items[0].s !in T.RESERVED)))
    else kind == T.ACK && (v.Null? || v.Arr?)
  }

  /** Binary data survives only in events and acknowledgements, and not beside a decoy. */
  predicate GoodBinary(p: Message) {
    HasBinary(p.data) ==> (p.kind == T.EVENT || p.kind == T.ACK) && !HasDecoy(p.data)
  }

  /** The types a program sends; the binary ones are chosen by the sender itself. */
  predicate Ordinary(p: Message) {
    T.CONNECT <= p.kind <= T.CONNECT_ERROR
  }

  /** A packet that is dispatched as it was sent or not at all. */
  predicate Good(p: Message) {
    GoodHeader(p) && GoodBinary(p) && !p.data.Num? && !p.data.Bool?
  }

  function Delivered(p: Message): Message {
    p.(data := Resolved(p.data))
  }

  /** What one such packet is worth to the receiver: nothing when a reader fails or the payload is refused. */
  function Worth(p: Message): (out: seq<Message>)
  {
    if Unreadable(p.data) || !GoodPayload(p.kind, p.data) then [] else [Delivered(p)]
  }

  // ---------- plain packets ----------

  lemma {:induction false} PlainRoundTrip(v: Value)
    requires !HasBinary(v)
    ensures Embed(PlainJson(v)) == v == Resolved(v)
    decreases v
  {
    match v
    case Arr(xs) =>
      forall i | 0 <= i < |xs|
        ensures Embed(PlainJson(xs[i])) == xs[i] == Resolved(xs[i])
      {
        PlainRoundTrip(xs[i]);
      }
      assert Embed(PlainJson(v)).items == xs == Resolved(v).items;
    case Obj(m) =>
      forall k | k in m
        ensures Embed(PlainJson(m[k])) == m[k] == Resolved(m[k])
      {
        PlainRoundTrip(m[k]);
      }
      assert Embed(PlainJson(v)).fields == m == Resolved(v).fields;
    case _ =>
  }

  lemma {:induction false} EmbedRoundTrip(d: J.Json)
    ensures PlainJson(Embed(d)) == d && !HasBinary(Embed(d))
    decreases d
  {
    match d
    case Arr(xs) =>
      forall i | 0 <= i < |xs|
        ensures PlainJson(Embed(xs[i])) == xs[i] && !HasBinary(Embed(xs[i]))
      {
        EmbedRoundTrip(xs[i]);
      }
      assert PlainJson(Embed(d)).items == xs;
    case Obj(m) =>
      forall k | k in m
        ensures PlainJson(Embed(m[k])) == m[k] && !HasBinary(Embed(m[k]))
      {
        EmbedRoundTrip(m[k]);
      }
      assert PlainJson(Embed(d)).fields == m;
    case _ =>
  }

  lemma PlainPayload(kind: Octet, v: Value)
    requires T.CONNECT <= kind <= T.CONNECT_ERROR && !HasBinary(v)
    ensures GoodPayload(kind, v) <==> PlainJson(v) == J.Null || T.ValidPayload(kind, PlainJson(v))
  {
    if v.Arr? && |v.items| > 0 {
      assert PlainJson(v).items[0] == PlainJson(v.items[0]);
      assert !HasBinary(v.items[0]);
    }
  }

  lemma {:induction false} UnreadableIsBinary(v: Value)
    requires Unreadable(v)
    ensures HasBinary(v)
    decreases v
  {
    match v
    case Reader(_) =>
    case Arr(xs) =>
      var i :| 0 <= i < |xs| && Unreadable(xs[i]);
      UnreadableIsBinary(xs[i]);
    case Obj(m) =>
      var k :| k in m && Unreadable(m[k]);
      UnreadableIsBinary(m[k]);
  }

  lemma PlainDelivered(lib: J.Library, recon: Recon, p: Message)
    requires J.Lawful(lib) && Good(p) && !HasBinary(p.data)
    ensures Receive(lib, recon, Text(T.Encode(lib, PlainPacket(p)))) == (recon, Worth(p))
  {
    PlainRoundTrip(p.data);
    PlainPayload(p.kind, p.data);
    T.TextReadBack(lib, PlainPacket(p));
    if Unreadable(p.data) {
      UnreadableIsBinary(p.data);
    }
  }

  /** A plain packet, whatever it holds, neither looks at nor changes a reconstruction under way. */
  lemma PlainFrame(lib: J.Library, recon: Recon, p: Message)
    requires Ordinary(p)
    ensures var f := Text(T.Encode(lib, PlainPacket(p)));
            Receive(lib, recon, f) == (recon, Receive(lib, None, f).1)
  {
    var text := T.Encode(lib, PlainPacket(p));
    if T.Decode(lib, text).Ok? {
      T.ScannedKind(lib, text);
    }
  }

  /** Whatever its payload, a plain packet is dispatched as it was sent if and only if the receiver accepts it. */
  lemma PlainIffAccepted(lib: J.Library, recon: Recon, p: Message)
    requires J.Lawful(lib) && GoodHeader(p) && !HasBinary(p.data)
    ensures Receive(lib, recon, Text(T.Encode(lib, PlainPacket(p)))).0 == recon
    ensures Receive(lib, recon, Text(T.Encode(lib, PlainPacket(p)))).1 == [Delivered(p)]
            <==> GoodPayload(p.kind, p.data)
  {
    var pkt := PlainPacket(p);
    var text := T.Encode(lib, pkt);
    PlainRoundTrip(p.data);
    PlainPayload(p.kind, p.data);
    T.TextRoundTrip(lib, pkt);
    if T.Decode(lib, text).Ok? {
      var got := T.Decode(lib, text).packet;
      T.ScannedKind(lib, text);
      T.ScannedIsCanonical(lib, text);
      EmbedRoundTrip(got.data);
      if Plainly(got, Embed(got.data)) == Delivered(p) {
        assert got == pkt;
      }
    }
  }

  // ---------- binary packets ----------

  /** The split payload is accepted exactly when the payload is. */
  lemma SplitPayload(kind: Octet, v: Value, d: J.Json, bufs: seq<Bytes>)
    requires (kind == T.EVENT || kind == T.ACK) && HasBinary(v) && Stands(d, v, bufs)
    ensures d.Arr? || d.Obj?
    ensures T.ValidPayload(BinaryKind(kind), d) <==> GoodPayload(kind, v)
  {
    if v.Arr? && |v.items| > 0 {
      assert Stands(d.items[0], v.items[0], bufs);
    }
  }

  // ---------- end to end ----------

  /** A receiver run over a stretch of frames: final reconstruction state and everything dispatched. */
  function Run(lib: J.Library, recon: Recon, fs: seq<Frame>): (r: (Recon, seq<Message>))
    decreases |fs|
  {
    if fs == [] then (recon, [])
    else
      var (next, now) := Receive(lib, recon, fs[0]);
      var (last, later) := Run(lib, next, fs[1..]);
      (last, now + later)
  }

  lemma {:induction false} RunConcat(lib: J.Library, recon: Recon, a: seq<Frame>, b: seq<Frame>)
    ensures var (mid, front) := Run(lib, recon, a);
            var (last, back) := Run(lib, mid, b);
            Run(lib, recon, a + b) == (last, front + back)
    decreases |a|
  {
    if a == [] {
      assert a + b == b;
      assert [] + Run(lib, recon, b).1 == Run(lib, recon, b).1;
    } else {
      var (next, now) := Receive(lib, recon, a[0]);
      assert (a + b)[1..] == a[1..] + b;
      RunConcat(lib, next, a[1..], b);
      var (mid, front) := Run(lib, next, a[1..]);
      assert now + (front + Run(lib, mid, b).1) == (now + front) + Run(lib, mid, b).1;
    }
  }

  lemma RunQuietly(lib: J.Library, recon: Recon, next: Recon, fs: seq<Frame>)
    requires fs != [] && Receive(lib, recon, fs[0]) == (next, [])
    ensures Run(lib, recon, fs) == Run(lib, next, fs[1..])
  {
    assert [] + Run(lib, next, fs[1..]).1 == Run(lib, next, fs[1..]).1;
  }

  lemma RunLast(lib: J.Library, recon: Recon, f: Frame)
    ensures Run(lib, recon, [f]) == Receive(lib, recon, f)
  {
    assert [f][1..] == [];
    assert Receive(lib, recon, f).1 + [] == Receive(lib, recon, f).1;
  }

  lemma {:induction false} AttachmentsRun(lib: J.Library, pkt: T.Packet, bufs: seq<Bytes>, k: nat)
    requires pkt.attachments == |bufs| && k < |bufs|
    ensures Run(lib, Some(Pending(pkt, bufs[..k])), Blobs(bufs)[k..])
         == (None, [Plainly(pkt, Reconstruct(pkt.data, bufs))])
    decreases |bufs| - k
  {
    var recon, fs := Some(Pending(pkt, bufs[..k])), Blobs(bufs)[k..];
    assert fs[0] == Blob(bufs[k]) && fs[1..] == Blobs(bufs)[k + 1..];
    assert bufs[..k] + [bufs[k]] == bufs[..k + 1];
    if k + 1 == |bufs| {
      assert bufs[..k + 1] == bufs && fs == [Blob(bufs[k])];
      RunLast(lib, recon, Blob(bufs[k]));
    } else {
      AttachmentsRun(lib, pkt, bufs, k + 1);
      RunQuietly(lib, recon, Some(Pending(pkt, bufs[..k + 1])), fs);
    }
  }

  /** Attachments nobody waits for are ignored. */
  lemma {:induction false} StrayAttachments(lib: J.Library, bufs: seq<Bytes>)
    ensures Run(lib, None, Blobs(bufs)) == (None, [])
    decreases |bufs|
  {
    if bufs != [] {
      assert Blobs(bufs)[1..] == Blobs(bufs[1..]);
      RunQuietly(lib, None, None, Blobs(bufs));
      StrayAttachments(lib, bufs[1..]);
    }
  }

  predicate Carries(p: Message) {
    p.kind == T.EVENT || p.kind == T.ACK
  }

  function HeadOf(lib: J.Library, p: Message, d: J.Json, bufs: seq<Bytes>): Frame {
    Text(T.Encode(lib, Header(p, d, |bufs|)))
  }

  /** What a split packet makes an idle receiver dispatch, by what its header scans to. */
  function Whole(lib: J.Library, p: Message, d: J.Json, bufs: seq<Bytes>): (out: seq<Message>)
  {
    match T.Decode(lib, T.Encode(lib, Header(p, d, |bufs|)))
    case Err(_) => []
    case Ok(pkt) => [Plainly(pkt, if Carries(p) then Reconstruct(pkt.data, bufs) else Embed(pkt.data))]
  }

  lemma HeadReceived(lib: J.Library, p: Message, d: J.Json, bufs: seq<Bytes>)
    requires Ordinary(p) && 0 < |bufs| <= MAX_INT64
    ensures Receive(lib, None, HeadOf(lib, p, d, bufs))
         == if Carries(p) then (Started(lib, p, d, bufs, 0), []) else (None, Whole(lib, p, d, bufs))
  {
    var text := T.Encode(lib, Header(p, d, |bufs|));
    if T.Decode(lib, text).Ok? {
      T.ScannedKind(lib, text);
      if Carries(p) {
        T.CountReadBack(lib, Header(p, d, |bufs|));
        assert bufs[..0] == [];
      }
    }
  }

  /** The reconstruction under way once the header and some buffers are in, if the header was accepted. */
  function Started(lib: J.Library, p: Message, d: J.Json, bufs: seq<Bytes>, sent: nat): (r: Recon)
    requires sent <= |bufs|
  {
    match T.Decode(lib, T.Encode(lib, Header(p, d, |bufs|)))
    case Err(_) => None
    case Ok(pkt) => if Carries(p) then Some(Pending(pkt, bufs[..sent])) else None
  }

  lemma FeedNext(pkt: T.Packet, bufs: seq<Bytes>, sent: nat)
    requires pkt.attachments == |bufs| && sent < |bufs|
    ensures Feed(Some(Pending(pkt, bufs[..sent])), bufs[sent])
         == if sent + 1 == |bufs| then (None, [Plainly(pkt, Reconstruct(pkt.data, bufs))])
            else (Some(Pending(pkt, bufs[..sent + 1])), [])
  {
    assert bufs[..sent] + [bufs[sent]] == bufs[..sent + 1];
    assert sent + 1 == |bufs| ==> bufs[..sent + 1] == bufs;
  }

  lemma NextBuffer(lib: J.Library, p: Message, d: J.Json, bufs: seq<Bytes>, sent: nat)
    requires sent < |bufs| <= MAX_INT64
    ensures Feed(Started(lib, p, d, bufs, sent), bufs[sent])
         == if sent + 1 == |bufs| then (None, if Carries(p) then Whole(lib, p, d, bufs) else [])
            else (Started(lib, p, d, bufs, sent + 1), [])
  {
    var header := Header(p, d, |bufs|);
    var r := T.Decode(lib, T.Encode(lib, header));
    if r.Ok? && Carries(p) {
      T.CountReadBack(lib, header);
      FeedNext(r.packet, bufs, sent);
    }
  }

  /** A split packet, whatever its header and payload: one dispatch or none, and the receiver is idle again. */
  lemma WholeSend(lib: J.Library, p: Message, d: J.Json, bufs: seq<Bytes>)
    requires Ordinary(p) && 0 < |bufs| <= MAX_INT64
    ensures Run(lib, None, [HeadOf(lib, p, d, bufs)] + Blobs(bufs)) == (None, Whole(lib, p, d, bufs))
  {
    var head := HeadOf(lib, p, d, bufs);
    HeadReceived(lib, p, d, bufs);
    RunConcat(lib, None, [head], Blobs(bufs));
    RunLast(lib, None, head);
    if Started(lib, p, d, bufs, 0) == None {
      StrayAttachments(lib, bufs);
      assert Whole(lib, p, d, bufs) + [] == Whole(lib, p, d, bufs);
    } else {
      var pkt := T.Decode(lib, head.text).packet;
      T.CountReadBack(lib, Header(p, d, |bufs|));
      assert Blobs(bufs)[0..] == Blobs(bufs);
      AttachmentsRun(lib, pkt, bufs, 0);
      assert [] + Whole(lib, p, d, bufs) == Whole(lib, p, d, bufs);
    }
  }

  /** A well-headed binary event or acknowledgement: refused whole, or dispatched once as its buffers restore it. */
  lemma BinarySend(lib: J.Library, p: Message, d: J.Json, bufs: seq<Bytes>, where: seq<Path>)
    requires J.Lawful(lib) && GoodHeader(p) && Carries(p) && HasBinary(p.data)
    requires SplitInto(p.data, d, 0, bufs, where) && |bufs| <= MAX_INT64
    ensures Whole(lib, p, d, bufs)
         == if GoodPayload(p.kind, p.data) then [p.(data := Reconstruct(d, bufs))] else []
  {
    BuffersIffBinary(p.data, d, bufs, where);
    SplitPayload(p.kind, p.data, d, bufs);
    T.TextReadBack(lib, Header(p, d, |bufs|));
  }

  lemma {:induction false} ResolvedIsBinary(v: Value)
    requires HasBinary(v) && !Unreadable(v)
    ensures HasBinary(Resolved(v))
    decreases v
  {
    match v
    case Arr(xs) =>
      var i :| 0 <= i < |xs| && HasBinary(xs[i]);
      ResolvedIsBinary(xs[i]);
      assert Resolved(v).items[i] == Resolved(xs[i]);
    case Obj(m) =>
      var k :| k in m && HasBinary(m[k]);
      ResolvedIsBinary(m[k]);
      assert Resolved(v).fields[k] == Resolved(m[k]);
    case _ =>
  }

  /** In other packets the placeholders arrive as objects: what was binary is not restored. */
  lemma MisplacedBinarySend(lib: J.Library, p: Message, d: J.Json, bufs: seq<Bytes>)
    requires !Carries(p) && HasBinary(p.data) && !Unreadable(p.data)
    ensures Whole(lib, p, d, bufs) != [Delivered(p)]
  {
    ResolvedIsBinary(p.data);
    var r := T.Decode(lib, T.Encode(lib, Header(p, d, |bufs|)));
    if r.Ok? {
      EmbedRoundTrip(r.packet.data);
    }
  }

  /** Whatever is dispatched has a good header, so a packet without one is not dispatched as it was sent. */
  lemma DispatchedHeader(lib: J.Library, text: Bytes, data: Value)
    requires T.Decode(lib, text).Ok?
    ensures GoodHeader(Plainly(T.Decode(lib, text).packet, data))
  {
    T.ScannedIsCanonical(lib, text);
  }

  /** What the receiver accepts of a readable packet: its payload's form, and binary data only where it belongs. */
  predicate Accepted(p: Message) {
    GoodPayload(p.kind, p.data) && GoodBinary(p)
  }

  lemma PlainSend(lib: J.Library, p: Message)
    requires J.Lawful(lib) && Ordinary(p) && !HasBinary(p.data)
    ensures var out := Receive(lib, None, Text(T.Encode(lib, PlainPacket(p)))).1;
            && (out == [Delivered(p)] <==> GoodHeader(p) && Accepted(p))
            && (Good(p) ==> out == Worth(p))
  {
    var text := T.Encode(lib, PlainPacket(p));
    if GoodHeader(p) {
      PlainIffAccepted(lib, None, p);
      if Good(p) {
        PlainDelivered(lib, None, p);
      }
    } else if T.Decode(lib, text).Ok? {
      DispatchedHeader(lib, text, Embed(T.Decode(lib, text).packet.data));
    }
  }

  lemma SplitSend(lib: J.Library, p: Message, d: J.Json, bufs: seq<Bytes>, where: seq<Path>)
    requires J.Lawful(lib) && Ordinary(p) && HasBinary(p.data) && !Unreadable(p.data)
    requires SplitInto(p.data, d, 0, bufs, where) && |bufs| <= MAX_INT64
    ensures Whole(lib, p, d, bufs) == [Delivered(p)] <==> GoodHeader(p) && Accepted(p)
    ensures Good(p) ==> Whole(lib, p, d, bufs) == Worth(p)
  {
    var text := T.Encode(lib, Header(p, d, |bufs|));
    if !Carries(p) {
      MisplacedBinarySend(lib, p, d, bufs);
    } else if GoodHeader(p) {
      BinarySend(lib, p, d, bufs, where);
      RestoredIffNoDecoy(d, p.data, bufs);
    } else if T.Decode(lib, text).Ok? {
      DispatchedHeader(lib, text, Reconstruct(T.Decode(lib, text).packet.data, bufs));
    }
  }

  /**
   One send reaches the receiver, which is idle before and after. A readable packet
   is dispatched as it was sent if and only if its header is good and it is accepted;
   one with a failing reader puts nothing on the wire.
   */
  lemma OneSend(lib: J.Library, p: Message, frames: seq<Frame>)
    requires J.Lawful(lib) && Ordinary(p) && Emits(lib, p, frames) && |frames| <= MAX_INT64
    ensures Run(lib, None, frames).0 == None
    ensures Unreadable(p.data) ==> frames == []
    ensures !Unreadable(p.data) ==> (Run(lib, None, frames).1 == [Delivered(p)] <==> GoodHeader(p) && Accepted(p))
    ensures Good(p) ==> Run(lib, None, frames).1 == Worth(p)
  {
    if !HasBinary(p.data) {
      if Unreadable(p.data) {
        UnreadableIsBinary(p.data);
      }
      PlainSend(lib, p);
      PlainFrame(lib, None, p);
      RunLast(lib, None, frames[0]);
    } else if !Unreadable(p.data) {
      var d, bufs, where :| SplitInto(p.data, d, 0, bufs, where)
        && frames == [Text(T.Encode(lib, Header(p, d, |bufs|)))] + Blobs(bufs);
      BuffersIffBinary(p.data, d, bufs, where);
      WholeSend(lib, p, d, bufs);
      SplitSend(lib, p, d, bufs, where);
    }
  }

  /** An event named "connect" is sent like any other, and the receiver drops it. */
  lemma ReservedEventIsDropped(lib: J.Library, nsp: Bytes, args: seq<Value>, frames: seq<Frame>)
    requires J.Lawful(lib) && GoodHeader(Message(T.EVENT, nsp, -1, Null))
    requires Emits(lib, Message(T.EVENT, nsp, -1, Arr([Str("connect")] + args)), frames)
    requires !HasBinary(Arr([Str("connect")] + args))
    ensures |frames| == 1 && Run(lib, None, frames) == (None, [])
  {
    var p := Message(T.EVENT, nsp, -1, Arr([Str("connect")] + args));
    assert p.data.items[0] == Str("connect") && "connect" in T.RESERVED;
    assert !GoodPayload(p.kind, p.data);
    PlainDelivered(lib, None, p);
    RunLast(lib, None, frames[0]);
  }

  // ---------- interleaved streams ----------

  /** One frame of a stream: a plain packet, a binary header with its split, or the next attachment. */
  datatype Item =
    | Plain(p: Message)
    | Head(p: Message, d: J.Json, bufs: seq<Bytes>, where: seq<Path>)
    | Attachment

  /** The binary packet under way and how many of its attachments have gone by. */
  datatype Cursor = Idle | Busy(p: Message, d: J.Json, bufs: seq<Bytes>, where: seq<Path>, sent: nat)

  function Advance(c: Cursor, it: Item): (r: Cursor)
  {
    match it
    case Plain(_) => c
    case Head(p, d, bufs, where) => Busy(p, d, bufs, where, 0)
    case Attachment =>
      if c.Busy? && c.sent + 1 < |c.bufs| then c.(sent := c.sent + 1) else Idle
  }

  ghost predicate SplitOf(p: Message, d: J.Json, bufs: seq<Bytes>, where: seq<Path>) {
    && Ordinary(p) && HasBinary(p.data) && !Unreadable(p.data)
    && SplitInto(p.data, d, 0, bufs, where) && 0 < |bufs| <= MAX_INT64
  }

  ghost predicate Fits(c: Cursor, it: Item) {
    match it
    case Plain(p) => Ordinary(p) && !HasBinary(p.data)
    case Head(p, d, bufs, where) => c.Idle? && SplitOf(p, d, bufs, where)
    case Attachment => c.Busy?
  }

  /** Attachments follow their header before the next header; plain packets go anywhere. */
  ghost predicate Orderly(c: Cursor, items: seq<Item>)
    decreases |items|
  {
    items == [] || (Fits(c, items[0]) && Orderly(Advance(c, items[0]), items[1..]))
  }

  function FrameOf(lib: J.Library, c: Cursor, it: Item): (f: Frame)
  {
    match it
    case Plain(p) => Text(T.Encode(lib, PlainPacket(p)))
    case Head(p, d, bufs, _) => HeadOf(lib, p, d, bufs)
    case Attachment => Blob(if c.Busy? && c.sent < |c.bufs| then c.bufs[c.sent] else [])
  }

  /** What a send makes an idle receiver dispatch. */
  function Alone(lib: J.Library, frames: seq<Frame>): seq<Message> {
    Run(lib, None, frames).1
  }

  /**
   What the receiver owes at this frame: all that the packet would be worth alone, a
   binary event or acknowledgement with its last attachment and any other packet at once.
   */
  function Due(lib: J.Library, c: Cursor, it: Item): (out: seq<Message>)
  {
    match it
    case Plain(p) => Alone(lib, [FrameOf(lib, c, it)])
    case Head(p, d, bufs, _) => if Carries(p) then [] else Alone(lib, [HeadOf(lib, p, d, bufs)] + Blobs(bufs))
    case Attachment =>
      if c.Busy? && Carries(c.p) && c.sent + 1 == |c.bufs|
      then Alone(lib, [HeadOf(lib, c.p, c.d, c.bufs)] + Blobs(c.bufs))
      else []
  }

  function Frames(lib: J.Library, c: Cursor, items: seq<Item>): (fs: seq<Frame>)
    ensures |fs| == |items|
    decreases |items|
  {
    if items == [] then [] else [FrameOf(lib, c, items[0])] + Frames(lib, Advance(c, items[0]), items[1..])
  }

  function Dues(lib: J.Library, c: Cursor, items: seq<Item>): (out: seq<seq<Message>>)
    ensures |out| == |items|
    decreases |items|
  {
    if items == [] then [] else [Due(lib, c, items[0])] + Dues(lib, Advance(c, items[0]), items[1..])
  }

  /** The dispatches of a receiver, frame by frame. */
  function Outputs(lib: J.Library, recon: Recon, fs: seq<Frame>): (out: seq<seq<Message>>)
    ensures |out| == |fs|
    decreases |fs|
  {
    if fs == [] then []
    else
      var (next, now) := Receive(lib, recon, fs[0]);
      [now] + Outputs(lib, next, fs[1..])
  }

  function ReconAt(lib: J.Library, c: Cursor): (r: Recon)
  {
    if c.Busy? && c.sent <= |c.bufs| then Started(lib, c.p, c.d, c.bufs, c.sent) else None
  }

  ghost predicate Sound(c: Cursor) {
    c.Busy? ==> SplitOf(c.p, c.d, c.bufs, c.where) && c.sent < |c.bufs|
  }

  lemma NextAttachment(lib: J.Library, c: Cursor)
    requires c.Busy? && Sound(c)
    ensures Receive(lib, ReconAt(lib, c), FrameOf(lib, c, Attachment))
         == (ReconAt(lib, Advance(c, Attachment)), Due(lib, c, Attachment))
  {
    NextBuffer(lib, c.p, c.d, c.bufs, c.sent);
    WholeSend(lib, c.p, c.d, c.bufs);
  }

  lemma OneFrame(lib: J.Library, c: Cursor, it: Item)
    requires Sound(c) && Fits(c, it)
    ensures Receive(lib, ReconAt(lib, c), FrameOf(lib, c, it)) == (ReconAt(lib, Advance(c, it)), Due(lib, c, it))
    ensures Sound(Advance(c, it))
  {
    match it
    case Plain(p) =>
      PlainFrame(lib, ReconAt(lib, c), p);
      RunLast(lib, None, FrameOf(lib, c, it));
    case Head(p, d, bufs, where) =>
      HeadReceived(lib, p, d, bufs);
      WholeSend(lib, p, d, bufs);
    case Attachment => NextAttachment(lib, c);
  }

  /**
   Sends that interleave do not disturb one another: over an orderly stream the
   receiver dispatches, frame by frame, exactly what each packet is worth alone, a
   binary event or acknowledgement with its last frame and any other packet with its first.
   */
  lemma {:induction false} ReassemblyRefinesSending(lib: J.Library, c: Cursor, items: seq<Item>)
    requires Sound(c) && Orderly(c, items)
    ensures Outputs(lib, ReconAt(lib, c), Frames(lib, c, items)) == Dues(lib, c, items)
    decreases |items|
  {
    if items != [] {
      OneFrame(lib, c, items[0]);
      var fs := Frames(lib, c, items);
      assert fs[1..] == Frames(lib, Advance(c, items[0]), items[1..]);
      ReassemblyRefinesSending(lib, Advance(c, items[0]), items[1..]);
    }
  }

  // ---------- sends in turn ----------

  function Flat<A>(ss: seq<seq<A>>): (s: seq<A>)
  {
    if ss == [] then [] else ss[0] + Flat(ss[1..])
  }

  /** What each send is worth alone. */
  function Dispatches(lib: J.Library, sends: seq<seq<Frame>>): (out: seq<seq<Message>>)
    ensures |out| == |sends|
  {
    seq(|sends|, i requires 0 <= i < |sends| => Alone(lib, sends[i]))
  }

  lemma {:induction false} RunsInTurn(lib: J.Library, sends: seq<seq<Frame>>)
    requires forall i :: 0 <= i < |sends| ==> Run(lib, None, sends[i]).0 == None
    ensures Run(lib, None, Flat(sends)) == (None, Flat(Dispatches(lib, sends)))
    decreases |sends|
  {
    if sends != [] {
      RunsInTurn(lib, sends[1..]);
      RunConcat(lib, None, sends[0], Flat(sends[1..]));
      assert Dispatches(lib, sends)[1..] == Dispatches(lib, sends[1..]);
    }
  }

  /**
   Over a connection the receiver dispatches, in order, what each send makes it
   dispatch on its own: the readable packet itself if and only if its header is
   good and it is accepted,
   and nothing for a packet with a failing reader.
   */
  lemma ReceiverDispatchesWhatWasSent(lib: J.Library, ps: seq<Message>, sends: seq<seq<Frame>>)
    requires J.Lawful(lib) && |ps| == |sends|
    requires forall i :: 0 <= i < |ps| ==>
               Ordinary(ps[i]) && Emits(lib, ps[i], sends[i]) && |sends[i]| <= MAX_INT64
    ensures Run(lib, None, Flat(sends)) == (None, Flat(Dispatches(lib, sends)))
    ensures forall i :: 0 <= i < |ps| && !Unreadable(ps[i].data) ==>
              (Dispatches(lib, sends)[i] == [Delivered(ps[i])] <==> GoodHeader(ps[i]) && Accepted(ps[i]))
    ensures forall i :: 0 <= i < |ps| && Unreadable(ps[i].data) ==> Dispatches(lib, sends)[i] == []
  {
    forall i | 0 <= i < |ps|
      ensures Run(lib, None, sends[i]).0 == None
      ensures !Unreadable(ps[i].data) ==>
                (Dispatches(lib, sends)[i] == [Delivered(ps[i])] <==> GoodHeader(ps[i]) && Accepted(ps[i]))
      ensures Unreadable(ps[i].data) ==> Dispatches(lib, sends)[i] == []
    {
      OneSend(lib, ps[i], sends[i]);
    }
    RunsInTurn(lib, sends);
  }
}
