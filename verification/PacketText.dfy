/**
 The Socket.IO packet header: type, attachment count, namespace, acknowledgement
 id and JSON payload, as printed by Encode and scanned by Decode.
 */
module PacketText {
  import opened Octets
  import opened Json
  import opened Decimal

  const CONNECT: Octet := 48        // '0'
  const DISCONNECT: Octet := 49
  const EVENT: Octet := 50
  const ACK: Octet := 51
  const CONNECT_ERROR: Octet := 52
  const BINARY_EVENT: Octet := 53
  const BINARY_ACK: Octet := 54     // '6'

  const SLASH: Octet := 47
  const COMMA: Octet := 44
  const DASH: Octet := 45

  const ROOT: Bytes := [SLASH]

  /** A packet; data Null stands for no payload, a negative id for no acknowledgement. */
  datatype Packet = Packet(kind: Octet, nsp: Bytes, id: int, data: Json, attachments: int)

  datatype Fault = EmptyPacket | UnknownType | IllegalAttachments | BadJson | Rejected

  datatype Result = Ok(packet: Packet) | Err(fault: Fault)

  predicate IsBinary(kind: Octet) {
    kind == BINARY_EVENT || kind == BINARY_ACK
  }

  // ---------- printing ----------

  function AttachmentText(p: Packet): Bytes {
    if IsBinary(p.kind) then Itoa(p.attachments) + [DASH] else []
  }

  function NamespaceText(p: Packet): Bytes {
    if p.nsp != [] && p.nsp != ROOT then p.nsp + [COMMA] else []
  }

  function IdText(p: Packet): Bytes {
    if p.id >= 0 then Format(p.id) else []
  }

  function DataText(lib: Library, p: Packet): Bytes {
    if p.data != Null then lib.marshal(p.data) else []
  }

  function Encode(lib: Library, p: Packet): (text: Bytes)
  {
    [p.kind] + (AttachmentText(p) + (NamespaceText(p) + (IdText(p) + DataText(lib, p))))
  }

  // ---------- scanning ----------

  /** The first index at or after i holding c, or |s|. */
  function Find(s: Bytes, c: Octet, i: nat): (j: nat)
    requires i <= |s|
    ensures i <= j <= |s|
    ensures j < |s| ==> s[j] == c
    ensures forall k :: i <= k < j ==> s[k] != c
    decreases |s| - i
  {
    if i == |s| || s[i] == c then i else Find(s, c, i + 1)
  }

  /** The end of the run of digits that starts at i. */
  function DigitsEnd(s: Bytes, i: nat): (j: nat)
    requires i <= |s|
    ensures i <= j <= |s|
    ensures j < |s| ==> !IsDigit(s[j])
    ensures forall k :: i <= k < j ==> IsDigit(s[k])
    decreases |s| - i
  {
    if i == |s| || !IsDigit(s[i]) then i else DigitsEnd(s, i + 1)
  }

  /** The attachment count and what follows its dash. */
  function ScanAttachments(rest: Bytes): (r: Option<(int, Bytes)>)
  {
    var j := Find(rest, DASH, 0);
    if j == |rest| then None
    else
      match Atoi(rest[..j])
      case None => None
      case Some(n) => if n < 0 then None else Some((n, rest[j + 1..]))
  }

  /** The namespace and what follows its comma; without one the whole rest is the namespace. */
  function ScanNamespace(rest: Bytes): (r: (Bytes, Bytes))
  {
    if |rest| > 0 && rest[0] == SLASH then
      var j := Find(rest, COMMA, 0);
      (rest[..j], if j < |rest| then rest[j + 1..] else [])
    else (ROOT, rest)
  }

  function ScanId(rest: Bytes): (r: (int, Bytes))
  {
    var j := DigitsEnd(rest, 0);
    if j > 0 then (ParseSaturating(rest[..j]), rest[j..]) else (-1, rest)
  }

  const RESERVED: set<string> :=
    {"connect", "connect_error", "disconnect", "disconnecting", "newListener", "removeListener"}

  predicate ValidPayload(kind: Octet, data: Json)
  {
    if kind == CONNECT then data.Null? || data.Obj?
    else if kind == DISCONNECT then data.Null?
    else if kind == CONNECT_ERROR then data.Null? || data.Str? || data.Obj?
    else if kind == EVENT || kind == BINARY_EVENT then
      && data.Arr? && |data.items| > 0
      && (data.items[0].Num? || (data.items[0].Str? && data.items[0].s !in RESERVED))
    else if kind == ACK || kind == BINARY_ACK then data.Arr?
    else true
  }

  function ScanPayload(lib: Library, p: Packet, rest: Bytes): (r: Result)
  {
    if |rest| == 0 then Ok(p)
    else
      match lib.unmarshal(rest)
      case None => Err(BadJson)
      case Some(data) => if ValidPayload(p.kind, data) then Ok(p.(data := data)) else Err(Rejected)
  }

  function ScanTail(lib: Library, kind: Octet, attachments: int, rest: Bytes): (r: Result)
  {
    var (nsp, afterNsp) := ScanNamespace(rest);
    var (id, afterId) := ScanId(afterNsp);
    ScanPayload(lib, Packet(kind, nsp, id, Null, attachments), afterId)
  }

  function Decode(lib: Library, text: Bytes): (r: Result)
  {
    if |text| == 0 then Err(EmptyPacket)
    else if text[0] < CONNECT || text[0] > BINARY_ACK then Err(UnknownType)
    else if IsBinary(text[0]) then
      match ScanAttachments(text[1..])
      case None => Err(IllegalAttachments)
      case Some((n, rest)) => ScanTail(lib, text[0], n, rest)
    else ScanTail(lib, text[0], 0, text[1..])
  }

  /** The program's loop for the first c at or after i. */
  method IndexFrom(data: Bytes, c: Octet, i: nat) returns (j: nat)
    requires i <= |data|
    ensures i <= j <= |data|
    ensures j - i == Find(data[i..], c, 0)
  {
    j := i;
    while j < |data| && data[j] != c
      invariant i <= j <= |data|
      invariant forall k :: 0 <= k < j - i ==> data[i..][k] != c
    {
      j := j + 1;
    }
    FindIs(data[i..], c, j - i);
  }

  /** The program's loop over a run of digits. */
  method DigitsFrom(data: Bytes, i: nat) returns (j: nat)
    requires i <= |data|
    ensures i <= j <= |data|
    ensures j - i == DigitsEnd(data[i..], 0)
  {
    j := i;
    while j < |data| && IsDigit(data[j])
      invariant i <= j <= |data|
      invariant forall k :: 0 <= k < j - i ==> IsDigit(data[i..][k])
    {
      j := j + 1;
    }
    DigitsEndIs(data[i..], j - i);
  }

  /** What is left to scan when i is the position of the last character consumed. */
  ghost function After(data: Bytes, i: nat): Bytes {
    if i < |data| then data[i + 1..] else []
  }

  method ReadAttachments(data: Bytes) returns (n: Option<int>, i: nat)
    requires |data| > 0
    ensures match ScanAttachments(data[1..])
            case None => n == None
            case Some((count, rest)) => n == Some(count) && i < |data| && After(data, i) == rest
  {
    i := 0;
    var j := IndexFrom(data, DASH, i + 1);
    if j == |data| {
      return None, i;
    }
    assert data[i + 1..j] == data[1..][..j - 1];
    n := Atoi(data[i + 1..j]);
    if n == None || n.value < 0 {
      return None, i;
    }
    assert data[1..][j..] == data[j + 1..];
    i := j;
  }

  method ReadNamespace(data: Bytes, start: nat) returns (nsp: Bytes, i: nat)
    requires start < |data|
    ensures ScanNamespace(After(data, start)) == (nsp, After(data, i))
  {
    i, nsp := start, ROOT;
    if i + 1 < |data| && data[i + 1] == SLASH {
      var j := IndexFrom(data, COMMA, i + 1);
      assert data[i + 1..j] == data[i + 1..][..j - i - 1];
      nsp := data[i + 1..j];
      if j < |data| {
        assert data[i + 1..][j - i..] == data[j + 1..];
        i := j;
      } else {
        i := |data|;
      }
    }
  }

  method ReadId(data: Bytes, start: nat) returns (id: int, i: nat)
    ensures ScanId(After(data, start)) == (id, After(data, i))
  {
    i, id := start, -1;
    if i + 1 < |data| && IsDigit(data[i + 1]) {
      var j := DigitsFrom(data, i + 1);
      assert data[i + 1..j] == data[i + 1..][..j - i - 1];
      id := ParseSaturating(data[i + 1..j]);
      assert data[i + 1..][j - i - 1..] == data[j..];
      i := j - 1;
    }
  }

  /** The program's scanner, advancing an index through the text. */
  method DecodeText(lib: Library, data: Bytes) returns (r: Result)
    ensures r == Decode(lib, data)
  {
    if |data| == 0 {
      return Err(EmptyPacket);
    }
    var kind := data[0];
    if kind < CONNECT || kind > BINARY_ACK {
      return Err(UnknownType);
    }
    var i, attachments := 0, 0;
    if IsBinary(kind) {
      var n;
      n, i := ReadAttachments(data);
      if n == None {
        return Err(IllegalAttachments);
      }
      attachments := n.value;
    }
    assert Decode(lib, data) == ScanTail(lib, kind, attachments, After(data, i));
    var nsp, id;
    nsp, i := ReadNamespace(data, i);
    id, i := ReadId(data, i);
    var p := Packet(kind, nsp, id, Null, attachments);
    if i + 1 < |data| {
      var value := lib.unmarshal(data[i + 1..]);
      if value == None {
        return Err(BadJson);
      }
      p := p.(data := value.value);
      if !ValidPayload(p.kind, p.data) {
        return Err(Rejected);
      }
    }
    return Ok(p);
  }

  lemma FindIs(s: Bytes, c: Octet, j: nat)
    requires j <= |s|
    requires forall k :: 0 <= k < j ==> s[k] != c
    requires j < |s| ==> s[j] == c
    ensures Find(s, c, 0) == j
  {
  }

  lemma DigitsEndIs(s: Bytes, j: nat)
    requires j <= |s|
    requires forall k :: 0 <= k < j ==> IsDigit(s[k])
    requires j < |s| ==> !IsDigit(s[j])
    ensures DigitsEnd(s, 0) == j
  {
  }

  // ---------- each part read back ----------

  lemma AttachmentsReadBack(n: int, rest: Bytes)
    requires 0 <= n <= MAX_INT64
    ensures ScanAttachments(Itoa(n) + [DASH] + rest) == Some((n, rest))
  {
    var s := Itoa(n) + [DASH] + rest;
    var j := |Itoa(n)|;
    forall k | 0 <= k < j
      ensures s[k] != DASH
    {
      assert IsDigit(Format(n)[k]);
    }
    FindIs(s, DASH, j);
    AtoiOfItoa(n);
    assert s[..j] == Itoa(n) && s[j + 1..] == rest;
  }

  lemma NamespaceReadBack(nsp: Bytes, rest: Bytes)
    requires |nsp| > 0 && nsp[0] == SLASH && COMMA !in nsp
    ensures ScanNamespace(nsp + [COMMA] + rest) == (nsp, rest)
  {
    var s := nsp + [COMMA] + rest;
    FindIs(s, COMMA, |nsp|);
    assert s[..|nsp|] == nsp && s[|nsp| + 1..] == rest;
  }

  lemma IdReadBack(id: int, rest: Bytes)
    requires 0 <= id <= MAX_INT64
    requires |rest| > 0 ==> !IsDigit(rest[0])
    ensures ScanId(Format(id) + rest) == (id, rest)
  {
    var s := Format(id) + rest;
    DigitsEndIs(s, |Format(id)|);
    ValueOfFormat(id);
    assert s[..|Format(id)|] == Format(id) && s[|Format(id)|..] == rest;
  }

  // ---------- the packets the text form can carry ----------

  /** Everything about a packet but its payload is as a scanned packet has it. */
  predicate GoodFields(p: Packet) {
    && CONNECT <= p.kind <= BINARY_ACK
    && (if IsBinary(p.kind) then 0 <= p.attachments <= MAX_INT64 else p.attachments == 0)
    && |p.nsp| > 0 && p.nsp[0] == SLASH && COMMA !in p.nsp
    && -1 <= p.id <= MAX_INT64
  }

  /** Exactly what a scanned packet looks like. */
  predicate Canonical(p: Packet)
  {
    GoodFields(p) && (p.data == Null || ValidPayload(p.kind, p.data))
  }

  /** Payloads whose text cannot be taken for part of the header. */
  predicate Rooted(data: Json) {
    !data.Num? && !data.Bool?
  }

  lemma DataOpening(lib: Library, p: Packet)
    requires Lawful(lib) && Rooted(p.data) && p.data != Null
    ensures var d := DataText(lib, p); |d| > 0 && !IsDigit(d[0]) && d[0] != SLASH
  {
    assert p.data.Arr? || p.data.Obj? || p.data.Str?;
  }

  /** What the scanner makes of a printed packet: the packet itself, or a refusal of its payload. */
  function Verdict(p: Packet): (r: Result) {
    if p.data == Null || ValidPayload(p.kind, p.data) then Ok(p) else Err(Rejected)
  }

  lemma NamespaceTextReadBack(p: Packet, rest: Bytes)
    requires GoodFields(p) && (|rest| > 0 ==> rest[0] != SLASH)
    ensures ScanNamespace(NamespaceText(p) + rest) == (p.nsp, rest)
  {
    if p.nsp == ROOT {
      assert NamespaceText(p) + rest == rest;
    } else {
      NamespaceReadBack(p.nsp, rest);
      assert NamespaceText(p) + rest == p.nsp + [COMMA] + rest;
    }
  }

  lemma IdTextReadBack(p: Packet, rest: Bytes)
    requires GoodFields(p) && (|rest| > 0 ==> !IsDigit(rest[0]) && rest[0] != SLASH)
    ensures ScanId(IdText(p) + rest) == (p.id, rest)
    ensures |IdText(p) + rest| > 0 ==> (IdText(p) + rest)[0] != SLASH
  {
    if p.id >= 0 {
      IdReadBack(p.id, rest);
      assert IsDigit(Format(p.id)[0]);
    } else {
      assert IdText(p) + rest == rest;
    }
  }

  lemma TailReadBack(lib: Library, p: Packet)
    requires Lawful(lib) && GoodFields(p) && Rooted(p.data)
    ensures ScanTail(lib, p.kind, p.attachments, TailText(lib, p)) == Verdict(p)
  {
    var d := DataText(lib, p);
    if p.data != Null {
      DataOpening(lib, p);
    }
    IdTextReadBack(p, d);
    NamespaceTextReadBack(p, IdText(p) + d);
  }

  function TailText(lib: Library, p: Packet): Bytes {
    NamespaceText(p) + (IdText(p) + DataText(lib, p))
  }

  /** The type and the attachment count are read back whatever follows. */
  lemma HeadReadBack(lib: Library, p: Packet)
    requires CONNECT <= p.kind <= BINARY_ACK
    requires if IsBinary(p.kind) then 0 <= p.attachments <= MAX_INT64 else p.attachments == 0
    ensures Decode(lib, Encode(lib, p)) == ScanTail(lib, p.kind, p.attachments, TailText(lib, p))
  {
    var text, tail := Encode(lib, p), TailText(lib, p);
    assert text[1..] == AttachmentText(p) + tail;
    if IsBinary(p.kind) {
      AttachmentsReadBack(p.attachments, tail);
      assert text[1..] == Itoa(p.attachments) + [DASH] + tail;
    } else {
      assert text[1..] == tail;
    }
  }

  /** Scanning a printed packet with good fields and a rooted payload decides on the payload alone. */
  lemma TextReadBack(lib: Library, p: Packet)
    requires Lawful(lib) && GoodFields(p) && Rooted(p.data)
    ensures Decode(lib, Encode(lib, p)) == Verdict(p)
  {
    TailReadBack(lib, p);
    HeadReadBack(lib, p);
  }

  lemma ScannedKind(lib: Library, text: Bytes)
    requires Decode(lib, text).Ok?
    ensures Decode(lib, text).packet.kind == text[0]
  {
  }

  lemma TailKeepsCount(lib: Library, kind: Octet, attachments: int, rest: Bytes)
    requires ScanTail(lib, kind, attachments, rest).Ok?
    ensures ScanTail(lib, kind, attachments, rest).packet.attachments == attachments
  {
  }

  /** The attachment count comes through whatever follows it. */
  lemma CountReadBack(lib: Library, p: Packet)
    requires IsBinary(p.kind) && 0 <= p.attachments <= MAX_INT64
    requires Decode(lib, Encode(lib, p)).Ok?
    ensures Decode(lib, Encode(lib, p)).packet.attachments == p.attachments
  {
    HeadReadBack(lib, p);
    TailKeepsCount(lib, p.kind, p.attachments, TailText(lib, p));
  }

  lemma TailIsCanonical(lib: Library, kind: Octet, attachments: int, rest: Bytes)
    requires CONNECT <= kind <= BINARY_ACK
    requires if IsBinary(kind) then 0 <= attachments <= MAX_INT64 else attachments == 0
    requires ScanTail(lib, kind, attachments, rest).Ok?
    ensures Canonical(ScanTail(lib, kind, attachments, rest).packet)
  {
    var (nsp, afterNsp) := ScanNamespace(rest);
    assert |nsp| > 0 && nsp[0] == SLASH && COMMA !in nsp;
  }

  /** Whatever was scanned is canonical: the scanner never yields anything else. */
  lemma ScannedIsCanonical(lib: Library, text: Bytes)
    requires Decode(lib, text).Ok?
    ensures Canonical(Decode(lib, text).packet)
  {
    var attachments, rest :=
      if IsBinary(text[0]) then ScanAttachments(text[1..]).value.0 else 0,
      if IsBinary(text[0]) then ScanAttachments(text[1..]).value.1 else text[1..];
    TailIsCanonical(lib, text[0], attachments, rest);
  }

  /** Printing then scanning gives the packet back exactly when the packet is canonical. */
  lemma TextRoundTrip(lib: Library, p: Packet)
    requires Lawful(lib)
    ensures Decode(lib, Encode(lib, p)) == Ok(p) <==> Canonical(p)
  {
    if Canonical(p) {
      TextReadBack(lib, p);
    } else if Decode(lib, Encode(lib, p)) == Ok(p) {
      ScannedIsCanonical(lib, Encode(lib, p));
    }
  }

  /** Re-printing any accepted text, however irregular, scans to the same packet. */
  lemma Normalisation(lib: Library, text: Bytes)
    requires Lawful(lib) && Decode(lib, text).Ok?
    ensures Decode(lib, Encode(lib, Decode(lib, text).packet)) == Decode(lib, text)
  {
    ScannedIsCanonical(lib, text);
    TextRoundTrip(lib, Decode(lib, text).packet);
  }
}
