/**
 The two ends of an upgrade and the websocket between them: the client probes,
 waits for the reply, confirms and switches, while the server's read loop hands
 each frame to the handler bound at that moment. Frames arrive in order; either
 end may give up at any point.
 */
module UpgradeHandshake {
  import opened Octets
  import E = EnginePayload

  type Packet = E.Packet

  datatype Frame = Frame(binary: bool, bytes: Bytes)

  function Write(p: Packet): (f: Frame) {
    Frame(p.binary, E.EncodePacket(p, true))
  }

  function Read(f: Frame): (p: Option<Packet>) {
    E.DecodePacket(f.bytes, f.binary)
  }

  function Frames(ps: seq<Packet>): (fs: seq<Frame>) {
    seq(|ps|, i requires 0 <= i < |ps| => Write(ps[i]))
  }

  predicate Legible(p: Packet) {
    if p.binary then p.kind == E.MESSAGE else E.OPEN <= p.kind <= E.NOOP
  }

  const PROBE_WORD: Bytes := [112, 114, 111, 98, 101]
  const PROBE := E.Packet(E.PING, PROBE_WORD, false)
  const REPLY := E.Packet(E.PONG, PROBE_WORD, false)
  const CONFIRM := E.Packet(E.UPGRADE, [], false)

  // ---------- the two ends ----------

  /** How far the client's upgrade routine has come. */
  datatype Stage = Dialled | Probed | Replied | Confirmed | Switched | Bound

  /** `sent` is what its session wrote, `got` what reached it; `discarded` went to the probe loop instead. */
  datatype Client = Client(stage: Stage, gone: bool, written: seq<Frame>, read: nat,
                           sent: seq<Packet>, got: seq<Packet>, discarded: seq<Frame>)

  datatype Handler = Candidate | Session

  /** What the read loop is inside of: a handler call must return before the next read. */
  datatype Task = Reading | Replying | Upgrading | Rebinding | Flushing

  /** `strays` are frames the candidate's handler took for anything but a probe or a confirmation. */
  datatype Server = Server(handler: Handler, task: Task, switched: bool, gone: bool, written: seq<Frame>, read: nat,
                           sent: seq<Packet>, got: seq<Packet>, strays: seq<Frame>)

  datatype Link = Link(client: Client, server: Server)

  const INITIAL := Link(Client(Dialled, false, [], 0, [], [], []),
                        Server(Candidate, Reading, false, false, [], 0, [], [], []))

  // ---------- steps ----------

  datatype Action =
    | ClientProbes | ClientReads | ClientConfirms | ClientSwitches | ClientBinds | ClientSends(p: Packet) | ClientGoes
    | ServerReads | ServerReplies | ServerSwitches | ServerRebinds | ServerResumes | ServerSends(p: Packet) | ServerGoes

  predicate ClientMay(l: Link, a: Action) {
    var c := l.client;
    !c.gone &&
    match a
    case ClientProbes => c.stage == Dialled
    case ClientReads => (c.stage == Probed || c.stage == Bound) && c.read < |l.server.written|
    case ClientConfirms => c.stage == Replied
    case ClientSwitches => c.stage == Confirmed
    case ClientBinds => c.stage == Switched
    case ClientSends(p) => (c.stage == Switched || c.stage == Bound) && Legible(p)
    case ClientGoes => true
    case _ => false
  }

  predicate ServerMay(l: Link, a: Action) {
    var s := l.server;
    !s.gone &&
    match a
    case ServerReads => s.task == Reading && s.read < |l.client.written|
    case ServerReplies => s.task == Replying
    case ServerSwitches => s.task == Upgrading
    case ServerRebinds => s.task == Rebinding
    case ServerResumes => s.task == Flushing
    case ServerSends(p) => s.switched && Legible(p)
    case ServerGoes => true
    case _ => false
  }

  /** The probe loop reads until it sees the reply and drops everything else; the bound session takes what decodes. */
  function ClientTakes(c: Client, f: Frame): (d: Client) {
    var d := c.(read := c.read + 1);
    if c.stage == Probed then
      if f == Write(REPLY) then d.(stage := Replied) else d.(discarded := d.discarded + [f])
    else
      match Read(f)
      case None => d.(gone := true)
      case Some(p) => d.(got := d.got + [p])
  }

  /** The candidate's handler knows two packets and takes any other, or an undecodable frame, as a reason to abort. */
  function ServerTakes(s: Server, f: Frame): (t: Server) {
    var t := s.(read := s.read + 1);
    match Read(f)
    case None => if s.handler == Session then t.(gone := true) else t.(strays := t.strays + [f])
    case Some(p) =>
      if s.handler == Session then t.(got := t.got + [p])
      else if p.kind == E.PING && p.data == PROBE_WORD then t.(task := Replying)
      else if p.kind == E.UPGRADE then t.(task := Upgrading)
      else t.(strays := t.strays + [f])
  }

  function ClientStep(l: Link, a: Action): (m: Link)
    requires ClientMay(l, a)
  {
    var c := l.client;
    var d := match a
      case ClientProbes => c.(stage := Probed, written := c.written + [Write(PROBE)])
      case ClientReads => ClientTakes(c, l.server.written[c.read])
      case ClientConfirms => c.(stage := Confirmed, written := c.written + [Write(CONFIRM)])
      case ClientSwitches => c.(stage := Switched)
      case ClientBinds => c.(stage := Bound)
      case ClientSends(p) => c.(written := c.written + [Write(p)], sent := c.sent + [p])
      case ClientGoes => c.(gone := true);
    l.(client := d)
  }

  function ServerStep(l: Link, a: Action): (m: Link)
    requires ServerMay(l, a)
  {
    var s := l.server;
    var t := match a
      case ServerReads => ServerTakes(s, l.client.written[s.read])
      case ServerReplies => s.(task := Reading, written := s.written + [Write(REPLY)])
      case ServerSwitches => s.(task := Rebinding, switched := true)
      case ServerRebinds => s.(task := Flushing, handler := Session)
      case ServerResumes => s.(task := Reading)
      case ServerSends(p) => s.(written := s.written + [Write(p)], sent := s.sent + [p])
      case ServerGoes => s.(gone := true);
    l.(server := t)
  }

  predicate Enabled(l: Link, a: Action) {
    ClientMay(l, a) || ServerMay(l, a)
  }

  function Next(l: Link, a: Action): (m: Link)
    requires Enabled(l, a)
  {
    if ClientMay(l, a) then ClientStep(l, a) else ServerStep(l, a)
  }

  ghost predicate Legal(l: Link, run: seq<Action>)
    decreases |run|
  {
    run == [] || (Enabled(l, run[0]) && Legal(Next(l, run[0]), run[1..]))
  }

  ghost function After(l: Link, run: seq<Action>): (m: Link)
    requires Legal(l, run)
    decreases |run|
  {
    if run == [] then l else After(Next(l, run[0]), run[1..])
  }

  // ---------- what every step keeps ----------

  function Opening(stage: Stage): (fs: seq<Frame>) {
    match stage
    case Dialled => []
    case Probed => [Write(PROBE)]
    case Replied => [Write(PROBE)]
    case _ => [Write(PROBE), Write(CONFIRM)]
  }

  predicate AllLegible(ps: seq<Packet>) {
    forall i :: 0 <= i < |ps| ==> Legible(ps[i])
  }

  predicate ClientShape(c: Client) {
    && c.written == Opening(c.stage) + Frames(c.sent) && AllLegible(c.sent)
    && (c.sent != [] ==> c.stage == Switched || c.stage == Bound)
    && c.discarded == []
    && (c.stage == Dialled || c.stage == Probed ==> c.read == 0)
    && (c.stage == Replied || c.stage == Confirmed || c.stage == Switched ==> c.read == 1)
    && (c.stage == Bound ==> c.read >= 1)
  }

  /** The reply goes out once, after the probe and before anything of the session. */
  predicate ServerShape(s: Server) {
    var opening := if s.read == 0 || s.task == Replying then [] else [Write(REPLY)];
    && s.written == opening + Frames(s.sent) && AllLegible(s.sent)
    && (s.sent != [] ==> s.switched)
    && s.strays == []
    && (s.read == 0 ==> s.task == Reading)
    && (s.read == 1 ==> s.task == Reading || s.task == Replying)
    && (s.read > 1 ==> s.task != Replying)
    && (s.read > 2 ==> s.task == Reading)
    && (s.switched <==> s.read > 1 && s.task != Upgrading)
    && (s.handler == Session <==> s.read > 1 && (s.task == Reading || s.task == Flushing))
  }

  /** Each end has read a prefix of what the other wrote, and its session got the part after the handshake. */
  predicate Together(l: Link) {
    var c, s := l.client, l.server;
    && c.read <= |s.written| && s.read <= |c.written|
    && (if s.read <= 2 then s.got == [] else s.read - 2 <= |c.sent| && s.got == c.sent[..s.read - 2])
    && (if c.read <= 1 then c.got == [] else c.read - 1 <= |s.sent| && c.got == s.sent[..c.read - 1])
  }

  predicate Inv(l: Link) {
    ClientShape(l.client) && ServerShape(l.server) && Together(l)
  }

  lemma ReadsBack(p: Packet)
    requires Legible(p)
    ensures Read(Write(p)) == Some(p)
  {
    E.FrameRoundTrip(p);
  }

  lemma FramesSnoc(ps: seq<Packet>, p: Packet)
    ensures Frames(ps + [p]) == Frames(ps) + [Write(p)]
  {
  }

  /** While the client probes, the server has written the reply at most; later frames are its session's. */
  lemma NextForClient(l: Link)
    requires Inv(l) && ClientMay(l, ClientReads)
    ensures l.client.stage == Probed ==> l.server.written[l.client.read] == Write(REPLY)
    ensures l.client.stage == Bound ==>
              l.client.read - 1 < |l.server.sent|
              && l.server.written[l.client.read] == Write(l.server.sent[l.client.read - 1])
  {
  }

  lemma ReplyKeepsInv(l: Link)
    requires Inv(l) && l.client.stage == Probed && l.server.written != []
    ensures Inv(l.(client := l.client.(read := 1, stage := Replied)))
  {
  }

  lemma DeliveryKeepsInv(l: Link)
    requires Inv(l) && l.client.stage == Bound && 1 <= l.client.read <= |l.server.sent|
    requires l.client.read < |l.server.written|
    ensures var c := l.client; Inv(l.(client := c.(read := c.read + 1, got := c.got + [l.server.sent[c.read - 1]])))
  {
    var c, s := l.client, l.server;
    assert s.sent[..c.read] == s.sent[..c.read - 1] + [s.sent[c.read - 1]];
  }

  lemma ClientReadKeepsInv(l: Link)
    requires Inv(l) && ClientMay(l, ClientReads)
    ensures Inv(Next(l, ClientReads))
  {
    var c, s := l.client, l.server;
    NextForClient(l);
    if c.stage == Bound {
      ReadsBack(s.sent[c.read - 1]);
      DeliveryKeepsInv(l);
    } else {
      ReplyKeepsInv(l);
    }
  }

  /** The server reads the probe, then the confirmation, then the client's session. */
  lemma NextForServer(l: Link)
    requires Inv(l) && ServerMay(l, ServerReads)
    ensures l.server.read == 0 ==> l.client.written[0] == Write(PROBE)
    ensures l.server.read == 1 ==> l.client.written[1] == Write(CONFIRM)
    ensures l.server.read > 1 ==>
              l.server.read - 2 < |l.client.sent|
              && l.client.written[l.server.read] == Write(l.client.sent[l.server.read - 2])
  {
  }

  lemma ServerReadKeepsInv(l: Link)
    requires Inv(l) && ServerMay(l, ServerReads)
    ensures Inv(Next(l, ServerReads))
  {
    var c, s := l.client, l.server;
    NextForServer(l);
    if s.read == 0 {
      ReadsBack(PROBE);
      assert ServerTakes(s, Write(PROBE)) == s.(read := 1, task := Replying);
    } else if s.read == 1 {
      ReadsBack(CONFIRM);
      assert ServerTakes(s, Write(CONFIRM)) == s.(read := 2, task := Upgrading);
    } else {
      var p := c.sent[s.read - 2];
      ReadsBack(p);
      assert ServerTakes(s, Write(p)) == s.(read := s.read + 1, got := s.got + [p]);
      assert c.sent[..s.read - 1] == c.sent[..s.read - 2] + [p];
    }
  }

  lemma ClientKeepsInv(l: Link, a: Action)
    requires Inv(l) && ClientMay(l, a)
    ensures Inv(Next(l, a))
  {
    match a
    case ClientReads => ClientReadKeepsInv(l);
    case ClientSends(p) => FramesSnoc(l.client.sent, p);
    case _ =>
  }

  lemma ServerKeepsInv(l: Link, a: Action)
    requires Inv(l) && ServerMay(l, a)
    ensures Inv(Next(l, a))
  {
    match a
    case ServerReads => ServerReadKeepsInv(l);
    case ServerSends(p) => FramesSnoc(l.server.sent, p);
    case _ =>
  }

  lemma {:induction false} RunKeepsInv(l: Link, run: seq<Action>)
    requires Inv(l) && Legal(l, run)
    ensures Inv(After(l, run))
    decreases |run|
  {
    if run != [] {
      if ClientMay(l, run[0]) {
        ClientKeepsInv(l, run[0]);
      } else {
        ServerKeepsInv(l, run[0]);
      }
      RunKeepsInv(Next(l, run[0]), run[1..]);
    }
  }

  lemma ReachableIsSound(run: seq<Action>)
    requires Legal(INITIAL, run)
    ensures Inv(After(INITIAL, run))
  {
    RunKeepsInv(INITIAL, run);
  }

  // ---------- theorems ----------

  /** No frame of a session is taken for part of the handshake, and each session gets a prefix of what it was sent. */
  lemma UpgradeMisroutesNothing(run: seq<Action>)
    requires Legal(INITIAL, run)
    ensures var l := After(INITIAL, run);
            && l.server.strays == [] && l.client.discarded == []
            && l.server.got <= l.client.sent && l.client.got <= l.server.sent
  {
    ReachableIsSound(run);
    var l := After(INITIAL, run);
    assert Together(l);
  }

  function Unread(written: seq<Frame>, read: nat): (rest: seq<Frame>) {
    if read <= |written| then written[read..] else []
  }

  /** After an opening of `n` frames, what was read and what is unread make up what was sent. */
  lemma NothingBetween(opening: seq<Frame>, sent: seq<Packet>, got: seq<Packet>, read: nat)
    requires |opening| <= read <= |opening| + |sent| && got == sent[..read - |opening|]
    ensures Frames(got) + Unread(opening + Frames(sent), read) == Frames(sent)
  {
    assert Unread(opening + Frames(sent), read) == Frames(sent)[read - |opening|..];
    assert Frames(got) == Frames(sent)[..read - |opening|];
  }

  /** Once a session is bound, what it got and what is still on the way make up everything the other end sent. */
  lemma UpgradeLosesNothing(run: seq<Action>)
    requires Legal(INITIAL, run)
    ensures var l := After(INITIAL, run);
            && (l.server.handler == Session ==>
                  Frames(l.server.got) + Unread(l.client.written, l.server.read) == Frames(l.client.sent))
            && (l.client.stage == Bound ==>
                  Frames(l.client.got) + Unread(l.server.written, l.client.read) == Frames(l.server.sent))
  {
    ReachableIsSound(run);
    var c, s := After(INITIAL, run).client, After(INITIAL, run).server;
    if s.handler == Session {
      NothingBetween(Opening(c.stage), c.sent, s.got, s.read);
    }
    if c.stage == Bound {
      NothingBetween([Write(REPLY)], s.sent, c.got, c.read);
    }
  }

  /** The server switches only for a client that has confirmed, and the client confirms only a server that replied. */
  lemma SwitchIsAgreed(run: seq<Action>)
    requires Legal(INITIAL, run)
    ensures var l := After(INITIAL, run);
            && (l.server.switched ==>
                  l.client.stage == Confirmed || l.client.stage == Switched || l.client.stage == Bound)
            && (l.client.stage != Dialled && l.client.stage != Probed ==>
                  l.server.written != [] && l.server.written[0] == Write(REPLY))
  {
    ReachableIsSound(run);
  }
}
