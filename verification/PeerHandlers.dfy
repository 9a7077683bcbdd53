/**
 * The echo protocol of two browser peers (infra/cloudflare/worker/public/peer.js): one
 * peer's handlers as functions on its state, split where they wait. Both peers run
 * this code over an ordered channel.
 */
module PeerHandlers {
  import opened Base
  import opened PeerProof

  const CHUNK := 8192
  const BLOCKS := 8
  const PAYLOAD := 65536

  datatype Role = Offerer | Answerer

  /** Why a run ended early: something outside the protocol, or a message the peer refused. */
  datatype Cause = Outside | Refused

  function BodyFor(index: nat): (body: string)
    requires index < BLOCKS
  {
    seq(CHUNK, i => (65 + index) as char)
  }

  datatype Message =
    | Ready
    | Data(index: nat, body: string)
    | Echo(index: nat, body: string)
    | Complete(bytes: nat, evidence: Evidence)
    | CompleteAck(bytes: nat, evidence: Evidence)
    | Receipt

  /** Where `open` stands. */
  datatype Opening = Closed | Measuring | Opened

  /** Where `sendPayload` stands; it holds `pending` exactly while it awaits a reply. */
  datatype Sender =
    | NotStarted
    | MeasuringBefore
    | AwaitingEcho(index: nat)
    | GotEcho(index: nat, reply: Message)
    | MeasuringAfter
    | AwaitingAck
    | GotAck(ack: Message)
    | Over

  datatype Peer = Peer(
    role: Role, diagnostic: bool,
    channelOpen: bool, opening: Opening, sender: Sender,
    confirming: Option<Evidence>,   // receiveComplete waits for its snapshot, holding the peer's evidence
    received: seq<string>,          // the blocks accepted, in order
    transferring: bool, done: bool, ended: bool,
    failure: Option<Cause>,
    local: seq<Candidate>, remote: seq<Candidate>,
    pathBefore: Option<Path>, pathAfter: Option<Path>,
    localEvidence: Option<Evidence>, peerEvidence: Option<Evidence>,
    payloadBytes: nat, verdict: bool)

  function NewPeer(role: Role, diagnostic: bool): Peer {
    Peer(role, diagnostic, true, Closed, NotStarted, None, [], false, false, false, None, [], [], None, None, None,
         None, 0, false)
  }

  /** A handler's effect: the peer after it, and the message it sent, if any. */
  datatype Out = Out(peer: Peer, mail: Option<Message>)

  // ---------------------------------------------------------------- ends of a run

  /** Closes the channel; a reply that is awaited will never come. */
  function Cleanup(p: Peer): Peer {
    p.(ended := true, channelOpen := false,
       sender := if p.sender.AwaitingEcho? || p.sender.AwaitingAck? then Over else p.sender)
  }

  function Fail(p: Peer, cause: Cause): Peer {
    if p.ended || p.done then p else Cleanup(p.(failure := Some(cause)))
  }

  function Qualifies(e: Option<Evidence>): bool {
    e.Some? && e.value.qualifies
  }

  /** Success, unless the run has ended: the verdict rests on both sides' evidence. */
  function Succeed(p: Peer, peerEvidence: Evidence): Peer {
    if p.ended then p
    else p.(payloadBytes := PAYLOAD, peerEvidence := Some(peerEvidence), done := true,
            verdict := !p.diagnostic && Qualifies(p.localEvidence) && peerEvidence.qualifies)
  }

  function Throw(p: Peer, cause: Cause): Out {
    Out(Fail(p, cause), None)
  }

  /** Sends; on a channel that is not open the handler throws. */
  function Send(p: Peer, m: Message): Out {
    if p.channelOpen then Out(p, Some(m)) else Throw(p, Outside)
  }

  // ---------------------------------------------------------------- opening

  function Open(p: Peer): Peer {
    if p.opening != Closed then p
    else if p.ended then p.(opening := Opened)
    else p.(opening := Measuring)
  }

  /** The first snapshot arrives, or collecting it fails. */
  function OpenMeasured(p: Peer, snapshot: Option<Option<Path>>): Out {
    if p.opening != Measuring then Out(p, None)
    else
      match snapshot
      case None => Throw(p.(opening := Opened), Outside)
      case Some(path) =>
        var q := p.(opening := Opened, pathBefore := path);
        if q.ended || q.role == Offerer then Out(q, None) else Send(q, Ready)
  }

  // ---------------------------------------------------------------- the sender

  function StartSender(p: Peer): Out {
    if p.role != Offerer || p.sender != NotStarted then Throw(p, Refused)
    else Out(p.(sender := MeasuringBefore), None)
  }

  /** `exchange`: remembers the reply it waits for and sends. */
  function Exchange(p: Peer, waiting: Sender, m: Message): Out {
    if p.channelOpen then Out(p.(sender := waiting), Some(m)) else Throw(p.(sender := Over), Outside)
  }

  /** The sender's snapshot before or after the transfer arrives, or collecting it fails. */
  function SenderMeasured(p: Peer, snapshot: Option<Option<Path>>): Out {
    if p.sender != MeasuringBefore && p.sender != MeasuringAfter then Out(p, None)
    else
      match snapshot
      case None => Throw(p.(sender := Over), Outside)
      case Some(path) =>
        var first := p.sender == MeasuringBefore;
        var q := if first then p.(pathBefore := path) else p.(pathAfter := path);
        if q.ended then Out(q.(sender := Over), None)
        else if first then Exchange(q.(transferring := true), AwaitingEcho(0), Data(0, BodyFor(0)))
        else CloseTransfer(q)
  }

  /** After the last block the offerer states its own evidence. */
  function CloseTransfer(p: Peer): Out {
    var own := PathEvidence(p.pathBefore, p.pathAfter, p.local, p.remote);
    Exchange(p.(transferring := false, localEvidence := Some(own)), AwaitingAck, Complete(PAYLOAD, own))
  }

  /** The sender goes on after a reply. */
  function SenderResumes(p: Peer): Out {
    match p.sender
    case GotEcho(index, reply) =>
      if !reply.Echo? || index >= BLOCKS || reply.index != index || reply.body != BodyFor(index) then
        Throw(p.(sender := Over), Refused)
      else if index + 1 == BLOCKS then Out(p.(sender := MeasuringAfter), None)
      else Exchange(p, AwaitingEcho(index + 1), Data(index + 1, BodyFor(index + 1)))
    case GotAck(ack) =>
      if !ack.CompleteAck? || ack.bytes != PAYLOAD then Throw(p.(sender := Over), Refused)
      else Send(Succeed(p.(sender := Over), ack.evidence), Receipt)
    case _ => Out(p, None)
  }

  // ---------------------------------------------------------------- the receiver

  function EchoBlock(p: Peer, index: nat, body: string): Out {
    if p.role != Answerer then Throw(p, Refused)
    else
      var q := p.(transferring := true);
      if index != |q.received| || |q.received| >= BLOCKS || body != BodyFor(|q.received|) then Throw(q, Refused)
      else Send(q.(received := q.received + [body]), Echo(index, body))
  }

  function ReceiveComplete(p: Peer, bytes: nat, evidence: Evidence): Out {
    if p.role != Answerer || |p.received| != BLOCKS || bytes != PAYLOAD then Throw(p, Refused)
    else Out(p.(confirming := Some(evidence)), None)
  }

  /** The answerer's last snapshot arrives, or collecting it fails. */
  function Confirm(p: Peer, snapshot: Option<Option<Path>>): Out {
    match p.confirming
    case None => Out(p, None)
    case Some(evidence) =>
      match snapshot
      case None => Throw(p.(confirming := None), Outside)
      case Some(path) =>
        var q := p.(confirming := None, pathAfter := path);
        if q.ended then Out(q, None) else Acknowledge(q, evidence)
  }

  /** The answerer's own evidence is sent back, and the run is a success once it is. */
  function Acknowledge(p: Peer, evidence: Evidence): Out {
    var own := PathEvidence(p.pathBefore, p.pathAfter, p.local, p.remote);
    var q := p.(transferring := false, localEvidence := Some(own));
    if !q.channelOpen then Throw(q, Outside)
    else Out(Succeed(q, evidence), Some(CompleteAck(PAYLOAD, own)))
  }

  /** One message from the channel, once the previous one is dealt with. */
  function OnData(p: Peer, m: Message): Out {
    if p.ended then Out(p, None)
    else if p.sender.AwaitingEcho? && m.Echo? then Out(p.(sender := GotEcho(p.sender.index, m)), None)
    else if p.sender.AwaitingAck? && m.CompleteAck? then Out(p.(sender := GotAck(m)), None)
    else
      match m
      case Ready => StartSender(p)
      case Data(index, body) => EchoBlock(p, index, body)
      case Complete(bytes, evidence) => ReceiveComplete(p, bytes, evidence)
      case Receipt => if p.role != Answerer || !p.done then Throw(p, Refused) else Out(Cleanup(p), None)
      case _ => Throw(p, Refused)
  }

  /** A reply has not come within ten seconds. */
  function ReplyTimesOut(p: Peer): Peer {
    if p.sender.AwaitingEcho? || p.sender.AwaitingAck? then Fail(p.(sender := Over), Outside) else p
  }

  /** The selected candidate pair changed. */
  function PathChanges(p: Peer): Peer {
    if p.transferring && !p.ended then Fail(p, Outside) else p
  }

  /** The data channel closed under the peer. */
  function ChannelCloses(p: Peer): Peer {
    var q := p.(channelOpen := false);
    if q.ended then q else Fail(q, Outside)
  }

  /** Candidates found or received; none are taken once the run is over. */
  function Learn(p: Peer, local: seq<Candidate>, remote: seq<Candidate>): Peer {
    if p.ended || p.done then p else p.(local := local, remote := remote)
  }
}
