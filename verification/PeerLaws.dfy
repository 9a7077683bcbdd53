/**
 * What one browser peer does at each of its steps (infra/cloudflare/worker/public/peer.js, lines
 * 117-241), told by its state before: when its run fails, when it succeeds, and what it sends.
 */
module PeerLaws {
  import opened Base
  import opened PeerProof
  import opened PeerHandlers
  import opened PeerProtocol

  predicate Running(p: Peer) {
    !p.ended && !p.done
  }

  predicate Awaits(p: Peer) {
    p.sender.AwaitingEcho? || p.sender.AwaitingAck?
  }

  /** The body of a block: 8192 times the letter of its number. */
  predicate IsBlock(index: nat, body: string) {
    index < 8 && |body| == 8192 && forall i :: 0 <= i < |body| ==> body[i] as int == 'A' as int + index
  }

  lemma BlocksAreLetters(index: nat, body: string)
    ensures IsBlock(index, body) <==> index < 8 && body == BodyFor(index)
  {
  }

  /** The block that this answerer has to receive next. */
  predicate IsNextBlock(p: Peer, index: nat, body: string) {
    p.role == Answerer && index == |p.received| && IsBlock(index, body)
  }

  /** A message that a running peer takes. */
  predicate Takes(p: Peer, m: Message) {
    || (p.sender.AwaitingEcho? && m.Echo?)
    || (p.sender.AwaitingAck? && m.CompleteAck?)
    || (match m
        case Ready => p.role == Offerer && p.sender == NotStarted
        case Data(index, body) => IsNextBlock(p, index, body)
        case Complete(bytes, _) => p.role == Answerer && |p.received| == 8 && bytes == 65536
        case _ => false)
  }

  /** The reply to block i is that block again. */
  predicate RightEcho(index: nat, reply: Message) {
    reply.Echo? && reply.index == index && IsBlock(index, reply.body)
  }

  predicate RightAck(ack: Message) {
    ack.CompleteAck? && ack.bytes == 65536
  }

  /** A step that makes a running peer fail. */
  predicate Breaks(p: Peer, step: Step, incoming: Option<Message>) {
    match step
    case Opens => false
    case OpenSnapshot(snapshot) =>
      p.opening == Measuring && (snapshot.None? || (p.role == Answerer && !p.channelOpen))
    case SenderSnapshot(snapshot) =>
      (p.sender == MeasuringBefore || p.sender == MeasuringAfter) && (snapshot.None? || !p.channelOpen)
    case SenderGoesOn =>
      || (p.sender.GotEcho? && (!RightEcho(p.sender.index, p.sender.reply) || (p.sender.index < 7 && !p.channelOpen)))
      || (p.sender.GotAck? && !RightAck(p.sender.ack))
    case ConfirmSnapshot(snapshot) => p.confirming.Some? && (snapshot.None? || !p.channelOpen)
    case Receives =>
      incoming.Some? && (!Takes(p, incoming.value) || (incoming.value.Data? && !p.channelOpen))
    case TimesOut => Awaits(p)
    case PathMoves => p.transferring
    case ChannelEnds => true
    case Fails => true
    case CleansUp => false
    case Learns(_, _) => false
  }

  /** A run fails exactly at such a step, and then it has ended with its channel closed; a settled run never fails. */
  lemma FailsExactly(p: Peer, step: Step, incoming: Option<Message>)
    requires PeerOk(p)
    ensures var q := PeerStep(p, step, incoming).peer;
      if Running(p) && Breaks(p, step, incoming)
      then q.failure.Some? && q.ended && !q.channelOpen && !q.done
      else q.failure == p.failure
  {
    hide BodyFor, PathEvidence, OnData, SenderMeasured, SenderResumes, Confirm, OpenMeasured;
    match step
    case Receives => if incoming.Some? { DataFails(p, incoming.value); }
    case SenderSnapshot(snapshot) => MeasuredFails(p, snapshot);
    case SenderGoesOn => ResumeFails(p);
    case ConfirmSnapshot(snapshot) => ConfirmFails(p, snapshot);
    case OpenSnapshot(snapshot) => OpenFails(p, snapshot);
    case _ =>
  }

  /** What is said of failing, of one step's result. */
  predicate FailedIf(p: Peer, breaks: bool, q: Peer) {
    if Running(p) && breaks then q.failure.Some? && q.ended && !q.channelOpen && !q.done
    else q.failure == p.failure
  }

  lemma DataFails(p: Peer, m: Message)
    ensures FailedIf(p, !Takes(p, m) || (m.Data? && !p.channelOpen), OnData(p, m).peer)
  {
    hide BodyFor;
    match m
    case Data(index, body) =>
      BlocksAreLetters(index, body);
      hide IsBlock;
    case _ =>
  }

  lemma MeasuredFails(p: Peer, snapshot: Option<Option<Path>>)
    ensures FailedIf(p, Breaks(p, SenderSnapshot(snapshot), None), SenderMeasured(p, snapshot).peer)
  {
    hide BodyFor, PathEvidence;
  }

  lemma ResumeFails(p: Peer)
    ensures FailedIf(p, Breaks(p, SenderGoesOn, None), SenderResumes(p).peer)
  {
    hide BodyFor, IsBlock;
    if p.sender.GotEcho? && p.sender.reply.Echo? {
      BlocksAreLetters(p.sender.index, p.sender.reply.body);
    }
  }

  lemma ConfirmFails(p: Peer, snapshot: Option<Option<Path>>)
    ensures FailedIf(p, Breaks(p, ConfirmSnapshot(snapshot), None), Confirm(p, snapshot).peer)
  {
    hide PathEvidence;
  }

  lemma OpenFails(p: Peer, snapshot: Option<Option<Path>>)
    ensures FailedIf(p, Breaks(p, OpenSnapshot(snapshot), None), OpenMeasured(p, snapshot).peer)
  {
  }

  // ---------------------------------------------------------------- success

  /** The offerer's acknowledgement, or the answerer's own last snapshot with its channel still open. */
  predicate Concludes(p: Peer, step: Step) {
    || (step.SenderGoesOn? && p.sender.GotAck? && RightAck(p.sender.ack))
    || (step.ConfirmSnapshot? && step.snapshot.Some? && p.confirming.Some? && p.channelOpen)
  }

  /** The evidence the other side has stated. */
  function Stated(p: Peer): Evidence
    requires (p.sender.GotAck? && p.sender.ack.CompleteAck?) || p.confirming.Some?
  {
    if p.confirming.Some? then p.confirming.value else p.sender.ack.evidence
  }

  predicate DoneIf(p: Peer, concludes: bool, evidence: Option<Evidence>, q: Peer) {
    if !p.done && !p.ended && concludes
    then && q.done && q.payloadBytes == 65536 && q.peerEvidence == evidence
         && q.verdict == (!p.diagnostic && q.localEvidence.Some? && q.localEvidence.value.qualifies
                          && evidence.Some? && evidence.value.qualifies)
    else q.done == p.done && q.verdict == p.verdict && (!p.done ==> q.payloadBytes == p.payloadBytes)
  }

  /** A run succeeds exactly at such a step, with a verdict that rests on the evidence of both sides. */
  lemma SucceedsExactly(p: Peer, step: Step, incoming: Option<Message>)
    requires PeerOk(p) && (p.done ==> !p.sender.GotAck? && p.confirming.None?)
    requires p.confirming.Some? ==> !p.sender.GotAck?
    ensures var q := PeerStep(p, step, incoming).peer;
      DoneIf(p, Concludes(p, step), if Concludes(p, step) then Some(Stated(p)) else None, q)
  {
    hide BodyFor, PathEvidence, OnData, SenderMeasured, SenderResumes, Confirm;
    match step
    case Receives => if incoming.Some? { DataSettlesNothing(p, incoming.value); }
    case SenderSnapshot(snapshot) => MeasuringSettlesNothing(p, snapshot);
    case SenderGoesOn => ResumeSettles(p);
    case ConfirmSnapshot(snapshot) => ConfirmSettles(p, snapshot);
    case _ =>
  }

  lemma DataSettlesNothing(p: Peer, m: Message)
    ensures DoneIf(p, false, None, OnData(p, m).peer)
  {
    hide BodyFor;
  }

  lemma MeasuringSettlesNothing(p: Peer, snapshot: Option<Option<Path>>)
    ensures DoneIf(p, false, None, SenderMeasured(p, snapshot).peer)
  {
    hide BodyFor, PathEvidence;
  }

  lemma ResumeSettles(p: Peer)
    requires p.done ==> !p.sender.GotAck?
    ensures var concludes := p.sender.GotAck? && RightAck(p.sender.ack);
      DoneIf(p, concludes, if concludes then Some(p.sender.ack.evidence) else None, SenderResumes(p).peer)
  {
    hide BodyFor;
  }

  lemma ConfirmSettles(p: Peer, snapshot: Option<Option<Path>>)
    requires p.done ==> p.confirming.None?
    ensures var concludes := snapshot.Some? && p.confirming.Some? && p.channelOpen;
      DoneIf(p, concludes, if concludes then p.confirming else None, Confirm(p, snapshot).peer)
  {
    hide PathEvidence;
  }

  // ---------------------------------------------------------------- messages sent

  /** What a step sends from a run that goes on and a channel that is open. */
  ghost predicate IsSent(p: Peer, step: Step, incoming: Option<Message>, m: Message) {
    match m
    case Ready =>
      step.OpenSnapshot? && step.snapshot.Some? && p.opening == Measuring && p.role == Answerer && !p.ended
    case Data(index, body) =>
      && IsBlock(index, body)
      && ((index == 0 && step.SenderSnapshot? && step.snapshot.Some? && p.sender == MeasuringBefore && !p.ended)
          || (index > 0 && step.SenderGoesOn? && p.sender.GotEcho? && p.sender.index == index - 1
              && RightEcho(index - 1, p.sender.reply)))
    case Echo(index, body) =>
      && step.Receives? && !p.ended && incoming == Some(Data(index, body)) && IsNextBlock(p, index, body)
    case Complete(bytes, evidence) =>
      && step.SenderSnapshot? && step.snapshot.Some? && p.sender == MeasuringAfter && !p.ended && bytes == 65536
      && evidence == PathEvidence(p.pathBefore, step.snapshot.value, p.local, p.remote)
    case CompleteAck(bytes, evidence) =>
      && step.ConfirmSnapshot? && step.snapshot.Some? && p.confirming.Some? && !p.ended && bytes == 65536
      && evidence == PathEvidence(p.pathBefore, step.snapshot.value, p.local, p.remote)
    case Receipt => step.SenderGoesOn? && p.sender.GotAck? && RightAck(p.sender.ack)
  }

  /** A step sends a message exactly if it is the one to be sent and the channel is open. */
  lemma SendsExactly(p: Peer, step: Step, incoming: Option<Message>, m: Message)
    requires PeerOk(p)
    ensures PeerStep(p, step, incoming).mail == Some(m) <==> p.channelOpen && IsSent(p, step, incoming, m)
  {
    hide BodyFor, PathEvidence, OnData, SenderMeasured, SenderResumes, Confirm, OpenMeasured, IsBlock;
    match step
    case Receives => if incoming.Some? { DataSends(p, incoming.value, m); }
    case SenderSnapshot(snapshot) => MeasuredSends(p, snapshot, m);
    case SenderGoesOn => ResumeSends(p, m);
    case ConfirmSnapshot(snapshot) => ConfirmSends(p, snapshot, m);
    case OpenSnapshot(snapshot) => OpenSends(p, snapshot, m);
    case _ =>
  }

  lemma DataSends(p: Peer, d: Message, m: Message)
    requires PeerOk(p)
    ensures OnData(p, d).mail == Some(m) <==> p.channelOpen && IsSent(p, Receives, Some(d), m)
  {
    hide BodyFor, PathEvidence, IsBlock;
    if d.Data? {
      BlocksAreLetters(d.index, d.body);
    }
  }

  lemma MeasuredSends(p: Peer, snapshot: Option<Option<Path>>, m: Message)
    ensures SenderMeasured(p, snapshot).mail == Some(m) <==>
      p.channelOpen && IsSent(p, SenderSnapshot(snapshot), None, m)
  {
    hide BodyFor, PathEvidence, IsBlock, CloseTransfer, Fail;
    if m.Data? {
      BlocksAreLetters(m.index, m.body);
    }
    BlocksAreLetters(0, BodyFor(0));
    if snapshot.Some? {
      CloseSends(p.(pathAfter := snapshot.value), m);
    }
  }

  lemma CloseSends(p: Peer, m: Message)
    ensures CloseTransfer(p).mail == Some(m) <==>
      p.channelOpen && m == Complete(65536, PathEvidence(p.pathBefore, p.pathAfter, p.local, p.remote))
  {
    hide PathEvidence;
  }

  lemma ResumeSends(p: Peer, m: Message)
    requires PeerOk(p)
    ensures SenderResumes(p).mail == Some(m) <==> p.channelOpen && IsSent(p, SenderGoesOn, None, m)
  {
    hide BodyFor, PathEvidence, IsBlock;
    if m.Data? {
      BlocksAreLetters(m.index, m.body);
    }
    if p.sender.GotEcho? && p.sender.reply.Echo? {
      BlocksAreLetters(p.sender.index, p.sender.reply.body);
      if p.sender.index < 7 {
        BlocksAreLetters(p.sender.index + 1, BodyFor(p.sender.index + 1));
      }
    }
  }

  lemma ConfirmSends(p: Peer, snapshot: Option<Option<Path>>, m: Message)
    ensures Confirm(p, snapshot).mail == Some(m) <==> p.channelOpen && IsSent(p, ConfirmSnapshot(snapshot), None, m)
  {
    hide PathEvidence, IsBlock;
  }

  lemma OpenSends(p: Peer, snapshot: Option<Option<Path>>, m: Message)
    requires PeerOk(p)
    ensures OpenMeasured(p, snapshot).mail == Some(m) <==> p.channelOpen && IsSent(p, OpenSnapshot(snapshot), None, m)
  {
    hide PathEvidence, IsBlock;
  }

  // ---------------------------------------------------------------- the rest of the state

  /** Blocks are kept in order and one at a time, and candidates are learnt only while the run goes on. */
  lemma KeepsExactly(p: Peer, step: Step, incoming: Option<Message>)
    requires PeerOk(p)
    ensures var q := PeerStep(p, step, incoming).peer;
      && (if step.Receives? && incoming.Some? && incoming.value.Data? && !p.ended
             && IsNextBlock(p, incoming.value.index, incoming.value.body)
          then q.received == p.received + [incoming.value.body] else q.received == p.received)
      && (if step.Learns? && Running(p) then q.local == step.local && q.remote == step.remote
          else q.local == p.local && q.remote == p.remote)
      && q.role == p.role && q.diagnostic == p.diagnostic
  {
    hide BodyFor, PathEvidence, OnData, SenderMeasured, SenderResumes, Confirm, OpenMeasured, IsBlock;
    match step
    case Receives => if incoming.Some? { DataKeeps(p, incoming.value); }
    case SenderSnapshot(snapshot) => MeasuredKeeps(p, snapshot);
    case SenderGoesOn => ResumeKeeps(p);
    case ConfirmSnapshot(snapshot) => ConfirmKeeps(p, snapshot);
    case OpenSnapshot(snapshot) => OpenKeeps(p, snapshot);
    case _ =>
  }

  predicate SameRecords(p: Peer, q: Peer) {
    && q.received == p.received && q.local == p.local && q.remote == p.remote
    && q.role == p.role && q.diagnostic == p.diagnostic
  }

  lemma FailKeeps(p: Peer, c: Cause)
    ensures SameRecords(p, Fail(p, c))
  {
  }

  lemma SendKeeps(p: Peer, m: Message)
    ensures SameRecords(p, Send(p, m).peer)
  {
  }

  lemma ExchangeKeeps(p: Peer, waiting: Sender, m: Message)
    ensures SameRecords(p, Exchange(p, waiting, m).peer)
  {
  }

  lemma SucceedKeeps(p: Peer, evidence: Evidence)
    ensures SameRecords(p, Succeed(p, evidence))
  {
  }

  lemma DataKeeps(p: Peer, m: Message)
    ensures var q := OnData(p, m).peer;
      if !p.ended && m.Data? && IsNextBlock(p, m.index, m.body)
      then q.received == p.received + [m.body] && SameRecords(p, q.(received := p.received))
      else SameRecords(p, q)
  {
    hide BodyFor, IsBlock, Fail, EchoBlock, StartSender, ReceiveComplete, Cleanup;
    FailKeeps(p, Refused);
    match m
    case Ready => StartKeeps(p);
    case Data(index, body) => BlockKeeps(p, index, body);
    case Complete(bytes, evidence) => CompleteKeeps(p, bytes, evidence);
    case Receipt => CleanupKeeps(p);
    case _ =>
  }

  lemma StartKeeps(p: Peer)
    ensures SameRecords(p, StartSender(p).peer)
  {
  }

  lemma CompleteKeeps(p: Peer, bytes: nat, evidence: Evidence)
    ensures SameRecords(p, ReceiveComplete(p, bytes, evidence).peer)
  {
  }

  lemma CleanupKeeps(p: Peer)
    ensures SameRecords(p, Cleanup(p))
  {
  }

  lemma BlockKeeps(p: Peer, index: nat, body: string)
    ensures var q := EchoBlock(p, index, body).peer;
      if IsNextBlock(p, index, body)
      then q.received == p.received + [body] && SameRecords(p, q.(received := p.received))
      else SameRecords(p, q)
  {
    hide BodyFor, IsBlock, Fail, Send;
    BlocksAreLetters(index, body);
    FailKeeps(p, Refused);
    FailKeeps(p.(transferring := true), Refused);
    SendKeeps(p.(transferring := true, received := p.received + [body]), Echo(index, body));
  }

  lemma MeasuredKeeps(p: Peer, snapshot: Option<Option<Path>>)
    ensures SameRecords(p, SenderMeasured(p, snapshot).peer)
  {
    hide BodyFor, Fail, Exchange, CloseTransfer;
    FailKeeps(p.(sender := Over), Outside);
    if snapshot.Some? {
      ExchangeKeeps(p.(pathBefore := snapshot.value, transferring := true), AwaitingEcho(0), Data(0, BodyFor(0)));
      CloseKeeps(p.(pathAfter := snapshot.value));
    }
  }

  lemma CloseKeeps(p: Peer)
    ensures SameRecords(p, CloseTransfer(p).peer)
  {
    hide PathEvidence;
  }

  lemma ResumeKeeps(p: Peer)
    ensures SameRecords(p, SenderResumes(p).peer)
  {
    hide SenderResumes;
    if p.sender.GotEcho? {
      AfterEchoKeeps(p);
    } else if p.sender.GotAck? {
      AfterAckKeeps(p);
    } else {
      NothingResumes(p);
    }
  }

  lemma NothingResumes(p: Peer)
    requires !p.sender.GotEcho? && !p.sender.GotAck?
    ensures SameRecords(p, SenderResumes(p).peer)
  {
  }

  lemma AfterEchoKeeps(p: Peer)
    requires p.sender.GotEcho?
    ensures SameRecords(p, SenderResumes(p).peer)
  {
    hide BodyFor, Fail, Exchange;
    var index := p.sender.index;
    FailKeeps(p.(sender := Over), Refused);
    if index + 1 < BLOCKS {
      ExchangeKeeps(p, AwaitingEcho(index + 1), Data(index + 1, BodyFor(index + 1)));
    }
  }

  lemma AfterAckKeeps(p: Peer)
    requires p.sender.GotAck?
    ensures SameRecords(p, SenderResumes(p).peer)
  {
    hide Fail, Send, Succeed;
    FailKeeps(p.(sender := Over), Refused);
    if p.sender.ack.CompleteAck? {
      SucceedKeeps(p.(sender := Over), p.sender.ack.evidence);
      SendKeeps(Succeed(p.(sender := Over), p.sender.ack.evidence), Receipt);
    }
  }

  lemma ConfirmKeeps(p: Peer, snapshot: Option<Option<Path>>)
    ensures SameRecords(p, Confirm(p, snapshot).peer)
  {
    hide Fail, Acknowledge;
    if p.confirming.Some? {
      FailKeeps(p.(confirming := None), Outside);
      if snapshot.Some? {
        AcknowledgeKeeps(p.(confirming := None, pathAfter := snapshot.value), p.confirming.value);
      }
    }
  }

  lemma AcknowledgeKeeps(p: Peer, evidence: Evidence)
    ensures SameRecords(p, Acknowledge(p, evidence).peer)
  {
    hide PathEvidence;
  }

  lemma OpenKeeps(p: Peer, snapshot: Option<Option<Path>>)
    ensures SameRecords(p, OpenMeasured(p, snapshot).peer)
  {
  }

  // ---------------------------------------------------------------- the end of a run, and the transfer

  /** Whether blocks are on their way after a step: from the first block until the own last snapshot. */
  predicate Transferring(p: Peer, step: Step, incoming: Option<Message>) {
    if p.ended then p.transferring
    else if step.SenderSnapshot? && step.snapshot.Some? && p.sender == MeasuringBefore then true
    else if step.SenderSnapshot? && step.snapshot.Some? && p.sender == MeasuringAfter then false
    else if step.ConfirmSnapshot? && step.snapshot.Some? && p.confirming.Some? then false
    else if step.Receives? && incoming.Some? && incoming.value.Data? && p.role == Answerer then true
    else p.transferring
  }

  predicate Flagged(q: Peer, ended: bool, transferring: bool) {
    q.ended == ended && q.transferring == transferring
  }

  /** A run ends by failing, by being cleaned up, or with the receipt for a success. */
  lemma EndsExactly(p: Peer, step: Step, incoming: Option<Message>)
    requires PeerOk(p)
    ensures Flagged(PeerStep(p, step, incoming).peer,
                    || p.ended || (Running(p) && Breaks(p, step, incoming)) || step.CleansUp?
                    || (step.Receives? && incoming == Some(Receipt) && p.role == Answerer && p.done),
                    Transferring(p, step, incoming))
  {
    hide BodyFor, PathEvidence, OnData, SenderMeasured, SenderResumes, Confirm, OpenMeasured;
    match step
    case Receives => if incoming.Some? { DataFlags(p, incoming.value); }
    case SenderSnapshot(snapshot) => MeasuredFlags(p, snapshot);
    case SenderGoesOn => ResumeFlags(p);
    case ConfirmSnapshot(snapshot) => ConfirmFlags(p, snapshot);
    case OpenSnapshot(snapshot) => OpenFlags(p, snapshot);
    case _ =>
  }

  lemma DataFlags(p: Peer, m: Message)
    ensures Flagged(OnData(p, m).peer,
                    || p.ended || (Running(p) && Breaks(p, Receives, Some(m)))
                    || (m == Receipt && p.role == Answerer && p.done),
                    Transferring(p, Receives, Some(m)))
  {
    hide BodyFor, IsBlock;
    if m.Data? {
      BlocksAreLetters(m.index, m.body);
    }
  }

  lemma MeasuredFlags(p: Peer, snapshot: Option<Option<Path>>)
    ensures var step := SenderSnapshot(snapshot);
      Flagged(SenderMeasured(p, snapshot).peer, p.ended || (Running(p) && Breaks(p, step, None)),
              Transferring(p, step, None))
  {
    hide BodyFor, PathEvidence;
  }

  lemma ResumeFlags(p: Peer)
    ensures Flagged(SenderResumes(p).peer, p.ended || (Running(p) && Breaks(p, SenderGoesOn, None)), p.transferring)
  {
    hide BodyFor, IsBlock;
    if p.sender.GotEcho? && p.sender.reply.Echo? {
      BlocksAreLetters(p.sender.index, p.sender.reply.body);
    }
  }

  lemma ConfirmFlags(p: Peer, snapshot: Option<Option<Path>>)
    ensures var step := ConfirmSnapshot(snapshot);
      Flagged(Confirm(p, snapshot).peer, p.ended || (Running(p) && Breaks(p, step, None)),
              Transferring(p, step, None))
  {
    hide PathEvidence;
  }

  lemma OpenFlags(p: Peer, snapshot: Option<Option<Path>>)
    ensures Flagged(OpenMeasured(p, snapshot).peer,
                    p.ended || (Running(p) && Breaks(p, OpenSnapshot(snapshot), None)), p.transferring)
  {
  }

  // ---------------------------------------------------------------- the channel

  /** A message is taken from the front of a queue, one at a time, and not while the answerer confirms. */
  predicate IsTaken(p: Peer, step: Step, queue: seq<Message>) {
    step == Receives && queue != [] && p.confirming == None
  }

  /** One peer's step: what it takes leaves its queue, what it sends joins the other's while the link is up. */
  ghost predicate IsStep(
    p: Peer, step: Step, inward: seq<Message>, outward: seq<Message>, linked: bool,
    q: Peer, restInward: seq<Message>, newOutward: seq<Message>)
  {
    var incoming := if IsTaken(p, step, inward) then Some(inward[0]) else None;
    && q == PeerStep(p, step, incoming).peer
    && (if incoming.Some? then inward == [incoming.value] + restInward else restInward == inward)
    && (if linked && exists m :: p.channelOpen && IsSent(p, step, incoming, m)
        then |newOutward| == |outward| + 1 && newOutward[..|outward|] == outward
             && IsSent(p, step, incoming, newOutward[|outward|])
        else newOutward == outward)
  }

  lemma StepIs(p: Peer, step: Step, inward: seq<Message>, outward: seq<Message>, linked: bool)
    requires PeerOk(p)
    ensures var out := PeerStep(p, step, Incoming(p, step, inward));
      IsStep(p, step, inward, outward, linked, out.peer, Rest(p, step, inward), Post(linked, outward, out.mail))
  {
    hide PeerStep, IsSent, PeerOk;
    var incoming := Incoming(p, step, inward);
    var out := PeerStep(p, step, incoming);
    if out.mail.Some? {
      SendsExactly(p, step, incoming, out.mail.value);
    } else if m: Message :| p.channelOpen && IsSent(p, step, incoming, m) {
      SendsExactly(p, step, incoming, m);
    }
  }

  /** The two queues are ordered channels between the peers; losing the link empties them for good. */
  lemma ChannelsAreOrdered(s: State, e: Event)
    requires PeerOk(s.offerer) && PeerOk(s.answerer)
    ensures var t := Next(s, e);
      match e
      case LinkLost => t == s.(toOfferer := [], toAnswerer := [], linked := false)
      case At(Offerer, step) =>
        && t.answerer == s.answerer && t.linked == s.linked
        && IsStep(s.offerer, step, s.toOfferer, s.toAnswerer, s.linked, t.offerer, t.toOfferer, t.toAnswerer)
      case At(Answerer, step) =>
        && t.offerer == s.offerer && t.linked == s.linked
        && IsStep(s.answerer, step, s.toAnswerer, s.toOfferer, s.linked, t.answerer, t.toAnswerer, t.toOfferer)
  {
    hide PeerStep, IsStep, PeerOk;
    if e.At? && e.role == Offerer {
      StepIs(s.offerer, e.step, s.toOfferer, s.toAnswerer, s.linked);
    } else if e.At? {
      StepIs(s.answerer, e.step, s.toAnswerer, s.toOfferer, s.linked);
    }
  }
}
