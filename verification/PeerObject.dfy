/**
 * The object behind one browser peer (`Experiment` in
 * infra/cloudflare/worker/public/peer.js): its handlers update its fields step by step,
 * and each does to them what the protocol's step functions say.
 */
module PeerObject {
  import opened Base
  import opened PeerProof
  import opened PeerHandlers
  import opened PeerProtocol

  class Experiment {
    const role: Role
    const diagnostic: bool

    var channelOpen: bool
    var opening: Opening
    var sender: Sender
    var confirming: Option<Evidence>
    var received: seq<string>
    var transferring: bool
    var done: bool
    var ended: bool
    var failure: Option<Cause>
    var local: seq<Candidate>
    var remote: seq<Candidate>
    var pathBefore: Option<Path>
    var pathAfter: Option<Path>
    var localEvidence: Option<Evidence>
    var peerEvidence: Option<Evidence>
    var payloadBytes: nat
    var verdict: bool

    ghost function View(): Peer
      reads this
    {
      Peer(role, diagnostic, channelOpen, opening, sender, confirming, received, transferring, done, ended,
                failure, local, remote, pathBefore, pathAfter, localEvidence, peerEvidence, payloadBytes, verdict)
    }

    constructor (role: Role, diagnostic: bool)
      ensures View() == NewPeer(role, diagnostic)
    {
      this.role, this.diagnostic := role, diagnostic;
      channelOpen, opening, sender, confirming, received := true, Closed, NotStarted, None, [];
      transferring, done, ended, failure, local, remote := false, false, false, None, [], [];
      pathBefore, pathAfter, localEvidence, peerEvidence, payloadBytes, verdict := None, None, None, None, 0, false;
    }

    method CleanUp()
      modifies this
      ensures View() == Cleanup(old(View()))
    {
      ended := true;
      if sender.AwaitingEcho? || sender.AwaitingAck? {
        sender := Over;
      }
      channelOpen := false;
    }

    method FailWith(cause: Cause)
      modifies this
      ensures View() == Fail(old(View()), cause)
    {
      if ended || done {
        return;
      }
      failure := Some(cause);
      CleanUp();
    }

    method Conclude(evidence: Evidence)
      modifies this
      ensures View() == Succeed(old(View()), evidence)
    {
      if ended {
        return;
      }
      payloadBytes := PAYLOAD;
      peerEvidence := Some(evidence);
      verdict := !diagnostic && localEvidence.Some? && localEvidence.value.qualifies && evidence.qualifies;
      done := true;
    }

    /** Puts a message on the channel, or throws: the caller's handler then fails the run. */
    method Post(m: Message) returns (mail: Option<Message>)
      modifies this
      ensures Out(View(), mail) == Send(old(View()), m)
    {
      if channelOpen {
        return Some(m);
      }
      FailWith(Outside);
      mail := None;
    }

    method Ask(waiting: Sender, m: Message) returns (mail: Option<Message>)
      modifies this
      ensures Out(View(), mail) == Exchange(old(View()), waiting, m)
    {
      if channelOpen {
        sender := waiting;
        return Some(m);
      }
      sender := Over;
      FailWith(Outside);
      mail := None;
    }

    method OnOpen()
      modifies this
      ensures View() == Open(old(View()))
    {
      if opening == Closed {
        opening := if ended then Opened else Measuring;
      }
    }

    method OnOpenMeasured(snapshot: Option<Option<Path>>) returns (mail: Option<Message>)
      modifies this
      ensures Out(View(), mail) == OpenMeasured(old(View()), snapshot)
    {
      mail := None;
      if opening != Measuring {
        return;
      }
      opening := Opened;
      if snapshot.None? {
        FailWith(Outside);
        return;
      }
      pathBefore := snapshot.value;
      if !ended && role == Answerer {
        mail := Post(Ready);
      }
    }

    method OnSenderMeasured(snapshot: Option<Option<Path>>) returns (mail: Option<Message>)
      modifies this
      ensures Out(View(), mail) == SenderMeasured(old(View()), snapshot)
    {
      hide BodyFor, Fail, Exchange, PeerHandlers.CloseTransfer;
      mail := None;
      var first := sender == MeasuringBefore;
      if !first && sender != MeasuringAfter {
        return;
      }
      if snapshot.None? {
        sender := Over;
        FailWith(Outside);
        return;
      }
      if first {
        pathBefore := snapshot.value;
      } else {
        pathAfter := snapshot.value;
      }
      if ended {
        sender := Over;
        return;
      }
      if first {
        transferring := true;
        mail := Ask(AwaitingEcho(0), Data(0, BodyFor(0)));
      } else {
        mail := CloseTransfer();
      }
    }

    method CloseTransfer() returns (mail: Option<Message>)
      modifies this
      ensures Out(View(), mail) == PeerHandlers.CloseTransfer(old(View()))
    {
      hide PathEvidence, Exchange;
      transferring := false;
      var own := PathEvidence(pathBefore, pathAfter, local, remote);
      localEvidence := Some(own);
      mail := Ask(AwaitingAck, Complete(PAYLOAD, own));
    }

    method GoOn() returns (mail: Option<Message>)
      modifies this
      ensures Out(View(), mail) == SenderResumes(old(View()))
    {
      mail := None;
      match sender {
        case GotEcho(index, reply) =>
          if !reply.Echo? || index >= BLOCKS || reply.index != index || reply.body != BodyFor(index) {
            sender := Over;
            FailWith(Refused);
          } else if index + 1 == BLOCKS {
            sender := MeasuringAfter;
          } else {
            mail := Ask(AwaitingEcho(index + 1), Data(index + 1, BodyFor(index + 1)));
          }
        case GotAck(ack) =>
          sender := Over;
          if !ack.CompleteAck? || ack.bytes != PAYLOAD {
            FailWith(Refused);
          } else {
            Conclude(ack.evidence);
            mail := Post(Receipt);
          }
        case _ =>
      }
    }

    method SenderReady()
      modifies this
      ensures Out(View(), None) == StartSender(old(View()))
    {
      if role != Offerer || sender != NotStarted {
        FailWith(Refused);
      } else {
        sender := MeasuringBefore;
      }
    }

    method TakeBlock(index: nat, body: string) returns (mail: Option<Message>)
      modifies this
      ensures Out(View(), mail) == EchoBlock(old(View()), index, body)
    {
      mail := None;
      if role != Answerer {
        FailWith(Refused);
        return;
      }
      transferring := true;
      if index != |received| || |received| >= BLOCKS || body != BodyFor(|received|) {
        FailWith(Refused);
        return;
      }
      received := received + [body];
      mail := Post(Echo(index, body));
    }

    method TakeComplete(bytes: nat, evidence: Evidence)
      modifies this
      ensures Out(View(), None) == ReceiveComplete(old(View()), bytes, evidence)
    {
      if role != Answerer || |received| != BLOCKS || bytes != PAYLOAD {
        FailWith(Refused);
      } else {
        confirming := Some(evidence);
      }
    }

    method OnConfirmMeasured(snapshot: Option<Option<Path>>) returns (mail: Option<Message>)
      modifies this
      ensures Out(View(), mail) == Confirm(old(View()), snapshot)
    {
      hide Fail, PeerHandlers.Acknowledge;
      mail := None;
      if confirming.None? {
        return;
      }
      var evidence := confirming.value;
      confirming := None;
      if snapshot.None? {
        FailWith(Outside);
        return;
      }
      pathAfter := snapshot.value;
      if ended {
        return;
      }
      mail := Acknowledge(evidence);
    }

    method Acknowledge(evidence: Evidence) returns (mail: Option<Message>)
      modifies this
      ensures Out(View(), mail) == PeerHandlers.Acknowledge(old(View()), evidence)
    {
      hide PathEvidence, Fail, Succeed;
      transferring := false;
      var own := PathEvidence(pathBefore, pathAfter, local, remote);
      localEvidence := Some(own);
      mail := Post(CompleteAck(PAYLOAD, own));
      if mail.Some? {
        Conclude(evidence);
      }
    }

    /** Dispatches one message from the channel. */
    method OnMessage(m: Message) returns (mail: Option<Message>)
      modifies this
      ensures Out(View(), mail) == OnData(old(View()), m)
    {
      mail := None;
      if ended {
        return;
      }
      if sender.AwaitingEcho? && m.Echo? {
        sender := GotEcho(sender.index, m);
        return;
      }
      if sender.AwaitingAck? && m.CompleteAck? {
        sender := GotAck(m);
        return;
      }
      match m {
        case Ready => SenderReady();
        case Data(index, body) => mail := TakeBlock(index, body);
        case Complete(bytes, evidence) => TakeComplete(bytes, evidence);
        case Receipt =>
          if role != Answerer || !done {
            FailWith(Refused);
          } else {
            CleanUp();
          }
        case _ => FailWith(Refused);
      }
    }

    method OnReplyTimeout()
      modifies this
      ensures View() == ReplyTimesOut(old(View()))
    {
      if sender.AwaitingEcho? || sender.AwaitingAck? {
        sender := Over;
        FailWith(Outside);
      }
    }

    method OnPathChange()
      modifies this
      ensures View() == PathChanges(old(View()))
    {
      if transferring && !ended {
        FailWith(Outside);
      }
    }

    method OnCandidates(local: seq<Candidate>, remote: seq<Candidate>)
      modifies this
      ensures View() == Learn(old(View()), local, remote)
    {
      if !ended && !done {
        this.local, this.remote := local, remote;
      }
    }

    method OnChannelClose()
      modifies this
      ensures View() == ChannelCloses(old(View()))
    {
      channelOpen := false;
      if !ended {
        FailWith(Outside);
      }
    }

    /** One step of this peer, given the message at the front of its channel, if any. */
    method Handle(step: Step, incoming: Option<Message>) returns (mail: Option<Message>)
      modifies this
      ensures Out(View(), mail) == PeerStep(old(View()), step, incoming)
    {
      mail := None;
      match step {
        case Opens => OnOpen();
        case OpenSnapshot(snapshot) => mail := OnOpenMeasured(snapshot);
        case SenderSnapshot(snapshot) => mail := OnSenderMeasured(snapshot);
        case SenderGoesOn => mail := GoOn();
        case ConfirmSnapshot(snapshot) => mail := OnConfirmMeasured(snapshot);
        case Receives => if incoming.Some? { mail := OnMessage(incoming.value); }
        case TimesOut => OnReplyTimeout();
        case PathMoves => OnPathChange();
        case ChannelEnds => OnChannelClose();
        case Fails => FailWith(Outside);
        case CleansUp => CleanUp();
        case Learns(local, remote) => OnCandidates(local, remote);
      }
    }
  }

  /**
   * The two peers of one room and the channel between them. Whatever happens to them,
   * their joint state is that of a run of the protocol, so its results hold of the objects.
   */
  class Session {
    const offerer: Experiment
    const answerer: Experiment
    var toOfferer: seq<Message>
    var toAnswerer: seq<Message>
    var linked: bool
    ghost var history: seq<Event>

    ghost function View(): State
      reads this, offerer, answerer
    {
      State(offerer.View(), answerer.View(), toOfferer, toAnswerer, linked)
    }

    ghost predicate Valid()
      reads this, offerer, answerer
    {
      && offerer != answerer
      && View() == Run(Start(offerer.diagnostic, answerer.diagnostic), history)
      && Inv(View())
    }

    constructor (offererDiagnostic: bool, answererDiagnostic: bool)
      ensures Valid() && fresh(offerer) && fresh(answerer)
      ensures View() == Start(offererDiagnostic, answererDiagnostic) && history == []
    {
      StartHolds(offererDiagnostic, answererDiagnostic);
      offerer := new Experiment(Offerer, offererDiagnostic);
      answerer := new Experiment(Answerer, answererDiagnostic);
      toOfferer, toAnswerer, linked, history := [], [], true, [];
    }

    /** The offerer takes a step, with the message at the front of its channel if it takes one. */
    method OffererSteps(step: Step)
      requires offerer != answerer
      modifies this, offerer
      ensures View() == Next(old(View()), At(Offerer, step)) && history == old(history)
    {
      hide PeerStep;
      var incoming := None;
      if step.Receives? && toOfferer != [] && offerer.confirming.None? {
        incoming := Some(toOfferer[0]);
        toOfferer := toOfferer[1..];
      }
      var mail := offerer.Handle(step, incoming);
      if linked && mail.Some? {
        toAnswerer := toAnswerer + [mail.value];
      }
    }

    method AnswererSteps(step: Step)
      requires offerer != answerer
      modifies this, answerer
      ensures View() == Next(old(View()), At(Answerer, step)) && history == old(history)
    {
      hide PeerStep;
      var incoming := None;
      if step.Receives? && toAnswerer != [] && answerer.confirming.None? {
        incoming := Some(toAnswerer[0]);
        toAnswerer := toAnswerer[1..];
      }
      var mail := answerer.Handle(step, incoming);
      if linked && mail.Some? {
        toOfferer := toOfferer + [mail.value];
      }
    }

    method LoseLink()
      modifies this
      ensures View() == Next(old(View()), LinkLost) && history == old(history)
    {
      toOfferer, toAnswerer, linked := [], [], false;
    }

    /** One event of the session: the protocol's step, its invariant, and nothing settled is taken back. */
    method Deliver(e: Event)
      requires Valid()
      modifies this, offerer, answerer
      ensures Valid() && history == old(history) + [e]
      ensures View() == Next(old(View()), e)
      ensures Final(old(offerer.View()), offerer.View()) && Final(old(answerer.View()), answerer.View())
    {
      hide Inv, Final, Run, Next, Start;
      NextKeeps(View(), e);
      NextIsFinal(View(), e);
      RunSnoc(Start(offerer.diagnostic, answerer.diagnostic), history, e);
      match e {
        case LinkLost => LoseLink();
        case At(role, step) =>
          if role == Offerer {
            OffererSteps(step);
          } else {
            AnswererSteps(step);
          }
      }
      history := history + [e];
    }

    /** What a finished offerer tells: both are done with the whole payload, and whether their verdicts agree. */
    method Outcome() returns (bothDone: bool, agree: bool)
      requires Valid()
      ensures bothDone <==> offerer.done
      ensures bothDone ==>
        && answerer.done && answerer.received == Blocks()
        && offerer.payloadBytes == answerer.payloadBytes == PAYLOAD
        && offerer.peerEvidence == answerer.localEvidence && answerer.peerEvidence == offerer.localEvidence
      ensures agree <==> offerer.verdict == answerer.verdict
      ensures bothDone && offerer.diagnostic == answerer.diagnostic ==> agree
      ensures bothDone && !agree ==> Qualifies(offerer.localEvidence) && Qualifies(answerer.localEvidence)
      ensures offerer.failure.Some? ==> !bothDone && offerer.failure == Some(Outside)
    {
      OffererDoneMeansBothDone(offerer.diagnostic, answerer.diagnostic, history);
      VerdictsAgree(offerer.diagnostic, answerer.diagnostic, history);
      OutcomesAreFinal(offerer.diagnostic, answerer.diagnostic, history, []);
      hide Inv, Run, Blocks;
      bothDone := offerer.done;
      agree := offerer.verdict == answerer.verdict;
    }
  }
}
