/**
 * Two browser peers and the ordered channel between them
 * (infra/cloudflare/worker/public/peer.js): every interleaving of their handlers,
 * with failures, closures and losses at any time.
 */
module PeerProtocol {
  import opened Base
  import opened PeerProof
  import opened PeerHandlers

  /** `linked` falls when the transport is lost: what is in flight then, or sent later, never arrives. */
  datatype State = State(
    offerer: Peer, answerer: Peer, toOfferer: seq<Message>, toAnswerer: seq<Message>, linked: bool)

  function Start(offererDiagnostic: bool, answererDiagnostic: bool): State {
    State(NewPeer(Offerer, offererDiagnostic), NewPeer(Answerer, answererDiagnostic), [], [], true)
  }

  /** What happens to one peer; a snapshot is None when collecting it fails. */
  datatype Step =
    | Opens
    | OpenSnapshot(snapshot: Option<Option<Path>>)
    | SenderSnapshot(snapshot: Option<Option<Path>>)
    | SenderGoesOn
    | ConfirmSnapshot(snapshot: Option<Option<Path>>)
    | Receives
    | TimesOut
    | PathMoves
    | ChannelEnds
    | Fails
    | CleansUp
    | Learns(local: seq<Candidate>, remote: seq<Candidate>)

  datatype Event = At(role: Role, step: Step) | LinkLost

  /** One step of a peer, given the message at the front of its incoming channel, if any. */
  function PeerStep(p: Peer, step: Step, incoming: Option<Message>): Out {
    match step
    case Opens => Out(Open(p), None)
    case OpenSnapshot(snapshot) => OpenMeasured(p, snapshot)
    case SenderSnapshot(snapshot) => SenderMeasured(p, snapshot)
    case SenderGoesOn => SenderResumes(p)
    case ConfirmSnapshot(snapshot) => Confirm(p, snapshot)
    case Receives => if incoming.None? then Out(p, None) else OnData(p, incoming.value)
    case TimesOut => Out(ReplyTimesOut(p), None)
    case PathMoves => Out(PathChanges(p), None)
    case ChannelEnds => Out(ChannelCloses(p), None)
    case Fails => Out(Fail(p, Outside), None)
    case CleansUp => Out(Cleanup(p), None)
    case Learns(local, remote) => Out(Learn(p, local, remote), None)
  }

  /** Messages wait while the peer confirms: its handlers run one after the other. */
  predicate TakesMessage(p: Peer, step: Step, queue: seq<Message>) {
    step.Receives? && queue != [] && p.confirming.None?
  }

  function Incoming(p: Peer, step: Step, queue: seq<Message>): Option<Message> {
    if TakesMessage(p, step, queue) then Some(queue[0]) else None
  }

  function Rest(p: Peer, step: Step, queue: seq<Message>): seq<Message> {
    if TakesMessage(p, step, queue) then queue[1..] else queue
  }

  function Post(linked: bool, queue: seq<Message>, mail: Option<Message>): seq<Message> {
    if linked && mail.Some? then queue + [mail.value] else queue
  }

  function Next(s: State, e: Event): State {
    match e
    case LinkLost => s.(toOfferer := [], toAnswerer := [], linked := false)
    case At(role, step) =>
      if role == Offerer then
        var out := PeerStep(s.offerer, step, Incoming(s.offerer, step, s.toOfferer));
        s.(offerer := out.peer,
           toOfferer := Rest(s.offerer, step, s.toOfferer),
           toAnswerer := Post(s.linked, s.toAnswerer, out.mail))
      else
        var out := PeerStep(s.answerer, step, Incoming(s.answerer, step, s.toAnswerer));
        s.(answerer := out.peer,
           toAnswerer := Rest(s.answerer, step, s.toAnswerer),
           toOfferer := Post(s.linked, s.toOfferer, out.mail))
  }

  function Run(s: State, events: seq<Event>): State {
    if events == [] then s
    else Next(Run(s, events[..|events| - 1]), events[|events| - 1])
  }

  // ---------------------------------------------------------------- one token

  function Count(b: bool): nat {
    if b then 1 else 0
  }

  /** The sender is about to act: nothing is on its way. */
  predicate Holds(p: Peer) {
    p.sender.MeasuringBefore? || p.sender.GotEcho? || p.sender.MeasuringAfter? || p.sender.GotAck?
  }

  /** How many places hold the right to act next. */
  function Tokens(s: State): nat {
    |s.toOfferer| + |s.toAnswerer| + Count(s.answerer.confirming.Some?) + Count(Holds(s.offerer))
  }

  /** The blocks are the first ones, in order. */
  predicate InOrder(received: seq<string>) {
    |received| <= BLOCKS && forall i :: 0 <= i < |received| ==> received[i] == BodyFor(i)
  }

  /** A message on its way to the answerer is the one it will accept. */
  predicate FitsAnswerer(s: State, m: Message) {
    var a := s.answerer;
    match m
    case Data(index, body) => index == |a.received| < BLOCKS && body == BodyFor(index) && !a.done
                              && s.offerer.sender in {AwaitingEcho(index), Over}
    case Complete(bytes, evidence) =>
      && |a.received| == BLOCKS && bytes == PAYLOAD && !a.done
      && s.offerer.localEvidence == Some(evidence) && s.offerer.sender in {AwaitingAck, Over}
    case Receipt => a.done && s.offerer.done
    case _ => false
  }

  /** A message on its way to the offerer is the one it will accept. */
  predicate FitsOfferer(s: State, m: Message) {
    var a := s.answerer;
    match m
    case Ready => s.offerer.sender == NotStarted
    case Echo(index, body) =>
      && index < BLOCKS && body == BodyFor(index) && |a.received| == index + 1
      && s.offerer.sender in {AwaitingEcho(index), Over} && !(s.offerer.sender.Over? && !s.offerer.ended)
    case CompleteAck(bytes, evidence) =>
      && bytes == PAYLOAD && a.done && a.localEvidence == Some(evidence)
      && s.offerer.sender in {AwaitingAck, Over} && !(s.offerer.sender.Over? && !s.offerer.ended)
    case _ => false
  }

  /** What the sender's place says of the answerer. */
  predicate SenderKnows(s: State) {
    var o, a := s.offerer, s.answerer;
    match o.sender
    case NotStarted => a.received == [] && !a.done && a.confirming.None? && s.toAnswerer == []
    case MeasuringBefore => a.received == [] && !a.done
    case AwaitingEcho(index) => index < BLOCKS && index <= |a.received| <= index + 1 && !a.done
    case GotEcho(index, reply) =>
      index < BLOCKS && reply == Echo(index, BodyFor(index)) && |a.received| == index + 1 && !a.done
    case MeasuringAfter => |a.received| == BLOCKS && !a.done
    case AwaitingAck => |a.received| == BLOCKS && o.localEvidence.Some?
    case GotAck(ack) => ack.CompleteAck? && ack.bytes == PAYLOAD && a.done && a.localEvidence == Some(ack.evidence)
    case Over => true
  }

  // ---------------------------------------------------------------- the invariant

  /** One peer on its own: a run fails or succeeds, never both, and never by refusing a message. */
  predicate PeerOk(p: Peer) {
    && (p.ended ==> !p.channelOpen)
    && (!p.channelOpen ==> p.ended || p.done)
    && (p.failure.Some? ==> p.ended && !p.done && p.failure == Some(Outside))
    && (p.sender.Over? ==> p.ended || p.done)
    && (p.ended ==> !p.sender.AwaitingEcho? && !p.sender.AwaitingAck?)
    && (if p.done
        then p.localEvidence.Some? && p.peerEvidence.Some? && p.payloadBytes == PAYLOAD
             && p.verdict == (!p.diagnostic && p.localEvidence.value.qualifies && p.peerEvidence.value.qualifies)
        else !p.verdict && p.payloadBytes == 0)
  }

  predicate OffererOk(o: Peer) {
    && o.role == Offerer && o.confirming.None? && o.received == []
    && (o.done ==> o.sender.Over?)
  }

  predicate AnswererOk(a: Peer) {
    && a.role == Answerer && a.sender == NotStarted
    && InOrder(a.received)
    && (a.done ==> |a.received| == BLOCKS && a.confirming.None?)
  }

  /** What the two peers know of each other. */
  predicate Agreed(s: State) {
    var o, a := s.offerer, s.answerer;
    && (a.done ==> a.peerEvidence == o.localEvidence
                   && (o.sender.AwaitingAck? || o.sender.GotAck? || o.sender.Over?))
    && (o.done ==> a.done && o.peerEvidence == a.localEvidence)
    && (a.opening != Opened ==> o.sender == NotStarted && s.toOfferer == [] && s.toAnswerer == [])
    && (a.confirming.Some? ==>
          |a.received| == BLOCKS && !a.done && o.localEvidence == a.confirming && o.sender in {AwaitingAck, Over})
  }

  predicate Inv(s: State) {
    && PeerOk(s.offerer) && OffererOk(s.offerer)
    && PeerOk(s.answerer) && AnswererOk(s.answerer)
    && Agreed(s)
    && SenderKnows(s)
    && Tokens(s) <= 1
    && (forall m :: m in s.toAnswerer ==> FitsAnswerer(s, m))
    && (forall m :: m in s.toOfferer ==> FitsOfferer(s, m))
  }

  lemma OffererReceives(s: State)
    requires Inv(s) && s.toOfferer != []
    ensures Inv(Next(s, At(Offerer, Receives)))
  {
    var m := s.toOfferer[0];
    assert s.toOfferer == [m] && s.toAnswerer == [] && FitsOfferer(s, m);
    var t := Next(s, At(Offerer, Receives));
    assert t.toOfferer == [] && t.toAnswerer == [] && t.answerer == s.answerer;
    if !s.offerer.ended {
      match m
      case Ready => assert t.offerer == s.offerer.(sender := MeasuringBefore);
      case Echo(index, body) => assert t.offerer == s.offerer.(sender := GotEcho(index, m));
      case CompleteAck(bytes, evidence) => assert t.offerer == s.offerer.(sender := GotAck(m));
    }
  }

  lemma AnswererReceives(s: State)
    requires Inv(s) && s.toAnswerer != []
    ensures Inv(Next(s, At(Answerer, Receives)))
  {
    var m := s.toAnswerer[0];
    assert s.toAnswerer == [m] && s.toOfferer == [] && FitsAnswerer(s, m);
    var t := Next(s, At(Answerer, Receives));
    assert s.answerer.confirming.None?;
    assert t.toAnswerer == [] && t.offerer == s.offerer;
    if !s.answerer.ended {
      match m
      case Data(index, body) =>
        var q := s.answerer.(transferring := true, received := s.answerer.received + [body]);
        assert t.answerer == q && t.toOfferer == Post(s.linked, [], Some(Echo(index, body)));
      case Complete(bytes, evidence) => assert t.answerer == s.answerer.(confirming := Some(evidence));
      case Receipt => assert t.answerer == Cleanup(s.answerer);
    }
  }

  lemma OffererKeeps(s: State, step: Step)
    requires Inv(s)
    ensures Inv(Next(s, At(Offerer, step)))
  {
    match step
    case Receives => if s.toOfferer != [] { OffererReceives(s); }
    case SenderSnapshot(snapshot) => OffererMeasured(s, snapshot);
    case SenderGoesOn => OffererGoesOn(s);
    case _ => OffererQuiet(s, step);
  }

  lemma OffererMeasured(s: State, snapshot: Option<Option<Path>>)
    requires Inv(s)
    ensures Inv(Next(s, At(Offerer, SenderSnapshot(snapshot))))
  {
    hide PathEvidence;
    var t := Next(s, At(Offerer, SenderSnapshot(snapshot)));
    assert Holds(s.offerer) ==> s.toOfferer == [] && s.toAnswerer == [];
  }

  lemma OffererGoesOn(s: State)
    requires Inv(s)
    ensures Inv(Next(s, At(Offerer, SenderGoesOn)))
  {
    hide BodyFor, InOrder;
    if Holds(s.offerer) {
      assert s.toOfferer == [] && s.toAnswerer == [];
    }
  }

  predicate IsQuiet(step: Step) {
    !step.Receives? && !step.SenderSnapshot? && !step.SenderGoesOn?
  }

  /** A step of the offerer that neither sends nor receives. */
  lemma QuietStep(p: Peer, step: Step)
    requires PeerOk(p) && OffererOk(p) && IsQuiet(step)
    ensures var out := PeerStep(p, step, None);
      && out.mail.None? && PeerOk(out.peer) && OffererOk(out.peer)
      && out.peer.localEvidence == p.localEvidence && out.peer.peerEvidence == p.peerEvidence
      && out.peer.done == p.done && (p.ended ==> out.peer.ended)
      && (out.peer.sender == p.sender
          || (out.peer.sender.Over? && out.peer.ended && (p.sender.AwaitingEcho? || p.sender.AwaitingAck?)))
  {
    hide BodyFor, PathEvidence;
  }

  lemma OffererQuiet(s: State, step: Step)
    requires Inv(s) && IsQuiet(step)
    ensures Inv(Next(s, At(Offerer, step)))
  {
    QuietStep(s.offerer, step);
    hide BodyFor, InOrder, PeerStep, PeerOk, OffererOk, AnswererOk;
  }

  lemma AnswererKeeps(s: State, step: Step)
    requires Inv(s)
    ensures Inv(Next(s, At(Answerer, step)))
  {
    match step
    case Receives => if s.toAnswerer != [] { AnswererReceives(s); }
    case OpenSnapshot(snapshot) => AnswererOpens(s, snapshot);
    case ConfirmSnapshot(snapshot) => AnswererConfirms(s, snapshot);
    case _ => AnswererQuiet(s, step);
  }

  lemma AnswererOpens(s: State, snapshot: Option<Option<Path>>)
    requires Inv(s)
    ensures Inv(Next(s, At(Answerer, OpenSnapshot(snapshot))))
  {
  }

  lemma AnswererConfirms(s: State, snapshot: Option<Option<Path>>)
    requires Inv(s)
    ensures Inv(Next(s, At(Answerer, ConfirmSnapshot(snapshot))))
  {
  }

  /** A step of the answerer that neither sends nor receives. */
  lemma AnswererQuietStep(p: Peer, step: Step)
    requires PeerOk(p) && AnswererOk(p) && !step.Receives? && !step.OpenSnapshot? && !step.ConfirmSnapshot?
    ensures var out := PeerStep(p, step, None);
      && out.mail.None? && PeerOk(out.peer) && AnswererOk(out.peer)
      && out.peer.localEvidence == p.localEvidence && out.peer.peerEvidence == p.peerEvidence
      && out.peer.done == p.done && out.peer.received == p.received && out.peer.confirming == p.confirming
      && (out.peer.opening == Opened ==> p.opening == Opened || p.ended)
      && (p.opening == Opened ==> out.peer.opening == Opened)
  {
    hide BodyFor, PathEvidence, InOrder;
  }

  lemma AnswererQuiet(s: State, step: Step)
    requires Inv(s) && !step.Receives? && !step.OpenSnapshot? && !step.ConfirmSnapshot?
    ensures Inv(Next(s, At(Answerer, step)))
  {
    AnswererQuietStep(s.answerer, step);
    hide BodyFor, InOrder, PeerStep, PeerOk, OffererOk, AnswererOk;
  }

  lemma NextKeeps(s: State, e: Event)
    requires Inv(s)
    ensures Inv(Next(s, e))
  {
    match e
    case LinkLost =>
    case At(role, step) =>
      if role == Offerer {
        OffererKeeps(s, step);
      } else {
        AnswererKeeps(s, step);
      }
  }

  lemma {:induction false} RunKeeps(s: State, events: seq<Event>)
    requires Inv(s)
    ensures Inv(Run(s, events))
  {
    if events == [] {
    } else {
      RunKeeps(s, events[..|events| - 1]);
      NextKeeps(Run(s, events[..|events| - 1]), events[|events| - 1]);
    }
  }

  // ---------------------------------------------------------------- finality

  /** What one peer never takes back. */
  predicate Final(p: Peer, q: Peer) {
    && q.diagnostic == p.diagnostic
    && (p.ended ==> q.ended)
    && (p.done ==> q.done && q.verdict == p.verdict && q.payloadBytes == p.payloadBytes && q.failure.None?)
    && (p.failure.Some? ==> q.failure == p.failure && !q.done && !q.verdict)
    && (p.ended && !p.done ==> !q.done)
    && p.received <= q.received
  }

  lemma DataIsFinal(p: Peer, m: Message)
    requires PeerOk(p) && PeerOk(OnData(p, m).peer)
    ensures Final(p, OnData(p, m).peer)
  {
    hide BodyFor;
  }

  lemma ResumeIsFinal(p: Peer)
    requires PeerOk(p) && PeerOk(SenderResumes(p).peer) && (p.done ==> !p.sender.GotAck?)
    ensures Final(p, SenderResumes(p).peer)
  {
    hide BodyFor;
  }

  lemma ConfirmIsFinal(p: Peer, snapshot: Option<Option<Path>>)
    requires PeerOk(p) && PeerOk(Confirm(p, snapshot).peer) && (p.done ==> p.confirming.None?)
    ensures Final(p, Confirm(p, snapshot).peer)
  {
    hide PathEvidence;
  }

  lemma MeasuredIsFinal(p: Peer, snapshot: Option<Option<Path>>)
    requires PeerOk(p) && PeerOk(SenderMeasured(p, snapshot).peer)
    ensures Final(p, SenderMeasured(p, snapshot).peer)
  {
    hide PathEvidence, BodyFor;
  }

  lemma StepIsFinal(p: Peer, step: Step, incoming: Option<Message>)
    requires PeerOk(p) && PeerOk(PeerStep(p, step, incoming).peer)
    requires p.done ==> !p.sender.GotAck? && p.confirming.None?
    ensures Final(p, PeerStep(p, step, incoming).peer)
  {
    hide BodyFor, PathEvidence, OnData, SenderResumes, SenderMeasured, Confirm;
    match step
    case Receives => if incoming.Some? { DataIsFinal(p, incoming.value); }
    case SenderSnapshot(snapshot) => MeasuredIsFinal(p, snapshot);
    case SenderGoesOn => ResumeIsFinal(p);
    case ConfirmSnapshot(snapshot) => ConfirmIsFinal(p, snapshot);
    case _ =>
  }

  lemma NextIsFinal(s: State, e: Event)
    requires Inv(s)
    ensures var t := Next(s, e); Final(s.offerer, t.offerer) && Final(s.answerer, t.answerer)
  {
    NextKeeps(s, e);
    if e.At? {
      if e.role == Offerer {
        StepIsFinal(s.offerer, e.step, Incoming(s.offerer, e.step, s.toOfferer));
      } else {
        StepIsFinal(s.answerer, e.step, Incoming(s.answerer, e.step, s.toAnswerer));
      }
    }
    hide PeerStep, PeerOk;
  }

  lemma {:induction false} RunIsFinal(s: State, events: seq<Event>)
    requires Inv(s)
    ensures var t := Run(s, events); Final(s.offerer, t.offerer) && Final(s.answerer, t.answerer)
  {
    if events == [] {
      assert Inv(s);
    } else {
      var before := events[..|events| - 1];
      RunKeeps(s, before);
      RunIsFinal(s, before);
      NextIsFinal(Run(s, before), events[|events| - 1]);
    }
  }

  // ---------------------------------------------------------------- main results

  lemma StartHolds(offererDiagnostic: bool, answererDiagnostic: bool)
    ensures Inv(Start(offererDiagnostic, answererDiagnostic))
  {
  }

  function Blocks(): seq<string> {
    seq(BLOCKS, i requires 0 <= i < BLOCKS => BodyFor(i))
  }

  /**
   * In every run: if the offerer is done, the answerer has accepted all eight blocks in
   * order and is done, both report the full payload, and each holds the other's evidence.
   */
  lemma OffererDoneMeansBothDone(
      offererDiagnostic: bool, answererDiagnostic: bool, events: seq<Event>)
    ensures var s := Run(Start(offererDiagnostic, answererDiagnostic), events);
      && (s.answerer.done ==> s.answerer.received == Blocks())
      && (s.offerer.done ==>
            && s.answerer.done
            && s.offerer.payloadBytes == s.answerer.payloadBytes == PAYLOAD
            && s.offerer.peerEvidence == s.answerer.localEvidence
            && s.answerer.peerEvidence == s.offerer.localEvidence)
  {
    StartHolds(offererDiagnostic, answererDiagnostic);
    RunKeeps(Start(offererDiagnostic, answererDiagnostic), events);
  }

  lemma {:induction false} DiagnosticStays(s: State, events: seq<Event>)
    requires Inv(s)
    ensures var t := Run(s, events);
      t.offerer.diagnostic == s.offerer.diagnostic && t.answerer.diagnostic == s.answerer.diagnostic
  {
    RunIsFinal(s, events);
  }

  /**
   * When the offerer is done, the two verdicts agree if and only if the diagnostic flags
   * are equal or one side's evidence does not qualify; so with equal flags they always do.
   */
  lemma VerdictsAgree(offererDiagnostic: bool, answererDiagnostic: bool, events: seq<Event>)
    ensures var s := Run(Start(offererDiagnostic, answererDiagnostic), events);
      s.offerer.done ==>
        (s.offerer.verdict == s.answerer.verdict
         <==> offererDiagnostic == answererDiagnostic
              || !Qualifies(s.offerer.localEvidence) || !Qualifies(s.answerer.localEvidence))
  {
    StartHolds(offererDiagnostic, answererDiagnostic);
    RunKeeps(Start(offererDiagnostic, answererDiagnostic), events);
    DiagnosticStays(Start(offererDiagnostic, answererDiagnostic), events);
  }

  /**
   * On each side success and failure exclude each other and are final, whatever comes
   * after; and two peers that run this code never refuse each other's messages, so every
   * failure has a cause outside the protocol.
   */
  lemma OutcomesAreFinal(
      offererDiagnostic: bool, answererDiagnostic: bool, events: seq<Event>, more: seq<Event>)
    ensures var s := Run(Start(offererDiagnostic, answererDiagnostic), events);
      var t := Run(s, more);
      && (forall p | p in {s.offerer, s.answerer} :: p.failure.None? || (!p.done && p.failure == Some(Outside)))
      && Final(s.offerer, t.offerer) && Final(s.answerer, t.answerer)
  {
    StartHolds(offererDiagnostic, answererDiagnostic);
    RunKeeps(Start(offererDiagnostic, answererDiagnostic), events);
    RunIsFinal(Run(Start(offererDiagnostic, answererDiagnostic), events), more);
  }

  // ---------------------------------------------------------------- a run that succeeds

  lemma {:induction false} RunJoins(s: State, a: seq<Event>, b: seq<Event>)
    ensures Run(s, a + b) == Run(Run(s, a), b)
  {
    if b == [] {
      assert a + b == a;
    } else {
      assert (a + b)[..|a + b| - 1] == a + b[..|b| - 1];
      RunJoins(s, a, b[..|b| - 1]);
    }
  }

  /** Nothing has gone wrong so far. */
  predicate Healthy(s: State) {
    && s.linked && s.offerer.channelOpen && s.answerer.channelOpen
    && !s.offerer.ended && !s.answerer.ended && s.answerer.confirming.None? && s.answerer.opening == Opened
  }

  /** The block with this number is on its way. */
  predicate Carrying(s: State, index: nat) {
    && Healthy(s) && index < BLOCKS
    && s.offerer.sender == AwaitingEcho(index) && s.toOfferer == []
    && s.toAnswerer == [Data(index, BodyFor(index))]
  }

  lemma CarryingFacts(s: State, index: nat)
    requires Inv(s) && Carrying(s, index)
    ensures s.offerer.role == Offerer && s.answerer.role == Answerer && |s.answerer.received| == index
    ensures s.offerer.confirming.None? && s.answerer.sender == NotStarted && !s.answerer.done
  {
    assert Data(index, BodyFor(index)) in s.toAnswerer;
  }

  lemma OneBlock(s: State, index: nat)
    requires Inv(s) && Carrying(s, index)
    ensures var t := Run(s, [At(Answerer, Receives), At(Offerer, Receives), At(Offerer, SenderGoesOn)]);
      Inv(t)
      && if index + 1 < BLOCKS then Carrying(t, index + 1)
         else Healthy(t) && t.offerer.sender == MeasuringAfter && t.toOfferer == [] && t.toAnswerer == []
  {
    hide Inv, BodyFor, PathEvidence, Run;
    CarryingFacts(s, index);
    RunKeeps(s, [At(Answerer, Receives), At(Offerer, Receives), At(Offerer, SenderGoesOn)]);
    Three(s, At(Answerer, Receives), At(Offerer, Receives), At(Offerer, SenderGoesOn));
  }

  lemma RunSnoc(s: State, events: seq<Event>, e: Event)
    ensures Run(s, events + [e]) == Next(Run(s, events), e)
  {
    assert (events + [e])[..|events|] == events;
  }

  lemma Three(s: State, a: Event, b: Event, c: Event)
    ensures Run(s, [a, b, c]) == Next(Next(Next(s, a), b), c)
  {
    RunSnoc(s, [], a);
    RunSnoc(s, [a], b);
    RunSnoc(s, [a, b], c);
    assert [] + [a] == [a] && [a] + [b] == [a, b] && [a, b] + [c] == [a, b, c];
    hide Next;
  }

  /** From the first block on its way, the transfer can run to its last reply. */
  lemma {:induction false} AllBlocks(s: State, index: nat) returns (events: seq<Event>)
    requires Inv(s) && Carrying(s, index)
    ensures var t := Run(s, events);
      Inv(t) && Healthy(t) && t.offerer.sender == MeasuringAfter && t.toOfferer == [] && t.toAnswerer == []
    decreases BLOCKS - index
  {
    hide Inv;
    events := [At(Answerer, Receives), At(Offerer, Receives), At(Offerer, SenderGoesOn)];
    OneBlock(s, index);
    if index + 1 < BLOCKS {
      var rest := AllBlocks(Run(s, events), index + 1);
      RunJoins(s, events, rest);
      events := events + rest;
    }
  }

  /** The opening steps put the first block on its way. */
  lemma OpensTransfer(offererDiagnostic: bool, answererDiagnostic: bool, path: Option<Path>)
    returns (events: seq<Event>)
    ensures Carrying(Run(Start(offererDiagnostic, answererDiagnostic), events), 0)
  {
    var s := Start(offererDiagnostic, answererDiagnostic);
    var a, b, c := At(Answerer, Opens), At(Answerer, OpenSnapshot(Some(path))), At(Offerer, Receives);
    var d := At(Offerer, SenderSnapshot(Some(path)));
    events := [a, b, c] + [d];
    Three(s, a, b, c);
    RunSnoc(s, [a, b, c], d);
    hide Run;
  }

  /** The answerer's acknowledgement is on its way. */
  predicate Acknowledging(s: State) {
    s.offerer.sender == AwaitingAck && s.answerer.done && !s.offerer.ended && s.offerer.channelOpen
    && |s.toOfferer| == 1 && s.toOfferer[0].CompleteAck? && s.toOfferer[0].bytes == PAYLOAD
    && s.offerer.confirming.None?
  }

  lemma SendsCompleteFacts(s: State)
    requires Inv(s) && s.offerer.sender == MeasuringAfter
    ensures s.offerer.role == Offerer && s.answerer.role == Answerer && |s.answerer.received| == BLOCKS
    ensures s.offerer.confirming.None? && s.answerer.sender == NotStarted
  {
  }

  lemma SendsComplete(s: State, path: Option<Path>)
    requires Inv(s) && Healthy(s) && s.offerer.sender == MeasuringAfter && s.toOfferer == [] && s.toAnswerer == []
    ensures Acknowledging(Run(s,
      [At(Offerer, SenderSnapshot(Some(path))), At(Answerer, Receives), At(Answerer, ConfirmSnapshot(Some(path)))]))
  {
    hide Run, Inv, PathEvidence, BodyFor, InOrder;
    SendsCompleteFacts(s);
    Three(s, At(Offerer, SenderSnapshot(Some(path))), At(Answerer, Receives),
          At(Answerer, ConfirmSnapshot(Some(path))));
  }

  /** The closing steps make both peers done. */
  lemma ClosesTransfer(s: State, path: Option<Path>) returns (events: seq<Event>)
    requires Inv(s) && Healthy(s) && s.offerer.sender == MeasuringAfter && s.toOfferer == [] && s.toAnswerer == []
    ensures var t := Run(s, events); t.offerer.done && t.answerer.done
  {
    var first :=
      [At(Offerer, SenderSnapshot(Some(path))), At(Answerer, Receives), At(Answerer, ConfirmSnapshot(Some(path)))];
    SendsComplete(s, path);
    events := first + [At(Offerer, Receives)] + [At(Offerer, SenderGoesOn)];
    RunSnoc(s, first, At(Offerer, Receives));
    RunSnoc(s, first + [At(Offerer, Receives)], At(Offerer, SenderGoesOn));
    hide Run, Inv;
  }

  /** The protocol can succeed: some run makes both peers done. */
  lemma SuccessIsReachable(offererDiagnostic: bool, answererDiagnostic: bool, path: Option<Path>)
    ensures exists events ::
      var s := Run(Start(offererDiagnostic, answererDiagnostic), events); s.offerer.done && s.answerer.done
  {
    hide Inv;
    var s := Start(offererDiagnostic, answererDiagnostic);
    StartHolds(offererDiagnostic, answererDiagnostic);
    var a := OpensTransfer(offererDiagnostic, answererDiagnostic, path);
    RunKeeps(s, a);
    var b := AllBlocks(Run(s, a), 0);
    RunJoins(s, a, b);
    var c := ClosesTransfer(Run(s, a + b), path);
    RunJoins(s, a + b, c);
    assert Run(s, a + b + c).offerer.done && Run(s, a + b + c).answerer.done;
  }
}
