/** One end of the two-stage match handshake (orp-ref/client/client.ts, MatchSession).
 *
 *  Cryptography is symbolic: a signature names its signer, a sealed box the public key it opens with.
 *  Every `await` is a numbered suspended task; the board and the WebRTC stack decide what resumes.
 */
module MatchSessions {
  import opened Common
  import opened MessageLayer

  /** An identity public key; the empty string is EMPTY. */
  type Id = nat

  const EMPTY: Id := 0

  type MatchId = nat

  type Sdp = nat

  datatype Role = Initiator | Responder

  /** `signer` is the key whose signature the binding carries. */
  datatype Binding = Binding(identity: Id, transport: Pub, signer: Id)

  /** Content is None when the plaintext is not a JSON payload. */
  datatype Box = Box(to: Pub, content: Option<Sdp>)

  datatype Phase =
    | KeyPhase(transport: Option<Pub>, binding: Option<Binding>)
    | Signaling(box: Option<Box>)

  datatype Frame = Frame(matchId: MatchId, from: Id, phase: Phase, signer: Id)

  datatype State = AwaitPeerKey | AwaitOffer | AwaitAnswer | Connected | Closed

  /** What a suspended call is waiting for and does next. */
  datatype Await =
    | OfferDescription
    | AnswerDescription
    | ApplyThenAnswer
    | ApplyThenFinish
    | DataChannel

  datatype Error =
    | Undecodable | WrongMatch | FrameRejected(why: Reason) | SignalingBeforeKey | UnsealFailed | SessionError

  datatype Reason =
    | BadSignature | UnexpectedSender | MissingKey | BadKeyBinding | IdentityMismatch | TransportMismatch | MissingBlob

  /** `keyFrame` and `heard` record the accepted frames, `sent` what was relayed, `channels` the keys of
   *  every channel reported connected, `applied` the descriptions given to applyRemoteDescription, and `answered`
   *  those given to createLocalDescription for an answer. */
  datatype Session = Session(
    me: Id, mine: Pub, role: Role, matchId: MatchId, counterparty: Id,
    state: State, peer: Option<Pub>, remoteSdp: Option<Sdp>, lastError: Option<Error>,
    tasks: map<nat, Await>, next: nat,
    keyFrame: Option<Frame>, heard: seq<Frame>, sent: seq<Frame>, channels: seq<Keys>,
    applied: seq<Sdp>, answered: seq<Option<Sdp>>)

  datatype Event =
    | Start
    | Relay(frame: Option<Frame>)
    | Described(task: nat, sdp: Sdp)
    | Applied(task: nat)
    | ChannelUp(task: nat)
    | Threw(task: nat)
    | Close

  predicate VerifyBinding(b: Binding) { b.signer == b.identity }

  function VerifyMatchFrame(f: Frame, expected: Id): Option<Reason> {
    if f.signer != f.from then Some(BadSignature)
    else if expected != EMPTY && f.from != expected then Some(UnexpectedSender)
    else match f.phase
      case KeyPhase(transport, binding) =>
        if transport.None? || binding.None? then Some(MissingKey)
        else if !VerifyBinding(binding.value) then Some(BadKeyBinding)
        else if binding.value.identity != f.from then Some(IdentityMismatch)
        else if binding.value.transport != transport.value then Some(TransportMismatch)
        else None
      case Signaling(box) => if box.None? then Some(MissingBlob) else None
  }

  function New(me: Id, mine: Pub, role: Role, matchId: MatchId, counterparty: Id): Session {
    Session(me, mine, role, matchId, counterparty, AwaitPeerKey, None, None, None, map[], 0, None, [], [], [], [], [])
  }

  function KeyFrameOf(s: Session): Frame {
    Frame(s.matchId, s.me, KeyPhase(Some(s.mine), Some(Binding(s.me, s.mine, s.me))), s.me)
  }

  function SignalingFrameOf(s: Session, sdp: Sdp): Frame
    requires s.peer.Some?
  {
    Frame(s.matchId, s.me, Signaling(Some(Box(s.peer.value, Some(sdp)))), s.me)
  }

  function Suspend(s: Session, a: Await): Session {
    s.(tasks := s.tasks[s.next := a], next := s.next + 1)
  }

  function Resume(s: Session, n: nat): Session {
    s.(tasks := s.tasks - {n})
  }

  function Finish(s: Session): Session {
    if s.state.Connected? || s.state.Closed? then s else Suspend(s, DataChannel)
  }

  /** VerifyMatchFrame has checked the binding, so the source's second check of it cannot fail. */
  function OnKey(s: Session, f: Frame): Session
    requires f.phase.KeyPhase? && f.phase.transport.Some? && f.phase.binding.Some?
  {
    if s.peer.Some? then s
    else
      var s' := s.(peer := f.phase.transport, keyFrame := Some(f));
      if s.role.Initiator? then Suspend(s', OfferDescription) else s'
  }

  function OnSignaling(s: Session, f: Frame): Session
    requires f.phase.Signaling? && f.phase.box.Some?
  {
    var box := f.phase.box.value;
    if s.peer.None? then s.(lastError := Some(SignalingBeforeKey))
    else if box.to != s.mine || box.content.None? then s.(lastError := Some(UnsealFailed))
    else
      var s' := s.(heard := s.heard + [f], applied := s.applied + [box.content.value]);
      if s.role.Responder? then Suspend(s'.(remoteSdp := box.content), ApplyThenAnswer)
      else Suspend(s', ApplyThenFinish)
  }

  function OnRelay(s: Session, frame: Option<Frame>): Session {
    if frame.None? then s.(lastError := Some(Undecodable))
    else
      var f := frame.value;
      var v := VerifyMatchFrame(f, s.counterparty);
      if f.matchId != s.matchId then s.(lastError := Some(WrongMatch))
      else if v.Some? then s.(lastError := Some(FrameRejected(v.value)))
      else if f.phase.KeyPhase? then OnKey(s, f)
      else OnSignaling(s, f)
  }

  predicate Waits(s: Session, n: nat, a: Await) { n in s.tasks && s.tasks[n] == a }

  function OnDescribed(s: Session, n: nat, sdp: Sdp): Session {
    if s.peer.None? then s
    else if Waits(s, n, OfferDescription) then
      Resume(s, n).(sent := s.sent + [SignalingFrameOf(s, sdp)], state := AwaitAnswer)
    else if Waits(s, n, AnswerDescription) then
      Finish(Resume(s, n).(sent := s.sent + [SignalingFrameOf(s, sdp)]))
    else s
  }

  function OnApplied(s: Session, n: nat): Session {
    if Waits(s, n, ApplyThenAnswer) then Suspend(Resume(s, n).(answered := s.answered + [s.remoteSdp]), AnswerDescription)
    else if Waits(s, n, ApplyThenFinish) then Finish(Resume(s, n))
    else s
  }

  function OnChannelUp(s: Session, n: nat): Session {
    if s.peer.None? || !Waits(s, n, DataChannel) then s
    else Resume(s, n).(state := Connected, channels := s.channels + [DirectionalKeys(s.mine, s.peer.value)])
  }

  function Step(s: Session, e: Event): Session {
    match e
    case Start => s.(sent := s.sent + [KeyFrameOf(s)], state := if s.role.Initiator? then AwaitPeerKey else AwaitOffer)
    case Relay(frame) => OnRelay(s, frame)
    case Described(n, sdp) => OnDescribed(s, n, sdp)
    case Applied(n) => OnApplied(s, n)
    case ChannelUp(n) => OnChannelUp(s, n)
    case Threw(n) => if n in s.tasks then Resume(s, n).(lastError := Some(SessionError)) else s
    case Close => s.(state := Closed)
  }

  // ---------------------------------------------------------------------------------------------
  // What every session keeps, whatever the board does
  // ---------------------------------------------------------------------------------------------

  predicate Accepts(s: Session, f: Frame) {
    f.matchId == s.matchId && f.signer == f.from && (s.counterparty == EMPTY || f.from == s.counterparty)
  }

  /** The accepted key frame is where the peer key comes from. */
  predicate KeyInv(s: Session) {
    (s.peer.Some? <==> s.keyFrame.Some?) &&
    (s.keyFrame.Some? ==>
       var f := s.keyFrame.value;
       Accepts(s, f) && f.phase.KeyPhase? && f.phase.transport == s.peer &&
       f.phase.binding == Some(Binding(f.from, s.peer.value, f.from)))
  }

  predicate HeardInv(s: Session) {
    forall i :: 0 <= i < |s.heard| ==>
      Accepts(s, s.heard[i]) && s.heard[i].phase.Signaling? && s.heard[i].phase.box.Some? && s.heard[i].phase.box.value.to == s.mine
  }

  predicate AfterHearing(a: Await) { !a.OfferDescription? }

  predicate TaskInv(s: Session) {
    (forall n :: n in s.tasks ==> n < s.next && s.peer.Some?) &&
    (forall n :: n in s.tasks && AfterHearing(s.tasks[n]) ==> s.heard != [])
  }

  predicate SentInv(s: Session) {
    forall i :: 0 <= i < |s.sent| ==>
      var f := s.sent[i];
      f.matchId == s.matchId && f.from == s.me && f.signer == s.me &&
      (f.phase.Signaling? ==> f.phase.box.Some? && s.peer == Some(f.phase.box.value.to)) &&
      (f.phase.KeyPhase? ==> f.phase.binding == Some(Binding(s.me, s.mine, s.me)))
  }

  predicate ChannelInv(s: Session) {
    (s.channels != [] ==> s.peer.Some? && s.heard != []) &&
    forall i :: 0 <= i < |s.channels| ==> s.channels[i] == DirectionalKeys(s.mine, s.peer.value)
  }

  /** What is applied is what the accepted signaling frames carry, and each answer is made to such a description. */
  predicate AppliedInv(s: Session) {
    |s.applied| == |s.heard| &&
    (forall i :: 0 <= i < |s.heard| ==>
       s.heard[i].phase.Signaling? && s.heard[i].phase.box.Some? && s.heard[i].phase.box.value.content == Some(s.applied[i])) &&
    (s.role.Responder? && s.applied != [] ==> s.remoteSdp == Some(s.applied[|s.applied| - 1])) &&
    (forall i :: 0 <= i < |s.answered| ==> s.answered[i].Some? && s.answered[i].value in s.applied)
  }

  function Offers(sent: seq<Frame>): nat {
    if sent == [] then 0 else Offers(sent[..|sent| - 1]) + if sent[|sent| - 1].phase.Signaling? then 1 else 0
  }

  /** The initiator's offers, made or being made, number at most one; before the peer key there is none. */
  predicate OfferInv(s: Session) {
    s.role.Initiator? ==>
      (forall n :: n in s.tasks ==> !s.tasks[n].AnswerDescription? && !s.tasks[n].ApplyThenAnswer?) &&
      (forall n, m :: n in s.tasks && m in s.tasks && s.tasks[n].OfferDescription? && s.tasks[m].OfferDescription? ==> n == m) &&
      Offers(s.sent) <= 1 &&
      (Offers(s.sent) == 1 ==> forall n :: n in s.tasks ==> !s.tasks[n].OfferDescription?) &&
      (s.peer.None? ==> Offers(s.sent) == 0)
  }

  predicate Inv(s: Session) {
    KeyInv(s) && HeardInv(s) && TaskInv(s) && SentInv(s) && ChannelInv(s) && OfferInv(s)
  }

  lemma OffersOfMore(sent: seq<Frame>, f: Frame)
    ensures Offers(sent + [f]) == Offers(sent) + if f.phase.Signaling? then 1 else 0
  {
    assert (sent + [f])[..|sent|] == sent;
  }

  lemma KeyKeeps(s: Session, f: Frame)
    requires Inv(s) && f.matchId == s.matchId && f.phase.KeyPhase? && VerifyMatchFrame(f, s.counterparty).None?
    ensures Inv(OnKey(s, f))
  {
    assert f.phase.binding.value == Binding(f.from, f.phase.transport.value, f.from);
  }

  /** A call that follows hearing a frame; an initiator's is never for an answer of its own. */
  lemma SuspendKeeps(s: Session, a: Await)
    requires Inv(s) && s.peer.Some? && s.heard != [] && !a.OfferDescription?
    requires s.role.Initiator? ==> !a.AnswerDescription? && !a.ApplyThenAnswer?
    ensures Inv(Suspend(s, a))
  {
  }

  lemma HeardKeeps(s: Session, f: Frame, sdp: Sdp, remote: Option<Sdp>)
    requires Inv(s) && Accepts(s, f) && f.phase.Signaling? && f.phase.box.Some? && f.phase.box.value.to == s.mine
    ensures Inv(s.(heard := s.heard + [f], applied := s.applied + [sdp], remoteSdp := remote))
  {
  }

  lemma SignalingKeeps(s: Session, f: Frame)
    requires Inv(s) && f.matchId == s.matchId && f.phase.Signaling? && VerifyMatchFrame(f, s.counterparty).None?
    ensures Inv(OnSignaling(s, f))
  {
    var box := f.phase.box.value;
    if s.peer.Some? && box.to == s.mine && box.content.Some? {
      var remote := if s.role.Responder? then box.content else s.remoteSdp;
      HeardKeeps(s, f, box.content.value, remote);
      SuspendKeeps(s.(heard := s.heard + [f], applied := s.applied + [box.content.value], remoteSdp := remote),
                   if s.role.Responder? then ApplyThenAnswer else ApplyThenFinish);
    }
  }

  lemma RelayKeeps(s: Session, frame: Option<Frame>)
    requires Inv(s)
    ensures Inv(OnRelay(s, frame))
  {
    if frame.Some? && frame.value.matchId == s.matchId && VerifyMatchFrame(frame.value, s.counterparty).None? {
      if frame.value.phase.KeyPhase? { KeyKeeps(s, frame.value); } else { SignalingKeeps(s, frame.value); }
    }
  }

  lemma OfferKeeps(s: Session, n: nat, sdp: Sdp)
    requires Inv(s) && s.peer.Some? && Waits(s, n, OfferDescription)
    ensures Inv(OnDescribed(s, n, sdp))
  {
    OffersOfMore(s.sent, SignalingFrameOf(s, sdp));
  }

  lemma AnswerSent(s: Session, n: nat, sdp: Sdp)
    requires Inv(s) && s.peer.Some? && Waits(s, n, AnswerDescription)
    ensures Inv(Resume(s, n).(sent := s.sent + [SignalingFrameOf(s, sdp)])) && s.heard != []
  {
    OffersOfMore(s.sent, SignalingFrameOf(s, sdp));
    assert AfterHearing(s.tasks[n]);
  }

  lemma AnswerKeeps(s: Session, n: nat, sdp: Sdp)
    requires Inv(s) && s.peer.Some? && Waits(s, n, AnswerDescription)
    ensures Inv(OnDescribed(s, n, sdp))
  {
    AnswerSent(s, n, sdp);
    SuspendKeeps(Resume(s, n).(sent := s.sent + [SignalingFrameOf(s, sdp)]), DataChannel);
  }

  lemma DescribedKeeps(s: Session, n: nat, sdp: Sdp)
    requires Inv(s)
    ensures Inv(OnDescribed(s, n, sdp))
  {
    if s.peer.Some? && Waits(s, n, OfferDescription) { OfferKeeps(s, n, sdp); }
    else if s.peer.Some? && Waits(s, n, AnswerDescription) { AnswerKeeps(s, n, sdp); }
  }

  lemma AppliedKeeps(s: Session, n: nat)
    requires Inv(s)
    ensures Inv(OnApplied(s, n))
  {
  }

  lemma StepKeeps(s: Session, e: Event)
    requires Inv(s)
    ensures Inv(Step(s, e))
  {
    match e
    case Start => OffersOfMore(s.sent, KeyFrameOf(s));
    case Relay(frame) => RelayKeeps(s, frame);
    case Described(n, sdp) => DescribedKeeps(s, n, sdp);
    case Applied(n) => AppliedKeeps(s, n);
    case _ =>
  }

  // ---------------------------------------------------------------------------------------------
  // Exactly what is accepted, and what becomes of the rest
  // ---------------------------------------------------------------------------------------------

  /** A frame is sound exactly if its own signer sent it, as the expected counterparty if there is one, and it is a
   *  transport key bound by that signer, or a sealed box. */
  lemma VerifiedIff(f: Frame, expected: Id)
    ensures VerifyMatchFrame(f, expected).None? <==>
            f.signer == f.from && (expected == EMPTY || f.from == expected) &&
            match f.phase {
              case KeyPhase(transport, binding) => transport.Some? && binding == Some(Binding(f.from, transport.value, f.from))
              case Signaling(box) => box.Some?
            }
  {
  }

  predicate Fails(f: Frame, expected: Id, why: Reason) {
    match why
    case BadSignature => f.signer != f.from
    case UnexpectedSender => expected != EMPTY && f.from != expected
    case MissingKey => f.phase.KeyPhase? && (f.phase.transport.None? || f.phase.binding.None?)
    case BadKeyBinding => f.phase.KeyPhase? && f.phase.binding.Some? && f.phase.binding.value.signer != f.phase.binding.value.identity
    case IdentityMismatch => f.phase.KeyPhase? && f.phase.binding.Some? && f.phase.binding.value.identity != f.from
    case TransportMismatch => f.phase.KeyPhase? && f.phase.binding.Some? && Some(f.phase.binding.value.transport) != f.phase.transport
    case MissingBlob => f.phase.Signaling? && f.phase.box.None?
  }

  /** The reason given for a rejection is true. */
  lemma ReasonHolds(f: Frame, expected: Id, why: Reason)
    requires VerifyMatchFrame(f, expected) == Some(why)
    ensures Fails(f, expected, why)
  {
  }

  /** For this match, from the counterparty, and sound. */
  predicate Verified(s: Session, frame: Option<Frame>) {
    frame.Some? && frame.value.matchId == s.matchId && VerifyMatchFrame(frame.value, s.counterparty).None?
  }

  predicate TakesKey(s: Session, frame: Option<Frame>) { Verified(s, frame) && frame.value.phase.KeyPhase? && s.peer.None? }

  predicate TakesDescription(s: Session, frame: Option<Frame>) {
    Verified(s, frame) && frame.value.phase.Signaling? && s.peer.Some? &&
    frame.value.phase.box.value.to == s.mine && frame.value.phase.box.value.content.Some?
  }

  /** A repeated key frame is ignored. */
  predicate IgnoresKey(s: Session, frame: Option<Frame>) { Verified(s, frame) && frame.value.phase.KeyPhase? && s.peer.Some? }

  /** The error that tells why a frame was not taken. */
  predicate Explains(s: Session, frame: Option<Frame>, e: Error) {
    match e
    case Undecodable => frame.None?
    case WrongMatch => frame.Some? && frame.value.matchId != s.matchId
    case FrameRejected(why) =>
      frame.Some? && frame.value.matchId == s.matchId && VerifyMatchFrame(frame.value, s.counterparty) == Some(why)
    case SignalingBeforeKey => Verified(s, frame) && frame.value.phase.Signaling? && s.peer.None?
    case UnsealFailed =>
      Verified(s, frame) && frame.value.phase.Signaling? && s.peer.Some? &&
      (frame.value.phase.box.value.to != s.mine || frame.value.phase.box.value.content.None?)
    case SessionError => false
  }

  /** A frame is taken as the peer's key, or as a description to apply, exactly under these conditions; a repeated
   *  key changes nothing; and any other frame changes nothing but the last error, which explains it. */
  lemma RelayIff(s: Session, frame: Option<Frame>)
    ensures var t := Step(s, Relay(frame));
            (t.keyFrame != s.keyFrame ==> TakesKey(s, frame)) && (t.heard != s.heard <==> TakesDescription(s, frame))
    ensures TakesKey(s, frame) ==>
              var t := Step(s, Relay(frame));
              t.keyFrame == frame && t.peer == frame.value.phase.transport && t.heard == s.heard && t.lastError == s.lastError
    ensures TakesDescription(s, frame) ==>
              var t := Step(s, Relay(frame));
              t.heard == s.heard + [frame.value] && t.applied == s.applied + [frame.value.phase.box.value.content.value] && t.lastError == s.lastError
    ensures IgnoresKey(s, frame) ==> Step(s, Relay(frame)) == s
    ensures !TakesKey(s, frame) && !TakesDescription(s, frame) && !IgnoresKey(s, frame) ==>
              var t := Step(s, Relay(frame));
              t == s.(lastError := t.lastError) && t.lastError.Some? && Explains(s, frame, t.lastError.value)
  {
  }

  /** A start sends the session's own bound key, and waits for the peer's key or for its offer. */
  lemma StartIff(s: Session)
    ensures var t := Step(s, Start);
            t == s.(sent := t.sent, state := t.state) &&
            t.sent == s.sent + [Frame(s.matchId, s.me, KeyPhase(Some(s.mine), Some(Binding(s.me, s.mine, s.me))), s.me)] &&
            t.state == match s.role { case Initiator => AwaitPeerKey case Responder => AwaitOffer }
  {
  }

  /** Where the session stands is changed by these alone: its start, an offer that goes out, a channel that comes up,
   *  and its end. */
  lemma StateIff(s: Session, e: Event)
    ensures var t := Step(s, e);
            (e.Described? && s.peer.Some? && Waits(s, e.task, OfferDescription) ==> t.state == AwaitAnswer) &&
            (e.ChannelUp? && s.peer.Some? && Waits(s, e.task, DataChannel) ==> t.state == Connected) &&
            (e.Close? ==> t == s.(state := Closed)) &&
            (t.state == s.state || e.Start? || e.Close? ||
             (e.Described? && Waits(s, e.task, OfferDescription)) || (e.ChannelUp? && Waits(s, e.task, DataChannel)))
  {
  }

  /** A call that throws ends, and leaves its error and nothing else. */
  lemma ThrewIff(s: Session, n: nat)
    ensures var t := Step(s, Threw(n));
            if n in s.tasks then t == s.(tasks := s.tasks - {n}, lastError := t.lastError) && t.lastError == Some(SessionError) else t == s
  {
  }

  function Run(s: Session, es: seq<Event>): Session
    decreases |es|
  {
    if es == [] then s else Run(Step(s, es[0]), es[1..])
  }

  predicate SameParty(s: Session, t: Session) {
    s.me == t.me && s.mine == t.mine && s.role == t.role && s.matchId == t.matchId && s.counterparty == t.counterparty
  }

  lemma StepGrows(s: Session, e: Event)
    ensures var t := Step(s, e);
            SameParty(s, t) && s.sent <= t.sent && s.heard <= t.heard && s.channels <= t.channels &&
            (s.peer.Some? ==> t.peer == s.peer && t.keyFrame == s.keyFrame)
  {
  }

  /** A written peer key is never rewritten. */
  lemma {:induction false} PeerWrittenOnce(s: Session, es: seq<Event>)
    ensures s.peer.Some? ==> Run(s, es).peer == s.peer && Run(s, es).keyFrame == s.keyFrame
    ensures SameParty(s, Run(s, es)) && s.sent <= Run(s, es).sent && s.heard <= Run(s, es).heard && s.channels <= Run(s, es).channels
    decreases |es|
  {
    if es == [] {
    } else {
      StepGrows(s, es[0]);
      PeerWrittenOnce(Step(s, es[0]), es[1..]);
    }
  }

  lemma SignalingApplies(s: Session, f: Frame)
    requires AppliedInv(s) && f.phase.Signaling? && f.phase.box.Some?
    ensures AppliedInv(OnSignaling(s, f))
  {
  }

  lemma RelayApplies(s: Session, frame: Option<Frame>)
    requires AppliedInv(s)
    ensures AppliedInv(OnRelay(s, frame))
  {
    if Verified(s, frame) && frame.value.phase.Signaling? { SignalingApplies(s, frame.value); }
  }

  lemma DescriptionsStep(s: Session, e: Event)
    requires Inv(s) && AppliedInv(s)
    ensures AppliedInv(Step(s, e))
  {
    match e
    case Relay(frame) => RelayApplies(s, frame);
    case Applied(n) => AnswersApplied(s, n);
    case _ =>
  }

  lemma AnswersApplied(s: Session, n: nat)
    requires TaskInv(s) && OfferInv(s) && AppliedInv(s)
    ensures AppliedInv(OnApplied(s, n))
  {
    if Waits(s, n, ApplyThenAnswer) { assert AfterHearing(s.tasks[n]) && s.applied != []; }
  }

  /** For every board behaviour: at most one offer, every channel keyed by the one peer key, which a
   *  verified key frame carried, and never connected without a verified signaling frame sealed to us; and what
   *  is applied and answered are the descriptions that such frames carry. */
  lemma {:induction false} EverySessionIsSound(s: Session, es: seq<Event>)
    requires Inv(s) && AppliedInv(s)
    ensures Inv(Run(s, es)) && AppliedInv(Run(s, es))
    ensures s.role.Initiator? ==> Offers(Run(s, es).sent) <= 1
    decreases |es|
  {
    if es == [] {
      assert OfferInv(s);
    } else {
      StepKeeps(s, es[0]);
      DescriptionsStep(s, es[0]);
      StepGrows(s, es[0]);
      EverySessionIsSound(Step(s, es[0]), es[1..]);
    }
  }

  // ---------------------------------------------------------------------------------------------
  // The object
  // ---------------------------------------------------------------------------------------------

  class MatchSession {
    const identity: Id
    const transportPub: Pub
    const role: Role
    const matchId: MatchId
    const counterpartyKey: Id
    var state: State
    var peerTransportPub: Option<Pub>
    var remoteSdp: Option<Sdp>
    var lastError: Option<Error>
    ghost var tasks: map<nat, Await>
    ghost var next: nat
    ghost var keyFrame: Option<Frame>
    ghost var heard: seq<Frame>
    ghost var sent: seq<Frame>
    ghost var channels: seq<Keys>
    ghost var applied: seq<Sdp>
    ghost var answered: seq<Option<Sdp>>

    ghost function View(): Session
      reads this
    {
      Session(identity, transportPub, role, matchId, counterpartyKey, state, peerTransportPub, remoteSdp, lastError,
              tasks, next, keyFrame, heard, sent, channels, applied, answered)
    }

    constructor (me: Id, mine: Pub, role: Role, matchId: MatchId, counterparty: Id)
      ensures View() == New(me, mine, role, matchId, counterparty) && Inv(View()) && AppliedInv(View())
    {
      identity, transportPub, this.role, this.matchId, counterpartyKey := me, mine, role, matchId, counterparty;
      state, peerTransportPub, remoteSdp, lastError := AwaitPeerKey, None, None, None;
      tasks, next, keyFrame, heard, sent, channels, applied, answered := map[], 0, None, [], [], [], [], [];
    }

    method Start() returns (out: Frame)
      modifies this
      ensures View() == Step(old(View()), Event.Start) && sent == old(sent) + [out]
    {
      out := Frame(matchId, identity, KeyPhase(Some(transportPub), Some(Binding(identity, transportPub, identity))), identity);
      sent := sent + [out];
      state := if role == Initiator then AwaitPeerKey else AwaitOffer;
    }

    method OnRelay(blob: Option<Frame>)
      modifies this
      ensures View() == Step(old(View()), Relay(blob))
    {
      if blob == None { lastError := Some(Undecodable); return; }
      var frame := blob.value;
      if frame.matchId != matchId { lastError := Some(WrongMatch); return; }
      var v := VerifyMatchFrame(frame, counterpartyKey);
      if v.Some? { lastError := Some(FrameRejected(v.value)); return; }
      if frame.phase.KeyPhase? { TakeKey(frame); } else { TakeSignaling(frame); }
    }

    method TakeKey(frame: Frame)
      requires frame.phase.KeyPhase? && frame.phase.transport.Some? && frame.phase.binding.Some?
      modifies this`peerTransportPub, this`keyFrame, this`tasks, this`next
      ensures View() == OnKey(old(View()), frame)
    {
      if peerTransportPub.Some? { return; }
      peerTransportPub := frame.phase.transport;
      keyFrame := Some(frame);
      if role == Initiator { Hold(OfferDescription); }
    }

    method TakeSignaling(frame: Frame)
      requires frame.phase.Signaling? && frame.phase.box.Some?
      modifies this`lastError, this`remoteSdp, this`heard, this`applied, this`tasks, this`next
      ensures View() == OnSignaling(old(View()), frame)
    {
      if peerTransportPub == None { lastError := Some(SignalingBeforeKey); return; }
      var box := frame.phase.box.value;
      if box.to != transportPub || box.content == None { lastError := Some(UnsealFailed); return; }
      heard, applied := heard + [frame], applied + [box.content.value];
      if role == Responder {
        remoteSdp := box.content;
        Hold(ApplyThenAnswer);
      } else {
        Hold(ApplyThenFinish);
      }
    }

    /** The call is suspended until the WebRTC stack resolves it. */
    ghost method Hold(a: Await)
      modifies this`tasks, this`next
      ensures tasks == old(tasks)[old(next) := a] && next == old(next) + 1
    {
      tasks, next := tasks[next := a], next + 1;
    }

    /** The rest of sendOffer, and of sendAnswer with finishConnect, after createLocalDescription. */
    method DescriptionReady(ghost task: nat, offer: bool, sdp: Sdp) returns (out: Frame)
      requires Inv(View()) && Waits(View(), task, if offer then OfferDescription else AnswerDescription)
      modifies this
      ensures View() == Step(old(View()), Described(task, sdp)) && sent == old(sent) + [out]
    {
      out := Frame(matchId, identity, Signaling(Some(Box(peerTransportPub.value, Some(sdp)))), identity);
      tasks := tasks - {task};
      sent := sent + [out];
      if offer { state := AwaitAnswer; } else { FinishConnect(); }
    }

    method RemoteApplied(ghost task: nat)
      requires Waits(View(), task, if role == Responder then ApplyThenAnswer else ApplyThenFinish)
      modifies this
      ensures View() == Step(old(View()), Applied(task))
    {
      tasks := tasks - {task};
      if role == Responder { answered := answered + [remoteSdp]; Hold(AnswerDescription); } else { FinishConnect(); }
    }

    method FinishConnect()
      modifies this`tasks, this`next
      ensures View() == Finish(old(View()))
    {
      if state == Connected || state == Closed { return; }
      Hold(DataChannel);
    }

    method ChannelReady(ghost task: nat) returns (keys: Keys)
      requires Inv(View()) && Waits(View(), task, DataChannel)
      modifies this
      ensures View() == Step(old(View()), ChannelUp(task)) && channels == old(channels) + [keys]
    {
      tasks := tasks - {task};
      keys := Derive(transportPub, peerTransportPub.value);
      state := Connected;
      channels := channels + [keys];
    }

    method Close()
      modifies this`state
      ensures View() == Step(old(View()), Event.Close)
    {
      state := Closed;
    }
  }

  method Derive(mine: Pub, theirs: Pub) returns (keys: Keys)
    ensures keys == DirectionalKeys(mine, theirs)
  {
    var iAmLo := IsLexLess(mine, theirs);
    var lo, hi := if iAmLo then mine else theirs, if iAmLo then theirs else mine;
    var shared := Shared({mine, theirs});
    var loHi, hiLo := Derived(shared, lo + hi, LoHi), Derived(shared, lo + hi, HiLo);
    keys := if iAmLo then Keys(loHi, hiLo) else Keys(hiLo, loHi);
  }
}
