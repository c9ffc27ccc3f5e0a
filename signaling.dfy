/**
 * The signaling vocabulary and the message loop shared by both peers
 * (`VideoStream.signal_handler` on the sender, `MediaClient.consume_signaling`
 * on the receiver: the two are the same code).
 *
 * A process owns one peer connection and one signaling socket; the class
 * Endpoint holds both, and records every call made on either of them, in
 * order, in `calls`. The loop is proved against HandlerTrace, the calls it
 * makes for a given stream of incoming messages, and the properties of the
 * loop are lemmas about HandlerTrace.
 */
module Signaling {
  import opened Wrappers

  datatype SdpType = Offer | Pranswer | Answer | Rollback

  /** A session description: its type and its opaque SDP text. */
  datatype Description = Description(kind: SdpType, sdp: string)

  /**
   * What `signal.receive()` hands back: a description, a connectivity
   * candidate, some other object (a bye among them), or `None` at the end
   * of the stream.
   */
  datatype Msg = Desc(desc: Description) | Candidate(candidate: string) | Other | End

  /** One call on the peer connection or the signaling socket. */
  datatype Call =
    | Connected
    | DataChannelCreated
    | TrackAdded
    | OfferCreated
    | AnswerCreated
    | LocalSet(desc: Description)
    | RemoteSet(desc: Description)
    | CandidateAdded(candidate: string)
    | Sent(desc: Description)
    | Received(msg: Msg)
    | SignalingClosed
    | PeerClosed

  /** What one receive returns: the next message, or `None` once the stream has ended. */
  function Incoming(inbox: seq<Msg>): Msg {
    if inbox == [] then End else inbox[0]
  }

  /** The messages still unread after one receive. */
  function AfterReceive(inbox: seq<Msg>): seq<Msg> {
    if inbox == [] then [] else inbox[1..]
  }

  /** The messages the loop reads and acts on: all of them up to the first `None`. */
  function BeforeEnd(inbox: seq<Msg>): (r: seq<Msg>)
    ensures r <= inbox
    ensures End !in r
    ensures |r| < |inbox| ==> inbox[|r|] == End
  {
    if inbox == [] || inbox[0] == End then [] else [inbox[0]] + BeforeEnd(inbox[1..])
  }

  /** The messages the loop leaves unread: everything after the first `None`. */
  function Unread(inbox: seq<Msg>): (r: seq<Msg>)
    ensures End in inbox ==> inbox == BeforeEnd(inbox) + [End] + r
    ensures End !in inbox ==> r == []
  {
    var k := |BeforeEnd(inbox)|;
    if k < |inbox| then inbox[k + 1..] else []
  }

  /** The calls one pass of the loop makes for a message other than `None`. */
  function Dispatch(m: Msg, answer: Description): seq<Call> {
    [Received(m)] +
    match m
    case Desc(d) =>
      [RemoteSet(d)] + (if d.kind == Offer then [AnswerCreated, LocalSet(answer), Sent(answer)] else [])
    case Candidate(c) => [CandidateAdded(c)]
    case _ => []
  }

  /**
   * Every call the loop makes, reading from `inbox`, until it reads `None`;
   * `answer` is the description the connection creates as its answer.
   */
  function HandlerTrace(inbox: seq<Msg>, answer: Description): seq<Call>
    decreases |inbox|
  {
    if Incoming(inbox) == End then [Received(End)]
    else Dispatch(inbox[0], answer) + HandlerTrace(inbox[1..], answer)
  }

  // Projections of calls and messages, for use with Pick.

  function ReceivedOf(c: Call): Option<Msg> {
    if c.Received? then Some(c.msg) else None
  }

  function SentOf(c: Call): Option<Description> {
    if c.Sent? then Some(c.desc) else None
  }

  function LocalOf(c: Call): Option<Description> {
    if c.LocalSet? then Some(c.desc) else None
  }

  function RemoteOf(c: Call): Option<Description> {
    if c.RemoteSet? then Some(c.desc) else None
  }

  function AddedOf(c: Call): Option<string> {
    if c.CandidateAdded? then Some(c.candidate) else None
  }

  function DescOf(m: Msg): Option<Description> {
    if m.Desc? then Some(m.desc) else None
  }

  function OfferOf(m: Msg): Option<Description> {
    if m.Desc? && m.desc.kind == Offer then Some(m.desc) else None
  }

  function CandidateOf(m: Msg): Option<string> {
    if m.Candidate? then Some(m.candidate) else None
  }

  /** The remote description after the loop, from the one it started with. */
  function AppliedRemote(inbox: seq<Msg>, current: Option<Description>): Option<Description>
    decreases |inbox|
  {
    if Incoming(inbox) == End then current
    else AppliedRemote(inbox[1..], if inbox[0].Desc? then Some(inbox[0].desc) else current)
  }

  /** The local description after the loop, from the one it started with. */
  function AppliedLocal(inbox: seq<Msg>, answer: Description, current: Option<Description>)
    : Option<Description>
    decreases |inbox|
  {
    if Incoming(inbox) == End then current
    else AppliedLocal(inbox[1..], answer, if OfferOf(inbox[0]).Some? then Some(answer) else current)
  }

  /** After the loop the remote description is the last description read, if any. */
  lemma {:induction false} AppliedRemoteIsLast(inbox: seq<Msg>, current: Option<Description>)
    ensures Pick(BeforeEnd(inbox), DescOf) == [] ==> AppliedRemote(inbox, current) == current
    ensures Pick(BeforeEnd(inbox), DescOf) != [] ==>
              AppliedRemote(inbox, current) == Some(Last(Pick(BeforeEnd(inbox), DescOf)))
    decreases |inbox|
  {
    if Incoming(inbox) != End {
      var m := inbox[0];
      PickCons(m, BeforeEnd(inbox[1..]), DescOf);
      AppliedRemoteIsLast(inbox[1..], if m.Desc? then Some(m.desc) else current);
    }
  }

  /** After the loop the local description is the answer once any offer was read. */
  lemma {:induction false} AppliedLocalIsAnswer(inbox: seq<Msg>, answer: Description, current: Option<Description>)
    ensures Pick(BeforeEnd(inbox), OfferOf) == [] ==> AppliedLocal(inbox, answer, current) == current
    ensures Pick(BeforeEnd(inbox), OfferOf) != [] ==> AppliedLocal(inbox, answer, current) == Some(answer)
    decreases |inbox|
  {
    if Incoming(inbox) != End {
      var m := inbox[0];
      PickCons(m, BeforeEnd(inbox[1..]), OfferOf);
      AppliedLocalIsAnswer(inbox[1..], answer, if OfferOf(m).Some? then Some(answer) else current);
    }
  }

  /**
   * The messages left unread by a handshake that reads one message and then,
   * when `loops`, hands over to the message loop.
   */
  function HandshakeUnread(inbox: seq<Msg>, loops: bool): seq<Msg> {
    if loops then Unread(AfterReceive(inbox)) else AfterReceive(inbox)
  }

  /**
   * The remote description after such a handshake: unchanged unless the
   * first message is a description, which is applied and then, when `loops`,
   * followed by the loop's own updates.
   */
  function HandshakeRemote(inbox: seq<Msg>, loops: bool, current: Option<Description>)
    : Option<Description>
  {
    var first := Incoming(inbox);
    if !first.Desc? then current
    else if loops then AppliedRemote(AfterReceive(inbox), Some(first.desc))
    else Some(first.desc)
  }

  /** The local description after such a handshake, from the one the handshake itself left. */
  function HandshakeLocal(inbox: seq<Msg>, loops: bool, answer: Description, start: Option<Description>)
    : Option<Description>
  {
    if loops then AppliedLocal(AfterReceive(inbox), answer, start) else start
  }

  /**
   * After a handshake whose first message is a description, the remote
   * description is the last one applied: that first description, or the
   * last description the loop read.
   */
  lemma HandshakeRemoteIsLast(inbox: seq<Msg>, loops: bool, current: Option<Description>)
    requires Incoming(inbox).Desc?
    ensures var looped := if loops then Pick(BeforeEnd(AfterReceive(inbox)), DescOf) else [];
            HandshakeRemote(inbox, loops, current) == Some(Last([Incoming(inbox).desc] + looped))
  {
    if loops {
      AppliedRemoteIsLast(AfterReceive(inbox), Some(Incoming(inbox).desc));
    }
  }

  /**
   * After a handshake the local description is the answer once the loop read
   * an offer, and otherwise the one the handshake itself left.
   */
  lemma HandshakeLocalIsAnswer(inbox: seq<Msg>, loops: bool, answer: Description, start: Option<Description>)
    ensures var offers := if loops then Pick(BeforeEnd(AfterReceive(inbox)), OfferOf) else [];
            HandshakeLocal(inbox, loops, answer, start) == if offers == [] then start else Some(answer)
  {
    if loops {
      AppliedLocalIsAnswer(AfterReceive(inbox), answer, start);
    }
  }

  function Last<T>(s: seq<T>): T
    requires s != []
  {
    s[|s| - 1]
  }

  /**
   * Every send is of the local description just set from a freshly created
   * answer, which follows the remote offer it answers, which follows the
   * receipt of that offer.
   */
  predicate SendsAnswerOffers(t: seq<Call>) {
    forall i :: 0 <= i < |t| && t[i].Sent? ==>
      4 <= i && t[i - 1] == LocalSet(t[i].desc) && t[i - 2] == AnswerCreated &&
      t[i - 3].RemoteSet? && t[i - 3].desc.kind == Offer &&
      t[i - 4] == Received(Desc(t[i - 3].desc))
  }

  lemma SendsAnswerOffersConcat(a: seq<Call>, b: seq<Call>)
    requires SendsAnswerOffers(a) && SendsAnswerOffers(b)
    ensures SendsAnswerOffers(a + b)
  {
    var t := a + b;
    forall i | 0 <= i < |t| && t[i].Sent?
      ensures 4 <= i && t[i - 1] == LocalSet(t[i].desc) && t[i - 2] == AnswerCreated &&
              t[i - 3].RemoteSet? && t[i - 3].desc.kind == Offer &&
              t[i - 4] == Received(Desc(t[i - 3].desc))
    {
      if i < |a| {
        assert t[i] == a[i];
      } else {
        var j := i - |a|;
        assert t[i] == b[j];
        assert t[i - 1] == b[j - 1] && t[i - 2] == b[j - 2] && t[i - 3] == b[j - 3] && t[i - 4] == b[j - 4];
      }
    }
  }

  /** The calls of one pass of the loop, read through any projection. */
  lemma DispatchPick<U>(m: Msg, answer: Description, f: Call -> Option<U>)
    ensures Pick(Dispatch(m, answer), f) ==
      AsSeq(f(Received(m))) +
      match m
      case Desc(d) =>
        AsSeq(f(RemoteSet(d))) +
        (if d.kind == Offer
         then AsSeq(f(AnswerCreated)) + AsSeq(f(LocalSet(answer))) + AsSeq(f(Sent(answer)))
         else [])
      case Candidate(c) => AsSeq(f(CandidateAdded(c)))
      case _ => []
  {
    match m
    case Desc(d) =>
      if d.kind == Offer {
        PickCons(Sent(answer), [], f);
        PickCons(LocalSet(answer), [Sent(answer)], f);
        PickCons(AnswerCreated, [LocalSet(answer), Sent(answer)], f);
        PickCons(RemoteSet(d), [AnswerCreated, LocalSet(answer), Sent(answer)], f);
        PickCons(Received(m), [RemoteSet(d), AnswerCreated, LocalSet(answer), Sent(answer)], f);
      } else {
        PickCons(RemoteSet(d), [], f);
        PickCons(Received(m), [RemoteSet(d)], f);
      }
    case Candidate(c) =>
      PickCons(CandidateAdded(c), [], f);
      PickCons(Received(m), [CandidateAdded(c)], f);
    case _ =>
      PickCons(Received(m), [], f);
  }

  // One pass of the loop over a message other than `None`, read through each projection.

  lemma DispatchReads(m: Msg, answer: Description)
    requires m != End
    ensures Pick(Dispatch(m, answer), ReceivedOf) == [m]
  {
    DispatchPick(m, answer, ReceivedOf);
  }

  lemma DispatchSends(m: Msg, answer: Description)
    ensures Pick(Dispatch(m, answer), SentOf) == Repeat(answer, |Pick([m], OfferOf)|)
  {
    DispatchPick(m, answer, SentOf);
    PickCons(m, [], OfferOf);
  }

  lemma DispatchSetsLocal(m: Msg, answer: Description)
    ensures Pick(Dispatch(m, answer), LocalOf) == Pick(Dispatch(m, answer), SentOf)
  {
    DispatchPick(m, answer, LocalOf);
    DispatchPick(m, answer, SentOf);
  }

  lemma DispatchSetsRemote(m: Msg, answer: Description)
    ensures Pick(Dispatch(m, answer), RemoteOf) == Pick([m], DescOf)
  {
    DispatchPick(m, answer, RemoteOf);
    PickCons(m, [], DescOf);
  }

  lemma DispatchAdds(m: Msg, answer: Description)
    ensures Pick(Dispatch(m, answer), AddedOf) == Pick([m], CandidateOf)
  {
    DispatchPick(m, answer, AddedOf);
    PickCons(m, [], CandidateOf);
  }

  lemma DispatchAnswersOffer(m: Msg, answer: Description)
    ensures SendsAnswerOffers(Dispatch(m, answer))
  {
    var t := Dispatch(m, answer);
    if OfferOf(m).Some? {
      assert t == [Received(m), RemoteSet(m.desc), AnswerCreated, LocalSet(answer), Sent(answer)];
    } else {
      assert forall i :: 0 <= i < |t| ==> !t[i].Sent?;
    }
  }

  /** The loop reads every message up to and including the first `None`, and nothing after it. */
  lemma {:induction false} HandlerReadsUpToEnd(inbox: seq<Msg>, answer: Description)
    ensures Pick(HandlerTrace(inbox, answer), ReceivedOf) == BeforeEnd(inbox) + [End]
    decreases |inbox|
  {
    if Incoming(inbox) != End {
      var m := inbox[0];
      PickConcat(Dispatch(m, answer), HandlerTrace(inbox[1..], answer), ReceivedOf);
      DispatchReads(m, answer);
      HandlerReadsUpToEnd(inbox[1..], answer);
    }
  }

  /** Only offers make the loop send: one answer per offer read. */
  lemma {:induction false} HandlerAnswersOffers(inbox: seq<Msg>, answer: Description)
    ensures Pick(HandlerTrace(inbox, answer), SentOf) == Repeat(answer, |Pick(BeforeEnd(inbox), OfferOf)|)
    decreases |inbox|
  {
    if Incoming(inbox) != End {
      var m := inbox[0];
      PickConcat(Dispatch(m, answer), HandlerTrace(inbox[1..], answer), SentOf);
      PickConcat([m], BeforeEnd(inbox[1..]), OfferOf);
      DispatchSends(m, answer);
      HandlerAnswersOffers(inbox[1..], answer);
      RepeatConcat(answer, |Pick([m], OfferOf)|, |Pick(BeforeEnd(inbox[1..]), OfferOf)|);
    }
  }

  /** The local description is set exactly where an answer is then sent, and to it. */
  lemma {:induction false} HandlerSetsWhatItSends(inbox: seq<Msg>, answer: Description)
    ensures Pick(HandlerTrace(inbox, answer), LocalOf) == Pick(HandlerTrace(inbox, answer), SentOf)
    ensures SendsAnswerOffers(HandlerTrace(inbox, answer))
    decreases |inbox|
  {
    if Incoming(inbox) != End {
      var m := inbox[0];
      var rest := HandlerTrace(inbox[1..], answer);
      PickConcat(Dispatch(m, answer), rest, SentOf);
      PickConcat(Dispatch(m, answer), rest, LocalOf);
      DispatchSetsLocal(m, answer);
      DispatchAnswersOffer(m, answer);
      HandlerSetsWhatItSends(inbox[1..], answer);
      SendsAnswerOffersConcat(Dispatch(m, answer), rest);
    }
  }

  /**
   * Descriptions only ever set the remote description and candidates only
   * ever get added: each in the order it was read.
   */
  lemma {:induction false} HandlerAppliesInOrder(inbox: seq<Msg>, answer: Description)
    ensures Pick(HandlerTrace(inbox, answer), RemoteOf) == Pick(BeforeEnd(inbox), DescOf)
    ensures Pick(HandlerTrace(inbox, answer), AddedOf) == Pick(BeforeEnd(inbox), CandidateOf)
    decreases |inbox|
  {
    if Incoming(inbox) != End {
      var m := inbox[0];
      var rest := HandlerTrace(inbox[1..], answer);
      PickConcat(Dispatch(m, answer), rest, RemoteOf);
      PickConcat(Dispatch(m, answer), rest, AddedOf);
      PickConcat([m], BeforeEnd(inbox[1..]), DescOf);
      PickConcat([m], BeforeEnd(inbox[1..]), CandidateOf);
      DispatchSetsRemote(m, answer);
      DispatchAdds(m, answer);
      HandlerAppliesInOrder(inbox[1..], answer);
    }
  }

  /** What one pass of the loop over a message other than `None` leaves to do. */
  lemma HandlerStep(inbox: seq<Msg>, answer: Description, done: seq<Call>)
    requires Incoming(inbox) != End
    ensures done + HandlerTrace(inbox, answer)
            == (done + Dispatch(inbox[0], answer)) + HandlerTrace(inbox[1..], answer)
    ensures Unread(inbox[1..]) == Unread(inbox)
  {
    assert BeforeEnd(inbox) == [inbox[0]] + BeforeEnd(inbox[1..]);
  }

  /**
   * One process's peer connection together with its signaling socket.
   * `inbox` holds the messages the other peer has sent and this one has not
   * read yet; `offerSdp` and `answerSdp` stand for the SDP text the media
   * stack generates for this connection's offer and answer.
   */
  class Endpoint {
    var inbox: seq<Msg>
    var calls: seq<Call>
    var localDescription: Option<Description>
    var remoteDescription: Option<Description>
    const offerSdp: string
    const answerSdp: string

    constructor (inbox: seq<Msg>, offerSdp: string, answerSdp: string)
      ensures this.inbox == inbox && calls == []
      ensures localDescription == None && remoteDescription == None
      ensures this.offerSdp == offerSdp && this.answerSdp == answerSdp
    {
      this.inbox := inbox;
      calls := [];
      localDescription, remoteDescription := None, None;
      this.offerSdp, this.answerSdp := offerSdp, answerSdp;
    }

    function OfferDesc(): Description {
      Description(Offer, offerSdp)
    }

    function AnswerDesc(): Description {
      Description(Answer, answerSdp)
    }

    method Connect()
      modifies this
      ensures calls == old(calls) + [Connected]
      ensures inbox == old(inbox) && localDescription == old(localDescription)
      ensures remoteDescription == old(remoteDescription)
    {
      calls := calls + [Connected];
    }

    method CreateDataChannel()
      modifies this
      ensures calls == old(calls) + [DataChannelCreated]
      ensures inbox == old(inbox) && localDescription == old(localDescription)
      ensures remoteDescription == old(remoteDescription)
    {
      calls := calls + [DataChannelCreated];
    }

    method AddTrack()
      modifies this
      ensures calls == old(calls) + [TrackAdded]
      ensures inbox == old(inbox) && localDescription == old(localDescription)
      ensures remoteDescription == old(remoteDescription)
    {
      calls := calls + [TrackAdded];
    }

    method CreateOffer() returns (d: Description)
      modifies this
      ensures d == OfferDesc()
      ensures calls == old(calls) + [OfferCreated]
      ensures inbox == old(inbox) && localDescription == old(localDescription)
      ensures remoteDescription == old(remoteDescription)
    {
      calls := calls + [OfferCreated];
      d := OfferDesc();
    }

    method CreateAnswer() returns (d: Description)
      modifies this
      ensures d == AnswerDesc()
      ensures calls == old(calls) + [AnswerCreated]
      ensures inbox == old(inbox) && localDescription == old(localDescription)
      ensures remoteDescription == old(remoteDescription)
    {
      calls := calls + [AnswerCreated];
      d := AnswerDesc();
    }

    method SetLocalDescription(d: Description)
      modifies this
      ensures localDescription == Some(d)
      ensures calls == old(calls) + [LocalSet(d)]
      ensures inbox == old(inbox) && remoteDescription == old(remoteDescription)
    {
      calls := calls + [LocalSet(d)];
      localDescription := Some(d);
    }

    method SetRemoteDescription(d: Description)
      modifies this
      ensures remoteDescription == Some(d)
      ensures calls == old(calls) + [RemoteSet(d)]
      ensures inbox == old(inbox) && localDescription == old(localDescription)
    {
      calls := calls + [RemoteSet(d)];
      remoteDescription := Some(d);
    }

    method AddIceCandidate(c: string)
      modifies this
      ensures calls == old(calls) + [CandidateAdded(c)]
      ensures inbox == old(inbox) && localDescription == old(localDescription)
      ensures remoteDescription == old(remoteDescription)
    {
      calls := calls + [CandidateAdded(c)];
    }

    method Send(d: Description)
      modifies this
      ensures calls == old(calls) + [Sent(d)]
      ensures inbox == old(inbox) && localDescription == old(localDescription)
      ensures remoteDescription == old(remoteDescription)
    {
      calls := calls + [Sent(d)];
    }

    /** Reads the next message; once the stream has ended every read gives `None`. */
    method Receive() returns (m: Msg)
      modifies this
      ensures m == Incoming(old(inbox)) && inbox == AfterReceive(old(inbox))
      ensures calls == old(calls) + [Received(m)]
      ensures localDescription == old(localDescription)
      ensures remoteDescription == old(remoteDescription)
    {
      m := Incoming(inbox);
      inbox := AfterReceive(inbox);
      calls := calls + [Received(m)];
    }

    method CloseSignaling()
      modifies this
      ensures calls == old(calls) + [SignalingClosed]
      ensures inbox == old(inbox) && localDescription == old(localDescription)
      ensures remoteDescription == old(remoteDescription)
    {
      calls := calls + [SignalingClosed];
    }

    method Close()
      modifies this
      ensures calls == old(calls) + [PeerClosed]
      ensures inbox == old(inbox) && localDescription == old(localDescription)
      ensures remoteDescription == old(remoteDescription)
    {
      calls := calls + [PeerClosed];
    }
  }

  /**
   * One pass of the message loop: read a message and act on it. Returns
   * whether it read `None`, in which case the loop stops.
   */
  method HandleOne(e: Endpoint) returns (stop: bool)
    modifies e
    ensures stop <==> Incoming(old(e.inbox)) == End
    ensures e.inbox == AfterReceive(old(e.inbox))
    ensures stop ==> e.calls == old(e.calls) + [Received(End)]
    ensures !stop ==> e.calls == old(e.calls) + Dispatch(old(e.inbox)[0], e.AnswerDesc())
    ensures e.remoteDescription ==
              if !stop && old(e.inbox)[0].Desc? then Some(old(e.inbox)[0].desc)
              else old(e.remoteDescription)
    ensures e.localDescription ==
              if !stop && OfferOf(old(e.inbox)[0]).Some? then Some(e.AnswerDesc())
              else old(e.localDescription)
  {
    ghost var calls0 := e.calls;
    var obj := e.Receive();
    stop := false;
    if obj.Desc? {
      e.SetRemoteDescription(obj.desc);
      if obj.desc.kind == Offer {
        var answer := e.CreateAnswer();
        e.SetLocalDescription(answer);
        e.Send(e.localDescription.value);
        assert e.calls == calls0 + [Received(obj), RemoteSet(obj.desc), AnswerCreated,
                                    LocalSet(answer), Sent(answer)];
      } else {
        assert e.calls == calls0 + [Received(obj), RemoteSet(obj.desc)];
      }
    } else if obj.Candidate? {
      e.AddIceCandidate(obj.candidate);
      assert e.calls == calls0 + [Received(obj), CandidateAdded(obj.candidate)];
    } else if obj == End {
      stop := true;
    }
  }

  /**
   * The message loop: apply every description as the remote one and answer
   * offers, add every candidate, skip anything else, stop at `None`.
   * No negotiation state is consulted.
   */
  method HandleSignals(e: Endpoint)
    modifies e
    ensures e.calls == old(e.calls) + HandlerTrace(old(e.inbox), e.AnswerDesc())
    ensures e.inbox == Unread(old(e.inbox))
    ensures e.remoteDescription == AppliedRemote(old(e.inbox), old(e.remoteDescription))
    ensures e.localDescription == AppliedLocal(old(e.inbox), e.AnswerDesc(), old(e.localDescription))
  {
    while true
      invariant e.calls + HandlerTrace(e.inbox, e.AnswerDesc())
                == old(e.calls) + HandlerTrace(old(e.inbox), e.AnswerDesc())
      invariant Unread(e.inbox) == Unread(old(e.inbox))
      invariant AppliedRemote(e.inbox, e.remoteDescription)
                == AppliedRemote(old(e.inbox), old(e.remoteDescription))
      invariant AppliedLocal(e.inbox, e.AnswerDesc(), e.localDescription)
                == AppliedLocal(old(e.inbox), e.AnswerDesc(), old(e.localDescription))
      decreases |e.inbox|
    {
      ghost var inbox0, calls0 := e.inbox, e.calls;
      var stop := HandleOne(e);
      if stop {
        break;
      }
      HandlerStep(inbox0, e.AnswerDesc(), calls0);
    }
  }
}
