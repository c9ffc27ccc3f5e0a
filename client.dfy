/**
 * The receiver's session setup (`MediaClient`): connect, apply the first
 * message read as the remote description, create, set and send the answer,
 * then hand over to the shared message loop unless `timeout` is set;
 * signaling and the peer connection are closed on every exit.
 */
module Client {
  import opened Wrappers
  import opened Signaling

  /** The message loop runs: the first message read is a description and `timeout` is not set. */
  predicate Loops(inbox: seq<Msg>, timeout: bool) {
    Incoming(inbox).Desc? && !timeout
  }

  /** The calls made once the first message is read and found to be a description. */
  function Answering(offer: Description, answer: Description): seq<Call> {
    [RemoteSet(offer), AnswerCreated, LocalSet(answer), Sent(answer)]
  }

  /**
   * Every call `operate_client` makes, given the messages the other peer
   * sends; the message loop is skipped when `skipLoop` holds.
   */
  function ClientTrace(inbox: seq<Msg>, answer: Description, skipLoop: bool): seq<Call> {
    [Connected, Received(Incoming(inbox))] + Reply(inbox, answer, skipLoop)
  }

  /** The calls made after the first message is read: none unless it is a description. */
  function Reply(inbox: seq<Msg>, answer: Description, skipLoop: bool): seq<Call> {
    var first := Incoming(inbox);
    if first.Desc?
    then Answering(first.desc, answer) + (if skipLoop then [] else HandlerTrace(inbox[1..], answer))
    else []
  }

  /** Answering sends the answer once and reads nothing. */
  lemma AnsweringPicks(offer: Description, answer: Description)
    ensures Pick(Answering(offer, answer), SentOf) == [answer]
    ensures Pick(Answering(offer, answer), ReceivedOf) == []
  {
    var a := Answering(offer, answer);
    assert a == a[..3] + [Sent(answer)];
    PickNone(a[..3], SentOf);
    PickConcat(a[..3], [Sent(answer)], SentOf);
    PickCons(Sent(answer), [], SentOf);
    PickNone(a, ReceivedOf);
  }

  /**
   * The client reads before it writes: the first message read becomes the
   * remote description before the answer is created, set and sent.
   */
  lemma ClientAnswersFirst(inbox: seq<Msg>, answer: Description, skipLoop: bool)
    ensures var t := ClientTrace(inbox, answer, skipLoop);
            t[1] == Received(Incoming(inbox)) &&
            (Incoming(inbox).Desc? ==>
               t[2] == RemoteSet(Incoming(inbox).desc) && t[3] == AnswerCreated &&
               t[4] == LocalSet(answer) && t[5] == Sent(answer))
    ensures !Incoming(inbox).Desc? ==> ClientTrace(inbox, answer, skipLoop) == [Connected, Received(Incoming(inbox))]
  {
  }

  /**
   * What the client sends: its answer to the first message, then, unless the
   * loop is skipped, one answer per further offer it reads; nothing at all
   * when the first message is not a description.
   */
  lemma ClientSends(inbox: seq<Msg>, answer: Description, skipLoop: bool)
    ensures var first := Incoming(inbox);
            Pick(ClientTrace(inbox, answer, skipLoop), SentOf) ==
              if !first.Desc? then []
              else [answer] + (if skipLoop then [] else Repeat(answer, |Pick(BeforeEnd(inbox[1..]), OfferOf)|))
  {
    var first := Incoming(inbox);
    var head := [Connected, Received(first)];
    PickNone(head, SentOf);
    PickConcat(head, Reply(inbox, answer, skipLoop), SentOf);
    if first.Desc? {
      var loop := if skipLoop then [] else HandlerTrace(inbox[1..], answer);
      AnsweringPicks(first.desc, answer);
      PickConcat(Answering(first.desc, answer), loop, SentOf);
      if !skipLoop {
        HandlerAnswersOffers(inbox[1..], answer);
      }
    }
  }

  /**
   * What the client reads: the server's offer, then, unless the loop is
   * skipped, every message up to and including the first `None`.
   */
  lemma ClientReads(inbox: seq<Msg>, answer: Description, skipLoop: bool)
    ensures var first := Incoming(inbox);
            Pick(ClientTrace(inbox, answer, skipLoop), ReceivedOf) ==
              [first] + (if first.Desc? && !skipLoop then BeforeEnd(inbox[1..]) + [End] else [])
  {
    var first := Incoming(inbox);
    var head := [Connected, Received(first)];
    assert Pick(head, ReceivedOf) == [first] by {
      assert head == [Connected] + [Received(first)];
      PickCons(Connected, [Received(first)], ReceivedOf);
      assert [Received(first)] == [Received(first)] + [];
      PickCons(Received(first), [], ReceivedOf);
    }
    PickConcat(head, Reply(inbox, answer, skipLoop), ReceivedOf);
    if first.Desc? {
      var loop := if skipLoop then [] else HandlerTrace(inbox[1..], answer);
      AnsweringPicks(first.desc, answer);
      PickConcat(Answering(first.desc, answer), loop, ReceivedOf);
      if !skipLoop {
        HandlerReadsUpToEnd(inbox[1..], answer);
      }
      assert Pick(Reply(inbox, answer, skipLoop), ReceivedOf) == Pick(loop, ReceivedOf);
    } else {
      assert Pick(Reply(inbox, answer, skipLoop), ReceivedOf) == [];
    }
  }

  /** The receiving client: its peer connection with its signaling socket, and its option. */
  class MediaClient {
    const pc: Endpoint
    const timeout: bool

    constructor (pc: Endpoint, timeout: bool)
      ensures this.pc == pc && this.timeout == timeout
    {
      this.pc := pc;
      this.timeout := timeout;
    }

    /**
     * `operate_client`. Returns false where the source raises: the first
     * message read is not a session description, so it has no `sdp`.
     */
    method OperateClient(connection: Endpoint) returns (ok: bool)
      modifies connection
      ensures ok <==> Incoming(old(connection.inbox)).Desc?
      ensures connection.calls == old(connection.calls) +
                ClientTrace(old(connection.inbox), connection.AnswerDesc(), timeout)
      ensures connection.inbox == HandshakeUnread(old(connection.inbox), Loops(old(connection.inbox), timeout))
      ensures connection.remoteDescription ==
                HandshakeRemote(old(connection.inbox), Loops(old(connection.inbox), timeout),
                                old(connection.remoteDescription))
      ensures connection.localDescription ==
                HandshakeLocal(old(connection.inbox), Loops(old(connection.inbox), timeout), connection.AnswerDesc(),
                               if Incoming(old(connection.inbox)).Desc? then Some(connection.AnswerDesc())
                               else old(connection.localDescription))
    {
      ghost var calls0, inbox0 := connection.calls, connection.inbox;
      connection.Connect();
      var serverOffer := connection.Receive();
      if !serverOffer.Desc? {
        return false;
      }
      connection.SetRemoteDescription(Description(serverOffer.desc.kind, serverOffer.desc.sdp));
      var clientAnswer := connection.CreateAnswer();
      connection.SetLocalDescription(clientAnswer);
      connection.Send(connection.localDescription.value);
      assert connection.calls == calls0 + [Connected, Received(serverOffer)] +
                                 Answering(serverOffer.desc, clientAnswer);
      assert connection.inbox == inbox0[1..];
      if !timeout {
        HandleSignals(connection);
      }
      ok := true;
    }

    /** `client_startup`: run, then close signaling and the peer connection, however the run ended. */
    method ClientStartup() returns (ok: bool)
      modifies pc
      ensures ok <==> Incoming(old(pc.inbox)).Desc?
      ensures pc.calls == old(pc.calls) + ClientTrace(old(pc.inbox), pc.AnswerDesc(), timeout) +
                          [SignalingClosed, PeerClosed]
      ensures pc.inbox == HandshakeUnread(old(pc.inbox), Loops(old(pc.inbox), timeout))
      ensures pc.remoteDescription ==
                HandshakeRemote(old(pc.inbox), Loops(old(pc.inbox), timeout), old(pc.remoteDescription))
      ensures pc.localDescription ==
                HandshakeLocal(old(pc.inbox), Loops(old(pc.inbox), timeout), pc.AnswerDesc(),
                               if Incoming(old(pc.inbox)).Desc? then Some(pc.AnswerDesc()) else old(pc.localDescription))
    {
      ok := OperateClient(pc);
      pc.CloseSignaling();
      pc.Close();
    }
  }
}
