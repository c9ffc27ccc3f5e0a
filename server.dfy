/**
 * The sender's session setup (`VideoStream`): connect, open the feedback
 * data channel, add the video track, send the offer, apply the answer,
 * then hand over to the shared message loop unless a destination is set;
 * signaling and the peer connection are closed on every exit.
 */
module Server {
  import opened Wrappers
  import opened Signaling

  /** Python truthiness of the optional `destination` string. */
  predicate Truthy(destination: Option<string>) {
    destination.Some? && destination.value != ""
  }

  /** The message loop runs: the first message read is a description and no destination is set. */
  predicate Loops(inbox: seq<Msg>, destination: Option<string>) {
    Incoming(inbox).Desc? && !Truthy(destination)
  }

  /** The calls made before anything is read: connect, open the channel, add the track, offer. */
  function Opening(offer: Description): seq<Call> {
    [Connected, DataChannelCreated, TrackAdded, OfferCreated, LocalSet(offer), Sent(offer)]
  }

  /** The calls made once the first message has been read. */
  function AfterOffer(inbox: seq<Msg>, answer: Description, skipLoop: bool): seq<Call> {
    var response := Incoming(inbox);
    [Received(response)] +
    if response.Desc?
    then [RemoteSet(response.desc)] + (if skipLoop then [] else HandlerTrace(inbox[1..], answer))
    else []
  }

  /**
   * Every call `run_server` makes, given the messages the other peer sends;
   * the message loop is skipped when `skipLoop` holds.
   */
  function ServerTrace(inbox: seq<Msg>, offer: Description, answer: Description, skipLoop: bool)
    : seq<Call>
  {
    Opening(offer) + AfterOffer(inbox, answer, skipLoop)
  }

  /**
   * The server sets and sends its own offer before it reads anything, then
   * applies the first message read as the remote description.
   */
  lemma ServerOffersFirst(inbox: seq<Msg>, offer: Description, answer: Description, skipLoop: bool)
    ensures var t := ServerTrace(inbox, offer, answer, skipLoop);
            t[4] == LocalSet(offer) && t[5] == Sent(offer) && t[6] == Received(Incoming(inbox)) &&
            (Incoming(inbox).Desc? ==> t[7] == RemoteSet(Incoming(inbox).desc))
  {
  }

  /** The opening sends the offer once and reads nothing. */
  lemma OpeningPicks(offer: Description)
    ensures Pick(Opening(offer), SentOf) == [offer]
    ensures Pick(Opening(offer), ReceivedOf) == []
  {
    var o := Opening(offer);
    assert o == o[..5] + [Sent(offer)];
    PickNone(o[..5], SentOf);
    PickConcat(o[..5], [Sent(offer)], SentOf);
    PickCons(Sent(offer), [], SentOf);
    PickNone(o, ReceivedOf);
  }

  /**
   * What the server reads: the answer to its offer, then, unless the loop is
   * skipped, every message up to and including the first `None`.
   */
  lemma ServerReads(inbox: seq<Msg>, offer: Description, answer: Description, skipLoop: bool)
    ensures var loops := Incoming(inbox).Desc? && !skipLoop;
            Pick(ServerTrace(inbox, offer, answer, skipLoop), ReceivedOf) ==
              [Incoming(inbox)] + (if loops then BeforeEnd(inbox[1..]) + [End] else [])
  {
    OpeningPicks(offer);
    PickConcat(Opening(offer), AfterOffer(inbox, answer, skipLoop), ReceivedOf);
    var response := Incoming(inbox);
    var rest := if response.Desc?
                then [RemoteSet(response.desc)] + (if skipLoop then [] else HandlerTrace(inbox[1..], answer))
                else [];
    PickCons(Received(response), rest, ReceivedOf);
    assert AsSeq(ReceivedOf(Received(response))) == [response];
    if response.Desc? {
      var loop := if skipLoop then [] else HandlerTrace(inbox[1..], answer);
      PickCons(RemoteSet(response.desc), loop, ReceivedOf);
      if !skipLoop {
        HandlerReadsUpToEnd(inbox[1..], answer);
      }
      assert Pick(rest, ReceivedOf) == Pick(loop, ReceivedOf);
    } else {
      assert Pick(rest, ReceivedOf) == [];
    }
  }

  /**
   * What the server sends: its offer, then, unless the loop is skipped, one
   * answer per further offer it reads.
   */
  lemma ServerSends(inbox: seq<Msg>, offer: Description, answer: Description, skipLoop: bool)
    ensures var loops := Incoming(inbox).Desc? && !skipLoop;
            Pick(ServerTrace(inbox, offer, answer, skipLoop), SentOf) ==
              [offer] + (if loops then Repeat(answer, |Pick(BeforeEnd(inbox[1..]), OfferOf)|) else [])
  {
    OpeningPicks(offer);
    PickConcat(Opening(offer), AfterOffer(inbox, answer, skipLoop), SentOf);
    var response := Incoming(inbox);
    var rest := if response.Desc?
                then [RemoteSet(response.desc)] + (if skipLoop then [] else HandlerTrace(inbox[1..], answer))
                else [];
    PickCons(Received(response), rest, SentOf);
    if response.Desc? {
      PickCons(RemoteSet(response.desc), rest[1..], SentOf);
      if !skipLoop {
        HandlerAnswersOffers(inbox[1..], answer);
      }
    }
  }

  /** The streaming server: its peer connection with its signaling socket, and its options. */
  class VideoStream {
    const peer: Endpoint
    const destination: Option<string>

    constructor (peer: Endpoint, destination: Option<string>)
      ensures this.peer == peer && this.destination == destination
    {
      this.peer := peer;
      this.destination := destination;
    }

    /**
     * `run_server`. Returns false where the source raises: the first message
     * read is not a session description, so it has no `sdp` to apply.
     */
    method RunServer(connection: Endpoint) returns (ok: bool)
      modifies connection
      ensures ok <==> Incoming(old(connection.inbox)).Desc?
      ensures connection.calls == old(connection.calls) +
                ServerTrace(old(connection.inbox), connection.OfferDesc(), connection.AnswerDesc(),
                            Truthy(destination))
      ensures connection.inbox == HandshakeUnread(old(connection.inbox), Loops(old(connection.inbox), destination))
      ensures connection.remoteDescription ==
                HandshakeRemote(old(connection.inbox), Loops(old(connection.inbox), destination),
                                old(connection.remoteDescription))
      ensures connection.localDescription ==
                HandshakeLocal(old(connection.inbox), Loops(old(connection.inbox), destination),
                               connection.AnswerDesc(), Some(connection.OfferDesc()))
    {
      ghost var calls0, inbox0 := connection.calls, connection.inbox;
      connection.Connect();
      connection.CreateDataChannel();
      connection.AddTrack();
      var offer := connection.CreateOffer();
      connection.SetLocalDescription(offer);
      connection.Send(connection.localDescription.value);
      var response := connection.Receive();
      ghost var head := [Connected, DataChannelCreated, TrackAdded, OfferCreated, LocalSet(offer),
                         Sent(offer), Received(response)];
      assert connection.calls == calls0 + head;
      if !response.Desc? {
        return false;
      }
      connection.SetRemoteDescription(Description(response.desc.kind, response.desc.sdp));
      assert connection.calls == calls0 + head + [RemoteSet(response.desc)];
      assert connection.inbox == inbox0[1..];
      if !Truthy(destination) {
        HandleSignals(connection);
      }
      ok := true;
    }

    /** `initiate_server`: run, then close signaling and the peer connection, however the run ended. */
    method InitiateServer() returns (ok: bool)
      modifies peer
      ensures ok <==> Incoming(old(peer.inbox)).Desc?
      ensures peer.calls == old(peer.calls) +
                ServerTrace(old(peer.inbox), peer.OfferDesc(), peer.AnswerDesc(), Truthy(destination)) +
                [SignalingClosed, PeerClosed]
      ensures peer.inbox == HandshakeUnread(old(peer.inbox), Loops(old(peer.inbox), destination))
      ensures peer.remoteDescription ==
                HandshakeRemote(old(peer.inbox), Loops(old(peer.inbox), destination), old(peer.remoteDescription))
      ensures peer.localDescription ==
                HandshakeLocal(old(peer.inbox), Loops(old(peer.inbox), destination),
                               peer.AnswerDesc(), Some(peer.OfferDesc()))
    {
      ok := RunServer(peer);
      peer.CloseSignaling();
      peer.Close();
    }
  }
}
