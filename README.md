# ImageTransfer-Processor, modelled in Dafny

ImageTransfer-Processor streams a synthetic video from a server to a client
over WebRTC. The server renders a green disc that bounces around an 800x600
screen. The client locates the disc in every frame it receives and reports
the coordinates back over a data channel. This project models the three
sequential cores of the two programs and proves their properties:

- **The bouncing-target simulator** (`FrameGenerator`, `simulator.dfy`). It
  is an integer tick machine over position, velocity and a frame counter, with
  a reusable frame buffer. The class `Simulator.FrameGenerator` updates its
  fields and its `array` in place. It is proved to follow the pure
  specification `StepAxis`/`Tick`/`Next`/`Run`/`Stamps`, and the bounds,
  speed and timestamp properties are lemmas about that specification.
- **Signaling** (`signaling.dfy`, `server.dfy`, `client.dfy`):
  - the message loop shared by both peers (`signal_handler` on the server,
    `consume_signaling` on the client; the code is the same);
  - the fixed handshake order of `run_server` and `operate_client`;
  - the `try`/`finally` close order of `initiate_server` and `client_startup`.

  A process's peer connection and its signaling socket are one `Endpoint`
  object. It records every call made on either of them, in order, in
  `calls`, so the order of calls across the two is observable. Each method is
  proved to append exactly the calls of a trace function (`HandlerTrace`,
  `ServerTrace`, `ClientTrace`). What is read, set and sent is stated about
  those traces.
- **The client's frame pipeline** (`pipeline.dfy`):
  - `FrameProcessor.recv`, the producer. It forwards every delivery of the
    track to a queue and sends the current estimate for each frame.
  - `send_channel`.
  - `process_a`, the consumer. It drains the queue up to the `None` sentinel
    and writes each frame's coordinates into a two-slot cell.

  Both loops are methods proved against the specification functions
  `Consume` and `Forward`.

`server.py` and `Docker/Server/server.py` are identical files, and so are
`Docker/client.py` and `Docker/Client/client.py`. Each program is modelled
once. The rows below cite `server.py` and `Docker/client.py`; every cited
range holds the same code at the same lines in the other copy.

Foreign code is passed in as parameters:
- Finding the disc in a frame (`parse_frame`) is a function
  `parse: Image -> Option<(int, int)>`. It returns `None` exactly where
  `parse_frame` raises, that is, where no contour matches the target colour.
- Drawing the disc (`cv2.circle`) is a function `raster(cx, cy, r)` giving
  the pixel indices to fill.
- Formatting the coordinate pair (`str((x, y))`) is a function `show`.
- The keys pressed in the display window are a sequence `keys`, indexed by
  track delivery (`None` deliveries included), that says after which
  delivery 'q' was pressed; only a pressed key after a frame is acted on.

## Model

| member | source | states |
|---|---|---|
| `Simulator.StepAxis` | server.py:52-58 | the new coordinate is within `[radius, dim - radius]` whatever the old one, given the disc fits; the speed is kept; the velocity is negated when the advanced coordinate is at or past an edge; otherwise the position advances by exactly the velocity; a clamped coordinate is exactly `radius` or exactly `dim - radius` |
| `Simulator.Tick` | server.py:49-58 | one tick keeps the disc on screen along both axes and keeps the speed along each axis |
| `Simulator.AxesIndependent` | server.py:49-58 | the new x and x-velocity depend only on the old x and x-velocity; the same holds for y |
| `Simulator.FirstTick` | server.py:32-58 | from position (20, 20), velocity (10, 21) and screen 800x600, one tick gives (30, 41) with the velocity unchanged |
| `Simulator.RunCounts` | server.py:72-74 | after n calls of `recv` the counter has grown by exactly n, and the k-th frame carries the starting value plus k |
| `Simulator.FreshStamps` | server.py:39-74 | starting from timestamp 0, the n-th frame carries `pts` n - 1 |
| `Simulator.RunKeepsSpeed` | server.py:52-57 | any number of ticks preserves the speed along each axis |
| `Simulator.RunStaysInArena` | server.py:52-58 | after at least one tick, or from any on-screen start, the disc is on screen |
| `Simulator.FrameGenerator.constructor` | server.py:30-39 | radius 20, screen 800x600, velocity (10, 21), position (radius, radius), colour (0, 255, 0), an all-black 800x600 buffer, frame rate 60 and timestamp 0 |
| `Simulator.FrameGenerator.Clear` | server.py:48 | every pixel of the buffer is black afterwards; the buffer's size is unchanged |
| `Simulator.FrameGenerator.Draw` | server.py:60 | exactly the in-buffer pixels the rasteriser lists take the disc colour; every other pixel is unchanged |
| `Simulator.FrameGenerator.CalculatePosition` | server.py:41-61 | the new position and velocity are one `Tick` of the old ones; the disc is on screen; the timestamp is unchanged; the returned image is the buffer; a pixel has the disc colour if the rasteriser lists it for the new position and is black otherwise |
| `Simulator.FrameGenerator.Recv` | server.py:63-75 | the generator moves by one `Next`: one tick and the counter plus one; the frame's `pts` is the counter before the call; the frame's pixels are the freshly drawn buffer; the position is written back from `calculate_position`'s result, unchanged |
| `Signaling.BeforeEnd` | server.py:109-119 | the messages the loop acts on form a prefix of the stream, contain no `None`, and are followed by the first `None` when there is one |
| `Signaling.Unread` | server.py:109-119 | when the stream holds a `None`, it splits as the messages acted on, then that `None`, then the unread rest; otherwise nothing is left unread |
| `Signaling.DispatchReads` | server.py:110 | one pass over a message other than `None` reads exactly that message |
| `Signaling.DispatchSends` | server.py:111-115 | one pass sends the answer once for an offer and sends nothing for any other message |
| `Signaling.DispatchSetsLocal` | server.py:113-115 | in one pass, the local descriptions set are exactly the answers sent: one for an offer, none otherwise |
| `Signaling.DispatchSetsRemote` | server.py:111-112 | one pass sets the remote description exactly for a session description, to that description |
| `Signaling.DispatchAdds` | server.py:116-117 | one pass adds a candidate exactly for a candidate message, and adds that candidate |
| `Signaling.DispatchAnswersOffer` | server.py:111-115 | in one pass, a send follows the setting of the local description to the sent answer, which follows the answer's creation, which follows setting the remote offer, which follows reading that offer |
| `Signaling.HandlerReadsUpToEnd` | server.py:109-119 | the loop reads every message up to and including the first `None`, and nothing after it |
| `Signaling.HandlerAnswersOffers` | server.py:111-115 | the loop sends one answer per offer read and nothing else; answers, candidates and other objects send nothing |
| `Signaling.HandlerSetsWhatItSends` | server.py:113-115 | the local descriptions set are exactly the answers sent, and every send is preceded by reading an offer, setting it as remote, creating the answer and setting it as local |
| `Signaling.HandlerAppliesInOrder` | server.py:111-117 | the remote descriptions set are the descriptions read, in order, with none skipped; the candidates added are the candidates read, in order; candidates never touch a description |
| `Signaling.AppliedRemoteIsLast` | server.py:111-112 | after the loop the remote description is the last description read, or the one before the loop if none was read |
| `Signaling.AppliedLocalIsAnswer` | server.py:113-114 | after the loop the local description is the answer once any offer was read, and is unchanged otherwise |
| `Signaling.HandshakeRemoteIsLast` | server.py:150-155 | after a handshake whose first message is a description, the remote description is the last one applied: that first description, or the last description the loop then read |
| `Signaling.HandshakeLocalIsAnswer` | server.py:146-155 | after a handshake the local description is the answer once the loop read an offer, and otherwise the one the handshake itself set |
| `Signaling.HandleOne` | server.py:110-119 | one pass: a `None` read stops the loop after that read; any other message makes exactly the calls of `Dispatch` and is removed from the stream |
| `Signaling.HandleSignals` | server.py:101-119 | the loop makes exactly the calls of `HandlerTrace`, leaves exactly `Unread` of the stream, and leaves the descriptions given by `AppliedRemote` and `AppliedLocal` (`consume_signaling`, Docker/client.py:135-155, is the same code) |
| `Server.ServerOffersFirst` | server.py:146-152 | the server sets and sends its own offer before it reads anything, then applies the first message read as the remote description |
| `Server.ServerReads` | server.py:150-155 | the server reads the answer to its offer, then, unless `destination` is set, every message up to and including the first `None` |
| `Server.ServerSends` | server.py:146-155 | the server sends its offer, then, unless `destination` is set, one answer per later offer read |
| `Server.VideoStream.constructor` | server.py:96-99 | the stream keeps its connection and its destination |
| `Server.VideoStream.RunServer` | server.py:121-155 | `run_server` makes exactly the calls of `ServerTrace`; the loop is skipped when `destination` is a non-empty string; it fails, as the source raises, exactly when the first message read is not a session description; afterwards the unread messages, the remote description and the local description are those of `HandshakeUnread`, `HandshakeRemote` and `HandshakeLocal`, starting from the server's own offer as the local description |
| `Server.VideoStream.InitiateServer` | server.py:157-168 | the run's calls are followed by closing signaling and then the peer connection, whether the run succeeded or raised; the unread messages and both descriptions are left as the run left them |
| `Client.ClientAnswersFirst` | Docker/client.py:181-188 | the client reads the server's offer and applies it as the remote description before it creates, sets and sends its answer; it does nothing further when the first message is not a description |
| `Client.ClientSends` | Docker/client.py:181-191 | the client sends its answer to the server's offer, then, unless `timeout` is set, one answer per later offer read |
| `Client.ClientReads` | Docker/client.py:181-191 | the client reads the server's offer, then, unless `timeout` is set, every message up to and including the first `None` |
| `Client.MediaClient.constructor` | Docker/client.py:130-133 | the client keeps its connection and its `timeout` flag |
| `Client.MediaClient.OperateClient` | Docker/client.py:157-191 | `operate_client` makes exactly the calls of `ClientTrace`; the loop is skipped when `timeout` is set; it fails, as the source raises, exactly when the first message read is not a session description; afterwards the unread messages, the remote description and the local description are those of `HandshakeUnread`, `HandshakeRemote` and `HandshakeLocal`, starting from the client's answer as the local description, or from the old one when the first message is not a description |
| `Client.MediaClient.ClientStartup` | Docker/client.py:193-206 | the run's calls are followed by closing signaling and then the peer connection, whether the run succeeded or raised; the unread messages and both descriptions are left as the run left them |
| `Pipeline.Consume` | Docker/client.py:81-87 | draining never takes past the first `None`; every item taken before the last one is a frame in which the target was found; it stops at a `None`, raises at a frame where it is not found, or blocks on an empty queue after taking everything |
| `Pipeline.ConsumeCell` | Docker/client.py:85-87 | last write wins: the final cell is both coordinates of the last parsed frame, as floats, or the starting value when no frame was parsed |
| `Pipeline.DrainToSentinel` | Docker/client.py:81-87 | with k parseable frames and then `None`, draining takes exactly k + 1 items and stops; the cell is the parse of frame k, or unchanged when k is 0 |
| `Pipeline.ProcessA` | Docker/client.py:73-87 | `process_a` ends as `Consume` says, removes exactly the items `Consume` takes, and leaves the cell `Consume` computes; both slots are written together from one parse |
| `Pipeline.Forward` | Docker/client.py:42-57 | the loop takes at most the deliveries there are, at least one when there is any, and all of them when the track ends |
| `Pipeline.ForwardQuits` | Docker/client.py:44-57 | the loop stops on 'q' only just after a frame, never after a `None` delivery, and at the first frame after which 'q' was pressed |
| `Pipeline.ForwardQueuesAll` | Docker/client.py:44-57 | every delivery taken, `None` included, is queued exactly once, in order |
| `Pipeline.ForwardSaysPerFrame` | Docker/client.py:44-48 | the estimate is sent exactly once per frame taken and never for a `None` delivery |
| `Pipeline.ForwardPairsQueueAndSend` | Docker/client.py:44-48 | each send directly follows the queueing of a frame, and each queued frame is directly followed by a send |
| `Pipeline.FrameProcessor.constructor` | Docker/client.py:27-33 | the processor keeps its track and channel, and gets a fresh empty queue and a fresh two-slot cell holding (0.0, 0.0) |
| `Pipeline.FrameProcessor.SendChannel` | Docker/client.py:60-70 | the channel receives exactly the message; the "Coordinates (x, y): " prefix goes only to the log line |
| `Pipeline.FrameProcessor.ForwardOne` | Docker/client.py:43-54 | one pass: a frame is queued and the estimate is sent on the channel; a `None` delivery is only queued; it quits exactly after a frame with 'q' pressed |
| `Pipeline.FrameProcessor.Recv` | Docker/client.py:35-58 | `recv` ends as `Forward` says; the queue gains exactly the deliveries taken, in order; the channel gains the estimate once per frame taken; the cell is only read |

## Left out

- Image processing. `parse_frame` (Docker/client.py:90-109) and `cv2.circle` (server.py:60) are parameters, `parse` and `raster`. `cv2.imshow`/`cv2.waitKey` (Docker/client.py:50-52) become the `keys` sequence. The conversions `to_ndarray('rgb24')`/`to_ndarray('bgr24')` are not modelled: a frame is an opaque `Image`. One oddity sits in this unmodelled part: the queue receives `rgb24` arrays while `parse_frame` converts from BGR.
- The `int()` truncation of the circle centre in `parse_frame` (Docker/client.py:109). It is floating point, inside the opaque parser; the model takes the parser's integer pair.
- The feedback handler `on_message` (server.py:138-144). It runs `eval` on peer text and does float arithmetic.
- The `on_track`/`on_channel` callbacks (Docker/client.py:167-178). They start `process_a` in a second process, await `recv`, then put the sentinel and join. Because `recv` always ends by raising (see below), and the track never delivers `None`, the sentinel is never put and `process_a` is left waiting on an empty queue: in the running program `process_a` ends as the model's `Blocked` outcome. This wiring is event-driven and concurrent. Producer and consumer are modelled as separate sequential steps over the queue.
- Locks and interleavings of the shared queue and cell (Docker/client.py:30-31, 46, 86). `Pipeline.FrameProcessor.Recv` reads the cell under the assumption that no write happens during the call.
- `Pipeline.ProcessA`: a `get` on an empty queue waits forever in the source. The model ends with the outcome `Blocked` instead.
- `Pipeline.FrameProcessor.ForwardOne`: the queue and the channel are separate objects, so its contract states what each receives in the pass, not that the put comes before the send.
- `Pipeline.FrameProcessor.Recv`: the queue and the channel are separate objects, so its contract states what each receives, not how the two interleave. The interleaving is stated of `Forward` by `ForwardPairsQueueAndSend`.
- How `recv` ends. The track ending (aiortc raises when it has no more frames) and the `plt.close()` reached after 'q' (an undefined name) both raise in the source. The model returns the exit reason instead: `TrackEnded` or `QuitKey`.
- `asyncio` event loops and the `asyncio.sleep(0.5)` pacing (Docker/client.py:54). These are scheduling and time.
- `TcpSocketSignaling` internals. `receive` is modelled as taking the next message, and as `None` once nothing is left, which is what the library returns at end of stream. Connecting and closing are only recorded as calls.
- `RTCPeerConnection` internals. The SDP texts of the offer and the answer are fixed per `Endpoint` (`offerSdp`, `answerSdp`). No negotiation state is checked, as in the source.
- The exceptions raised on a first message without `sdp` (server.py:152, Docker/client.py:182). They are modelled as the result `false` of `RunServer`/`OperateClient`; the closes in `finally` still follow.
- `operate_client` connects `self.signaling` rather than its `signaling` argument (Docker/client.py:165). `client_startup` passes `self.signaling`, so the two are the same object; the model has one `Endpoint`.
- `av.VideoFrame` construction and the `time_base` string (server.py:71-73). Only the pixels and `pts` are kept.
- The unused `frame_count` argument of `FrameGenerator` (server.py:30).
- The console output (`print`). The log line of `send_channel` is returned as `logged` instead.
- test.py is not part of this model.
