/**
 * The receiver's frame pipeline: `FrameProcessor.recv` forwards every
 * frame of the incoming track to a queue and reports the latest coordinate
 * estimate over the data channel; `process_a` drains the queue up to the
 * `None` sentinel, locating the target in each frame and overwriting the
 * two-slot coordinate cell.
 *
 * Producer and consumer run in separate processes in the source; here each
 * is modelled on its own, as a sequential step over the queue. Locating the
 * target (`parse_frame`) and formatting the pair (`str((x, y))`) are
 * parameters: `parse` returns None exactly where `parse_frame` raises
 * (no contour matched the target colour).
 */
module Pipeline {
  import opened Wrappers

  /** A decoded frame's pixel buffer, kept opaque. */
  type Image = seq<int>

  /** A queue entry or a track delivery: a frame, or `None`. */
  type Item = Option<Image>

  /** The shared coordinate cell: two floats. */
  datatype Cell = Cell(x: real, y: real)

  /** The cell's value before any estimate: (0.0, 0.0). */
  const Unset := Cell(0.0, 0.0)

  /** How `process_a` ends: at the sentinel, by an exception from `parse_frame`, or waiting on an empty queue. */
  datatype Outcome = Stopped | Raised | Blocked

  /** The result of draining: how it ended, how many items it took, the final cell. */
  datatype Drain = Drain(outcome: Outcome, taken: nat, cell: Cell)

  /** Both slots of the cell written from one parse result, as floats. */
  function Store(p: (int, int)): Cell {
    Cell(p.0 as real, p.1 as real)
  }

  /** The item is a frame in which the target was found. */
  predicate Parses(item: Item, parse: Image -> Option<(int, int)>) {
    item.Some? && parse(item.value).Some?
  }

  /** What `process_a` does to a queue holding `items`, starting from cell value `cell`. */
  function Consume(items: seq<Item>, parse: Image -> Option<(int, int)>, cell: Cell): (r: Drain)
    ensures r.taken <= |items|
    ensures r.outcome == Blocked ==> r.taken == |items|
    ensures r.outcome != Blocked ==> r.taken >= 1
    ensures forall j :: 0 <= j < r.taken && (j < r.taken - 1 || r.outcome == Blocked) ==>
              Parses(items[j], parse)
    ensures r.outcome == Stopped ==> items[r.taken - 1].None?
    ensures r.outcome == Raised ==> items[r.taken - 1].Some? && !Parses(items[r.taken - 1], parse)
    decreases |items|
  {
    if items == [] then Drain(Blocked, 0, cell)
    else if items[0].None? then Drain(Stopped, 1, cell)
    else match parse(items[0].value)
      case None => Drain(Raised, 1, cell)
      case Some(p) =>
        var r := Consume(items[1..], parse, Store(p));
        Drain(r.outcome, r.taken + 1, r.cell)
  }

  /** How many of the taken items were parsed and written to the cell. */
  function Written(r: Drain): nat {
    if r.outcome == Blocked || r.taken == 0 then r.taken else r.taken - 1
  }

  /**
   * Last write wins: the final cell holds the parse of the last frame that
   * was written, or the starting value when none was.
   */
  lemma {:induction false} ConsumeCell(items: seq<Item>, parse: Image -> Option<(int, int)>, cell: Cell)
    ensures var r := Consume(items, parse, cell);
            var k := Written(r);
            k <= |items| &&
            (k == 0 ==> r.cell == cell) &&
            (k > 0 ==> Parses(items[k - 1], parse) && r.cell == Store(parse(items[k - 1].value).value))
    decreases |items|
  {
    if items != [] && items[0].Some? && parse(items[0].value).Some? {
      var p := parse(items[0].value).value;
      ConsumeCell(items[1..], parse, Store(p));
    }
  }

  /**
   * With `k` parseable frames and then the sentinel, draining takes exactly
   * `k + 1` items (so `get` is called `k + 1` times), stops, and leaves the
   * parse of the last frame in the cell, or the old value when `k` is 0.
   */
  lemma {:induction false} DrainToSentinel(items: seq<Item>, parse: Image -> Option<(int, int)>, cell: Cell, k: nat)
    requires k < |items| && items[k].None?
    requires forall j :: 0 <= j < k ==> Parses(items[j], parse)
    ensures k > 0 ==> Parses(items[k - 1], parse)
    ensures Consume(items, parse, cell) ==
              Drain(Stopped, k + 1, if k == 0 then cell else Store(parse(items[k - 1].value).value))
    decreases k
  {
    if k > 0 {
      var p := parse(items[0].value).value;
      assert forall j :: 0 <= j < k - 1 ==> items[1..][j] == items[j + 1];
      DrainToSentinel(items[1..], parse, Store(p), k - 1);
    }
  }

  /** The queue between the two processes, as the sequence of items not yet taken. */
  class FrameQueue {
    var items: seq<Item>

    constructor ()
      ensures items == []
    {
      items := [];
    }

    method Put(item: Item)
      modifies this
      ensures items == old(items) + [item]
    {
      items := items + [item];
    }

    /** Takes the oldest item; None stands for a `get` that would wait forever on an empty queue. */
    method Get() returns (got: Option<Item>)
      modifies this
      ensures old(items) == [] ==> got == None && items == []
      ensures old(items) != [] ==> got == Some(old(items)[0]) && items == old(items)[1..]
    {
      if items == [] {
        got := None;
      } else {
        got := Some(items[0]);
        items := items[1..];
      }
    }
  }

  /** `process_a`: take items until the sentinel, writing each frame's estimate to the cell. */
  method ProcessA(queue: FrameQueue, coordinates: array<real>, parse: Image -> Option<(int, int)>)
    returns (outcome: Outcome)
    requires coordinates.Length == 2
    modifies queue, coordinates
    ensures var r := Consume(old(queue.items), parse, Cell(old(coordinates[0]), old(coordinates[1])));
            outcome == r.outcome && queue.items == old(queue.items)[r.taken..] &&
            Cell(coordinates[0], coordinates[1]) == r.cell
  {
    while true
      invariant |queue.items| <= |old(queue.items)|
      invariant queue.items == old(queue.items)[|old(queue.items)| - |queue.items|..]
      invariant var whole := Consume(old(queue.items), parse, Cell(old(coordinates[0]), old(coordinates[1])));
                var now := Consume(queue.items, parse, Cell(coordinates[0], coordinates[1]));
                whole == now.(taken := now.taken + |old(queue.items)| - |queue.items|)
      decreases |queue.items|
    {
      var got := queue.Get();
      if got.None? {
        return Blocked;
      }
      var frame := got.value;
      if frame.None? {
        return Stopped;
      }
      var parsed := parse(frame.value);
      if parsed.None? {
        return Raised;
      }
      coordinates[0], coordinates[1] := parsed.value.0 as real, parsed.value.1 as real;
    }
  }

  /** The feedback data channel, as the log of messages sent on it. */
  class DataChannel {
    var sent: seq<string>

    constructor ()
      ensures sent == []
    {
      sent := [];
    }

    method Send(message: string)
      modifies this
      ensures sent == old(sent) + [message]
    {
      sent := sent + [message];
    }
  }

  /** The incoming video track, as the deliveries not yet received. */
  class Track {
    var pending: seq<Item>

    constructor (pending: seq<Item>)
      ensures this.pending == pending
    {
      this.pending := pending;
    }

    /** The next delivery; `ended` once the track has nothing more to deliver. */
    method Recv() returns (ended: bool, frame: Item)
      modifies this
      ensures ended <==> old(pending) == []
      ensures !ended ==> frame == old(pending)[0] && pending == old(pending)[1..]
      ensures ended ==> pending == old(pending)
    {
      ended := pending == [];
      if ended {
        frame := None;
      } else {
        frame := pending[0];
        pending := pending[1..];
      }
    }
  }

  /** One observable step of `recv`: an item queued, or a text sent on the channel. */
  datatype Effect = Queued(item: Item) | Said(text: string)

  /** How the `recv` loop ends: the track ran out, or 'q' was pressed on the display. */
  datatype Exit = TrackEnded | QuitKey

  datatype Feed = Feed(effects: seq<Effect>, taken: nat, exit: Exit)

  /** The key pressed after showing the delivery at track position `i` was 'q'. */
  predicate Pressed(keys: seq<bool>, i: nat) {
    i < |keys| && keys[i]
  }

  /** What the channel carries for one delivery: the estimate for a frame, nothing for `None`. */
  function SaidFor(item: Item, text: string): seq<string> {
    if item.Some? then [text] else []
  }

  /** One delivery's effects: a frame is queued and then the estimate sent; `None` is only queued. */
  function Forwarded(item: Item, text: string): seq<Effect> {
    if item.Some? then [Queued(item), Said(text)] else [Queued(None)]
  }

  /**
   * What the `recv` loop does with the deliveries `frames`, the first of
   * which is at track position `at`, sending `text` as the estimate.
   */
  function Forward(frames: seq<Item>, keys: seq<bool>, at: nat, text: string): (r: Feed)
    ensures r.taken <= |frames|
    ensures frames != [] ==> r.taken >= 1
    ensures r.exit == TrackEnded ==> r.taken == |frames|
    decreases |frames|
  {
    if frames == [] then Feed([], 0, TrackEnded)
    else if frames[0].Some? && Pressed(keys, at) then Feed(Forwarded(frames[0], text), 1, QuitKey)
    else
      var r := Forward(frames[1..], keys, at + 1, text);
      Feed(Forwarded(frames[0], text) + r.effects, r.taken + 1, r.exit)
  }

  /**
   * The loop ends on 'q' only after a frame (a `None` delivery never ends
   * it), at the first frame after which 'q' was pressed.
   */
  lemma {:induction false} ForwardQuits(frames: seq<Item>, keys: seq<bool>, at: nat, text: string)
    ensures var r := Forward(frames, keys, at, text);
            (r.exit == QuitKey ==> frames[r.taken - 1].Some? && Pressed(keys, at + r.taken - 1)) &&
            forall j :: 0 <= j < r.taken - 1 ==> !(frames[j].Some? && Pressed(keys, at + j))
    decreases |frames|
  {
    if frames != [] && !(frames[0].Some? && Pressed(keys, at)) {
      ForwardQuits(frames[1..], keys, at + 1, text);
      var r := Forward(frames[1..], keys, at + 1, text);
      forall j | 0 <= j < r.taken
        ensures !(frames[j].Some? && Pressed(keys, at + j))
      {
        if j > 0 {
          assert frames[j] == frames[1..][j - 1];
        }
      }
    }
  }

  /** Counting one more delivery. */
  lemma {:induction false} FrameCountSnoc(items: seq<Item>, i: nat)
    requires i < |items|
    ensures FrameCount(items[..i + 1]) == FrameCount(items[..i]) + if items[i].Some? then 1 else 0
    decreases i
  {
    if i > 0 {
      FrameCountSnoc(items[1..], i - 1);
      assert items[..i + 1][1..] == items[1..][..i];
      assert items[..i][1..] == items[1..][..i - 1];
    }
  }

  /** One turn of the `recv` loop at position `i`, as the loop in `Recv` sees it. */
  lemma ForwardAt(frames: seq<Item>, keys: seq<bool>, i: nat, text: string)
    requires i < |frames|
    ensures frames[..i + 1] == frames[..i] + [frames[i]]
    ensures Repeat(text, FrameCount(frames[..i + 1])) == Repeat(text, FrameCount(frames[..i])) + SaidFor(frames[i], text)
  {
    FrameCountSnoc(frames, i);
    TakeSnoc(frames, i);
    RepeatSnoc(text, FrameCount(frames[..i]));
  }

  /**
   * Deliveries after which the loop goes on can be skipped: what the loop
   * takes in all is those `i` plus what it takes from the rest.
   */
  lemma {:induction false} ForwardPrefix(frames: seq<Item>, keys: seq<bool>, at: nat, text: string, i: nat)
    requires i <= |frames|
    requires forall j :: 0 <= j < i ==> !(frames[j].Some? && Pressed(keys, at + j))
    ensures var r := Forward(frames, keys, at, text);
            var rest := Forward(frames[i..], keys, at + i, text);
            r.taken == i + rest.taken && r.exit == rest.exit
    decreases i
  {
    if i > 0 {
      assert !(frames[0].Some? && Pressed(keys, at));
      forall j | 0 <= j < i - 1
        ensures !(frames[1..][j].Some? && Pressed(keys, at + 1 + j))
      {
        assert frames[1..][j] == frames[j + 1];
      }
      ForwardPrefix(frames[1..], keys, at + 1, text, i - 1);
      assert frames[1..][i - 1..] == frames[i..];
    }
  }

  /** Where the loop stops, from the first delivery that stops it. */
  lemma ForwardEnds(frames: seq<Item>, keys: seq<bool>, text: string, i: nat)
    requires i <= |frames|
    requires forall j :: 0 <= j < i ==> !(frames[j].Some? && Pressed(keys, j))
    requires i == |frames| || (frames[i].Some? && Pressed(keys, i))
    ensures var r := Forward(frames, keys, 0, text);
            if i == |frames| then r.exit == TrackEnded && r.taken == i
            else r.exit == QuitKey && r.taken == i + 1
  {
    ForwardPrefix(frames, keys, 0, text, i);
    if i == |frames| {
      assert frames[i..] == [];
    }
  }

  function QueuedOf(e: Effect): Option<Item> {
    if e.Queued? then Some(e.item) else None
  }

  function SaidOf(e: Effect): Option<string> {
    if e.Said? then Some(e.text) else None
  }

  /** How many of the deliveries are frames. */
  function FrameCount(items: seq<Item>): (n: nat)
    ensures n <= |items|
  {
    if items == [] then 0 else (if items[0].Some? then 1 else 0) + FrameCount(items[1..])
  }

  /** One delivery queues itself and says `text` exactly when it is a frame. */
  lemma ForwardedPicks(item: Item, text: string)
    ensures Pick(Forwarded(item, text), QueuedOf) == [item]
    ensures Pick(Forwarded(item, text), SaidOf) == if item.Some? then [text] else []
  {
    var step := Forwarded(item, text);
    PickCons(step[0], step[1..], QueuedOf);
    PickCons(step[0], step[1..], SaidOf);
    if item.Some? {
      PickCons(step[1], [], QueuedOf);
      PickCons(step[1], [], SaidOf);
    }
  }

  /** Every delivery taken is queued exactly once, in order, `None` included. */
  lemma {:induction false} ForwardQueuesAll(frames: seq<Item>, keys: seq<bool>, at: nat, text: string)
    ensures var r := Forward(frames, keys, at, text);
            Pick(r.effects, QueuedOf) == frames[..r.taken]
    decreases |frames|
  {
    if frames != [] {
      var step := Forwarded(frames[0], text);
      ForwardedPicks(frames[0], text);
      if frames[0].Some? && Pressed(keys, at) {
        assert Forward(frames, keys, at, text) == Feed(step, 1, QuitKey);
        assert frames[..1] == [frames[0]];
      } else {
        var rest := Forward(frames[1..], keys, at + 1, text);
        assert Forward(frames, keys, at, text) == Feed(step + rest.effects, rest.taken + 1, rest.exit);
        ForwardQueuesAll(frames[1..], keys, at + 1, text);
        PickConcat(step, rest.effects, QueuedOf);
        TakeCons(frames, rest.taken + 1);
      }
    }
  }

  /** The estimate is sent once per frame taken, and never for a `None` delivery. */
  lemma {:induction false} ForwardSaysPerFrame(frames: seq<Item>, keys: seq<bool>, at: nat, text: string)
    ensures var r := Forward(frames, keys, at, text);
            Pick(r.effects, SaidOf) == Repeat(text, FrameCount(frames[..r.taken]))
    decreases |frames|
  {
    if frames != [] {
      var step := Forwarded(frames[0], text);
      ForwardedPicks(frames[0], text);
      if frames[0].Some? && Pressed(keys, at) {
        assert Forward(frames, keys, at, text) == Feed(step, 1, QuitKey);
        assert frames[..1] == [frames[0]];
        assert [frames[0]][1..] == [];
      } else {
        var rest := Forward(frames[1..], keys, at + 1, text);
        assert Forward(frames, keys, at, text) == Feed(step + rest.effects, rest.taken + 1, rest.exit);
        ForwardSaysPerFrame(frames[1..], keys, at + 1, text);
        PickConcat(step, rest.effects, SaidOf);
        var tail := frames[1..][..rest.taken];
        TakeCons(frames, rest.taken + 1);
        assert ([frames[0]] + tail)[1..] == tail;
        assert Pick(step, SaidOf) == Repeat(text, if frames[0].Some? then 1 else 0);
      }
    }
  }

  /** Each frame's estimate is sent right after the frame is queued, and only then. */
  predicate SaysRightAfterQueueing(t: seq<Effect>) {
    (forall i :: 0 <= i < |t| && t[i].Said? ==> 1 <= i && t[i - 1].Queued? && t[i - 1].item.Some?) &&
    (forall i :: 0 <= i < |t| && t[i].Queued? && t[i].item.Some? ==> i + 1 < |t| && t[i + 1].Said?)
  }

  lemma {:induction false} ForwardPairsQueueAndSend(frames: seq<Item>, keys: seq<bool>, at: nat, text: string)
    ensures SaysRightAfterQueueing(Forward(frames, keys, at, text).effects)
    decreases |frames|
  {
    if frames != [] && !(frames[0].Some? && Pressed(keys, at)) {
      var step := Forwarded(frames[0], text);
      var rest := Forward(frames[1..], keys, at + 1, text).effects;
      ForwardPairsQueueAndSend(frames[1..], keys, at + 1, text);
      var t := step + rest;
      forall i | 0 <= i < |t| && t[i].Said?
        ensures 1 <= i && t[i - 1].Queued? && t[i - 1].item.Some?
      {
        if i >= |step| {
          assert t[i] == rest[i - |step|];
        }
      }
      forall i | 0 <= i < |t| && t[i].Queued? && t[i].item.Some?
        ensures i + 1 < |t| && t[i + 1].Said?
      {
        if i >= |step| {
          assert t[i] == rest[i - |step|];
        }
      }
    }
  }

  /** The receiver's track processor: the queue and the cell it shares with `process_a`. */
  class FrameProcessor {
    const track: Track
    const queue: FrameQueue
    const coordinates: array<real>
    const datachannel: DataChannel

    predicate Valid() {
      coordinates.Length == 2
    }

    constructor (track: Track, datachannel: DataChannel)
      ensures Valid()
      ensures this.track == track && this.datachannel == datachannel
      ensures fresh(queue) && queue.items == []
      ensures fresh(coordinates) && Cell(coordinates[0], coordinates[1]) == Unset
    {
      this.track := track;
      this.datachannel := datachannel;
      queue := new FrameQueue();
      coordinates := new real[2](_ => 0.0);
    }

    /** `send_channel`: the message goes to the channel as is; the returned log line carries the prefix. */
    method SendChannel(channel: DataChannel, message: string) returns (logged: string)
      modifies channel
      ensures channel.sent == old(channel.sent) + [message]
      ensures logged == "Coordinates (x, y): " + message
    {
      logged := "Coordinates (x, y): " + message;
      channel.Send(message);
    }

    /**
     * `recv`: forward each delivery to the queue and, for a frame, send the
     * current estimate formatted by `show`; `keys` says after which track
     * delivery 'q' was pressed.
     */
    method Recv(keys: seq<bool>, show: (real, real) -> string) returns (exit: Exit)
      requires Valid()
      modifies track, queue, datachannel
      ensures var r := Forward(old(track.pending), keys, 0, show(coordinates[0], coordinates[1]));
              exit == r.exit && track.pending == old(track.pending)[r.taken..]
      ensures var r := Forward(old(track.pending), keys, 0, show(coordinates[0], coordinates[1]));
              queue.items == old(queue.items) + old(track.pending)[..r.taken]
      ensures var text := show(coordinates[0], coordinates[1]);
              var r := Forward(old(track.pending), keys, 0, text);
              datachannel.sent == old(datachannel.sent) + Repeat(text, FrameCount(old(track.pending)[..r.taken]))
    {
      ghost var text := show(coordinates[0], coordinates[1]);
      ghost var frames := track.pending;
      var i := 0;
      while true
        invariant i <= |frames| && track.pending == frames[i..]
        invariant forall j :: 0 <= j < i ==> !(frames[j].Some? && Pressed(keys, j))
        invariant queue.items == old(queue.items) + frames[..i]
        invariant datachannel.sent == old(datachannel.sent) + Repeat(text, FrameCount(frames[..i]))
        decreases |track.pending|
      {
        var ended, quit := ForwardOne(keys, i, show, text);
        if ended {
          ForwardEnds(frames, keys, text, i);
          return TrackEnded;
        }
        ForwardAt(frames, keys, i, text);
        if quit {
          ForwardEnds(frames, keys, text, i);
          return QuitKey;
        }
        i := i + 1;
      }
    }

    /** One pass of the `recv` loop, for the delivery at track position `i`. */
    method ForwardOne(keys: seq<bool>, i: nat, show: (real, real) -> string, ghost text: string)
      returns (ended: bool, quit: bool)
      requires Valid() && text == show(coordinates[0], coordinates[1])
      modifies track, queue, datachannel
      ensures ended <==> old(track.pending) == []
      ensures ended ==> track.pending == old(track.pending) && queue.items == old(queue.items) &&
                        datachannel.sent == old(datachannel.sent)
      ensures !ended ==> track.pending == old(track.pending)[1..]
      ensures !ended ==> queue.items == old(queue.items) + [old(track.pending)[0]]
      ensures !ended ==> datachannel.sent == old(datachannel.sent) + SaidFor(old(track.pending)[0], text)
      ensures quit <==> !ended && old(track.pending)[0].Some? && Pressed(keys, i)
    {
      var frame;
      ended, frame := track.Recv();
      quit := false;
      if ended {
        return;
      }
      queue.Put(frame);
      if frame.Some? {
        var x, y := coordinates[0], coordinates[1];
        var _ := SendChannel(datachannel, show(x, y));
        quit := Pressed(keys, i);
      }
    }
  }
}
