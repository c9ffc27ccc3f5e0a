/**
 * The sender's synthetic video source: a filled disc that moves by a fixed
 * velocity each tick and bounces off the screen edges, rendered into a
 * `bgr24` frame buffer and stamped with a frame counter.
 *
 * The pure part (StepAxis, Tick, Next, Run, Stamps) is the specification;
 * the class FrameGenerator updates its fields and its frame buffer in place
 * and is proved to follow it.
 */
module Simulator {

  /** One pixel of a `bgr24` frame. */
  datatype Bgr = Bgr(b: int, g: int, r: int)

  const Black := Bgr(0, 0, 0)
  const Green := Bgr(0, 255, 0)

  /** The geometry the target lives in: its radius and the screen size. */
  datatype Arena = Arena(radius: int, width: int, height: int)

  /** Position and velocity of the target, in pixels and pixels per tick. */
  datatype Motion = Motion(x: int, y: int, vx: int, vy: int)

  /** What `recv` sees: the motion and the counter that becomes `pts`. */
  datatype Generator = Generator(motion: Motion, timestamp: int)

  /** A frame handed to the media session: its pixels and its `pts`. */
  datatype VideoFrame = VideoFrame(image: seq<Bgr>, pts: int)

  /** The generator's fixed configuration and starting point. */
  const Screen := Arena(20, 800, 600)
  const Start := Motion(20, 20, 10, 21)
  const FrameRate := 60

  function Abs(n: int): nat { if n < 0 then -n else n }
  function Max(a: int, b: int): int { if a < b then b else a }
  function Min(a: int, b: int): int { if a < b then a else b }

  /** The bounce test of one axis: the coordinate touches or crosses an edge. */
  predicate AtOrPastEdge(q: int, radius: int, dim: int) {
    q <= radius || q >= dim - radius
  }

  /** The coordinate keeps the whole disc on screen along its axis. */
  predicate Inside(q: int, radius: int, dim: int) {
    radius <= q <= dim - radius
  }

  /** The disc fits on the screen at all, along both axes. */
  predicate Fits(a: Arena) {
    a.radius <= a.width - a.radius && a.radius <= a.height - a.radius
  }

  predicate InArena(m: Motion, a: Arena) {
    Inside(m.x, a.radius, a.width) && Inside(m.y, a.radius, a.height)
  }

  /**
   * One tick along one axis, from position `p` and velocity `v`:
   * the new position and the new velocity.
   */
  function StepAxis(p: int, v: int, radius: int, dim: int): (r: (int, int))
    // whatever the prior position, the disc ends up on screen
    ensures radius <= dim - radius ==> Inside(r.0, radius, dim)
    // the speed never changes; only the direction may
    ensures Abs(r.1) == Abs(v)
    // a bounce reverses the velocity ...
    ensures AtOrPastEdge(p + v, radius, dim) ==> r.1 == -v
    // ... and without one the target moves by exactly its velocity
    ensures !AtOrPastEdge(p + v, radius, dim) ==> r == (p + v, v)
    // a clamped coordinate sits exactly on the edge it hit
    ensures p + v <= radius ==> r.0 == radius
    ensures radius <= dim - radius && p + v >= dim - radius ==> r.0 == dim - radius
  {
    var q := p + v;
    if AtOrPastEdge(q, radius, dim) then (Max(radius, Min(q, dim - radius)), -v)
    else (q, v)
  }

  /** One call of `calculate_position`: both axes, each on its own. */
  function Tick(m: Motion, a: Arena): (r: Motion)
    ensures Fits(a) ==> InArena(r, a)
    ensures Abs(r.vx) == Abs(m.vx) && Abs(r.vy) == Abs(m.vy)
  {
    var (x, vx) := StepAxis(m.x, m.vx, a.radius, a.width);
    var (y, vy) := StepAxis(m.y, m.vy, a.radius, a.height);
    Motion(x, y, vx, vy)
  }

  /** One call of `recv`: a tick and a bumped counter. */
  function Next(g: Generator, a: Arena): Generator {
    Generator(Tick(g.motion, a), g.timestamp + 1)
  }

  /** The generator after `n` calls of `recv`. */
  function Run(g: Generator, a: Arena, n: nat): Generator
    decreases n
  {
    if n == 0 then g else Run(Next(g, a), a, n - 1)
  }

  /** The `pts` values carried by the frames of `n` calls of `recv`, in order. */
  function Stamps(g: Generator, a: Arena, n: nat): seq<int>
    decreases n
  {
    if n == 0 then [] else [g.timestamp] + Stamps(Next(g, a), a, n - 1)
  }

  /** The counter advances by one per call and the k-th frame carries the k-th value. */
  lemma {:induction false} RunCounts(g: Generator, a: Arena, n: nat)
    ensures Run(g, a, n).timestamp == g.timestamp + n
    ensures |Stamps(g, a, n)| == n
    ensures forall k :: 0 <= k < n ==> Stamps(g, a, n)[k] == g.timestamp + k
    decreases n
  {
    if n > 0 {
      RunCounts(Next(g, a), a, n - 1);
    }
  }

  /** From a fresh generator, the frame of the n-th call carries `pts` n - 1. */
  lemma FreshStamps(a: Arena, n: nat)
    ensures |Stamps(Generator(Start, 0), a, n)| == n
    ensures forall k :: 0 <= k < n ==> Stamps(Generator(Start, 0), a, n)[k] == k
  {
    RunCounts(Generator(Start, 0), a, n);
  }

  /** Every tick preserves the speed along each axis. */
  lemma {:induction false} RunKeepsSpeed(g: Generator, a: Arena, n: nat)
    ensures Abs(Run(g, a, n).motion.vx) == Abs(g.motion.vx)
    ensures Abs(Run(g, a, n).motion.vy) == Abs(g.motion.vy)
    decreases n
  {
    if n > 0 {
      RunKeepsSpeed(Next(g, a), a, n - 1);
    }
  }

  /** After at least one tick, or from any on-screen start, the disc is on screen. */
  lemma {:induction false} RunStaysInArena(g: Generator, a: Arena, n: nat)
    requires Fits(a)
    requires n > 0 || InArena(g.motion, a)
    ensures InArena(Run(g, a, n).motion, a)
    decreases n
  {
    if n > 0 {
      RunStaysInArena(Next(g, a), a, n - 1);
    }
  }

  /** The x update reads only x state and the y update only y state. */
  lemma AxesIndependent(m1: Motion, m2: Motion, a: Arena)
    ensures m1.x == m2.x && m1.vx == m2.vx ==>
              Tick(m1, a).x == Tick(m2, a).x && Tick(m1, a).vx == Tick(m2, a).vx
    ensures m1.y == m2.y && m1.vy == m2.vy ==>
              Tick(m1, a).y == Tick(m2, a).y && Tick(m1, a).vy == Tick(m2, a).vy
  {
  }

  /** From the start state one tick moves the disc to (30, 41) without a bounce. */
  lemma FirstTick()
    ensures Tick(Start, Screen) == Motion(30, 41, 10, 21)
  {
  }

  /**
   * The frame generator: the disc's motion in mutable fields, the screen
   * configuration in constants, and one reusable frame buffer of
   * `width * height` pixels, row-major.
   */
  class FrameGenerator {
    const radius: int
    const width: int
    const height: int
    const color: Bgr
    const frameRate: int
    const frame: array<Bgr>
    var x: int
    var y: int
    var vx: int
    var vy: int
    var timestamp: int

    predicate Valid() {
      frame.Length == width * height && Fits(Geometry())
    }

    function Geometry(): Arena {
      Arena(radius, width, height)
    }

    function State(): Motion
      reads this
    {
      Motion(x, y, vx, vy)
    }

    function Gen(): Generator
      reads this
    {
      Generator(State(), timestamp)
    }

    constructor ()
      ensures Valid()
      ensures Geometry() == Screen && color == Green && frameRate == FrameRate
      ensures State() == Start && timestamp == 0
      ensures fresh(frame)
      ensures forall i :: 0 <= i < frame.Length ==> frame[i] == Black
    {
      radius := 20;
      width, height := 800, 600;
      vx, vy := 10, 21;
      x, y := radius, radius;
      color := Green;
      frame := new Bgr[800 * 600](_ => Black);
      frameRate := FrameRate;
      timestamp := 0;
    }

    /** `frame_array.fill(0)`. */
    method Clear()
      modifies frame
      ensures forall i :: 0 <= i < frame.Length ==> frame[i] == Black
    {
      for i := 0 to frame.Length
        invariant forall j :: 0 <= j < i ==> frame[j] == Black
      {
        frame[i] := Black;
      }
    }

    /**
     * The drawing step: paints in `color` every pixel index the rasteriser
     * produced that lies inside the buffer; the rest are left as they were.
     */
    method Draw(pixels: seq<int>)
      modifies frame
      ensures forall i :: 0 <= i < frame.Length ==>
                frame[i] == (if i in pixels then color else old(frame[i]))
    {
      var k := 0;
      while k < |pixels|
        invariant 0 <= k <= |pixels|
        invariant forall i :: 0 <= i < frame.Length ==>
                    frame[i] == (if i in pixels[..k] then color else old(frame[i]))
      {
        var p := pixels[k];
        if 0 <= p < frame.Length {
          frame[p] := color;
        }
        assert pixels[..k + 1] == pixels[..k] + [p];
        k := k + 1;
      }
      assert pixels[..k] == pixels;
    }

    /**
     * `calculate_position`: clear the buffer, advance, bounce each axis,
     * draw the disc. `raster(cx, cy, r)` stands for the pixel indices that
     * the drawing library fills for a disc of radius `r` centred at (cx, cy).
     */
    method CalculatePosition(raster: (int, int, int) -> seq<int>)
      returns (image: array<Bgr>, cx: int, cy: int)
      requires Valid()
      modifies this, frame
      ensures State() == Tick(old(State()), Geometry())
      ensures InArena(State(), Geometry())
      ensures timestamp == old(timestamp)
      ensures image == frame && cx == x && cy == y
      ensures forall i :: 0 <= i < frame.Length ==>
                frame[i] == (if i in raster(x, y, radius) then color else Black)
    {
      Clear();
      x := x + vx;
      y := y + vy;
      if x <= radius || x >= width - radius {
        vx := -vx;
        x := Max(radius, Min(x, width - radius));
      }
      if y <= radius || y >= height - radius {
        vy := -vy;
        y := Max(radius, Min(y, height - radius));
      }
      Draw(raster(x, y, radius));
      image, cx, cy := frame, x, y;
    }

    /** `recv`: one tick, then a frame stamped with the counter before it is bumped. */
    method Recv(raster: (int, int, int) -> seq<int>) returns (vf: VideoFrame)
      requires Valid()
      modifies this, frame
      ensures Gen() == Next(old(Gen()), Geometry())
      ensures vf.pts == old(timestamp)
      ensures vf.image == frame[..]
      ensures forall i :: 0 <= i < |vf.image| ==>
                vf.image[i] == (if i in raster(x, y, radius) then color else Black)
    {
      var image, nx, ny := CalculatePosition(raster);
      x, y := nx, ny;
      vf := VideoFrame(image[..], timestamp);
      timestamp := timestamp + 1;
    }
  }
}
