/** The animated background: a fixed set of particles that drift, are pushed away
    from the pointer, bounce off the canvas edges by reversing their speed, and are
    joined by faint lines when close to each other. */
module ParticleBackground {
  import opened Common

  // ---------------------------------------------------------------------------
  // Numbers

  /** A coordinate as the code can make it: a real, or NaN once `0 / 0` has been
      computed (which happens when the pointer is exactly on a particle). */
  datatype Num = Finite(v: real) | NaN

  /** `a + b`; NaN stays NaN. */
  function Add(a: Num, b: real): Num
  {
    if a.Finite? then Finite(a.v + b) else NaN
  }

  /** `a < b` and `a > b`: every comparison with NaN is false. */
  predicate Below(a: Num, b: real)
  {
    a.Finite? && a.v < b
  }

  predicate Above(a: Num, b: real)
  {
    a.Finite? && a.v > b
  }

  /** `Math.sqrt(dx * dx + dy * dy)`, given to the model as a function: it is
      non-negative and its square is the sum of squares. */
  ghost predicate IsDistance(dist: (real, real) -> real)
  {
    forall dx, dy :: dist(dx, dy) >= 0.0 && dist(dx, dy) * dist(dx, dy) == dx * dx + dy * dy
  }

  function Abs(r: real): real
  {
    if r < 0.0 then -r else r
  }

  // ---------------------------------------------------------------------------
  // One particle

  datatype Tint = Violet | Cyan

  /** The RGB triple each tint is drawn with. */
  function Rgb(t: Tint): string
  {
    match t
    case Violet => "139, 92, 246"
    case Cyan => "6, 182, 212"
  }

  datatype Agent = Agent(x: Num, y: Num, size: real, speedX: real, speedY: real, opacity: real, color: Tint)

  /** A draw of `Math.random()`. */
  type Unit = r: real | 0.0 <= r < 1.0

  /** The seven random draws of the particle constructor, in order. */
  datatype Draws = Draws(x: Unit, y: Unit, size: Unit, speedX: Unit, speedY: Unit, opacity: Unit, color: Unit)

  /** A new particle on a `w` by `h` canvas. */
  function Spawned(w: nat, h: nat, u: Draws): Agent
  {
    Agent(Finite(Scaled(u.x, w)), Finite(Scaled(u.y, h)), u.size * 2.0 + 0.5,
          (u.speedX - 0.5) * 0.5, (u.speedY - 0.5) * 0.5, u.opacity * 0.5 + 0.1,
          if u.color > 0.5 then Violet else Cyan)
  }

  /** `Math.random() * n`. */
  function Scaled(u: Unit, n: nat): real
  {
    u * n as real
  }

  /** A new particle lies on the canvas, and its size, speeds and opacity lie in
      the ranges the constructor draws them from. Its tint is violet exactly when
      the colour draw exceeds one half. */
  lemma SpawnRanges(w: nat, h: nat, u: Draws)
    ensures var a := Spawned(w, h, u);
      a.x.Finite? && 0.0 <= a.x.v && (a.x.v < w as real || w == 0)
      && a.y.Finite? && 0.0 <= a.y.v && (a.y.v < h as real || h == 0)
      && 0.5 <= a.size < 2.5
      && -0.25 <= a.speedX < 0.25 && -0.25 <= a.speedY < 0.25
      && 0.1 <= a.opacity < 0.6
      && (a.color == Violet <==> u.color > 0.5)
  {
    ScaledBelow(u.x, w);
    ScaledBelow(u.y, h);
  }

  lemma ScaledBelow(u: Unit, n: nat)
    ensures 0.0 <= Scaled(u, n) && (Scaled(u, n) < n as real || n == 0)
  {
    var r := n as real;
    assert u * r >= 0.0;
    if n > 0 {
      assert (1.0 - u) * r > 0.0;
    }
  }

  /** Pointer position, known once the first mouse move has been seen. */
  datatype Point = Point(x: real, y: real)

  const RepelRadius: real := 120.0
  const LinkRadius: real := 130.0

  /** First step of `update`: position plus velocity. */
  function Moved(a: Agent): Agent
  {
    a.(x := Add(a.x, a.speedX), y := Add(a.y, a.speedY))
  }

  /** Linear fall-off of the push: 1 at the pointer, 0 at the radius. */
  function Force(d: real): real
  {
    (RepelRadius - d) / RepelRadius
  }

  /** Second step: a particle closer than 120 to a known pointer moves 1.5 times
      the force along the line from the pointer. The code divides by the distance
      without a guard, so a particle exactly at the pointer gets NaN coordinates;
      a NaN coordinate makes the distance NaN and the test false. */
  function Repelled(a: Agent, mouse: Option<Point>, dist: (real, real) -> real): Agent
  {
    if mouse.None? || a.x.NaN? || a.y.NaN? then a
    else
      var dx := mouse.value.x - a.x.v;
      var dy := mouse.value.y - a.y.v;
      var d := dist(dx, dy);
      if d < RepelRadius then
        if d == 0.0 then a.(x := NaN, y := NaN)
        else a.(x := Finite(a.x.v - (dx / d) * Force(d) * 1.5),
                y := Finite(a.y.v - (dy / d) * Force(d) * 1.5))
      else a
  }

  /** Third step: a coordinate outside `[0, w]` (resp. `[0, h]`) negates that speed.
      The position itself is not corrected. */
  function Reflected(a: Agent, w: nat, h: nat): Agent
  {
    a.(speedX := if Below(a.x, 0.0) || Above(a.x, w as real) then -a.speedX else a.speedX,
       speedY := if Below(a.y, 0.0) || Above(a.y, h as real) then -a.speedY else a.speedY)
  }

  /** `update()`: velocity, then repulsion, then reflection. */
  function Updated(a: Agent, mouse: Option<Point>, w: nat, h: nat, dist: (real, real) -> real): Agent
  {
    Reflected(Repelled(Moved(a), mouse, dist), w, h)
  }

  /** Reflection only negates: each speed keeps its magnitude through any update,
      and size, opacity and colour never change. */
  lemma UpdateKeepsSpeeds(a: Agent, mouse: Option<Point>, w: nat, h: nat, dist: (real, real) -> real)
    ensures var b := Updated(a, mouse, w, h, dist);
      (b.speedX == a.speedX || b.speedX == -a.speedX) && Abs(b.speedX) == Abs(a.speedX)
      && (b.speedY == a.speedY || b.speedY == -a.speedY) && Abs(b.speedY) == Abs(a.speedY)
      && b.size == a.size && b.opacity == a.opacity && b.color == a.color
  {
  }

  /** Any number of updates with any pointer and canvas sizes. */
  function UpdatedN(a: Agent, mice: seq<Option<Point>>, w: nat, h: nat, dist: (real, real) -> real): Agent
    decreases |mice|
  {
    if mice == [] then a else UpdatedN(Updated(a, mice[0], w, h, dist), mice[1..], w, h, dist)
  }

  lemma {:induction false} SpeedsNeverChangeMagnitude(a: Agent, mice: seq<Option<Point>>, w: nat, h: nat, dist: (real, real) -> real)
    ensures Abs(UpdatedN(a, mice, w, h, dist).speedX) == Abs(a.speedX)
    ensures Abs(UpdatedN(a, mice, w, h, dist).speedY) == Abs(a.speedY)
    decreases |mice|
  {
    if mice != [] {
      UpdateKeepsSpeeds(a, mice[0], w, h, dist);
      SpeedsNeverChangeMagnitude(Updated(a, mice[0], w, h, dist), mice[1..], w, h, dist);
    }
  }

  /** Inside the radius the force lies in (0, 1]. */
  lemma ForceInRange(d: real)
    requires 0.0 <= d < RepelRadius
    ensures 0.0 < Force(d) <= 1.0
  {
  }

  lemma SquareRootUnique(d: real, e: real)
    requires d >= 0.0 && e >= 0.0 && d * d == e * e
    ensures d == e
  {
    assert (d - e) * (d + e) == 0.0;
    if d + e == 0.0 {
      assert d == 0.0;
    }
  }

  /** The pointer pushes a particle straight away from itself: the new offset from
      the particle to the pointer is the old one stretched by the same factor on
      both axes, larger than 1. At distance 120 or more nothing happens. */
  lemma RepulsionPointsAway(a: Agent, m: Point, dist: (real, real) -> real)
    requires IsDistance(dist)
    requires a.x.Finite? && a.y.Finite?
    ensures var dx := m.x - a.x.v; var dy := m.y - a.y.v; var d := dist(dx, dy);
      var b := Repelled(a, Some(m), dist);
      (d >= RepelRadius ==> b == a)
      && (0.0 < d < RepelRadius ==>
            var k := 1.0 + Force(d) * 1.5 / d;
            k > 1.0 && b.x.Finite? && b.y.Finite?
            && m.x - b.x.v == dx * k && m.y - b.y.v == dy * k)
  {
    var dx := m.x - a.x.v;
    var dy := m.y - a.y.v;
    var d := dist(dx, dy);
    if 0.0 < d < RepelRadius {
      var f := Force(d);
      var k := 1.0 + f * 1.5 / d;
      assert f * 1.5 / d > 0.0;
      assert (dx / d) * f * 1.5 == dx * (f * 1.5 / d);
      assert (dy / d) * f * 1.5 == dy * (f * 1.5 / d);
    }
  }

  /** With the pointer exactly on the particle, the code computes `0 / 0` and the
      particle's coordinates become NaN. */
  lemma PointerOnParticleGivesNaN(a: Agent, dist: (real, real) -> real)
    requires IsDistance(dist)
    requires a.x.Finite? && a.y.Finite?
    ensures Repelled(a, Some(Point(a.x.v, a.y.v)), dist).x.NaN?
  {
    var d := dist(0.0, 0.0);
    SquareRootUnique(d, 0.0);
  }

  /** A NaN coordinate is permanent: it stays NaN through every later update, and
      the speed on that axis is never reflected again. */
  lemma NaNIsAbsorbing(a: Agent, mouse: Option<Point>, w: nat, h: nat, dist: (real, real) -> real)
    requires a.x.NaN?
    ensures Updated(a, mouse, w, h, dist).x.NaN?
    ensures Updated(a, mouse, w, h, dist).speedX == a.speedX
  {
  }

  /** The worked example: pointer at (100, 100), particle arriving at (150, 100);
      distance 50, force 7/12, so it moves 0.875 further along the x axis. */
  lemma RepulsionExample(dist: (real, real) -> real)
    requires IsDistance(dist)
    ensures Repelled(Agent(Finite(150.0), Finite(100.0), 1.0, 0.0, 0.0, 0.5, Violet),
                     Some(Point(100.0, 100.0)), dist).x == Finite(150.875)
  {
    var d := dist(-50.0, 0.0);
    SquareRootUnique(d, 50.0);
    assert Force(50.0) == 7.0 / 12.0;
  }

  // ---------------------------------------------------------------------------
  // Particle count

  /** `Math.min(Math.floor(w * h / 8000), 150)`. */
  function ParticleCount(w: nat, h: nat): (n: nat)
    ensures n <= 150
    ensures n == 150 <==> w * h >= 150 * 8000
    ensures n < 150 ==> n * 8000 <= w * h < (n + 1) * 8000
  {
    var raw := (w * h) / 8000;
    if raw < 150 then raw else 150
  }

  lemma CountExamples()
    ensures ParticleCount(800, 600) == 60
    ensures ParticleCount(4000, 3000) == 150
  {
  }

  // ---------------------------------------------------------------------------
  // Links

  /** Pair `(i, j)` of the drawing loop, always `i < j`. */
  datatype Pair = Pair(i: nat, j: nat)

  /** The inner loop's pairs for row `i`: `(i, i+1), …, (i, n-1)`. */
  function Row(i: nat, n: nat): (r: seq<Pair>)
    ensures |r| == if i < n then n - i - 1 else 0
    ensures forall k | 0 <= k < |r| :: r[k] == Pair(i, i + 1 + k)
  {
    if i < n then seq(n - i - 1, k requires 0 <= k < n - i - 1 => Pair(i, i + 1 + k)) else []
  }

  /** The pairs tested by the first `i` rows of the outer loop. */
  function RowsBelow(i: nat, n: nat): seq<Pair>
  {
    if i == 0 then [] else RowsBelow(i - 1, n) + Row(i - 1, n)
  }

  /** Every pair the connection pass tests, in the order it tests them. */
  function Pairs(n: nat): seq<Pair>
  {
    RowsBelow(n, n)
  }

  predicate PairBefore(p: Pair, q: Pair)
  {
    p.i < q.i || (p.i == q.i && p.j < q.j)
  }

  /** The first `i` rows hold `i*n - i(i+1)/2` pairs. */
  lemma {:induction false} RowsBelowSize(i: nat, n: nat)
    requires i <= n
    ensures 2 * |RowsBelow(i, n)| == 2 * i * n - i * (i + 1)
  {
    if i > 0 {
      RowsBelowSize(i - 1, n);
      assert |RowsBelow(i, n)| == |RowsBelow(i - 1, n)| + (n - i);
      assert 2 * i * n - i * (i + 1) == (2 * (i - 1) * n - (i - 1) * i) + (2 * n - 2 * i);
    }
  }

  /** The first `i` rows hold exactly the pairs `(a, b)` with `a < i` and
      `a < b < n`. */
  lemma {:induction false} RowsBelowMembers(i: nat, n: nat)
    ensures forall p | p in RowsBelow(i, n) :: p.i < i && p.i < p.j < n
    ensures forall p: Pair | p.i < i && p.i < p.j < n :: p in RowsBelow(i, n)
  {
    if i > 0 {
      RowsBelowMembers(i - 1, n);
      var row := Row(i - 1, n);
      assert RowsBelow(i, n) == RowsBelow(i - 1, n) + row;
      forall p: Pair | p.i < i && p.i < p.j < n
        ensures p in RowsBelow(i, n)
      {
        if p.i == i - 1 {
          assert row[p.j - i] == p;
        }
      }
    }
  }

  /** The rows list their pairs in increasing order, row by row. */
  lemma {:induction false} RowsBelowOrdered(i: nat, n: nat)
    ensures forall a, b | 0 <= a < b < |RowsBelow(i, n)| :: PairBefore(RowsBelow(i, n)[a], RowsBelow(i, n)[b])
  {
    if i > 0 {
      RowsBelowOrdered(i - 1, n);
      RowsBelowMembers(i - 1, n);
      var prev := RowsBelow(i - 1, n);
      var all := prev + Row(i - 1, n);
      assert RowsBelow(i, n) == all;
      forall a, b | 0 <= a < b < |all|
        ensures PairBefore(all[a], all[b])
      {
        if a < |prev| && b >= |prev| {
          assert all[a] in prev;
        }
      }
    }
  }

  /** The connection pass tests each unordered pair of particles exactly once,
      always as `(i, j)` with `i < j`, `n(n-1)/2` tests in all. */
  lemma PairsEachOnce(n: nat)
    ensures 2 * |Pairs(n)| == n * (n - 1)
    ensures forall p | p in Pairs(n) :: p.i < p.j < n
    ensures forall p: Pair | p.i < p.j < n :: p in Pairs(n)
    ensures forall a, b | 0 <= a < b < |Pairs(n)| :: Pairs(n)[a] != Pairs(n)[b]
  {
    RowsBelowSize(n, n);
    RowsBelowMembers(n, n);
    RowsBelowOrdered(n, n);
  }

  /** A line between two particles. */
  datatype DrawOp =
    | ClearRect(w: nat, h: nat)
    | Dot(x: Num, y: Num, size: real, color: Tint, opacity: real)
    | Line(x1: real, y1: real, x2: real, y2: real, opacity: real)

  /** The line drawn for a pair, if any: only when the distance is below 130, with
      opacity `(1 - d / 130) * 0.15`. A NaN coordinate makes the test false. */
  function PairLink(a: Agent, b: Agent, dist: (real, real) -> real): Option<DrawOp>
  {
    if a.x.NaN? || a.y.NaN? || b.x.NaN? || b.y.NaN? then None
    else
      var d := dist(a.x.v - b.x.v, a.y.v - b.y.v);
      if d < LinkRadius then Some(Line(a.x.v, a.y.v, b.x.v, b.y.v, (1.0 - d / LinkRadius) * 0.15))
      else None
  }

  /** A line is drawn exactly when the squared distance is below 130² = 16900,
      and its opacity lies in (0, 0.15]. */
  lemma LinkIffClose(a: Agent, b: Agent, dist: (real, real) -> real)
    requires IsDistance(dist)
    ensures PairLink(a, b, dist).Some? <==>
      (a.x.Finite? && a.y.Finite? && b.x.Finite? && b.y.Finite?
       && (a.x.v - b.x.v) * (a.x.v - b.x.v) + (a.y.v - b.y.v) * (a.y.v - b.y.v) < 16900.0)
    ensures PairLink(a, b, dist).Some? ==> 0.0 < PairLink(a, b, dist).value.opacity <= 0.15
  {
    if a.x.Finite? && a.y.Finite? && b.x.Finite? && b.y.Finite? {
      var dx, dy := a.x.v - b.x.v, a.y.v - b.y.v;
      var d := dist(dx, dy);
      if d < LinkRadius {
        assert d * d < 16900.0 by {
          assert d * d <= d * 130.0;
          assert d * 130.0 < 16900.0;
        }
      } else {
        assert d * d >= 16900.0 by {
          assert d * d >= d * 130.0;
          assert d * 130.0 >= 16900.0;
        }
      }
    }
  }

  /** Order does not matter: the pair seen the other way round links with the
      same opacity. */
  lemma LinkSymmetric(a: Agent, b: Agent, dist: (real, real) -> real)
    requires IsDistance(dist)
    ensures PairLink(a, b, dist).Some? <==> PairLink(b, a, dist).Some?
    ensures PairLink(a, b, dist).Some? ==> PairLink(a, b, dist).value.opacity == PairLink(b, a, dist).value.opacity
  {
    if a.x.Finite? && a.y.Finite? && b.x.Finite? && b.y.Finite? {
      var dx, dy := a.x.v - b.x.v, a.y.v - b.y.v;
      assert b.x.v - a.x.v == -dx && b.y.v - a.y.v == -dy;
      assert (-dx) * (-dx) + (-dy) * (-dy) == dx * dx + dy * dy;
      SquareRootUnique(dist(dx, dy), dist(-dx, -dy));
    }
  }

  /** Two particles exactly 130 apart are not linked. */
  lemma NoLinkAtRadius(a: Agent, b: Agent, dist: (real, real) -> real)
    requires IsDistance(dist)
    requires a.x.Finite? && a.y.Finite? && b.x.Finite? && b.y.Finite?
    requires (a.x.v - b.x.v) * (a.x.v - b.x.v) + (a.y.v - b.y.v) * (a.y.v - b.y.v) == 16900.0
    ensures PairLink(a, b, dist).None?
  {
    LinkIffClose(a, b, dist);
  }

  /** The line drawn for pair `p`, as a sequence of zero or one operations. A pair
      outside the array draws nothing (the drawing loop never forms one). */
  function LinkOf(agents: seq<Agent>, p: Pair, dist: (real, real) -> real): seq<DrawOp>
  {
    if p.i < |agents| && p.j < |agents| then
      match PairLink(agents[p.i], agents[p.j], dist) case Some(l) => [l] case None => []
    else []
  }

  /** The lines drawn for the pairs `ps`, in order. */
  function LinksOver(agents: seq<Agent>, ps: seq<Pair>, dist: (real, real) -> real): seq<DrawOp>
  {
    if ps == [] then []
    else LinksOver(agents, ps[..|ps| - 1], dist) + LinkOf(agents, ps[|ps| - 1], dist)
  }

  lemma LinksOverSnoc(agents: seq<Agent>, ps: seq<Pair>, i: nat, j: nat, dist: (real, real) -> real)
    requires i < |agents| && j < |agents|
    ensures var link := PairLink(agents[i], agents[j], dist);
      LinksOver(agents, ps + [Pair(i, j)], dist)
      == LinksOver(agents, ps, dist) + (if link.Some? then [link.value] else [])
  {
    assert (ps + [Pair(i, j)])[..|ps|] == ps;
  }

  lemma {:induction false} LinksOverAppend(agents: seq<Agent>, ps: seq<Pair>, qs: seq<Pair>, dist: (real, real) -> real)
    ensures LinksOver(agents, ps + qs, dist) == LinksOver(agents, ps, dist) + LinksOver(agents, qs, dist)
    decreases |qs|
  {
    if qs != [] {
      var last := qs[|qs| - 1];
      assert (ps + qs)[..|ps + qs| - 1] == ps + qs[..|qs| - 1];
      LinksOverAppend(agents, ps, qs[..|qs| - 1], dist);
    } else {
      assert ps + qs == ps;
    }
  }

  /** The canvas operations of one frame, given the particles after their update:
      clear, one dot per particle in order, then the links. */
  function FrameOps(w: nat, h: nat, agents: seq<Agent>, dist: (real, real) -> real): seq<DrawOp>
  {
    [ClearRect(w, h)] + Dots(agents) + LinksOver(agents, Pairs(|agents|), dist)
  }

  /** Every particle updated once. */
  function UpdatedAll(agents: seq<Agent>, mouse: Option<Point>, w: nat, h: nat, dist: (real, real) -> real): (r: seq<Agent>)
    ensures |r| == |agents| && forall k | 0 <= k < |r| :: r[k] == Updated(agents[k], mouse, w, h, dist)
  {
    seq(|agents|, k requires 0 <= k < |agents| => Updated(agents[k], mouse, w, h, dist))
  }

  function DotOf(a: Agent): DrawOp
  {
    Dot(a.x, a.y, a.size, a.color, a.opacity)
  }

  function Dots(agents: seq<Agent>): (r: seq<DrawOp>)
    ensures |r| == |agents| && forall k | 0 <= k < |r| :: r[k] == DotOf(agents[k])
  {
    if agents == [] then [] else Dots(agents[..|agents| - 1]) + [DotOf(agents[|agents| - 1])]
  }

  lemma DotsAre(agents: seq<Agent>, dots: seq<DrawOp>)
    requires |dots| == |agents| && forall k | 0 <= k < |dots| :: dots[k] == DotOf(agents[k])
    ensures dots == Dots(agents)
  {
  }

  lemma {:induction false} LinksAreLines(agents: seq<Agent>, ps: seq<Pair>, dist: (real, real) -> real)
    ensures forall op | op in LinksOver(agents, ps, dist) :: op.Line?
    ensures |LinksOver(agents, ps, dist)| <= |ps|
  {
    if ps != [] {
      LinksAreLines(agents, ps[..|ps| - 1], dist);
    }
  }

  /** Each frame first clears the whole canvas, then draws every particle once in
      array order, and only then draws lines: no line comes before the last dot. */
  lemma FrameOrder(w: nat, h: nat, agents: seq<Agent>, dist: (real, real) -> real)
    ensures var ops := FrameOps(w, h, agents, dist);
      |ops| >= 1 + |agents| && ops[0] == ClearRect(w, h)
      && (forall k | 1 <= k <= |agents| :: ops[k] == DotOf(agents[k - 1]))
      && (forall k | 1 + |agents| <= k < |ops| :: ops[k].Line?)
  {
    var links := LinksOver(agents, Pairs(|agents|), dist);
    LinksAreLines(agents, Pairs(|agents|), dist);
    var ops := FrameOps(w, h, agents, dist);
    forall k | 1 + |agents| <= k < |ops|
      ensures ops[k].Line?
    {
      assert ops[k] == links[k - 1 - |agents|];
      assert ops[k] in links;
    }
  }

  // ---------------------------------------------------------------------------
  // The objects

  class Particle {
    var x: Num
    var y: Num
    const size: real
    var speedX: real
    var speedY: real
    const opacity: real
    const color: Tint

    function Snapshot(): Agent
      reads this
    {
      Agent(x, y, size, speedX, speedY, opacity, color)
    }

    constructor (w: nat, h: nat, u: Draws)
      ensures Snapshot() == Spawned(w, h, u)
    {
      x := Finite(Scaled(u.x, w));
      y := Finite(Scaled(u.y, h));
      size := u.size * 2.0 + 0.5;
      speedX := (u.speedX - 0.5) * 0.5;
      speedY := (u.speedY - 0.5) * 0.5;
      opacity := u.opacity * 0.5 + 0.1;
      color := if u.color > 0.5 then Violet else Cyan;
    }

    /** `update()`, reading the shared pointer and the current canvas size. */
    method Update(mouse: Option<Point>, w: nat, h: nat, dist: (real, real) -> real)
      modifies this
      ensures Snapshot() == Updated(old(Snapshot()), mouse, w, h, dist)
    {
      ghost var moved := Moved(Snapshot());
      var nx, ny := Add(x, speedX), Add(y, speedY);
      if mouse.Some? && nx.Finite? && ny.Finite? {
        var dx := mouse.value.x - nx.v;
        var dy := mouse.value.y - ny.v;
        var d := dist(dx, dy);
        if d < RepelRadius {
          var force := (RepelRadius - d) / RepelRadius;
          if d == 0.0 {
            nx, ny := NaN, NaN;
          } else {
            nx := Finite(nx.v - (dx / d) * force * 1.5);
            ny := Finite(ny.v - (dy / d) * force * 1.5);
            assert nx == Finite(moved.x.v - (dx / d) * Force(d) * 1.5);
            assert ny == Finite(moved.y.v - (dy / d) * Force(d) * 1.5);
          }
        }
      }
      assert moved.(x := nx, y := ny) == Repelled(moved, mouse, dist);
      x, y := nx, ny;
      if Below(x, 0.0) || Above(x, w as real) {
        speedX := speedX * -1.0;
      }
      if Below(y, 0.0) || Above(y, h as real) {
        speedY := speedY * -1.0;
      }
    }
  }

  function Snapshots(ps: seq<Particle>): (r: seq<Agent>)
    reads ps
    ensures |r| == |ps| && forall k | 0 <= k < |ps| :: r[k] == ps[k].Snapshot()
  {
    if ps == [] then [] else Snapshots(ps[..|ps| - 1]) + [ps[|ps| - 1].Snapshot()]
  }

  lemma SnapshotsAre(ps: seq<Particle>, agents: seq<Agent>)
    requires |ps| == |agents| && forall k | 0 <= k < |ps| :: ps[k].Snapshot() == agents[k]
    ensures Snapshots(ps) == agents
  {
  }

  /** The inner loop of `drawConnections()` for particle `i`: pairs it with every
      later particle in turn. */
  method ConnectRow(agents: seq<Agent>, i: nat, dist: (real, real) -> real) returns (row: seq<Pair>, lines: seq<DrawOp>)
    requires i < |agents|
    ensures row == Row(i, |agents|)
    ensures lines == LinksOver(agents, row, dist)
  {
    row, lines := [], [];
    var j := i + 1;
    while j < |agents|
      invariant i + 1 <= j <= |agents|
      invariant row == Row(i, |agents|)[..j - i - 1]
      invariant lines == LinksOver(agents, row, dist)
    {
      var link := PairLink(agents[i], agents[j], dist);
      LinksOverSnoc(agents, row, i, j, dist);
      assert Row(i, |agents|)[..j - i] == Row(i, |agents|)[..j - i - 1] + [Pair(i, j)];
      row := row + [Pair(i, j)];
      if link.Some? {
        lines := lines + [link.value];
      }
      j := j + 1;
    }
    assert Row(i, |agents|)[..j - i - 1] == Row(i, |agents|);
  }

  /** The window listeners the effect registers. */
  datatype Listener = ResizeListener | MouseMoveListener

  /** The component's effect: the canvas size, the particle array, the shared
      pointer, the pending animation frame and the registered listeners. */
  class ParticleField {
    var width: nat
    var height: nat
    var particles: seq<Particle>
    var mouse: Option<Point>
    var frameScheduled: bool
    var listeners: set<Listener>

    ghost predicate Valid()
      reads this
    {
      forall a, b | 0 <= a < b < |particles| :: particles[a] != particles[b]
    }

    /** Mounting: size the canvas to the window, register the two listeners and
        push `ParticleCount` new particles, the `k`-th built from `rand(k)`. */
    constructor (w: nat, h: nat, rand: nat -> Draws)
      ensures Valid()
      ensures width == w && height == h && mouse == None && frameScheduled
      ensures listeners == {ResizeListener, MouseMoveListener}
      ensures |particles| == ParticleCount(w, h)
      ensures forall k | 0 <= k < |particles| :: fresh(particles[k]) && particles[k].Snapshot() == Spawned(w, h, rand(k))
    {
      width, height := w, h;
      listeners := {ResizeListener, MouseMoveListener};
      mouse := None;
      frameScheduled := true;
      var count := ParticleCount(w, h);
      var ps: seq<Particle> := [];
      var i := 0;
      while i < count
        invariant 0 <= i <= count && |ps| == i
        invariant forall k | 0 <= k < i :: fresh(ps[k]) && ps[k].Snapshot() == Spawned(w, h, rand(k))
        invariant forall a, b | 0 <= a < b < i :: ps[a] != ps[b]
      {
        var p := new Particle(w, h, rand(i));
        ps := ps + [p];
        i := i + 1;
      }
      particles := ps;
    }

    /** The resize listener: the canvas takes the new window size; the particles
        are not re-seeded. Once the listener is removed nothing happens. */
    method Resize(w: nat, h: nat)
      modifies this
      ensures ResizeListener in old(listeners) ==> width == w && height == h
      ensures ResizeListener !in old(listeners) ==> width == old(width) && height == old(height)
      ensures particles == old(particles) && mouse == old(mouse) && listeners == old(listeners)
      ensures frameScheduled == old(frameScheduled)
    {
      if ResizeListener in listeners {
        width, height := w, h;
      }
    }

    /** The mouse-move listener records the pointer. */
    method MouseMove(x: real, y: real)
      modifies this
      ensures MouseMoveListener in old(listeners) ==> mouse == Some(Point(x, y))
      ensures MouseMoveListener !in old(listeners) ==> mouse == old(mouse)
      ensures particles == old(particles) && width == old(width) && height == old(height)
      ensures listeners == old(listeners) && frameScheduled == old(frameScheduled)
    {
      if MouseMoveListener in listeners {
        mouse := Some(Point(x, y));
      }
    }

    /** `drawConnections()` over the particles' current positions: every pair
        `i < j` is tested once, in row order, and the lines for close pairs are
        returned in the order they are drawn. */
    method DrawConnections(dist: (real, real) -> real) returns (tested: seq<Pair>, lines: seq<DrawOp>)
      ensures tested == Pairs(|particles|)
      ensures lines == LinksOver(Snapshots(particles), tested, dist)
    {
      var agents := Snapshots(particles);
      var n := |agents|;
      tested, lines := [], [];
      var i := 0;
      while i < n
        invariant 0 <= i <= n
        invariant tested == RowsBelow(i, n)
        invariant lines == LinksOver(agents, tested, dist)
      {
        var row, rowLines := ConnectRow(agents, i, dist);
        LinksOverAppend(agents, tested, row, dist);
        tested, lines := tested + row, lines + rowLines;
        i := i + 1;
      }
    }

    /** The `forEach` of `animate()`: each particle in array order is updated and
        then drawn, so the dots show the updated positions. */
    method UpdateAndDraw(dist: (real, real) -> real) returns (dots: seq<DrawOp>)
      requires Valid()
      modifies particles
      ensures Snapshots(particles) == UpdatedAll(old(Snapshots(particles)), mouse, width, height, dist)
      ensures dots == Dots(Snapshots(particles))
    {
      var ps, m, w, h := particles, mouse, width, height;
      ghost var before := Snapshots(ps);
      ghost var after := UpdatedAll(before, m, w, h, dist);
      dots := [];
      var i := 0;
      while i < |ps|
        invariant 0 <= i <= |ps|
        invariant forall k | 0 <= k < i :: ps[k].Snapshot() == after[k]
        invariant forall k | i <= k < |ps| :: ps[k].Snapshot() == before[k]
        invariant |dots| == i && forall k | 0 <= k < i :: dots[k] == DotOf(after[k])
      {
        var p := ps[i];
        assert forall k | 0 <= k < |ps| && k != i :: ps[k] != p;
        p.Update(m, w, h, dist);
        assert p.Snapshot() == after[i];
        dots := dots + [DotOf(p.Snapshot())];
        i := i + 1;
      }
      SnapshotsAre(ps, after);
      DotsAre(after, dots);
    }

    /** `animate()`, run when the scheduled animation frame fires: clear the
        canvas, update and draw the particles, draw the links, and request the
        next frame, so that a frame stays scheduled. */
    method Frame(dist: (real, real) -> real) returns (ops: seq<DrawOp>)
      requires Valid() && frameScheduled
      modifies particles
      ensures Snapshots(particles) == UpdatedAll(old(Snapshots(particles)), mouse, width, height, dist)
      ensures ops == FrameOps(width, height, Snapshots(particles), dist)
    {
      var dots := UpdateAndDraw(dist);
      var tested, lines := DrawConnections(dist);
      ops := [ClearRect(width, height)] + dots + lines;
    }

    /** The effect's cleanup: the pending frame is cancelled and the resize
        listener removed. The mouse-move listener is not removed, so it keeps
        writing the pointer after unmount. */
    method Unmount()
      modifies this
      ensures !frameScheduled && listeners == old(listeners) - {ResizeListener}
      ensures MouseMoveListener in old(listeners) ==> MouseMoveListener in listeners
      ensures particles == old(particles) && width == old(width) && height == old(height)
      ensures mouse == old(mouse)
    {
      frameScheduled := false;
      listeners := listeners - {ResizeListener};
    }
  }
}
