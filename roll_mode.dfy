/**
 * RollMode: playing a Sphere Roll level. The keys push the sphere, dragging
 * the mouse turns the view, and every frame the sphere slides through the
 * level, stopping against box colliders, while the goals spin.
 */
module RollModes {
  import opened Wrappers
  import opened Geometry
  import opened Scene
  import opened Collide
  import opened RollLevels
  import opened Input

  /** The four buttons that push the sphere. */
  datatype RollControls = RollControls(forward: bool, backward: bool, left: bool, right: bool)

  const NoRollControls := RollControls(false, false, false, false)

  /** The keys that push the sphere. */
  predicate IsRollKey(k: Key) { k == KeyA || k == KeyD || k == KeyW || k == KeyS }

  /** The controls after pressing (`down`) or releasing a key: A is left, D right, W forward, S backward. */
  function PressRollKey(c: RollControls, k: Key, down: bool): (r: RollControls)
    requires IsRollKey(k)
    ensures r.left == if k == KeyA then down else c.left
    ensures r.right == if k == KeyD then down else c.right
    ensures r.forward == if k == KeyW then down else c.forward
    ensures r.backward == if k == KeyS then down else c.backward
  {
    match k
    case KeyA => c.(left := down)
    case KeyD => c.(right := down)
    case KeyW => c.(forward := down)
    case KeyS => c.(backward := down)
  }

  /** The steepest the view looks up or down: 85 degrees, in radians. */
  const MaxElevation: real := 85.0 / 180.0 * Pi

  /** `min(hi, max(lo, x))`. */
  function Clamp(lo: real, hi: real, x: real): (r: real)
    ensures lo <= hi ==> lo <= r <= hi
    ensures lo <= x <= hi ==> r == x
    ensures x < lo && lo <= hi ==> r == lo
    ensures hi < x && lo <= hi ==> r == hi
  {
    Min(hi, Max(lo, x))
  }

  /** `x` is a whole number. */
  predicate IsWhole(x: real) { x.Floor as real == x }

  /**
   * The azimuth wrap: as a fraction of a turn, less the nearest whole
   * number of turns, back in radians. The result lies within half a turn
   * of zero and differs from the input by whole turns.
   */
  function WrapAngle(a: real): (r: real)
    ensures -Pi <= r <= Pi
    ensures IsWhole((a - r) / (2.0 * Pi))
  {
    var turns := a / (2.0 * Pi);
    var n := Round(turns);
    assert (a - (turns - n as real) * (2.0 * Pi)) / (2.0 * Pi) == n as real;
    (turns - n as real) * (2.0 * Pi)
  }

  /** An angle already strictly within half a turn of zero is left alone. */
  lemma WrapAngleKeepsSmall(a: real)
    requires -Pi < a < Pi
    ensures WrapAngle(a) == a
  {
    var turns := a / (2.0 * Pi);
    assert -0.5 < turns < 0.5;
    assert Round(turns) == 0;
  }

  /**
   * The view change of a left-button drag by (`xrel`, `yrel`) pixels in a
   * window of `w` by `h`: the drag as a fraction of the window's height
   * turns the azimuth (wrapped) and tilts the elevation (clamped to 85
   * degrees either way).
   */
  function Dragged(p: Player, xrel: int, yrel: int, w: nat, h: nat): (r: Player)
    requires 0 < w && 0 < h
    ensures -Pi <= r.viewAzimuth <= Pi && -MaxElevation <= r.viewElevation <= MaxElevation
    ensures IsWhole((p.viewAzimuth - (xrel as real / w as real * 2.0) * (h as real / w as real) - r.viewAzimuth) / (2.0 * Pi))
    ensures r.viewElevation == Clamp(-MaxElevation, MaxElevation, p.viewElevation + yrel as real / h as real * 2.0)
    ensures r == p.(viewAzimuth := r.viewAzimuth, viewElevation := r.viewElevation)
  {
    var dx := (xrel as real / w as real * 2.0) * (h as real / w as real);
    var dy := yrel as real / h as real * -2.0;
    p.(viewAzimuth := WrapAngle(p.viewAzimuth - dx),
       viewElevation := Clamp(-MaxElevation, MaxElevation, p.viewElevation - dy))
  }

  /**
   * A drag that keeps the view strictly within half a turn and within the
   * elevation limits turns it by exactly the drag, with no wrap and no clamp.
   */
  lemma DragWithinRange(p: Player, xrel: int, yrel: int, w: nat, h: nat)
    requires 0 < w && 0 < h
    requires -Pi < p.viewAzimuth - (xrel as real / w as real * 2.0) * (h as real / w as real) < Pi
    requires -MaxElevation <= p.viewElevation + yrel as real / h as real * 2.0 <= MaxElevation
    ensures Dragged(p, xrel, yrel, w, h).viewAzimuth == p.viewAzimuth - (xrel as real / w as real * 2.0) * (h as real / w as real)
    ensures Dragged(p, xrel, yrel, w, h).viewElevation == p.viewElevation + yrel as real / h as real * 2.0
  {
    WrapAngleKeepsSmall(p.viewAzimuth - (xrel as real / w as real * 2.0) * (h as real / w as real));
  }

  /**
   * The shove before normalisation: left and right push along -x and +x,
   * forward and backward along +y and -y, and opposite buttons cancel.
   */
  function RawShove(c: RollControls): (s: Vec3)
    ensures s.z == 0.0
    ensures s.x == 1.0 <==> c.right && !c.left
    ensures s.x == -1.0 <==> c.left && !c.right
    ensures s.x == 0.0 <==> c.left == c.right
    ensures s.y == 1.0 <==> c.forward && !c.backward
    ensures s.y == -1.0 <==> c.backward && !c.forward
    ensures s.y == 0.0 <==> c.forward == c.backward
  {
    var x := (if c.left then -1.0 else 0.0) + (if c.right then 1.0 else 0.0);
    var y := (if c.forward then 1.0 else 0.0) + (if c.backward then -1.0 else 0.0);
    Vec3(x, y, 0.0)
  }

  /**
   * The shove the controls give: nothing without a push, otherwise the
   * normalised push turned by the view azimuth (whose cosine and sine are
   * `ca` and `sa`), ten times over. It stays in the ground plane.
   */
  function Shove(c: RollControls, ca: real, sa: real, normalize: Vec3 -> Option<Vec3>): (s: Vec3)
    requires IsNormalize(normalize)
    ensures RawShove(c) == Zero3 ==> s == Zero3
    ensures s.z == 0.0
  {
    var raw := RawShove(c);
    if raw == Zero3 then Zero3
    else
      assert NormalizesAt(normalize, raw);
      assert Dot(raw, raw) != 0.0 by {
        DotSelfPositive(raw);
      }
      var n := normalize(raw).value;
      var turned := Add(Scale(Vec3(ca, sa, 0.0), n.x), Scale(Vec3(-sa, ca, 0.0), n.y));
      Scale(turned, 10.0)
  }

  // ---- sliding through the level ----

  /** The columns of a transform's local-to-world matrix: three axes and the origin. */
  datatype Frame = Frame(c0: Vec3, c1: Vec3, c2: Vec3, c3: Vec3)

  function Abs(x: real): real { if x < 0.0 then -x else x }
  function Abs3(v: Vec3): Vec3 { Vec3(Abs(v.x), Abs(v.y), Abs(v.z)) }

  /**
   * The world-space box a box collider covers: the local box with
   * half-extents `radius`, carried by the frame's axes and bounded on each
   * world axis. Its centre is the frame's origin and its half-extents are
   * non-negative.
   */
  function WorldBox(f: Frame, radius: Vec3): (b: (Vec3, Vec3))
    ensures b.0 == f.c3
    ensures 0.0 <= b.1.x && 0.0 <= b.1.y && 0.0 <= b.1.z
  {
    var spread := Add(Add(Abs3(Scale(f.c0, radius.x)), Abs3(Scale(f.c1, radius.y))), Abs3(Scale(f.c2, radius.z)));
    var boxMin := Sub(f.c3, spread);
    var boxMax := Add(f.c3, spread);
    (Scale(Add(boxMax, boxMin), 0.5), Scale(Sub(boxMax, boxMin), 0.5))
  }

  /** The box test of a unit sphere moving from `from` to `to` against one box collider, keeping a hit before `limit`. */
  function BoxSweep(from: Vec3, to: Vec3, box: BoxCollider, toWorld: Option<Handle> -> Frame, limit: real,
                    root: real -> real, normalize: Vec3 -> Option<Vec3>): Option<Hit>
    requires IsSquareRoot(root) && IsNormalize(normalize)
  {
    var b := WorldBox(toWorld(box.transform), box.radius);
    SweptSphereVsBox(from, to, 1.0, b.0, b.1, Some(limit), root, normalize)
  }

  /**
   * The sweep of a unit sphere against the box colliders in order, each
   * test limited by the earliest hit so far (initially 2, past any sweep
   * time); the result is the hit kept at the end.
   */
  function Sweep(from: Vec3, to: Vec3, boxes: seq<BoxCollider>, toWorld: Option<Handle> -> Frame,
                 root: real -> real, normalize: Vec3 -> Option<Vec3>): (r: Option<Hit>)
    requires IsSquareRoot(root) && IsNormalize(normalize)
    ensures r.Some? ==> r.value.t == 0.0 && Dot(r.value.out, r.value.out) == 1.0
    ensures r.Some? ==> Dot(Sub(to, from), r.value.out) < 0.0
    decreases |boxes|
  {
    if |boxes| == 0 then None
    else
      var prev := Sweep(from, to, boxes[..|boxes| - 1], toWorld, root, normalize);
      var limit := if prev.Some? then prev.value.t else 2.0;
      match BoxSweep(from, to, boxes[|boxes| - 1], toWorld, limit, root, normalize)
      case Some(hit) => Some(hit)
      case None => prev
  }

  /** The box test of one box collider on its own, with no earlier hit limiting it. */
  function Alone(from: Vec3, to: Vec3, box: BoxCollider, toWorld: Option<Handle> -> Frame,
                 root: real -> real, normalize: Vec3 -> Option<Vec3>): Option<Hit>
    requires IsSquareRoot(root) && IsNormalize(normalize)
  {
    var b := WorldBox(toWorld(box.transform), box.radius);
    SweptSphereVsBox(from, to, 1.0, b.0, b.1, None, root, normalize)
  }

  /** The box collider reports the moving sphere when no earlier hit limits it. */
  ghost predicate Hits(from: Vec3, to: Vec3, box: BoxCollider, toWorld: Option<Handle> -> Frame,
                       root: real -> real, normalize: Vec3 -> Option<Vec3>)
    requires IsSquareRoot(root) && IsNormalize(normalize)
  {
    Alone(from, to, box, toWorld, root, normalize).Some?
  }

  /** Adding a box collider to the sweep adds a collision exactly when that box reports the sphere. */
  lemma SweepStep(from: Vec3, to: Vec3, boxes: seq<BoxCollider>, toWorld: Option<Handle> -> Frame,
                  root: real -> real, normalize: Vec3 -> Option<Vec3>)
    requires IsSquareRoot(root) && IsNormalize(normalize) && 0 < |boxes|
    ensures Sweep(from, to, boxes, toWorld, root, normalize).Some? <==>
      Sweep(from, to, boxes[..|boxes| - 1], toWorld, root, normalize).Some? ||
      Hits(from, to, boxes[|boxes| - 1], toWorld, root, normalize)
  {
    var last := boxes[|boxes| - 1];
    var b := WorldBox(toWorld(last.transform), last.radius);
    SweptSphereVsBoxLimitFilters(from, to, 1.0, b.0, b.1, 2.0, root, normalize);
  }

  /** A box collider that reports the sphere on its own makes the whole sweep collide. */
  lemma {:induction false} SweepKeepsHit(from: Vec3, to: Vec3, boxes: seq<BoxCollider>, toWorld: Option<Handle> -> Frame,
                                         root: real -> real, normalize: Vec3 -> Option<Vec3>, k: nat)
    requires IsSquareRoot(root) && IsNormalize(normalize)
    requires k < |boxes| && Hits(from, to, boxes[k], toWorld, root, normalize)
    ensures Sweep(from, to, boxes, toWorld, root, normalize).Some?
    decreases |boxes|
  {
    SweepStep(from, to, boxes, toWorld, root, normalize);
    if k < |boxes| - 1 {
      assert boxes[..|boxes| - 1][k] == boxes[k];
      SweepKeepsHit(from, to, boxes[..|boxes| - 1], toWorld, root, normalize, k);
    }
  }

  /** A sweep that collides does so because some box collider reports the sphere on its own. */
  lemma {:induction false} SweepFindsHit(from: Vec3, to: Vec3, boxes: seq<BoxCollider>, toWorld: Option<Handle> -> Frame,
                                         root: real -> real, normalize: Vec3 -> Option<Vec3>) returns (k: nat)
    requires IsSquareRoot(root) && IsNormalize(normalize)
    requires Sweep(from, to, boxes, toWorld, root, normalize).Some?
    ensures k < |boxes| && Hits(from, to, boxes[k], toWorld, root, normalize)
    decreases |boxes|
  {
    SweepStep(from, to, boxes, toWorld, root, normalize);
    if Hits(from, to, boxes[|boxes| - 1], toWorld, root, normalize) {
      k := |boxes| - 1;
    } else {
      k := SweepFindsHit(from, to, boxes[..|boxes| - 1], toWorld, root, normalize);
      assert boxes[..|boxes| - 1][k] == boxes[k];
    }
  }

  /** The sweep collides exactly when some box collider reports the sphere on its own. */
  lemma SweepHitsSomeBox(from: Vec3, to: Vec3, boxes: seq<BoxCollider>, toWorld: Option<Handle> -> Frame,
                         root: real -> real, normalize: Vec3 -> Option<Vec3>)
    requires IsSquareRoot(root) && IsNormalize(normalize)
    ensures Sweep(from, to, boxes, toWorld, root, normalize).Some? <==>
      exists k :: 0 <= k < |boxes| && Hits(from, to, boxes[k], toWorld, root, normalize)
  {
    if Sweep(from, to, boxes, toWorld, root, normalize).Some? {
      var k := SweepFindsHit(from, to, boxes, toWorld, root, normalize);
    }
    if exists k :: 0 <= k < |boxes| && Hits(from, to, boxes[k], toWorld, root, normalize) {
      var k :| 0 <= k < |boxes| && Hits(from, to, boxes[k], toWorld, root, normalize);
      SweepKeepsHit(from, to, boxes, toWorld, root, normalize, k);
    }
  }

  /**
   * The hit the sweep keeps is the one the first reporting box collider
   * makes on its own: no box collider before it reports the sphere, and
   * later ones, limited by its time 0, do not replace it.
   */
  lemma {:induction false} SweepReportsFirst(from: Vec3, to: Vec3, boxes: seq<BoxCollider>, toWorld: Option<Handle> -> Frame,
                                             root: real -> real, normalize: Vec3 -> Option<Vec3>) returns (k: nat)
    requires IsSquareRoot(root) && IsNormalize(normalize)
    requires Sweep(from, to, boxes, toWorld, root, normalize).Some?
    ensures k < |boxes| && Sweep(from, to, boxes, toWorld, root, normalize) == Alone(from, to, boxes[k], toWorld, root, normalize)
    ensures forall j :: 0 <= j < k ==> !Hits(from, to, boxes[j], toWorld, root, normalize)
    decreases |boxes|
  {
    var init := boxes[..|boxes| - 1];
    var last := boxes[|boxes| - 1];
    var prev := Sweep(from, to, init, toWorld, root, normalize);
    if prev.Some? {
      assert BoxSweep(from, to, last, toWorld, prev.value.t, root, normalize).None?;
      assert Sweep(from, to, boxes, toWorld, root, normalize) == prev;
      k := SweepReportsFirst(from, to, init, toWorld, root, normalize);
      assert init[k] == boxes[k];
      forall j | 0 <= j < k
        ensures !Hits(from, to, boxes[j], toWorld, root, normalize)
      {
        assert init[j] == boxes[j];
      }
    } else {
      k := |boxes| - 1;
      SweepFirstIsLast(from, to, boxes, toWorld, root, normalize);
    }
  }

  /** When the sweep over all but the last box collider misses, the sweep keeps what the last one reports on its own. */
  lemma SweepFirstIsLast(from: Vec3, to: Vec3, boxes: seq<BoxCollider>, toWorld: Option<Handle> -> Frame,
                         root: real -> real, normalize: Vec3 -> Option<Vec3>)
    requires IsSquareRoot(root) && IsNormalize(normalize) && 0 < |boxes|
    requires Sweep(from, to, boxes[..|boxes| - 1], toWorld, root, normalize).None?
    ensures Sweep(from, to, boxes, toWorld, root, normalize) == Alone(from, to, boxes[|boxes| - 1], toWorld, root, normalize)
    ensures forall j :: 0 <= j < |boxes| - 1 ==> !Hits(from, to, boxes[j], toWorld, root, normalize)
  {
    var init := boxes[..|boxes| - 1];
    var last := boxes[|boxes| - 1];
    var b := WorldBox(toWorld(last.transform), last.radius);
    SweptSphereVsBoxLimitFilters(from, to, 1.0, b.0, b.1, 2.0, root, normalize);
    assert BoxSweep(from, to, last, toWorld, 2.0, root, normalize) == Alone(from, to, last, toWorld, root, normalize);
    forall j | 0 <= j < |boxes| - 1
      ensures !Hits(from, to, boxes[j], toWorld, root, normalize)
    {
      if Hits(from, to, boxes[j], toWorld, root, normalize) {
        assert init[j] == boxes[j];
        SweepKeepsHit(from, to, init, toWorld, root, normalize, j);
      }
    }
  }

  /** The sphere's state in the slide loop: where it is, how it moves, and how much of the frame is left. */
  datatype Motion = Motion(position: Vec3, velocity: Vec3, remain: real)

  /**
   * One turn of the slide loop: sweep to where the rest of the frame would
   * take the sphere. Without a collision it gets there and the frame is
   * used up. With one it stops at the contact, its velocity loses 1.5
   * times its component into the surface (if it moves into it), and the
   * part of the frame before the contact is used up.
   */
  function Resweep(m: Motion, boxes: seq<BoxCollider>, toWorld: Option<Handle> -> Frame,
                   root: real -> real, normalize: Vec3 -> Option<Vec3>): (r: Motion)
    requires IsSquareRoot(root) && IsNormalize(normalize)
  {
    match TurnSweep(m, boxes, toWorld, root, normalize)
    case None => Motion(Target(m), m.velocity, 0.0)
    case Some(hit) => Turned(m, hit)
  }

  /** The sphere after a collision `hit` on its way over the rest of the frame. */
  function Turned(m: Motion, hit: Hit): Motion {
    Motion(Mix(m.position, Target(m), hit.t), Deflected(m.velocity, hit.out), (1.0 - hit.t) * m.remain)
  }

  /** The velocity `v` after meeting a surface with normal `out`: 1.5 times its component into the surface taken away. */
  function Deflected(v: Vec3, out: Vec3): Vec3 {
    if Dot(v, out) < 0.0 then Sub(v, Scale(out, 1.5 * Dot(v, out))) else v
  }

  /** Where the rest of the frame takes the sphere. */
  function Target(m: Motion): Vec3 { Add(m.position, Scale(m.velocity, m.remain)) }

  /** The sweep of a turn of the slide loop. */
  function TurnSweep(m: Motion, boxes: seq<BoxCollider>, toWorld: Option<Handle> -> Frame,
                     root: real -> real, normalize: Vec3 -> Option<Vec3>): Option<Hit>
    requires IsSquareRoot(root) && IsNormalize(normalize)
  {
    Sweep(m.position, Target(m), boxes, toWorld, root, normalize)
  }

  lemma MixAtZero(a: Vec3, b: Vec3)
    ensures Mix(a, b, 0.0) == a
  {
  }

  lemma AlongVelocity(m: Motion, o: Vec3)
    ensures Dot(Sub(Target(m), m.position), o) == m.remain * Dot(m.velocity, o)
  {
    assert Sub(Target(m), m.position) == Scale(m.velocity, m.remain);
    ScaleDot(m.velocity, o, m.remain);
  }

  lemma Deflect(v: Vec3, o: Vec3, d: real)
    requires Dot(o, o) == 1.0 && d == Dot(v, o)
    ensures Dot(Sub(v, Scale(o, 1.5 * d)), o) == -0.5 * d
  {
    ScaleDot(o, o, 1.5 * d);
    assert Dot(Sub(v, Scale(o, 1.5 * d)), o) == d - Dot(Scale(o, 1.5 * d), o);
  }

  /** Without a collision the sphere moves by its velocity over the rest of the frame, which is used up. */
  lemma ResweepMisses(m: Motion, boxes: seq<BoxCollider>, toWorld: Option<Handle> -> Frame,
                      root: real -> real, normalize: Vec3 -> Option<Vec3>)
    requires IsSquareRoot(root) && IsNormalize(normalize)
    requires TurnSweep(m, boxes, toWorld, root, normalize).None?
    ensures Resweep(m, boxes, toWorld, root, normalize) == Motion(Target(m), m.velocity, 0.0)
  {
  }

  /**
   * Every collision the box colliders report is immediate, so the sphere
   * stays where it is with the same time left; with time left it was
   * moving into the surface.
   */
  lemma ResweepStays(m: Motion, boxes: seq<BoxCollider>, toWorld: Option<Handle> -> Frame,
                     root: real -> real, normalize: Vec3 -> Option<Vec3>)
    requires IsSquareRoot(root) && IsNormalize(normalize)
    requires TurnSweep(m, boxes, toWorld, root, normalize).Some?
    ensures var r := Resweep(m, boxes, toWorld, root, normalize);
      r.position == m.position && r.remain == m.remain
    ensures 0.0 < m.remain ==> Dot(m.velocity, TurnSweep(m, boxes, toWorld, root, normalize).value.out) < 0.0
  {
    var hit := TurnSweep(m, boxes, toWorld, root, normalize).value;
    MixAtZero(m.position, Target(m));
    AlongVelocity(m, hit.out);
    if 0.0 < m.remain && 0.0 <= Dot(m.velocity, hit.out) {
      ProductNonNegative(m.remain, Dot(m.velocity, hit.out));
    }
  }

  /**
   * A collision takes away 1.5 times the velocity's component into the
   * surface, so the sphere then moves out of it at half the speed it moved
   * in; a velocity not moving into the surface is kept.
   */
  lemma ResweepDeflects(m: Motion, boxes: seq<BoxCollider>, toWorld: Option<Handle> -> Frame,
                        root: real -> real, normalize: Vec3 -> Option<Vec3>)
    requires IsSquareRoot(root) && IsNormalize(normalize)
    requires TurnSweep(m, boxes, toWorld, root, normalize).Some?
    ensures var out := TurnSweep(m, boxes, toWorld, root, normalize).value.out;
      var d := Dot(m.velocity, out);
      var r := Resweep(m, boxes, toWorld, root, normalize);
      (d < 0.0 ==> Dot(r.velocity, out) == -0.5 * d) && (0.0 <= d ==> r.velocity == m.velocity)
  {
    var out := TurnSweep(m, boxes, toWorld, root, normalize).value.out;
    Deflect(m.velocity, out, Dot(m.velocity, out));
  }

  /** The most turns the slide loop takes in one frame. */
  const SlideTurns: nat := 10

  /** The slide loop: at most `n` turns, stopping once the frame is used up. */
  function Slide(m: Motion, n: nat, boxes: seq<BoxCollider>, toWorld: Option<Handle> -> Frame,
                 root: real -> real, normalize: Vec3 -> Option<Vec3>): Motion
    requires IsSquareRoot(root) && IsNormalize(normalize)
    decreases n
  {
    if n == 0 || m.remain == 0.0 then m
    else Slide(Resweep(m, boxes, toWorld, root, normalize), n - 1, boxes, toWorld, root, normalize)
  }

  /** A turn that collides, written out. */
  lemma ResweepHit(m: Motion, boxes: seq<BoxCollider>, toWorld: Option<Handle> -> Frame,
                   root: real -> real, normalize: Vec3 -> Option<Vec3>, hit: Hit)
    requires IsSquareRoot(root) && IsNormalize(normalize)
    requires TurnSweep(m, boxes, toWorld, root, normalize) == Some(hit)
    ensures Resweep(m, boxes, toWorld, root, normalize) == Turned(m, hit)
  {
  }

  /** `Turned` on the parts of the sphere's state, as the loop keeps them. */
  lemma TurnedParts(p: Vec3, v: Vec3, r: real, t: real, at: Vec3, out: Vec3)
    ensures Turned(Motion(p, v, r), Hit(t, at, out)) == Motion(Mix(p, Add(p, Scale(v, r)), t), Deflected(v, out), (1.0 - t) * r)
  {
  }

  /** A turn that collides leaves the rest of the slide to do from where the collision left the sphere. */
  lemma SlideTurn(m: Motion, n: nat, boxes: seq<BoxCollider>, toWorld: Option<Handle> -> Frame,
                  root: real -> real, normalize: Vec3 -> Option<Vec3>, hit: Hit)
    requires IsSquareRoot(root) && IsNormalize(normalize)
    requires 0 < n && m.remain != 0.0
    requires TurnSweep(m, boxes, toWorld, root, normalize) == Some(hit)
    ensures Slide(m, n, boxes, toWorld, root, normalize) == Slide(Turned(m, hit), n - 1, boxes, toWorld, root, normalize)
  {
    ResweepHit(m, boxes, toWorld, root, normalize, hit);
  }

  /**
   * The time left never grows and never goes below zero: it stays what it
   * was or drops to zero.
   */
  lemma {:induction false} SlideRemain(m: Motion, n: nat, boxes: seq<BoxCollider>, toWorld: Option<Handle> -> Frame,
                                       root: real -> real, normalize: Vec3 -> Option<Vec3>)
    requires IsSquareRoot(root) && IsNormalize(normalize)
    ensures var r := Slide(m, n, boxes, toWorld, root, normalize);
      r.remain == m.remain || r.remain == 0.0
    decreases n
  {
    if n > 0 && m.remain != 0.0 {
      if TurnSweep(m, boxes, toWorld, root, normalize).Some? {
        ResweepStays(m, boxes, toWorld, root, normalize);
      }
      SlideRemain(Resweep(m, boxes, toWorld, root, normalize), n - 1, boxes, toWorld, root, normalize);
    }
  }

  /** A frame that is used up ends the loop with the sphere where the last sweep left it. */
  lemma SlideDone(m: Motion, n: nat, boxes: seq<BoxCollider>, toWorld: Option<Handle> -> Frame,
                  root: real -> real, normalize: Vec3 -> Option<Vec3>)
    requires IsSquareRoot(root) && IsNormalize(normalize)
    requires 0 < n && m.remain != 0.0
    requires Sweep(m.position, Add(m.position, Scale(m.velocity, m.remain)), boxes, toWorld, root, normalize).None?
    ensures Slide(m, n, boxes, toWorld, root, normalize) == Motion(Add(m.position, Scale(m.velocity, m.remain)), m.velocity, 0.0)
  {
  }

  /** The speed a box collision leaves goes out of the surface: the loop does not run into the same face twice. */
  lemma SlideOutOfSurface(m: Motion, boxes: seq<BoxCollider>, toWorld: Option<Handle> -> Frame,
                          root: real -> real, normalize: Vec3 -> Option<Vec3>)
    requires IsSquareRoot(root) && IsNormalize(normalize)
    requires 0.0 < m.remain
    requires Sweep(m.position, Add(m.position, Scale(m.velocity, m.remain)), boxes, toWorld, root, normalize).Some?
    ensures var out := Sweep(m.position, Add(m.position, Scale(m.velocity, m.remain)), boxes, toWorld, root, normalize).value.out;
      0.0 < Dot(Resweep(m, boxes, toWorld, root, normalize).velocity, out)
  {
    ResweepStays(m, boxes, toWorld, root, normalize);
    ResweepDeflects(m, boxes, toWorld, root, normalize);
  }

  /** A goal's spin after `elapsed` seconds: a tenth of a turn per second, kept as a fraction of a turn. */
  function Spun(acc: real, elapsed: real): (r: real)
    ensures 0.0 <= r < 1.0
    ensures IsWhole(acc + elapsed / 10.0 - r)
  {
    var s := acc + elapsed / 10.0;
    s - Floor(s) as real
  }

  // ---- the mode ----

  class RollMode {
    /** The level as loaded. */
    const start: RollLevel
    /** The level being played, a copy of `start`. */
    const level: RollLevel
    var controls: RollControls

    constructor(start: RollLevel, level: RollLevel)
      ensures this.start == start && this.level == level && controls == NoRollControls
    {
      this.start := start;
      this.level := level;
      controls := NoRollControls;
    }

    /** Start playing a level: on a copy of it, with no button held; the copy fails as `RollLevel.Copy` does. */
    static method Begin(start: RollLevel) returns (r: Option<RollMode>)
      ensures r.Some? <==> start.Copyable()
      ensures r.Some? ==> fresh(r.value) && fresh(r.value.level) && r.value.start == start
      ensures r.Some? ==> r.value.controls == NoRollControls
      ensures r.Some? ==> var copy, ts := r.value.level, start.transforms;
        copy.transforms == Copies(ts) &&
        copy.drawables == Repointed(start.drawables, ts, DrawableRef, DrawableTo) &&
        copy.cameras == Repointed(start.cameras, ts, CameraRef, CameraTo) &&
        copy.lamps == Repointed(start.lamps, ts, LampRef, LampTo) &&
        copy.boxColliders == Repointed(start.boxColliders, ts, BoxRef, BoxTo) &&
        copy.meshColliders == Repointed(start.meshColliders, ts, MeshColliderRef, MeshColliderTo) &&
        copy.goals == Repointed(start.goals, ts, GoalRef, GoalTo)
      ensures r.Some? ==> r.value.level.player == start.player.(transform := Moved(start.transforms, start.player.transform))
      ensures r.Some? ==> (r.value.level.camera ==
        if start.camera.Some? && start.camera.value < |start.cameras| then start.camera else None)
    {
      var copy := RollLevel.Copy(start);
      if copy.None? {
        return None;
      }
      var mode := new RollMode(start, copy.value);
      r := Some(mode);
    }

    /**
     * handle_event: A, D, W and S press or release the left, right, forward
     * and backward buttons; a mouse motion with the left button held drags
     * the view; nothing else is handled.
     */
    method HandleEvent(evt: Event, windowWidth: nat, windowHeight: nat) returns (handled: bool)
      requires 0 < windowWidth && 0 < windowHeight
      modifies this, level
      ensures handled <==> ((evt.Press? || evt.Release?) && IsRollKey(evt.key)) || (evt.MouseMotion? && evt.leftHeld)
      ensures (evt.Press? || evt.Release?) && IsRollKey(evt.key) ==>
        controls == PressRollKey(old(controls), evt.key, evt.Press?) && level.player == old(level.player)
      ensures evt.MouseMotion? && evt.leftHeld ==> (controls == old(controls) &&
        level.player == Dragged(old(level.player), evt.xrel, evt.yrel, windowWidth, windowHeight))
      ensures !handled ==> controls == old(controls) && level.player == old(level.player)
      ensures level.transforms == old(level.transforms) && level.goals == old(level.goals)
      ensures level.boxColliders == old(level.boxColliders) && level.camera == old(level.camera)
      ensures level.drawables == old(level.drawables) && level.cameras == old(level.cameras)
      ensures level.lamps == old(level.lamps) && level.meshColliders == old(level.meshColliders)
    {
      if (evt.Press? || evt.Release?) && IsRollKey(evt.key) {
        controls := PressRollKey(controls, evt.key, evt.Press?);
        return true;
      }
      if evt.MouseMotion? && evt.leftHeld {
        level.player := Dragged(level.player, evt.xrel, evt.yrel, windowWidth, windowHeight);
        return true;
      }
      handled := false;
    }

    /**
     * The inner loop of the slide: test the sphere's sweep from `from` to
     * `to` against every box collider, keeping the earliest hit.
     */
    static method SweepBoxes(from: Vec3, to: Vec3, boxes: seq<BoxCollider>, toWorld: Option<Handle> -> Frame,
                             root: real -> real, normalize: Vec3 -> Option<Vec3>)
      returns (collided: bool, t: real, at: Vec3, out: Vec3)
      requires IsSquareRoot(root) && IsNormalize(normalize)
      ensures collided <==> Sweep(from, to, boxes, toWorld, root, normalize).Some?
      ensures collided ==> Sweep(from, to, boxes, toWorld, root, normalize) == Some(Hit(t, at, out))
    {
      collided, t, at, out := false, 2.0, Zero3, Zero3;
      for k := 0 to |boxes|
        invariant Sweep(from, to, boxes[..k], toWorld, root, normalize) == if collided then Some(Hit(t, at, out)) else None
        invariant !collided ==> t == 2.0
      {
        assert boxes[..k + 1][..k] == boxes[..k];
        var b := WorldBox(toWorld(boxes[k].transform), boxes[k].radius);
        var hit := SweptSphereVsBox(from, to, 1.0, b.0, b.1, Some(t), root, normalize);
        if hit.Some? {
          collided, t, at, out := true, hit.value.t, hit.value.at, hit.value.out;
        }
      }
      assert boxes[..|boxes|] == boxes;
    }

    /**
     * The slide loop: up to ten turns, each sweeping the sphere over the
     * rest of the frame and stopping at a collision, until the frame is used up.
     */
    static method SlideLoop(m: Motion, boxes: seq<BoxCollider>, toWorld: Option<Handle> -> Frame,
                            root: real -> real, normalize: Vec3 -> Option<Vec3>) returns (r: Motion)
      requires IsSquareRoot(root) && IsNormalize(normalize)
      ensures r == Slide(m, SlideTurns, boxes, toWorld, root, normalize)
    {
      var position, velocity, remain := m.position, m.velocity, m.remain;
      for iter := 0 to SlideTurns
        invariant Slide(m, SlideTurns, boxes, toWorld, root, normalize)
          == Slide(Motion(position, velocity, remain), SlideTurns - iter, boxes, toWorld, root, normalize)
      {
        if remain == 0.0 {
          break;
        }
        var from := position;
        var to := Add(position, Scale(velocity, remain));
        var collided, t, at, out := SweepBoxes(from, to, boxes, toWorld, root, normalize);
        if !collided {
          SlideDone(Motion(position, velocity, remain), SlideTurns - iter, boxes, toWorld, root, normalize);
          position, remain := to, 0.0;
          break;
        }
        SlideTurn(Motion(position, velocity, remain), SlideTurns - iter, boxes, toWorld, root, normalize, Hit(t, at, out));
        TurnedParts(position, velocity, remain, t, at, out);
        position, velocity, remain := Mix(from, to, t), Deflected(velocity, out), (1.0 - t) * remain;
      }
      r := Motion(position, velocity, remain);
    }

    /**
     * update: build the shove from the controls, ease the velocity towards
     * it, slide the sphere through the level, and spin the goals. The
     * view's cosine and sine, the easing factor 0.5^(elapsed/0.25) and the
     * colliders' local-to-world matrices are supplied by the caller.
     */
    method Update(elapsed: real, ca: real, sa: real, ease: real, toWorld: Option<Handle> -> Frame,
                  root: real -> real, normalize: Vec3 -> Option<Vec3>)
      requires IsSquareRoot(root) && IsNormalize(normalize)
      requires level.player.transform.Some?
      modifies level
      ensures var h := old(level.player.transform).value;
        var m := Motion(PositionOf(old(level.transforms), h),
                        Mix(Shove(controls, ca, sa, normalize), old(level.player.velocity), ease), elapsed);
        var after := Slide(m, SlideTurns, old(level.boxColliders), toWorld, root, normalize);
        level.transforms == SetPosition(old(level.transforms), h, after.position) &&
        level.player == old(level.player).(velocity := after.velocity)
      ensures |level.goals| == |old(level.goals)|
      ensures forall k :: 0 <= k < |level.goals| ==>
        level.goals[k] == old(level.goals[k]).(spinAcc := Spun(old(level.goals[k].spinAcc), elapsed))
      ensures forall k :: 0 <= k < |level.goals| ==> 0.0 <= level.goals[k].spinAcc < 1.0
      ensures level.drawables == old(level.drawables) && level.cameras == old(level.cameras)
      ensures level.boxColliders == old(level.boxColliders) && level.meshColliders == old(level.meshColliders)
      ensures level.lamps == old(level.lamps) && level.camera == old(level.camera)
    {
      var h := level.player.transform.value;
      var shove := Shove(controls, ca, sa, normalize);
      var velocity := Mix(shove, level.player.velocity, ease);
      var after := SlideLoop(Motion(PositionOf(level.transforms, h), velocity, elapsed),
                             level.boxColliders, toWorld, root, normalize);
      var goals := level.goals;
      for k := 0 to |goals|
        invariant |goals| == |level.goals|
        invariant forall j :: 0 <= j < |goals| ==>
          goals[j] == if j < k then level.goals[j].(spinAcc := Spun(level.goals[j].spinAcc, elapsed)) else level.goals[j]
      {
        var spin := goals[k].spinAcc + elapsed / 10.0;
        spin := spin - Floor(spin) as real;
        goals := goals[k := goals[k].(spinAcc := spin)];
      }
      level.transforms := SetPosition(level.transforms, h, after.position);
      level.player := level.player.(velocity := after.velocity);
      level.goals := goals;
    }
  }
}
