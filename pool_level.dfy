/**
 * PoolLevel: the state of a game of pool-dozer, a scene with numbered balls,
 * goals and tank-like dozers driven by two treads each.
 */
module PoolLevels {
  import opened Wrappers
  import opened Geometry
  import opened Scene

  datatype Team = TeamNone | TeamSolid | TeamDiamond

  /** The value `-1U` an unsigned 32-bit ball index holds before a number is assigned. */
  const Unassigned: int := 0xFFFF_FFFF

  datatype Ball = Ball(transform: Option<Handle>, scored: real, lastToTouch: Team, index: int)
  {
    predicate IsSolid() { index < 8 }
    predicate IsDiamond() { index > 8 }
    predicate IsEight() { index == 8 }
  }

  /** A ball as the level creates it before setting its transform and number. */
  const NewBall := Ball(None, 0.0, TeamNone, Unassigned)

  /** Every unsigned index is exactly one of solid, eight and diamond; an unassigned ball is a diamond. */
  lemma BallKinds(b: Ball)
    requires 0 <= b.index <= Unassigned
    ensures (b.IsSolid() && !b.IsEight() && !b.IsDiamond())
         || (!b.IsSolid() && b.IsEight() && !b.IsDiamond())
         || (!b.IsSolid() && !b.IsEight() && b.IsDiamond())
    ensures b.index == Unassigned ==> b.IsDiamond()
    ensures 1 <= b.index <= 7 ==> b.IsSolid()
    ensures 9 <= b.index <= 15 ==> b.IsDiamond()
  {
  }

  datatype Controls = Controls(leftForward: bool, leftBackward: bool, rightForward: bool, rightBackward: bool)

  const NoControls := Controls(false, false, false, false)

  datatype Dozer = Dozer(transform: Option<Handle>, name: string, leftTread: real, rightTread: real,
                         team: Team, controls: Controls)

  /** The level bounds a level starts with. */
  const DefaultMin := Vec2(-3.0, -2.0)
  const DefaultMax := Vec2(3.0, 2.0)

  // ---- std::stoi ----

  predicate IsSpace(c: char) {
    c == ' ' || c == '\t' || c == '\n' || c == '\r' || c == '\U{000B}' || c == '\U{000C}'
  }

  predicate IsDigit(c: char) { '0' <= c <= '9' }

  /** The string without its leading white space. */
  function SkipSpace(s: string): (r: string)
    ensures |r| <= |s| && r == s[|s| - |r|..]
    ensures |r| > 0 ==> !IsSpace(r[0])
  {
    if |s| > 0 && IsSpace(s[0]) then SkipSpace(s[1..]) else s
  }

  /** The length of the run of digits the string starts with. */
  function DigitRun(s: string): (n: nat)
    ensures n <= |s|
    ensures forall i :: 0 <= i < n ==> IsDigit(s[i])
    ensures n < |s| ==> !IsDigit(s[n])
  {
    if |s| > 0 && IsDigit(s[0]) then
      var n := 1 + DigitRun(s[1..]);
      assert forall i :: 1 <= i < n ==> s[i] == s[1..][i - 1];
      n
    else 0
  }

  /** The value of a string of decimal digits. */
  function DigitsValue(ds: string): nat
    requires forall i :: 0 <= i < |ds| ==> IsDigit(ds[i])
    decreases |ds|
  {
    if |ds| == 0 then 0
    else DigitsValue(ds[..|ds| - 1]) * 10 + DigitValue(ds[|ds| - 1])
  }

  function DigitValue(c: char): (d: nat)
    requires IsDigit(c)
    ensures d < 10
  {
    c as int - '0' as int
  }

  const IntMin: int := -0x8000_0000
  const IntMax: int := 0x7FFF_FFFF

  /** The value of the run of digits `u` starts with; nothing when it does not start with a digit. */
  function Unsigned(u: string): (r: Option<nat>)
    ensures r.Some? <==> 0 < |u| && IsDigit(u[0])
  {
    var n := DigitRun(u);
    if n == 0 then None else Some(DigitsValue(u[..n]))
  }

  /**
   * std::stoi: skip white space, read an optional sign and a run of at least
   * one digit, ignore the rest; nothing (a thrown exception) when there is no
   * digit or the value does not fit a 32-bit int.
   */
  function Stoi(s: string): (r: Option<int>)
    ensures r.Some? ==> IntMin <= r.value <= IntMax
  {
    var t := SkipSpace(s);
    var signed := |t| > 0 && (t[0] == '-' || t[0] == '+');
    var u := if signed then t[1..] else t;
    match Unsigned(u)
    case None => None
    case Some(m) =>
      var v: int := if signed && t[0] == '-' then -(m as int) else m as int;
      if v < IntMin || IntMax < v then None else Some(v)
  }

  /** The decimal digits of `n`, without sign or leading zeros. */
  function Decimal(n: nat): (s: string)
    ensures 0 < |s| && forall i :: 0 <= i < |s| ==> IsDigit(s[i])
  {
    if n < 10 then [('0' as int + n) as char]
    else Decimal(n / 10) + [('0' as int + n % 10) as char]
  }

  lemma {:induction false} DecimalValue(n: nat)
    ensures DigitsValue(Decimal(n)) == n
  {
    if n >= 10 {
      DecimalValue(n / 10);
      var s := Decimal(n);
      assert s[..|s| - 1] == Decimal(n / 10);
    }
  }

  /**
   * stoi reads back a number written in decimal, whatever non-digit text
   * follows it (as in the ".001" suffix of a duplicated mesh name).
   */
  lemma StoiReadsDecimal(n: nat, rest: string)
    requires n <= IntMax
    requires |rest| == 0 || !IsDigit(rest[0])
    ensures Stoi(Decimal(n) + rest) == Some(n)
  {
    var ds := Decimal(n);
    var s := ds + rest;
    assert s[0] == ds[0] && IsDigit(s[0]);
    assert !IsSpace(s[0]) && s[0] != '-' && s[0] != '+';
    assert SkipSpace(s) == s;
    UnsignedOfDecimal(n, rest);
  }

  /** The digits of `n` followed by a non-digit read as `n`. */
  lemma UnsignedOfDecimal(n: nat, rest: string)
    requires |rest| == 0 || !IsDigit(rest[0])
    ensures Unsigned(Decimal(n) + rest) == Some(n)
  {
    var ds := Decimal(n);
    DigitRunOfDecimal(ds, rest);
    assert (ds + rest)[..|ds|] == ds;
    DecimalValue(n);
  }

  lemma {:induction false} DigitRunOfDecimal(ds: string, rest: string)
    requires forall i :: 0 <= i < |ds| ==> IsDigit(ds[i])
    requires |rest| == 0 || !IsDigit(rest[0])
    ensures DigitRun(ds + rest) == |ds|
  {
    if |ds| > 0 {
      assert (ds + rest)[1..] == ds[1..] + rest;
      DigitRunOfDecimal(ds[1..], rest);
    } else {
      assert ds + rest == rest;
    }
  }

  // ---- mesh names ----

  /** `substr(0,5) == "Ball."`: the name starts with "Ball.". */
  predicate IsBallName(name: string) { |name| >= 5 && name[..5] == "Ball." }

  /** `substr(0,5) == "Goal."`. */
  predicate IsGoalName(name: string) { |name| >= 5 && name[..5] == "Goal." }

  /** What loading a pool scene can throw. */
  datatype LoadError = MissingMesh(name: string) | BadBallNumber(name: string) | BallIndexOutOfRange(name: string)

  /** The number of a "Ball." mesh: the text after the prefix read by stoi, which must lie in 1..15. */
  function BallIndex(name: string): (r: Result<int, LoadError>)
    requires IsBallName(name)
    ensures r.Ok? ==> 1 <= r.value <= 15
    ensures r.Err? ==> r.error == BadBallNumber(name) || r.error == BallIndexOutOfRange(name)
  {
    match Stoi(name[5..])
    case None => Err(BadBallNumber(name))
    case Some(v) => if !(v >= 1 && v <= 15) then Err(BallIndexOutOfRange(name)) else Ok(v)
  }

  /** "Ball.N" names with N in 1..15, with or without a suffix such as ".001", are accepted as ball N. */
  lemma BallNameAccepted(n: nat, rest: string)
    requires 1 <= n <= 15 && (|rest| == 0 || !IsDigit(rest[0]))
    ensures IsBallName("Ball." + Decimal(n) + rest)
    ensures BallIndex("Ball." + Decimal(n) + rest) == Ok(n)
  {
    var name := "Ball." + Decimal(n) + rest;
    assert name[..5] == "Ball.";
    assert name[5..] == Decimal(n) + rest;
    StoiReadsDecimal(n, rest);
  }

  /** Ball numbers 0 and 16 and above are refused. */
  lemma BallNameRefused(n: nat)
    requires (n == 0 || 16 <= n) && n <= IntMax
    ensures BallIndex("Ball." + Decimal(n)) == Err(BallIndexOutOfRange("Ball." + Decimal(n)))
  {
    var name := "Ball." + Decimal(n);
    assert name[..5] == "Ball.";
    assert name[5..] == Decimal(n) + "";
    StoiReadsDecimal(n, "");
  }

  // ---- per-frame helpers of update ----

  /** The speed a tread is driven towards: +1 forward, −1 backward, 0 for both or neither. */
  function TreadTarget(forward: bool, backward: bool): (r: real)
    ensures r == 1.0 || r == 0.0 || r == -1.0
    ensures r == 1.0 <==> forward && !backward
    ensures r == -1.0 <==> backward && !forward
  {
    var target := 0.0;
    var target := if forward then target + 1.0 else target;
    var target := if backward then target - 1.0 else target;
    target * 1.0
  }

  /** A tread's speed moves towards its target by at most 10 per second and never past it. */
  function TreadStep(tread: real, target: real, elapsed: real): (r: real)
    requires 0.0 <= elapsed
    ensures tread <= target ==> tread <= r <= target
    ensures target <= tread ==> target <= r <= tread
    ensures r - tread <= 10.0 * elapsed && tread - r <= 10.0 * elapsed
    ensures (tread - target <= 10.0 * elapsed && target - tread <= 10.0 * elapsed) ==> r == target
  {
    if tread < target then Min(tread + 10.0 * elapsed, target)
    else Max(tread - 10.0 * elapsed, target)
  }

  /** Repeated steps reach the target once the time adds up to a tenth of the distance. */
  lemma {:induction false} TreadReaches(tread: real, target: real, elapsed: real, frames: nat)
    requires 0.0 < elapsed
    requires tread - target <= 10.0 * elapsed * frames as real && target - tread <= 10.0 * elapsed * frames as real
    ensures Steps(tread, target, elapsed, frames) == target
    decreases frames
  {
    if frames > 0 {
      var next := TreadStep(tread, target, elapsed);
      if next != target {
        assert next - target <= 10.0 * elapsed * (frames - 1) as real;
        assert target - next <= 10.0 * elapsed * (frames - 1) as real;
      }
      TreadReaches(next, target, elapsed, frames - 1);
      if next == target {
        StepsAtTarget(target, elapsed, frames - 1);
      }
    }
  }

  /** The tread speed after `frames` frames of length `elapsed` with a fixed target. */
  function Steps(tread: real, target: real, elapsed: real, frames: nat): real
    requires 0.0 <= elapsed
    decreases frames
  {
    if frames == 0 then tread else Steps(TreadStep(tread, target, elapsed), target, elapsed, frames - 1)
  }

  lemma {:induction false} StepsAtTarget(target: real, elapsed: real, frames: nat)
    requires 0.0 <= elapsed
    ensures Steps(target, target, elapsed, frames) == target
    decreases frames
  {
    if frames > 0 {
      StepsAtTarget(target, elapsed, frames - 1);
    }
  }

  /**
   * keep_in_level: clamp x into [min.x + r, max.x − r] and y likewise (the
   * upper bound wins when the interval is empty); z is left alone.
   */
  function KeepInLevel(a: Vec3, radius: real, lo: Vec2, hi: Vec2): (r: Vec3)
    ensures r.z == a.z
    ensures lo.x + radius <= hi.x - radius ==> lo.x + radius <= r.x <= hi.x - radius
    ensures lo.y + radius <= hi.y - radius ==> lo.y + radius <= r.y <= hi.y - radius
    ensures lo.x + radius <= a.x <= hi.x - radius && lo.y + radius <= a.y <= hi.y - radius ==> r == a
    ensures r.x <= hi.x - radius && r.y <= hi.y - radius
  {
    Vec3(Min(hi.x - radius, Max(lo.x + radius, a.x)), Min(hi.y - radius, Max(lo.y + radius, a.y)), a.z)
  }

  /** Clamping twice is clamping once. */
  lemma KeepInLevelIdempotent(a: Vec3, radius: real, lo: Vec2, hi: Vec2)
    ensures KeepInLevel(KeepInLevel(a, radius, lo, hi), radius, lo, hi) == KeepInLevel(a, radius, lo, hi)
  {
  }

  /** The squared distance between the ground-plane (x, y) projections of two points. */
  function PlanarSqDist(a: Vec3, b: Vec3): real {
    (b.x - a.x) * (b.x - a.x) + (b.y - a.y) * (b.y - a.y)
  }

  /**
   * The move of push_apart once the offset ab = b − a has been scaled by `k`:
   * `a` moves back by the share 1 − mix and `b` forward by the share mix of
   * (radius − len)·k·ab, in the plane; z is untouched.
   */
  function Pushed(a: Vec3, b: Vec3, radius: real, mix: real, len: real, k: real): (r: (Vec3, Vec3))
    ensures r.0.z == a.z && r.1.z == b.z
    ensures mix == 1.0 ==> r.0 == a
  {
    var ux, uy := (b.x - a.x) * k, (b.y - a.y) * k;
    (Vec3(a.x - (1.0 - mix) * (radius - len) * ux, a.y - (1.0 - mix) * (radius - len) * uy, a.z),
     Vec3(b.x + mix * (radius - len) * ux, b.y + mix * (radius - len) * uy, b.z))
  }

  /**
   * push_apart as written: for two points closer than `radius` in the plane
   * and not at the same spot, the offset is divided by the square root of
   * its length `len` rather than by `len`.
   */
  function PushApartAsWritten(a: Vec3, b: Vec3, radius: real, mix: real, root: real -> real): (r: (Vec3, Vec3))
    requires IsSquareRoot(root)
    ensures r.0.z == a.z && r.1.z == b.z
    ensures radius * radius <= PlanarSqDist(a, b) || PlanarSqDist(a, b) == 0.0 ==> r == (a, b)
  {
    var len2 := PlanarSqDist(a, b);
    if len2 >= radius * radius then (a, b)
    else if len2 == 0.0 then (a, b)
    else
      assert RootAt(root, len2) && RootAt(root, root(len2));
      Pushed(a, b, radius, mix, root(len2), 1.0 / root(root(len2)))
  }

  /**
   * With push_apart as written, two points 0.25 apart and a radius of 0.3
   * end up 0.275 apart, not 0.3: the offset was divided by 0.5, the square
   * root of the distance, rather than by the distance.
   */
  lemma PushApartAsWrittenMissesRadius(root: real -> real)
    requires IsSquareRoot(root)
    ensures var r := PushApartAsWritten(Zero3, Vec3(0.25, 0.0, 0.0), 0.3, 0.5, root);
            PlanarSqDist(r.0, r.1) == 0.275 * 0.275 && PlanarSqDist(r.0, r.1) != 0.3 * 0.3
  {
    RootIs(root, 0.0625, 0.25);
    RootIs(root, 0.25, 0.5);
    PushedShort();
  }

  /** The move push_apart as written makes for two points 0.25 apart and a radius of 0.3. */
  lemma PushedShort()
    ensures var r := Pushed(Zero3, Vec3(0.25, 0.0, 0.0), 0.3, 0.5, 0.25, 1.0 / 0.5);
            r == (Vec3(-0.0125, 0.0, 0.0), Vec3(0.2625, 0.0, 0.0))
  {
  }

  /**
   * push_apart with the offset divided by its length: two points closer
   * than `radius` in the plane, and not at the same spot, end up exactly
   * `radius` apart in the plane, whatever the mix; with mix = 1 only `b`
   * moves. Points far enough apart or at the same spot are left alone, and
   * z never changes.
   */
  function PushApart(a: Vec3, b: Vec3, radius: real, mix: real, root: real -> real): (r: (Vec3, Vec3))
    requires IsSquareRoot(root)
    ensures r.0.z == a.z && r.1.z == b.z
    ensures radius * radius <= PlanarSqDist(a, b) || PlanarSqDist(a, b) == 0.0 ==> r == (a, b)
    ensures mix == 1.0 ==> r.0 == a
    ensures 0.0 < PlanarSqDist(a, b) < radius * radius ==> PlanarSqDist(r.0, r.1) == radius * radius
  {
    var len2 := PlanarSqDist(a, b);
    if len2 >= radius * radius then (a, b)
    else if len2 == 0.0 then (a, b)
    else
      assert RootAt(root, len2);
      assert 0.0 < root(len2) by {
        if root(len2) == 0.0 {
          ZeroSquare(root(len2));
        }
      }
      DivBack(1.0, root(len2));
      PushedToRadius(a, b, radius, mix, root(len2), 1.0 / root(len2));
      Pushed(a, b, radius, mix, root(len2), 1.0 / root(len2))
  }

  /** Moving along the offset scaled by 1 / len leaves the points exactly `radius` apart. */
  lemma PushedToRadius(a: Vec3, b: Vec3, radius: real, mix: real, len: real, k: real)
    requires len * len == PlanarSqDist(a, b) && len * k == 1.0
    ensures PlanarSqDist(Pushed(a, b, radius, mix, len, k).0, Pushed(a, b, radius, mix, len, k).1) == radius * radius
  {
    var r := Pushed(a, b, radius, mix, len, k);
    PushedOffset(a, b, radius, mix, len, k);
    AtRadius(a, b, r.0, r.1, radius, len, k);
  }

  /** Points whose planar offset is that of a, b (of length `len`) stretched by radius / len are `radius` apart. */
  lemma AtRadius(a: Vec3, b: Vec3, p: Vec3, q: Vec3, radius: real, len: real, k: real)
    requires len * len == PlanarSqDist(a, b) && len * k == 1.0
    requires q.x - p.x == (b.x - a.x) * (radius * k) && q.y - p.y == (b.y - a.y) * (radius * k)
    ensures PlanarSqDist(p, q) == radius * radius
  {
    StretchedSqDist(a, b, p, q, radius * k, len);
    var t := (radius * k) * len;
    assert t == radius * (len * k);
    assert Sq(t) == Sq(radius);
  }

  function Sq(x: real): real { x * x }

  /** Stretching a planar offset of length `len` by `s` gives squared length (s·len)². */
  lemma StretchedSqDist(a: Vec3, b: Vec3, p: Vec3, q: Vec3, s: real, len: real)
    requires len * len == PlanarSqDist(a, b)
    requires q.x - p.x == (b.x - a.x) * s && q.y - p.y == (b.y - a.y) * s
    ensures PlanarSqDist(p, q) == Sq(s * len)
  {
    ScaledSquares(b.x - a.x, b.y - a.y, s, len);
  }

  /** The pushed offset is the old one stretched by radius / len. */
  lemma PushedOffset(a: Vec3, b: Vec3, radius: real, mix: real, len: real, k: real)
    requires len * k == 1.0
    ensures Pushed(a, b, radius, mix, len, k).1.x - Pushed(a, b, radius, mix, len, k).0.x == (b.x - a.x) * (radius * k)
    ensures Pushed(a, b, radius, mix, len, k).1.y - Pushed(a, b, radius, mix, len, k).0.y == (b.y - a.y) * (radius * k)
  {
    Stretch(a.x, b.x, radius, mix, len, k);
    Stretch(a.y, b.y, radius, mix, len, k);
  }

  /** One coordinate of the pushed offset is the old one stretched by radius / len. */
  lemma Stretch(ax: real, bx: real, radius: real, mix: real, len: real, k: real)
    requires len * k == 1.0
    ensures (bx + mix * (radius - len) * ((bx - ax) * k)) - (ax - (1.0 - mix) * (radius - len) * ((bx - ax) * k))
         == (bx - ax) * (radius * k)
  {
    var d := bx - ax;
    calc {
      (bx + mix * (radius - len) * (d * k)) - (ax - (1.0 - mix) * (radius - len) * (d * k));
      == d + (radius - len) * (d * k);
      == d + radius * d * k - (len * k) * d;
      == d * (radius * k);
    }
  }

  /** Scaling a planar offset of length `len` by `s` gives squared length (s·len)². */
  lemma ScaledSquares(dx: real, dy: real, s: real, len: real)
    requires len * len == dx * dx + dy * dy
    ensures (dx * s) * (dx * s) + (dy * s) * (dy * s) == (s * len) * (s * len)
  {
    calc {
      (dx * s) * (dx * s) + (dy * s) * (dy * s);
      == (s * s) * (dx * dx + dy * dy);
      == (s * s) * (len * len);
      == (s * len) * (s * len);
    }
  }

  // ---- loading ----

  /** What the loading callbacks have built so far. */
  datatype Loaded = Loaded(drawables: seq<Drawable>, balls: seq<Ball>, goals: seq<Vec2>)

  /**
   * One call of the loading callback: look the mesh up (a missing one
   * throws), add a drawable for it, then record a ball for a "Ball." name
   * (whose number must parse and lie in 1..15) or a goal at the transform's
   * ground-plane position for a "Goal." name.
   */
  function LoadItem(l: Loaded, item: MeshItem, buffer: map<string, Mesh>): (r: Result<Loaded, LoadError>)
    ensures r.Ok? <==> ItemLoadable(item, buffer)
    ensures r.Ok? ==> r.value.drawables == l.drawables + [Drawable(Some(item.transform.id), buffer[item.name])]
    ensures r.Ok? && IsBallName(item.name) ==>
      r.value.goals == l.goals && r.value.balls == l.balls + [Ball(Some(item.transform.id), 0.0, TeamNone, BallIndex(item.name).value)]
    ensures r.Ok? && !IsBallName(item.name) && IsGoalName(item.name) ==>
      r.value.balls == l.balls && r.value.goals == l.goals + [Vec2(item.transform.position.x, item.transform.position.y)]
    ensures r.Ok? && !IsBallName(item.name) && !IsGoalName(item.name) ==> r.value.balls == l.balls && r.value.goals == l.goals
  {
    if item.name !in buffer then Err(MissingMesh(item.name))
    else
      var l := l.(drawables := l.drawables + [Drawable(Some(item.transform.id), buffer[item.name])]);
      if IsBallName(item.name) then
        match BallIndex(item.name)
        case Err(e) => Err(e)
        case Ok(index) => Ok(l.(balls := l.balls + [NewBall.(transform := Some(item.transform.id), index := index)]))
      else if IsGoalName(item.name) then
        Ok(l.(goals := l.goals + [Vec2(item.transform.position.x, item.transform.position.y)]))
      else Ok(l)
  }

  /** The callbacks run over the items in order; the first one that throws ends the loading. */
  function LoadItems(items: seq<MeshItem>, buffer: map<string, Mesh>): Result<Loaded, LoadError>
    decreases |items|
  {
    if |items| == 0 then Ok(Loaded([], [], []))
    else match LoadItems(items[..|items| - 1], buffer)
      case Err(e) => Err(e)
      case Ok(l) => LoadItem(l, items[|items| - 1], buffer)
  }

  /** Every mesh is in the buffer and every "Ball." name carries a number in 1..15. */
  predicate Loadable(items: seq<MeshItem>, buffer: map<string, Mesh>) {
    forall i :: 0 <= i < |items| ==> ItemLoadable(items[i], buffer)
  }

  /** The item's mesh is in the buffer and, for a "Ball." name, the number is in 1..15. */
  predicate ItemLoadable(item: MeshItem, buffer: map<string, Mesh>) {
    item.name in buffer && (IsBallName(item.name) ==> BallIndex(item.name).Ok?)
  }

  /** Loading succeeds exactly when every item is loadable. */
  lemma {:induction false} LoadItemsSucceeds(items: seq<MeshItem>, buffer: map<string, Mesh>)
    ensures LoadItems(items, buffer).Ok? <==> Loadable(items, buffer)
    decreases |items|
  {
    if |items| > 0 {
      var front := items[..|items| - 1];
      var last := items[|items| - 1];
      LoadItemsSucceeds(front, buffer);
      if Loadable(items, buffer) {
        forall i | 0 <= i < |front|
          ensures ItemLoadable(front[i], buffer)
        {
          assert front[i] == items[i];
        }
        var l := LoadItems(front, buffer).value;
        assert LoadItems(items, buffer) == LoadItem(l, last, buffer);
      } else {
        var i :| 0 <= i < |items| && !ItemLoadable(items[i], buffer);
        if i < |front| {
          assert front[i] == items[i];
          assert LoadItems(front, buffer).Err?;
        } else {
          assert !ItemLoadable(last, buffer);
          if LoadItems(front, buffer).Ok? {
            var l := LoadItems(front, buffer).value;
            assert LoadItems(items, buffer) == LoadItem(l, last, buffer);
          }
        }
      }
    }
  }

  /** A successful loading gives every item its drawable, in item order. */
  lemma {:induction false} LoadedDrawables(items: seq<MeshItem>, buffer: map<string, Mesh>)
    requires LoadItems(items, buffer).Ok?
    ensures AllMeshesFound(items, buffer)
    ensures LoadItems(items, buffer).value.drawables == MeshDrawables(items, buffer)
    decreases |items|
  {
    if |items| > 0 {
      var front := items[..|items| - 1];
      LoadItemsSucceeds(items, buffer);
      LoadItemsSucceeds(front, buffer);
      LoadedDrawables(front, buffer);
    } else {
      LoadItemsSucceeds(items, buffer);
    }
  }

  /**
   * After a successful loading every ball is numbered 1..15, unscored and
   * untouched, and sits on the transform of a "Ball." item.
   */
  lemma {:induction false} LoadedBalls(items: seq<MeshItem>, buffer: map<string, Mesh>)
    requires LoadItems(items, buffer).Ok?
    ensures var bs := LoadItems(items, buffer).value.balls;
      forall k :: 0 <= k < |bs| ==>
        1 <= bs[k].index <= 15 && bs[k].scored == 0.0 && bs[k].lastToTouch == TeamNone &&
        exists i :: 0 <= i < |items| && IsBallName(items[i].name) && bs[k].transform == Some(items[i].transform.id)
    decreases |items|
  {
    if |items| > 0 {
      var front := items[..|items| - 1];
      LoadedBalls(front, buffer);
      var l := LoadItems(front, buffer).value;
      var bs := LoadItems(items, buffer).value.balls;
      forall k | 0 <= k < |bs|
        ensures 1 <= bs[k].index <= 15 && bs[k].scored == 0.0 && bs[k].lastToTouch == TeamNone
        ensures exists i :: 0 <= i < |items| && IsBallName(items[i].name) && bs[k].transform == Some(items[i].transform.id)
      {
        if k < |l.balls| {
          var i :| 0 <= i < |front| && IsBallName(front[i].name) && l.balls[k].transform == Some(front[i].transform.id);
          assert items[i] == front[i];
        } else {
          assert IsBallName(items[|items| - 1].name);
        }
      }
    }
  }

  /** Loading one more item runs the callback on it after the ones before. */
  lemma LoadOneMore(items: seq<MeshItem>, buffer: map<string, Mesh>, i: nat, l: Loaded)
    requires i < |items| && LoadItems(items[..i], buffer) == Ok(l)
    ensures LoadItems(items[..i + 1], buffer) == LoadItem(l, items[i], buffer)
  {
    assert items[..i + 1][..i] == items[..i];
  }

  /** Once an item throws, the loading as a whole fails with that error. */
  lemma {:induction false} AbortedLoad(items: seq<MeshItem>, buffer: map<string, Mesh>, i: nat)
    requires i < |items| && LoadItems(items[..i + 1], buffer).Err?
    ensures LoadItems(items, buffer) == LoadItems(items[..i + 1], buffer)
    decreases |items|
  {
    if i + 1 < |items| {
      var front := items[..|items| - 1];
      assert front[..i + 1] == items[..i + 1];
      AbortedLoad(front, buffer, i);
    } else {
      assert items[..i + 1] == items;
    }
  }

  // ---- the level ----

  /** The balls and dozers are on transforms (the update dereferences them). */
  predicate Placed(balls: seq<Ball>, dozers: seq<Dozer>) {
    (forall k :: 0 <= k < |balls| ==> balls[k].transform.Some?) &&
    (forall k :: 0 <= k < |dozers| ==> dozers[k].transform.Some?)
  }

  /** `us` differs from `ts` at most in the ground-plane coordinates of positions. */
  predicate PlanarOnly(ts: seq<Transform>, us: seq<Transform>) {
    |ts| == |us| &&
    forall i :: 0 <= i < |ts| ==>
      us[i] == ts[i].(position := Vec3(us[i].position.x, us[i].position.y, ts[i].position.z))
  }

  /** Every transform whose handle is not in `moved` is where it was. */
  ghost predicate StaysExcept(ts: seq<Transform>, us: seq<Transform>, moved: set<Handle>) {
    forall h :: h !in moved ==> PositionOf(us, h) == PositionOf(ts, h)
  }

  /** The first drawable drawn at transform `h`. */
  function FirstDrawableAt(ds: seq<Drawable>, h: Handle): (r: Option<nat>)
    ensures r.Some? ==> r.value < |ds| && ds[r.value].transform == Some(h)
    ensures r.Some? ==> forall j :: 0 <= j < r.value ==> ds[j].transform != Some(h)
    ensures r.None? <==> forall j :: 0 <= j < |ds| ==> ds[j].transform != Some(h)
  {
    if |ds| == 0 then None
    else if ds[0].transform == Some(h) then Some(0)
    else match FirstDrawableAt(ds[1..], h)
      case None =>
        assert forall j :: 1 <= j < |ds| ==> ds[j] == ds[1..][j - 1];
        None
      case Some(k) =>
        assert forall j :: 1 <= j < k + 1 ==> ds[j] == ds[1..][j - 1];
        Some(k + 1)
  }

  /** The first dozer on transform `h`. */
  function FirstDozerAt(dz: seq<Dozer>, h: Handle): (r: Option<nat>)
    ensures r.Some? ==> r.value < |dz| && dz[r.value].transform == Some(h)
    ensures r.Some? ==> forall j :: 0 <= j < r.value ==> dz[j].transform != Some(h)
    ensures r.None? <==> forall j :: 0 <= j < |dz| ==> dz[j].transform != Some(h)
  {
    if |dz| == 0 then None
    else if dz[0].transform == Some(h) then Some(0)
    else match FirstDozerAt(dz[1..], h)
      case None =>
        assert forall j :: 1 <= j < |dz| ==> dz[j] == dz[1..][j - 1];
        None
      case Some(k) =>
        assert forall j :: 1 <= j < k + 1 ==> dz[j] == dz[1..][j - 1];
        Some(k + 1)
  }

  /** The list with the element at `i` erased, the others keeping their order; unchanged for no position. */
  function EraseAt<T>(s: seq<T>, i: Option<nat>): (r: seq<T>)
    ensures i.None? || |s| <= i.value ==> r == s
    ensures i.Some? && i.value < |s| ==> |r| == |s| - 1
  {
    if i.Some? && i.value < |s| then s[..i.value] + s[i.value + 1..] else s
  }

  /** Erasing keeps the elements before the position and shifts the ones after it down by one. */
  lemma EraseAtKeepsOrder<T>(s: seq<T>, i: nat)
    requires i < |s|
    ensures forall k :: 0 <= k < i ==> EraseAt(s, Some(i))[k] == s[k]
    ensures forall k :: i <= k < |s| - 1 ==> EraseAt(s, Some(i))[k] == s[k + 1]
    ensures multiset(EraseAt(s, Some(i))) + multiset{s[i]} == multiset(s)
  {
    assert s == s[..i] + [s[i]] + s[i + 1..];
  }

  /** Erasing the one transform with handle `h` from a list without shared handles leaves no transform `h`. */
  lemma EraseTransform(ts: seq<Transform>, h: Handle)
    requires UniqueIds(ts)
    ensures UniqueIds(EraseAt(ts, IndexOf(ts, h)))
    ensures IndexOf(EraseAt(ts, IndexOf(ts, h)), h).None?
    ensures |EraseAt(ts, IndexOf(ts, h))| == if IndexOf(ts, h).Some? then |ts| - 1 else |ts|
  {
    var r := EraseAt(ts, IndexOf(ts, h));
    if IndexOf(ts, h).Some? {
      var i := IndexOf(ts, h).value;
      EraseAtKeepsOrder(ts, i);
      forall j | 0 <= j < |r|
        ensures r[j].id != h
      {
        if j < i {
          assert r[j] == ts[j];
        } else {
          assert r[j] == ts[j + 1];
        }
      }
    }
  }

  /** Moving one transform within the plane changes nothing but its x and y, and keeps the handles. */
  lemma SetPositionPlanar(ts: seq<Transform>, h: Handle, p: Vec3)
    requires UniqueIds(ts)
    requires IndexOf(ts, h).Some? ==> p.z == PositionOf(ts, h).z
    ensures PlanarOnly(ts, SetPosition(ts, h, p)) && UniqueIds(SetPosition(ts, h, p))
  {
    var r := SetPosition(ts, h, p);
    forall i | 0 <= i < |ts| && ts[i].id == h
      ensures p.z == ts[i].position.z
    {
      IndexOfUnique(ts, i);
    }
  }

  lemma PlanarOnlyTrans(ts: seq<Transform>, us: seq<Transform>, vs: seq<Transform>)
    requires PlanarOnly(ts, us) && PlanarOnly(us, vs)
    ensures PlanarOnly(ts, vs)
  {
    forall i | 0 <= i < |ts|
      ensures vs[i] == ts[i].(position := Vec3(vs[i].position.x, vs[i].position.y, ts[i].position.z))
    {
      assert us[i].position.z == ts[i].position.z;
    }
  }

  /** `r` points to a transform of the list (a null or dangling pointer is not a key of the copy's remap). */
  predicate Attached(ts: seq<Transform>, r: Option<Handle>) {
    r.Some? && exists i :: 0 <= i < |ts| && ts[i].id == r.value
  }

  /** The handles of a list of transforms. */
  function Handles(ts: seq<Transform>): (hs: set<Handle>)
    ensures forall h :: h in hs <==> Attached(ts, Some(h))
  {
    set i | 0 <= i < |ts| :: ts[i].id
  }

  /** The dozers with the controls of the first dozer on `h` replaced (none changes when no dozer is on `h`). */
  function WithControls(dz: seq<Dozer>, h: Handle, c: Controls): (r: seq<Dozer>)
    ensures |r| == |dz|
    ensures forall k :: 0 <= k < |dz| ==> r[k].transform == dz[k].transform && r[k].name == dz[k].name
    ensures FirstDozerAt(r, h) == FirstDozerAt(dz, h)
    ensures forall k :: 0 <= k < |dz| ==>
      r[k] == if FirstDozerAt(dz, h) == Some(k) then dz[k].(controls := c) else dz[k]
  {
    match FirstDozerAt(dz, h)
    case None => dz
    case Some(i) =>
      var r := dz[i := dz[i].(controls := c)];
      assert forall k :: 0 <= k < |dz| ==> r[k].transform == dz[k].transform;
      assert FirstDozerAt(r, h) == Some(i);
      r
  }

  /** The controls of the first dozer on `h`, none held when there is no such dozer. */
  function ControlsAt(dz: seq<Dozer>, h: Handle): Controls {
    match FirstDozerAt(dz, h)
    case None => NoControls
    case Some(i) => dz[i].controls
  }

  /** Setting controls twice is setting the second ones, which are then read back. */
  lemma WithControlsTwice(dz: seq<Dozer>, h: Handle, c1: Controls, c2: Controls)
    ensures WithControls(WithControls(dz, h, c1), h, c2) == WithControls(dz, h, c2)
    ensures FirstDozerAt(dz, h).Some? ==> ControlsAt(WithControls(dz, h, c2), h) == c2
    ensures FirstDozerAt(dz, h).None? ==> WithControls(dz, h, c2) == dz
  {
  }

  /** The tread update of one dozer for one frame. */
  function Ramp(d: Dozer, elapsed: real): Dozer
    requires 0.0 <= elapsed
  {
    d.(leftTread := TreadStep(d.leftTread, TreadTarget(d.controls.leftForward, d.controls.leftBackward), elapsed),
       rightTread := TreadStep(d.rightTread, TreadTarget(d.controls.rightForward, d.controls.rightBackward), elapsed))
  }

  class PoolLevel {
    var transforms: seq<Transform>
    var drawables: seq<Drawable>
    var cameras: seq<Camera>
    var lamps: seq<Lamp>
    var levelMin: Vec2
    var levelMax: Vec2
    var goals: seq<Vec2>
    var balls: seq<Ball>
    var dozers: seq<Dozer>
    /** The buffer's "Dozer.Solid" and "Dozer.Diamond" meshes. */
    const solidMesh: Mesh
    const diamondMesh: Mesh

    /** An empty level with the default bounds. */
    constructor(solidMesh: Mesh, diamondMesh: Mesh)
      ensures this.solidMesh == solidMesh && this.diamondMesh == diamondMesh
      ensures transforms == [] && drawables == [] && cameras == [] && lamps == []
      ensures goals == [] && balls == [] && dozers == []
      ensures levelMin == DefaultMin && levelMax == DefaultMax
    {
      this.solidMesh := solidMesh;
      this.diamondMesh := diamondMesh;
      transforms, drawables, cameras, lamps := [], [], [], [];
      goals, balls, dozers := [], [], [];
      levelMin, levelMax := DefaultMin, DefaultMax;
    }

    /** The handles of the balls' transforms. */
    function BallHandles(): set<Handle>
      reads this
    {
      set k | 0 <= k < |balls| && balls[k].transform.Some? :: balls[k].transform.value
    }

    /** The handles of the dozers' transforms. */
    function DozerHandles(): set<Handle>
      reads this
    {
      set k | 0 <= k < |dozers| && dozers[k].transform.Some? :: dozers[k].transform.value
    }

    /** The parts of the level that spawning, removing and steering dozers leave alone. */
    function Scenery(): (seq<Camera>, seq<Lamp>, seq<Vec2>, seq<Ball>, Vec2, Vec2)
      reads this
    {
      (cameras, lamps, goals, balls, levelMin, levelMax)
    }

    /**
     * Build a level from a scene: its transforms, cameras and lamps, and
     * whatever the loading callback makes of each mesh item; the first
     * item the callback throws on is the error.
     */
    static method FromScene(scene: LoadedScene, buffer: map<string, Mesh>, solidMesh: Mesh, diamondMesh: Mesh)
      returns (r: Result<PoolLevel, LoadError>)
      ensures r.Ok? <==> LoadItems(scene.items, buffer).Ok?
      ensures r.Err? ==> LoadItems(scene.items, buffer) == Err(r.error)
      ensures r.Ok? ==> fresh(r.value)
      ensures r.Ok? ==> r.value.transforms == scene.transforms && r.value.cameras == scene.cameras && r.value.lamps == scene.lamps
      ensures r.Ok? ==> Loaded(r.value.drawables, r.value.balls, r.value.goals) == LoadItems(scene.items, buffer).value
      ensures r.Ok? ==> r.value.dozers == [] && r.value.levelMin == DefaultMin && r.value.levelMax == DefaultMax
      ensures r.Ok? ==> r.value.solidMesh == solidMesh && r.value.diamondMesh == diamondMesh
    {
      var items := scene.items;
      var drawables: seq<Drawable>, balls: seq<Ball>, goals: seq<Vec2> := [], [], [];
      for i := 0 to |items|
        invariant LoadItems(items[..i], buffer) == Ok(Loaded(drawables, balls, goals))
      {
        LoadOneMore(items, buffer, i, Loaded(drawables, balls, goals));
        var item := items[i];
        if item.name !in buffer {
          r := Err(MissingMesh(item.name));
          AbortedLoad(items, buffer, i);
          return;
        }
        drawables := drawables + [Drawable(Some(item.transform.id), buffer[item.name])];
        if IsBallName(item.name) {
          var index := BallIndex(item.name);
          if index.Err? {
            r := Err(index.error);
            AbortedLoad(items, buffer, i);
            return;
          }
          balls := balls + [NewBall.(transform := Some(item.transform.id), index := index.value)];
        } else if IsGoalName(item.name) {
          goals := goals + [Vec2(item.transform.position.x, item.transform.position.y)];
        }
      }
      assert items[..|items|] == items;
      var level := new PoolLevel(solidMesh, diamondMesh);
      level.transforms, level.cameras, level.lamps := scene.transforms, scene.cameras, scene.lamps;
      level.drawables, level.balls, level.goals := drawables, balls, goals;
      r := Ok(level);
    }

    /**
     * add_dozer: append a fresh transform at the origin, a drawable of the
     * team's dozer mesh on it and a dozer with that transform, name and
     * team, treads at rest and no controls held; the dozer is known by the
     * new transform's handle.
     */
    method AddDozer(name: string, team: Team) returns (h: Handle)
      modifies this
      ensures forall i :: 0 <= i < |old(transforms)| ==> old(transforms)[i].id != h
      ensures transforms == old(transforms) + [NewTransform(h)]
      ensures drawables == old(drawables) + [Drawable(Some(h), if team == TeamSolid then solidMesh else diamondMesh)]
      ensures dozers == old(dozers) + [Dozer(Some(h), name, 0.0, 0.0, team, NoControls)]
      ensures UniqueIds(old(transforms)) ==> UniqueIds(transforms) && IndexOf(transforms, h) == Some(|transforms| - 1)
      ensures cameras == old(cameras) && lamps == old(lamps) && goals == old(goals) && balls == old(balls)
      ensures levelMin == old(levelMin) && levelMax == old(levelMax)
    {
      h := FreshHandle(transforms);
      transforms := transforms + [NewTransform(h)];
      var mesh := if team == TeamSolid then solidMesh else diamondMesh;
      drawables := drawables + [Drawable(Some(h), mesh)];
      dozers := dozers + [Dozer(Some(h), name, 0.0, 0.0, team, NoControls)];
      if UniqueIds(old(transforms)) {
        IndexOfUnique(transforms, |transforms| - 1);
      }
    }

    /**
     * remove_dozer for the dozer on transform `h`: erase the first drawable
     * on that transform, the transform itself and the dozer, everything
     * else keeping its order.
     */
    method RemoveDozer(h: Handle)
      modifies this
      ensures drawables == EraseAt(old(drawables), FirstDrawableAt(old(drawables), h))
      ensures transforms == EraseAt(old(transforms), IndexOf(old(transforms), h))
      ensures dozers == EraseAt(old(dozers), FirstDozerAt(old(dozers), h))
      ensures UniqueIds(old(transforms)) ==> UniqueIds(transforms) && IndexOf(transforms, h).None?
      ensures cameras == old(cameras) && lamps == old(lamps) && goals == old(goals) && balls == old(balls)
      ensures levelMin == old(levelMin) && levelMax == old(levelMax)
    {
      var ds, ts, dz := drawables, transforms, dozers;
      var i := FindDrawable(ds, h);
      ds := EraseAt(ds, if i < |ds| then Some(i) else None);
      i := FindTransform(ts, h);
      if UniqueIds(ts) {
        EraseTransform(ts, h);
      }
      ts := EraseAt(ts, if i < |ts| then Some(i) else None);
      i := FindDozer(dz, h);
      dz := EraseAt(dz, if i < |dz| then Some(i) else None);
      drawables, transforms, dozers := ds, ts, dz;
    }

    /** The search of remove_dozer's first loop: the first drawable on `h`, or the end. */
    static method FindDrawable(ds: seq<Drawable>, h: Handle) returns (i: nat)
      ensures i <= |ds|
      ensures FirstDrawableAt(ds, h) == if i < |ds| then Some(i) else None
    {
      i := 0;
      while i < |ds| && ds[i].transform != Some(h)
        invariant i <= |ds|
        invariant forall k :: 0 <= k < i ==> ds[k].transform != Some(h)
      {
        i := i + 1;
      }
    }

    /** The search of remove_dozer's second loop: the transform with handle `h`, or the end. */
    static method FindTransform(ts: seq<Transform>, h: Handle) returns (i: nat)
      ensures i <= |ts|
      ensures IndexOf(ts, h) == if i < |ts| then Some(i) else None
    {
      i := 0;
      while i < |ts| && ts[i].id != h
        invariant i <= |ts|
        invariant forall k :: 0 <= k < i ==> ts[k].id != h
      {
        i := i + 1;
      }
    }

    /** The search of remove_dozer's third loop: the dozer on `h`, or the end. */
    static method FindDozer(dz: seq<Dozer>, h: Handle) returns (i: nat)
      ensures i <= |dz|
      ensures FirstDozerAt(dz, h) == if i < |dz| then Some(i) else None
    {
      i := 0;
      while i < |dz| && dz[i].transform != Some(h)
        invariant i <= |dz|
        invariant forall k :: 0 <= k < i ==> dz[k].transform != Some(h)
      {
        i := i + 1;
      }
    }

    /**
     * push_apart on the positions of the transforms `ha` and `hb`: both
     * written back, in the plane only; with mix = 1 only `hb` moves, and two
     * distinct transforms that were too close end up exactly `radius` apart.
     */
    method PushPair(ha: Handle, hb: Handle, radius: real, mix: real, root: real -> real)
      requires IsSquareRoot(root) && UniqueIds(transforms)
      modifies this
      ensures var r := PushApart(old(PositionOf(transforms, ha)), old(PositionOf(transforms, hb)), radius, mix, root);
        transforms == SetPosition(SetPosition(old(transforms), ha, r.0), hb, r.1)
      ensures UniqueIds(transforms) && PlanarOnly(old(transforms), transforms)
      ensures StaysExcept(old(transforms), transforms, {ha, hb})
      ensures mix == 1.0 ==> StaysExcept(old(transforms), transforms, {hb})
      ensures ha != hb && IndexOf(old(transforms), ha).Some? && IndexOf(old(transforms), hb).Some? &&
              0.0 < PlanarSqDist(old(PositionOf(transforms, ha)), old(PositionOf(transforms, hb))) < radius * radius ==>
              PlanarSqDist(PositionOf(transforms, ha), PositionOf(transforms, hb)) == radius * radius
      ensures drawables == old(drawables) && cameras == old(cameras) && lamps == old(lamps)
      ensures goals == old(goals) && balls == old(balls) && dozers == old(dozers)
      ensures levelMin == old(levelMin) && levelMax == old(levelMax)
    {
      var ts := transforms;
      var a, b := PositionOf(ts, ha), PositionOf(ts, hb);
      var r := PushApart(a, b, radius, mix, root);
      SetPositionPlanar(ts, ha, r.0);
      var ts1 := SetPosition(ts, ha, r.0);
      forall g {
        PositionAfterSet(ts, ha, r.0, g);
      }
      SetPositionPlanar(ts1, hb, r.1);
      var ts2 := SetPosition(ts1, hb, r.1);
      forall g {
        PositionAfterSet(ts1, hb, r.1, g);
      }
      PlanarOnlyTrans(ts, ts1, ts2);
      transforms := ts2;
    }

    /** keep_in_level on the position of transform `h`: clamped into the level in the plane. */
    method Keep(h: Handle, radius: real)
      requires UniqueIds(transforms)
      modifies this
      ensures transforms == SetPosition(old(transforms), h, KeepInLevel(old(PositionOf(transforms, h)), radius, levelMin, levelMax))
      ensures UniqueIds(transforms) && PlanarOnly(old(transforms), transforms)
      ensures StaysExcept(old(transforms), transforms, {h})
      ensures IndexOf(old(transforms), h).Some? && levelMin.x + radius <= levelMax.x - radius && levelMin.y + radius <= levelMax.y - radius ==>
        var p := PositionOf(transforms, h);
        levelMin.x + radius <= p.x <= levelMax.x - radius && levelMin.y + radius <= p.y <= levelMax.y - radius
      ensures drawables == old(drawables) && cameras == old(cameras) && lamps == old(lamps)
      ensures goals == old(goals) && balls == old(balls) && dozers == old(dozers)
      ensures levelMin == old(levelMin) && levelMax == old(levelMax)
    {
      var ts := transforms;
      var p := KeepInLevel(PositionOf(ts, h), radius, levelMin, levelMax);
      SetPositionPlanar(ts, h, p);
      forall g {
        PositionAfterSet(ts, h, p, g);
      }
      transforms := SetPosition(ts, h, p);
    }

    /**
     * The first pass of update's pushing: ten rounds in which every dozer is
     * pushed apart from each dozer before it in the list (half each) and then
     * kept in the level. Only dozers' transforms move, and only in the plane.
     */
    method PushDozers(root: real -> real)
      requires IsSquareRoot(root) && UniqueIds(transforms) && Placed(balls, dozers)
      modifies this
      ensures UniqueIds(transforms) && PlanarOnly(old(transforms), transforms)
      ensures StaysExcept(old(transforms), transforms, DozerHandles())
      ensures drawables == old(drawables) && cameras == old(cameras) && lamps == old(lamps)
      ensures goals == old(goals) && balls == old(balls) && dozers == old(dozers)
      ensures levelMin == old(levelMin) && levelMax == old(levelMax)
    {
      for iter := 0 to 10
        invariant UniqueIds(transforms) && PlanarOnly(old(transforms), transforms)
        invariant StaysExcept(old(transforms), transforms, DozerHandles())
        invariant drawables == old(drawables) && cameras == old(cameras) && lamps == old(lamps)
        invariant goals == old(goals) && balls == old(balls) && dozers == old(dozers)
        invariant levelMin == old(levelMin) && levelMax == old(levelMax)
      {
        for i := 0 to |dozers|
          invariant UniqueIds(transforms) && PlanarOnly(old(transforms), transforms)
          invariant StaysExcept(old(transforms), transforms, DozerHandles())
          invariant drawables == old(drawables) && cameras == old(cameras) && lamps == old(lamps)
          invariant goals == old(goals) && balls == old(balls) && dozers == old(dozers)
          invariant levelMin == old(levelMin) && levelMax == old(levelMax)
        {
          var ha := dozers[i].transform.value;
          assert ha in DozerHandles();
          for j := 0 to i
            invariant UniqueIds(transforms) && PlanarOnly(old(transforms), transforms)
            invariant StaysExcept(old(transforms), transforms, DozerHandles())
            invariant drawables == old(drawables) && cameras == old(cameras) && lamps == old(lamps)
            invariant goals == old(goals) && balls == old(balls) && dozers == old(dozers)
            invariant levelMin == old(levelMin) && levelMax == old(levelMax)
          {
            var hb := dozers[j].transform.value;
            assert hb in DozerHandles();
            ghost var before := transforms;
            PushPair(ha, hb, 0.3, 0.5, root);
            PlanarOnlyTrans(old(transforms), before, transforms);
          }
          ghost var before := transforms;
          Keep(ha, 0.15);
          PlanarOnlyTrans(old(transforms), before, transforms);
        }
      }
    }

    /**
     * The second pass of update's pushing: ten rounds in which every ball is
     * pushed apart from each ball before it (half each), then pushed away by
     * every dozer (mix 1: the ball takes the whole move), then kept in the
     * level. Only balls' transforms move, and only in the plane: the dozers
     * stay put.
     */
    method PushBalls(root: real -> real)
      requires IsSquareRoot(root) && UniqueIds(transforms) && Placed(balls, dozers)
      modifies this
      ensures UniqueIds(transforms) && PlanarOnly(old(transforms), transforms)
      ensures StaysExcept(old(transforms), transforms, BallHandles())
      ensures drawables == old(drawables) && cameras == old(cameras) && lamps == old(lamps)
      ensures goals == old(goals) && balls == old(balls) && dozers == old(dozers)
      ensures levelMin == old(levelMin) && levelMax == old(levelMax)
    {
      for iter := 0 to 10
        invariant UniqueIds(transforms) && PlanarOnly(old(transforms), transforms)
        invariant StaysExcept(old(transforms), transforms, BallHandles())
        invariant drawables == old(drawables) && cameras == old(cameras) && lamps == old(lamps)
        invariant goals == old(goals) && balls == old(balls) && dozers == old(dozers)
        invariant levelMin == old(levelMin) && levelMax == old(levelMax)
      {
        for i := 0 to |balls|
          invariant UniqueIds(transforms) && PlanarOnly(old(transforms), transforms)
          invariant StaysExcept(old(transforms), transforms, BallHandles())
          invariant drawables == old(drawables) && cameras == old(cameras) && lamps == old(lamps)
          invariant goals == old(goals) && balls == old(balls) && dozers == old(dozers)
          invariant levelMin == old(levelMin) && levelMax == old(levelMax)
        {
          var hb := balls[i].transform.value;
          assert hb in BallHandles();
          for j := 0 to i
            invariant UniqueIds(transforms) && PlanarOnly(old(transforms), transforms)
            invariant StaysExcept(old(transforms), transforms, BallHandles())
            invariant drawables == old(drawables) && cameras == old(cameras) && lamps == old(lamps)
            invariant goals == old(goals) && balls == old(balls) && dozers == old(dozers)
            invariant levelMin == old(levelMin) && levelMax == old(levelMax)
          {
            var hb2 := balls[j].transform.value;
            assert hb2 in BallHandles();
            ghost var before := transforms;
            PushPair(hb, hb2, 0.3, 0.5, root);
            PlanarOnlyTrans(old(transforms), before, transforms);
          }
          for a := 0 to |dozers|
            invariant UniqueIds(transforms) && PlanarOnly(old(transforms), transforms)
            invariant StaysExcept(old(transforms), transforms, BallHandles())
            invariant drawables == old(drawables) && cameras == old(cameras) && lamps == old(lamps)
            invariant goals == old(goals) && balls == old(balls) && dozers == old(dozers)
            invariant levelMin == old(levelMin) && levelMax == old(levelMax)
          {
            ghost var before := transforms;
            PushPair(dozers[a].transform.value, hb, 0.3, 1.0, root);
            PlanarOnlyTrans(old(transforms), before, transforms);
          }
          ghost var before := transforms;
          Keep(hb, 0.15);
          PlanarOnlyTrans(old(transforms), before, transforms);
        }
      }
    }

    /**
     * update for one frame of `elapsed` seconds: ramp every dozer's treads
     * towards what its controls ask for, then push dozers apart and keep
     * them in the level, then do the same for the balls. Only the treads and
     * the ground-plane positions of dozers and balls change.
     */
    method Update(elapsed: real, root: real -> real)
      requires 0.0 <= elapsed && IsSquareRoot(root) && UniqueIds(transforms) && Placed(balls, dozers)
      modifies this
      ensures |dozers| == |old(dozers)| && forall k :: 0 <= k < |dozers| ==> dozers[k] == Ramp(old(dozers)[k], elapsed)
      ensures UniqueIds(transforms) && PlanarOnly(old(transforms), transforms)
      ensures StaysExcept(old(transforms), transforms, old(DozerHandles()) + old(BallHandles()))
      ensures drawables == old(drawables) && cameras == old(cameras) && lamps == old(lamps)
      ensures goals == old(goals) && balls == old(balls)
      ensures levelMin == old(levelMin) && levelMax == old(levelMax)
    {
      for i := 0 to |dozers|
        invariant |dozers| == |old(dozers)|
        invariant forall k :: 0 <= k < i ==> dozers[k] == Ramp(old(dozers)[k], elapsed)
        invariant forall k :: i <= k < |dozers| ==> dozers[k] == old(dozers)[k]
        invariant transforms == old(transforms) && balls == old(balls)
        invariant drawables == old(drawables) && cameras == old(cameras) && lamps == old(lamps)
        invariant goals == old(goals) && levelMin == old(levelMin) && levelMax == old(levelMax)
      {
        var d := dozers[i];
        var leftTarget := TreadTarget(d.controls.leftForward, d.controls.leftBackward);
        var rightTarget := TreadTarget(d.controls.rightForward, d.controls.rightBackward);
        dozers := dozers[i := d.(leftTread := TreadStep(d.leftTread, leftTarget, elapsed),
                                 rightTread := TreadStep(d.rightTread, rightTarget, elapsed))];
      }
      assert DozerHandles() == old(DozerHandles()) by {
        assert forall k :: 0 <= k < |dozers| ==> dozers[k].transform == old(dozers)[k].transform;
      }
      PushDozers(root);
      ghost var pushed := transforms;
      PushBalls(root);
      PlanarOnlyTrans(old(transforms), pushed, transforms);
    }

    /**
     * Copy assignment: take over the other level's scene, bounds, goals,
     * balls and dozers, re-pointing each ball and dozer through the map from
     * the other level's transforms to the copies (a lookup that throws when
     * the ball or dozer is not on one of them). The scene copy keeps every
     * handle, so the map sends each handle to itself. When a lookup throws,
     * the level is left as it was.
     */
    method CopyFrom(other: PoolLevel) returns (ok: bool)
      modifies this
      ensures !ok ==> unchanged(this)
      ensures ok <==> ((forall k :: 0 <= k < |old(other.balls)| ==> Attached(old(other.transforms), old(other.balls)[k].transform))
                    && (forall k :: 0 <= k < |old(other.dozers)| ==> Attached(old(other.transforms), old(other.dozers)[k].transform)))
      ensures ok ==> transforms == old(other.transforms) && drawables == old(other.drawables)
      ensures ok ==> cameras == old(other.cameras) && lamps == old(other.lamps)
      ensures ok ==> levelMin == old(other.levelMin) && levelMax == old(other.levelMax) && goals == old(other.goals)
      ensures ok ==> balls == old(other.balls) && dozers == old(other.dozers)
    {
      var ts, ds, cs, ls := other.transforms, other.drawables, other.cameras, other.lamps;
      var lo, hi, gs, bs, dz := other.levelMin, other.levelMax, other.goals, other.balls, other.dozers;
      var remap := map h | h in Handles(ts) :: h;
      var nb := bs;
      for k := 0 to |nb|
        invariant nb == bs
        invariant forall j :: 0 <= j < k ==> Attached(ts, bs[j].transform)
      {
        var t := nb[k].transform;
        if t.None? || t.value !in remap {
          ok := false;
          return;
        }
        nb := nb[k := nb[k].(transform := Some(remap[t.value]))];
      }
      var nd := dz;
      for k := 0 to |nd|
        invariant nd == dz
        invariant forall j :: 0 <= j < k ==> Attached(ts, dz[j].transform)
      {
        var t := nd[k].transform;
        if t.None? || t.value !in remap {
          ok := false;
          return;
        }
        nd := nd[k := nd[k].(transform := Some(remap[t.value]))];
      }
      transforms, drawables, cameras, lamps := ts, ds, cs, ls;
      levelMin, levelMax, goals, balls, dozers := lo, hi, gs, nb, nd;
      ok := true;
    }

    /** Write the controls of the dozer on `h`, through the pointer a player holds. */
    method SetControls(h: Handle, c: Controls)
      modifies this
      ensures dozers == WithControls(old(dozers), h, c)
      ensures transforms == old(transforms) && drawables == old(drawables) && cameras == old(cameras) && lamps == old(lamps)
      ensures goals == old(goals) && balls == old(balls)
      ensures levelMin == old(levelMin) && levelMax == old(levelMax)
    {
      dozers := WithControls(dozers, h, c);
    }

    /** spawn_dozer: a diamond-team dozer at the origin. */
    method SpawnDozer(name: string) returns (h: Handle)
      modifies this
      ensures forall i :: 0 <= i < |old(transforms)| ==> old(transforms)[i].id != h
      ensures transforms == old(transforms) + [NewTransform(h)]
      ensures drawables == old(drawables) + [Drawable(Some(h), diamondMesh)]
      ensures dozers == old(dozers) + [Dozer(Some(h), name, 0.0, 0.0, TeamDiamond, NoControls)]
      ensures UniqueIds(old(transforms)) ==> UniqueIds(transforms) && PositionOf(transforms, h) == Zero3
      ensures cameras == old(cameras) && lamps == old(lamps) && goals == old(goals) && balls == old(balls)
      ensures levelMin == old(levelMin) && levelMax == old(levelMax)
    {
      h := AddDozer(name, TeamDiamond);
      PositionAfterSet(transforms, h, Zero3, h);
      transforms := SetPosition(transforms, h, Zero3);
      assert transforms == old(transforms) + [NewTransform(h)];
    }
  }
}
