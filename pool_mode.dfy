/**
 * PoolMode: a game of pool-dozer as the server runs it. Remote players send
 * control messages over a byte stream; each is a frame with a four-byte
 * header (a type byte, then a 24-bit big-endian length) and a body. A
 * control frame has type 'C' and a one-byte body holding the four tread
 * buttons as bits.
 */
module PoolModes {
  import opened Wrappers
  import opened Scene
  import opened PoolLevels
  import opened Input

  /** The type byte of a control frame, 'C'. */
  const ControlType: bv8 := 0x43

  /** The body length a frame's header announces: bytes 1..3, most significant first. */
  function FrameLength(buf: seq<bv8>): (n: nat)
    requires 4 <= |buf|
    ensures n < 0x100_0000
  {
    buf[1] as nat * 0x1_0000 + buf[2] as nat * 0x100 + buf[3] as nat
  }

  /**
   * The four buttons of a control byte: bit 0 left forward, bit 1 left
   * backward, right forward when either of the two low bits is set (the
   * mask is 3), bit 2 right backward.
   */
  function ControlsOf(b: bv8): (c: Controls)
    ensures c.leftForward <==> b & 1 != 0
    ensures c.leftBackward <==> b & 2 != 0
    ensures c.rightForward <==> c.leftForward || c.leftBackward
    ensures c.rightBackward <==> b & 4 != 0
  {
    Controls(b & 1 != 0, b & 2 != 0, b & 3 != 0, b & 4 != 0)
  }

  /** What the receive loop does with the front of the buffer. */
  datatype Step =
    | NeedMore                             // wait for more bytes
    | Close                                // a malformed control frame: drop the player
    | Skip(rest: seq<bv8>)                 // step over a whole frame of another type
    | Frame(control: bv8, rest: seq<bv8>)  // a whole control frame

  /**
   * One turn of the receive loop, with the control byte read from the body
   * (index 4) and a frame of another type stepped over once it is whole.
   */
  function NextFrame(buf: seq<bv8>): (s: Step)
    ensures |buf| < 4 ==> s == NeedMore
    ensures 4 <= |buf| && buf[0] == ControlType && FrameLength(buf) != 1 <==> s == Close
    ensures s.Frame? <==> 5 <= |buf| && buf[0] == ControlType && FrameLength(buf) == 1
    ensures s.Frame? ==> s.control == buf[4] && s.rest == buf[5..]
    ensures s.Skip? <==> 4 <= |buf| && buf[0] != ControlType && 4 + FrameLength(buf) <= |buf|
    ensures s.Skip? ==> s.rest == buf[4 + FrameLength(buf)..]
  {
    if |buf| < 4 then NeedMore
    else
      var length := FrameLength(buf);
      if buf[0] == ControlType then
        if length != 1 then Close
        else if |buf| < 4 + length then NeedMore
        else Frame(buf[4], buf[4 + length..])
      else if |buf| < 4 + length then NeedMore
      else Skip(buf[4 + length..])
  }

  /** What draining a buffer leaves: the bytes kept, the last control byte read, and whether the player was dropped. */
  datatype Drained = Drained(rest: seq<bv8>, last: Option<bv8>, closed: bool)

  /** Run the receive loop until it waits for more bytes or drops the player. */
  function Drain(buf: seq<bv8>): (d: Drained)
    decreases |buf|
  {
    match NextFrame(buf)
    case NeedMore => Drained(buf, None, false)
    case Close => Drained(buf, None, true)
    case Skip(rest) =>
      var d := Drain(rest);
      d
    case Frame(b, rest) =>
      var d := Drain(rest);
      if d.last.None? then d.(last := Some(b)) else d
  }

  /** `r` is what is left of `buf` once a prefix is taken off. */
  predicate SuffixOf(r: seq<bv8>, buf: seq<bv8>) {
    |r| <= |buf| && r == buf[|buf| - |r|..]
  }

  /** The reader leaves a suffix of the buffer. */
  lemma {:induction false} DrainLeavesSuffix(buf: seq<bv8>)
    ensures SuffixOf(Drain(buf).rest, buf)
    decreases |buf|
  {
    var s := NextFrame(buf);
    if s.Skip? || s.Frame? {
      StepLeavesSuffix(buf);
      DrainLeavesSuffix(s.rest);
      SuffixOfSuffix(buf, s.rest, Drain(buf).rest);
    }
  }

  /** A frame read or stepped over leaves a shorter suffix, and draining goes on from there. */
  lemma StepLeavesSuffix(buf: seq<bv8>)
    requires NextFrame(buf).Skip? || NextFrame(buf).Frame?
    ensures |NextFrame(buf).rest| < |buf| && SuffixOf(NextFrame(buf).rest, buf)
    ensures Drain(buf).rest == Drain(NextFrame(buf).rest).rest
  {
  }

  /** Unless the player was dropped, what the reader leaves holds no whole frame. */
  lemma {:induction false} DrainStopsAtPartialFrame(buf: seq<bv8>)
    ensures !Drain(buf).closed ==> NextFrame(Drain(buf).rest) == NeedMore
    decreases |buf|
  {
    match NextFrame(buf)
    case NeedMore =>
    case Close =>
    case Skip(rest) =>
      assert Drain(buf) == Drain(rest);
      DrainStopsAtPartialFrame(rest);
    case Frame(_, rest) =>
      assert Drain(buf).rest == Drain(rest).rest && Drain(buf).closed == Drain(rest).closed;
      DrainStopsAtPartialFrame(rest);
  }

  /** A suffix of a suffix of `buf` is a suffix of `buf`. */
  lemma SuffixOfSuffix(buf: seq<bv8>, rest: seq<bv8>, r: seq<bv8>)
    requires SuffixOf(rest, buf) && SuffixOf(r, rest)
    ensures SuffixOf(r, buf)
  {
  }

  /**
   * Draining `buf` comes to draining `b` after the frames already read,
   * `last` being the last control byte among them.
   */
  predicate DrainsTo(buf: seq<bv8>, b: seq<bv8>, last: Option<bv8>) {
    Drain(buf) == Drain(b).(last := if Drain(b).last.Some? then Drain(b).last else last)
  }

  /** One more turn of the receive loop, in terms of what draining the whole buffer comes to. */
  lemma DrainStep(buf: seq<bv8>, b: seq<bv8>, last: Option<bv8>)
    requires DrainsTo(buf, b, last)
    ensures NextFrame(b).NeedMore? ==> Drain(buf) == Drained(b, last, false)
    ensures NextFrame(b).Close? ==> Drain(buf) == Drained(b, last, true)
    ensures NextFrame(b).Skip? ==> DrainsTo(buf, NextFrame(b).rest, last)
    ensures NextFrame(b).Frame? ==> DrainsTo(buf, NextFrame(b).rest, Some(NextFrame(b).control))
  {
  }

  /** A whole control frame carrying `b`. */
  function ControlFrame(b: bv8): (f: seq<bv8>)
    ensures |f| == 5 && NextFrame(f) == Frame(b, [])
  {
    [ControlType, 0, 0, 1, b]
  }

  /** Control frames back to back. */
  function ControlFrames(bs: seq<bv8>): (f: seq<bv8>)
    ensures |f| == 5 * |bs|
  {
    if |bs| == 0 then [] else ControlFrame(bs[0]) + ControlFrames(bs[1..])
  }

  /**
   * Draining control frames followed by an unfinished one reads every frame,
   * keeps the unfinished bytes and ends with the last frame's byte.
   */
  lemma {:induction false} DrainControlFrames(bs: seq<bv8>, tail: seq<bv8>)
    requires NextFrame(tail) == NeedMore
    ensures Drain(ControlFrames(bs) + tail) == Drained(tail, if |bs| == 0 then None else Some(bs[|bs| - 1]), false)
  {
    if |bs| > 0 {
      var buf := ControlFrames(bs) + tail;
      var rest := ControlFrames(bs[1..]) + tail;
      assert buf == ControlFrame(bs[0]) + rest;
      var d := Drain(rest);
      assert d == Drained(tail, if |bs| == 1 then None else Some(bs[|bs| - 1]), false) by {
        DrainControlFrames(bs[1..], tail);
      }
      assert Drain(buf) == if d.last.None? then d.(last := Some(bs[0])) else d by {
        NextControlFrame(bs[0], rest);
      }
    } else {
      assert ControlFrames(bs) + tail == tail;
    }
  }

  /** A control frame at the front of the buffer is read whatever follows it. */
  lemma NextControlFrame(b: bv8, rest: seq<bv8>)
    ensures NextFrame(ControlFrame(b) + rest) == Frame(b, rest)
  {
    var f := ControlFrame(b);
    var buf := f + rest;
    assert buf[0] == f[0] && buf[1] == f[1] && buf[2] == f[2] && buf[3] == f[3] && buf[4] == b;
    assert FrameLength(buf) == FrameLength(f) == 1;
    assert buf[5..] == rest;
  }

  // ---- the framing as written ----

  /** One turn of the receive loop as written. */
  datatype StepAsWritten =
    | WaitAsWritten                          // `break`: wait for more bytes
    | CloseAsWritten                         // length other than 1
    | ReadPastEnd                            // reads buf[5] with only five bytes buffered
    | FrameAsWritten(control: bv8, rest: seq<bv8>)
    | NoProgress                             // another type: nothing consumed, the loop comes round again

  /** The receive loop's turn as written: the control byte is read at index 5, and a frame of another type is left in place. */
  function NextFrameAsWritten(buf: seq<bv8>): (s: StepAsWritten)
    ensures s.NoProgress? <==> 4 <= |buf| && buf[0] != ControlType
    ensures s.FrameAsWritten? ==> 6 <= |buf| && s.control == buf[5] && s.rest == buf[5..]
  {
    if |buf| < 4 then WaitAsWritten
    else
      var length := FrameLength(buf);
      if buf[0] == ControlType then
        if length != 1 then CloseAsWritten
        else if |buf| < 4 + length then WaitAsWritten
        else if |buf| <= 5 then ReadPastEnd
        else FrameAsWritten(buf[5], buf[4 + length..])
      else NoProgress
  }

  /** A single whole control frame makes the loop as written read one byte past the buffer. */
  lemma SingleFrameReadsPastEnd(b: bv8)
    ensures NextFrameAsWritten(ControlFrame(b)) == ReadPastEnd
    ensures NextFrame(ControlFrame(b)) == Frame(b, [])
  {
  }

  /** With two control frames buffered, the loop as written takes the second frame's type byte for the first's controls. */
  lemma TwoFramesMisread(b1: bv8, b2: bv8)
    ensures NextFrameAsWritten(ControlFrame(b1) + ControlFrame(b2)) == FrameAsWritten(ControlType, ControlFrame(b2))
    ensures NextFrame(ControlFrame(b1) + ControlFrame(b2)) == Frame(b1, ControlFrame(b2))
  {
    var buf := ControlFrame(b1) + ControlFrame(b2);
    assert buf[5..] == ControlFrame(b2);
  }

  /**
   * A whole frame of another type is left in the buffer by the loop as
   * written, so its condition holds again on the same bytes and the loop
   * never ends; the corrected loop steps over the frame.
   */
  lemma OtherTypeNeverConsumed(t: bv8)
    requires t != ControlType
    ensures NextFrameAsWritten([t, 0, 0, 0]) == NoProgress
    ensures NextFrame([t, 0, 0, 0]) == Skip([])
  {
  }

  // ---- the mode ----

  /** The keys a local player drives with. */
  predicate IsTreadKey(k: Key) { k == KeyW || k == KeyS || k == KeyUp || k == KeyDown }

  /** The controls after pressing (`down`) or releasing a tread key: only that key's button changes. */
  function PressKey(c: Controls, k: Key, down: bool): (r: Controls)
    requires IsTreadKey(k)
    ensures r.leftForward == if k == KeyW then down else c.leftForward
    ensures r.leftBackward == if k == KeyS then down else c.leftBackward
    ensures r.rightForward == if k == KeyUp then down else c.rightForward
    ensures r.rightBackward == if k == KeyDown then down else c.rightBackward
  {
    match k
    case KeyW => c.(leftForward := down)
    case KeyS => c.(leftBackward := down)
    case KeyUp => c.(rightForward := down)
    case KeyDown => c.(rightBackward := down)
  }

  /** A connection, known by an identifier that stands for its address. */
  type ConnId = nat

  /** What the mode remembers about a remote player: a name and the dozer it drives. */
  datatype ConnectionInfo = ConnectionInfo(name: string, dozer: Option<Handle>)

  /** A dozer on `h` carries `name`. */
  predicate HasDozer(dz: seq<Dozer>, h: Handle, name: string) {
    exists i :: 0 <= i < |dz| && dz[i].transform == Some(h) && dz[i].name == name
  }

  /** The same connections, under the same player names. */
  predicate SameNames(before: map<ConnId, ConnectionInfo>, after: map<ConnId, ConnectionInfo>) {
    after.Keys == before.Keys && forall c :: c in before ==> after[c].name == before[c].name
  }

  /** The player of `info` drives a dozer spawned at index `n` or later of `dz`, fresh and named after the player. */
  predicate OwnsFresh(info: ConnectionInfo, dz: seq<Dozer>, n: nat) {
    info.dozer.Some? && exists k :: n <= k < |dz| && dz[k] == Dozer(info.dozer, info.name, 0.0, 0.0, TeamDiamond, NoControls)
  }

  /**
   * Every connection outside `todo` drives its own fresh dozer from index `n` on,
   * on one of the transforms `ts`, and no two of them share a dozer.
   */
  predicate OwnedBut(conns: map<ConnId, ConnectionInfo>, dz: seq<Dozer>, ts: seq<Transform>, n: nat, todo: set<ConnId>) {
    (forall c :: c in conns && c !in todo ==> OwnsFresh(conns[c], dz, n) && Attached(ts, conns[c].dozer))
    && (forall c, d :: c in conns && c !in todo && d in conns && d !in todo && c != d ==> conns[c].dozer != conns[d].dozer)
  }

  /** Every connection drives its own fresh dozer from index `n` on. */
  predicate Owned(conns: map<ConnId, ConnectionInfo>, dz: seq<Dozer>, ts: seq<Transform>, n: nat) {
    OwnedBut(conns, dz, ts, n, {})
  }

  /**
   * Giving connection `c` a dozer on a new handle `h`, appended to the level,
   * takes `c` off the to-do set and keeps the dozers of the connections distinct.
   */
  lemma OwnedStep(conns: map<ConnId, ConnectionInfo>, dz: seq<Dozer>, ts: seq<Transform>, n: nat,
                  todo: set<ConnId>, c: ConnId, h: Handle)
    requires OwnedBut(conns, dz, ts, n, todo) && c in conns && n <= |dz|
    requires forall i :: 0 <= i < |ts| ==> ts[i].id != h
    ensures OwnedBut(conns[c := conns[c].(dozer := Some(h))],
                     dz + [Dozer(Some(h), conns[c].name, 0.0, 0.0, TeamDiamond, NoControls)],
                     ts + [NewTransform(h)], n, todo - {c})
  {
    var after := conns[c := conns[c].(dozer := Some(h))];
    var dz' := dz + [Dozer(Some(h), conns[c].name, 0.0, 0.0, TeamDiamond, NoControls)];
    var ts' := ts + [NewTransform(h)];
    forall d | d in after && d !in todo - {c}
      ensures OwnsFresh(after[d], dz', n) && Attached(ts', after[d].dozer)
    {
      if d == c {
        assert dz'[|dz|] == Dozer(Some(h), conns[c].name, 0.0, 0.0, TeamDiamond, NoControls);
        assert ts'[|ts|].id == h;
      } else {
        var k :| n <= k < |dz| && dz[k] == Dozer(conns[d].dozer, conns[d].name, 0.0, 0.0, TeamDiamond, NoControls);
        assert dz'[k] == dz[k];
        var i :| 0 <= i < |ts| && ts[i].id == conns[d].dozer.value;
        assert ts'[i] == ts[i];
      }
    }
    forall d, e | d in after && d !in todo - {c} && e in after && e !in todo - {c} && d != e
      ensures after[d].dozer != after[e].dozer
    {
      if d == c {
        var i :| 0 <= i < |ts| && ts[i].id == conns[e].dozer.value;
      } else if e == c {
        var i :| 0 <= i < |ts| && ts[i].id == conns[d].dozer.value;
      }
    }
  }

  /** Adding a dozer on a new handle `h` keeps every connection's dozer its own, and none of them is on `h`. */
  lemma OwnedKept(conns: map<ConnId, ConnectionInfo>, dz: seq<Dozer>, ts: seq<Transform>, n: nat, x: Dozer, h: Handle)
    requires Owned(conns, dz, ts, n)
    requires forall i :: 0 <= i < |ts| ==> ts[i].id != h
    ensures Owned(conns, dz + [x], ts + [NewTransform(h)], n)
    ensures forall c :: c in conns ==> conns[c].dozer != Some(h)
  {
    forall c | c in conns
      ensures OwnsFresh(conns[c], dz + [x], n) && Attached(ts + [NewTransform(h)], conns[c].dozer)
      ensures conns[c].dozer != Some(h)
    {
      var k :| n <= k < |dz| && dz[k] == Dozer(conns[c].dozer, conns[c].name, 0.0, 0.0, TeamDiamond, NoControls);
      assert (dz + [x])[k] == dz[k];
      var i :| 0 <= i < |ts| && ts[i].id == conns[c].dozer.value;
      assert (ts + [NewTransform(h)])[i] == ts[i];
    }
  }

  /** The name a newly opened connection's player gets: its socket number in brackets. */
  function PlayerName(socket: nat): (s: string)
    ensures |s| >= 3 && s[0] == '[' && s[|s| - 1] == ']'
    ensures forall i :: 1 <= i < |s| - 1 ==> IsDigit(s[i])
    ensures DigitsValue(s[1..|s| - 1]) == socket
  {
    DecimalValue(socket);
    var s := "[" + Decimal(socket) + "]";
    assert s[1..|s| - 1] == Decimal(socket);
    s
  }

  /** `after` is `before` with `n` more elements at the end. */
  predicate Grown<T(==)>(before: seq<T>, after: seq<T>, n: nat) {
    |after| == |before| + n && after[..|before|] == before
  }

  /** A dozer as spawn_dozer makes it: on a transform, treads at rest, diamond team, no controls held. */
  predicate Spawned(d: Dozer) {
    d.transform.Some? && d.leftTread == 0.0 && d.rightTread == 0.0 && d.team == TeamDiamond && d.controls == NoControls
  }

  /** `after` is `before` with `n` dozers as spawn_dozer makes them at the end. */
  predicate SpawnedAfter(before: seq<Dozer>, after: seq<Dozer>, n: nat) {
    Grown(before, after, n) && forall k :: |before| <= k < |after| ==> Spawned(after[k])
  }

  /** Appending one element to a list grown by `n` grows it by `n + 1`. */
  lemma GrownStep<T>(before: seq<T>, mid: seq<T>, n: nat, x: T)
    requires Grown(before, mid, n)
    ensures Grown(before, mid + [x], n + 1)
  {
    assert (mid + [x])[..|before|] == mid[..|before|];
  }

  /** Appending a spawned dozer to dozers spawned by `n` grows them by `n + 1`. */
  lemma SpawnedStep(before: seq<Dozer>, mid: seq<Dozer>, n: nat, x: Dozer)
    requires SpawnedAfter(before, mid, n) && Spawned(x)
    ensures SpawnedAfter(before, mid + [x], n + 1)
  {
    GrownStep(before, mid, n, x);
    assert forall k :: |before| <= k < |mid| ==> (mid + [x])[k] == mid[k];
  }

  /** Every ball and dozer of level `l` is on one of its transforms, as copying it demands. */
  ghost predicate Copyable(l: PoolLevel)
    reads l
  {
    (forall k :: 0 <= k < |l.balls| ==> Attached(l.transforms, l.balls[k].transform))
    && (forall k :: 0 <= k < |l.dozers| ==> Attached(l.transforms, l.dozers[k].transform))
  }

  class PoolMode {
    /** The level every game starts from. */
    const start: PoolLevel
    /** The level being played. */
    const level: PoolLevel
    /** Whether the mode serves remote players. */
    const serving: bool
    /** The local player's dozer. */
    var dozer: Option<Handle>
    /** The index of the level camera in use. */
    var camera: Option<nat>
    var connections: map<ConnId, ConnectionInfo>

    /** The two levels are distinct objects, and the level is fit for an update. */
    ghost predicate Valid()
      reads this, level, start
    {
      level != start && UniqueIds(level.transforms) && Placed(level.balls, level.dozers) && UniqueIds(start.transforms)
    }

    /**
     * A new mode has no connections and restarts at once: the level becomes
     * the start level with the local player's dozer added, seen through the
     * first camera.
     */
    constructor(start: PoolLevel, level: PoolLevel, serving: bool)
      requires start != level && UniqueIds(start.transforms) && UniqueIds(level.transforms) && Placed(level.balls, level.dozers)
      modifies level
      ensures this.start == start && this.level == level && this.serving == serving
      ensures connections == map[]
      ensures Valid()
      ensures camera == if Copyable(start) && |start.cameras| > 0 then Some(0) else None
      ensures !Copyable(start) ==> dozer.None? && unchanged(level)
      ensures Copyable(start) ==>
        level.Scenery() == start.Scenery() &&
        Grown(start.transforms, level.transforms, 1) && Grown(start.drawables, level.drawables, 1) &&
        dozer.Some? && level.dozers == start.dozers + [Dozer(dozer, "Local", 0.0, 0.0, TeamDiamond, NoControls)]
    {
      this.start := start;
      this.level := level;
      this.serving := serving;
      dozer, camera, connections := None, None, map[];
      new;
      var ok := Restart();
      if Copyable(start) {
        assert level.dozers == level.dozers[..|start.dozers|] + [level.dozers[|level.dozers| - 1]];
      }
    }

    /**
     * restart: copy the start level, give every connected player a fresh
     * dozer (when serving), add the local player's dozer, and look at the
     * level through its first camera; a level without a camera is an error.
     */
    method Restart() returns (ok: bool)
      requires Valid()
      modifies this, level
      ensures Valid()
      ensures ok <==> Copyable(start) && |start.cameras| > 0
      ensures ok ==> |level.cameras| > 0 && camera == Some(0)
      ensures !ok ==> camera == old(camera)
      ensures !Copyable(start) ==> unchanged(this) && unchanged(level)
      ensures Copyable(start) ==>
        var n := (if serving then |old(connections)| else 0) + 1;
        level.Scenery() == start.Scenery() &&
        Grown(start.transforms, level.transforms, n) && Grown(start.drawables, level.drawables, n) &&
        SpawnedAfter(start.dozers, level.dozers, n)
      ensures Copyable(start) ==>
        dozer.Some? && level.dozers[|level.dozers| - 1] == Dozer(dozer, "Local", 0.0, 0.0, TeamDiamond, NoControls)
      ensures Copyable(start) && serving ==>
        SameNames(old(connections), connections) && Owned(connections, level.dozers, level.transforms, |start.dozers|) &&
        forall c :: c in connections ==> connections[c].dozer != dozer
      ensures Copyable(start) && !serving ==> connections == old(connections)
    {
      var copied := level.CopyFrom(start);
      if !copied {
        return false;
      }
      AttachedPlaced(level.transforms, level.balls, level.dozers);
      SpawnPlayers();
      if |level.cameras| == 0 {
        return false;
      }
      camera := Some(0);
      ok := true;
    }

    /** The dozers restart adds: one per connected player when serving, then the local player's. */
    method SpawnPlayers()
      requires level != start && UniqueIds(level.transforms) && Placed(level.balls, level.dozers)
      modifies this, level
      ensures level != start && UniqueIds(level.transforms) && Placed(level.balls, level.dozers)
      ensures camera == old(camera) && level.Scenery() == old(level.Scenery())
      ensures var n := (if serving then |old(connections)| else 0) + 1;
        Grown(old(level.transforms), level.transforms, n) && Grown(old(level.drawables), level.drawables, n) &&
        SpawnedAfter(old(level.dozers), level.dozers, n)
      ensures dozer.Some? && level.dozers[|level.dozers| - 1] == Dozer(dozer, "Local", 0.0, 0.0, TeamDiamond, NoControls)
      ensures serving ==>
        SameNames(old(connections), connections) && Owned(connections, level.dozers, level.transforms, |old(level.dozers)|) &&
        forall c :: c in connections ==> connections[c].dozer != dozer
      ensures !serving ==> connections == old(connections)
    {
      if serving {
        SpawnRemotes();
      }
      ghost var n: nat := if serving then |old(connections)| else 0;
      ghost var ts, ds, before := level.transforms, level.drawables, level.dozers;
      var h := level.SpawnDozer("Local");
      GrownStep(old(level.transforms), ts, n, NewTransform(h));
      GrownStep(old(level.drawables), ds, n, Drawable(Some(h), level.diamondMesh));
      ghost var x := level.dozers[|level.dozers| - 1];
      SpawnedStep(old(level.dozers), before, n, x);
      if serving {
        OwnedKept(connections, before, ts, |old(level.dozers)|, x, h);
      }
      dozer := Some(h);
    }

    /** The loop of restart that gives every connected player a fresh dozer named after it. */
    method SpawnRemotes()
      requires level != start && UniqueIds(level.transforms) && Placed(level.balls, level.dozers)
      modifies this, level
      ensures level != start && UniqueIds(level.transforms) && Placed(level.balls, level.dozers)
      ensures dozer == old(dozer) && camera == old(camera) && level.Scenery() == old(level.Scenery())
      ensures SameNames(old(connections), connections)
      ensures Owned(connections, level.dozers, level.transforms, |old(level.dozers)|)
      ensures Grown(old(level.transforms), level.transforms, |old(connections)|)
      ensures Grown(old(level.drawables), level.drawables, |old(connections)|)
      ensures SpawnedAfter(old(level.dozers), level.dozers, |old(connections)|)
    {
      var todo := connections.Keys;
      ghost var done: nat := 0;
      while todo != {}
        invariant todo <= connections.Keys
        invariant UniqueIds(level.transforms) && Placed(level.balls, level.dozers)
        invariant dozer == old(dozer) && camera == old(camera) && level.Scenery() == old(level.Scenery())
        invariant done + |todo| == |old(connections)|
        invariant Grown(old(level.transforms), level.transforms, done)
        invariant Grown(old(level.drawables), level.drawables, done)
        invariant SpawnedAfter(old(level.dozers), level.dozers, done)
        invariant SameNames(old(connections), connections)
        invariant OwnedBut(connections, level.dozers, level.transforms, |old(level.dozers)|, todo)
        decreases |todo|
      {
        var c :| c in todo;
        ghost var ts, ds, before, conns := level.transforms, level.drawables, level.dozers, connections;
        SpawnRemote(c);
        GrownStep(old(level.transforms), ts, done, level.transforms[|level.transforms| - 1]);
        GrownStep(old(level.drawables), ds, done, level.drawables[|level.drawables| - 1]);
        SpawnedStep(old(level.dozers), before, done, level.dozers[|level.dozers| - 1]);
        OwnedStep(conns, before, ts, |old(level.dozers)|, todo, c, connections[c].dozer.value);
        todo := todo - {c};
        done := done + 1;
      }
    }

    /** One turn of restart's loop: connection `c` gets a fresh dozer named after its player. */
    method SpawnRemote(c: ConnId)
      requires c in connections
      requires level != start && UniqueIds(level.transforms) && Placed(level.balls, level.dozers)
      modifies this, level
      ensures level != start && UniqueIds(level.transforms) && Placed(level.balls, level.dozers)
      ensures dozer == old(dozer) && camera == old(camera) && level.Scenery() == old(level.Scenery())
      ensures c in connections && connections[c].dozer.Some?
      ensures forall i :: 0 <= i < |old(level.transforms)| ==> old(level.transforms)[i].id != connections[c].dozer.value
      ensures connections == old(connections)[c := old(connections[c]).(dozer := connections[c].dozer)]
      ensures level.transforms == old(level.transforms) + [NewTransform(connections[c].dozer.value)]
      ensures level.drawables == old(level.drawables) + [Drawable(connections[c].dozer, level.diamondMesh)]
      ensures level.dozers == old(level.dozers) + [Dozer(connections[c].dozer, old(connections[c].name), 0.0, 0.0, TeamDiamond, NoControls)]
    {
      var h := level.SpawnDozer(connections[c].name);
      connections := connections[c := connections[c].(dozer := Some(h))];
    }

    /**
     * handle_event: with a local dozer, W and S press or release its left
     * tread's forward and backward buttons, UP and DOWN its right tread's;
     * anything else is not handled.
     */
    method HandleEvent(evt: Event) returns (handled: bool)
      requires Valid()
      modifies level
      ensures Valid()
      ensures handled <==> dozer.Some? && (evt.Press? || evt.Release?) && IsTreadKey(evt.key)
      ensures handled ==>
        level.dozers == WithControls(old(level.dozers), dozer.value,
                                     PressKey(ControlsAt(old(level.dozers), dozer.value), evt.key, evt.Press?))
      ensures !handled ==> level.dozers == old(level.dozers)
      ensures level.transforms == old(level.transforms) && level.drawables == old(level.drawables)
      ensures level.Scenery() == old(level.Scenery())
    {
      if dozer.None? || !(evt.Press? || evt.Release?) || !IsTreadKey(evt.key) {
        return false;
      }
      level.SetControls(dozer.value, PressKey(ControlsAt(level.dozers, dozer.value), evt.key, evt.Press?));
      handled := true;
    }

    /** A connection opens: its player gets a fresh dozer named after the socket. */
    method Open(c: ConnId, socket: nat)
      requires Valid()
      modifies this, level
      ensures Valid()
      ensures c in connections && connections[c].name == PlayerName(socket) && connections[c].dozer.Some?
      ensures HasDozer(level.dozers, connections[c].dozer.value, PlayerName(socket))
      ensures forall d :: d in old(connections) && d != c ==> d in connections && connections[d] == old(connections[d])
      ensures connections.Keys == old(connections.Keys) + {c}
      ensures level.dozers == old(level.dozers) + [Dozer(connections[c].dozer, PlayerName(socket), 0.0, 0.0, TeamDiamond, NoControls)]
      ensures level.transforms == old(level.transforms) + [NewTransform(connections[c].dozer.value)]
      ensures level.drawables == old(level.drawables) + [Drawable(connections[c].dozer, level.diamondMesh)]
      ensures dozer == old(dozer) && camera == old(camera) && level.Scenery() == old(level.Scenery())
    {
      var name := PlayerName(socket);
      var h := level.SpawnDozer(name);
      assert level.dozers[|level.dozers| - 1].transform == Some(h);
      connections := connections[c := ConnectionInfo(name, Some(h))];
    }

    /** remove_player: drop the connection's dozer from the level and forget the connection. */
    method RemovePlayer(c: ConnId)
      requires Valid()
      modifies this, level
      ensures Valid()
      ensures connections == old(connections) - {c}
      ensures c in old(connections) && old(connections[c].dozer).Some? ==>
        var h := old(connections[c].dozer).value;
        level.dozers == EraseAt(old(level.dozers), FirstDozerAt(old(level.dozers), h)) &&
        level.transforms == EraseAt(old(level.transforms), IndexOf(old(level.transforms), h)) &&
        level.drawables == EraseAt(old(level.drawables), FirstDrawableAt(old(level.drawables), h)) &&
        IndexOf(level.transforms, h).None?
      ensures c !in old(connections) || old(connections[c].dozer).None? ==>
        level.dozers == old(level.dozers) && level.transforms == old(level.transforms) &&
        level.drawables == old(level.drawables)
      ensures dozer == old(dozer) && camera == old(camera) && level.Scenery() == old(level.Scenery())
    {
      if c in connections {
        match connections[c].dozer {
          case Some(h) =>
            level.RemoveDozer(h);
            PlacedAfterErase(old(level.balls), old(level.dozers), h);
          case None =>
        }
        connections := connections - {c};
      }
    }

    /**
     * The receive loop for connection `c`: read whole control frames from
     * the front of its buffer, setting its dozer's controls from each, step
     * over whole frames of other types, and stop at an unfinished frame; a
     * control frame of the wrong length drops the player, whose dozer then
     * leaves the level. Returns the bytes kept and whether the player was
     * dropped, as `Drain` says.
     */
    method Receive(c: ConnId, buf: seq<bv8>) returns (rest: seq<bv8>, closed: bool)
      requires Valid()
      modifies this, level
      ensures Valid()
      ensures rest == Drain(buf).rest && closed == Drain(buf).closed
      ensures !closed ==>
        connections == if c in old(connections) then old(connections) else old(connections)[c := ConnectionInfo("", None)]
      ensures !closed ==> level.transforms == old(level.transforms) && level.drawables == old(level.drawables)
      ensures !closed ==>
        var h := if c in old(connections) then old(connections[c].dozer) else None;
        level.dozers == if h.Some? && Drain(buf).last.Some?
                        then WithControls(old(level.dozers), h.value, ControlsOf(Drain(buf).last.value))
                        else old(level.dozers)
      ensures closed ==> connections == old(connections) - {c}
      ensures closed ==>
        var h := if c in old(connections) then old(connections[c].dozer) else None;
        (h.Some? ==>
          level.dozers == EraseAt(old(level.dozers), FirstDozerAt(old(level.dozers), h.value)) &&
          level.transforms == EraseAt(old(level.transforms), IndexOf(old(level.transforms), h.value)) &&
          level.drawables == EraseAt(old(level.drawables), FirstDrawableAt(old(level.drawables), h.value))) &&
        (h.None? ==>
          level.dozers == old(level.dozers) && level.transforms == old(level.transforms) &&
          level.drawables == old(level.drawables))
      ensures dozer == old(dozer) && camera == old(camera) && level.Scenery() == old(level.Scenery())
    {
      if c !in connections {
        connections := connections[c := ConnectionInfo("", None)];
      }
      var drop;
      rest, drop := ReadFrames(connections[c].dozer, buf);
      if drop {
        if connections[c].dozer.Some? && Drain(buf).last.Some? {
          EraseWithControls(old(level.dozers), connections[c].dozer.value, ControlsOf(Drain(buf).last.value));
        }
        RemovePlayer(c);
      }
      closed := drop;
    }

    /**
     * The frame loop of the receive callback: control frames set the
     * controls of the dozer on `h` (when there is one), and the loop stops
     * at an unfinished frame or a malformed control frame.
     */
    method ReadFrames(h: Option<Handle>, buf: seq<bv8>) returns (rest: seq<bv8>, drop: bool)
      requires level != start && UniqueIds(level.transforms) && Placed(level.balls, level.dozers)
      modifies level
      ensures level != start && UniqueIds(level.transforms) && Placed(level.balls, level.dozers)
      ensures rest == Drain(buf).rest && drop == Drain(buf).closed
      ensures level.transforms == old(level.transforms) && level.drawables == old(level.drawables)
      ensures level.Scenery() == old(level.Scenery())
      ensures level.dozers == if h.Some? && Drain(buf).last.Some?
                              then WithControls(old(level.dozers), h.value, ControlsOf(Drain(buf).last.value))
                              else old(level.dozers)
    {
      var b := buf;
      drop := false;
      ghost var last: Option<bv8> := None;
      while !drop
        invariant level.transforms == old(level.transforms) && level.drawables == old(level.drawables)
        invariant level.Scenery() == old(level.Scenery())
        invariant !drop ==> DrainsTo(buf, b, last)
        invariant drop ==> Drain(buf) == Drained(b, last, true)
        invariant level.dozers == if h.Some? && last.Some?
                                  then WithControls(old(level.dozers), h.value, ControlsOf(last.value))
                                  else old(level.dozers)
        decreases |b|, !drop
      {
        DrainStep(buf, b, last);
        match NextFrame(b)
        case NeedMore =>
          break;
        case Close =>
          drop := true;
        case Skip(r) =>
          b := r;
        case Frame(control, r) =>
          if h.Some? {
            if last.Some? {
              WithControlsTwice(old(level.dozers), h.value, ControlsOf(last.value), ControlsOf(control));
            }
            level.SetControls(h.value, ControlsOf(control));
          }
          b, last := r, Some(control);
      }
      rest := b;
    }
  }

  /** Erasing the dozer whose controls were just set comes to erasing it before they were set. */
  lemma EraseWithControls(dz: seq<Dozer>, h: Handle, c: Controls)
    ensures EraseAt(WithControls(dz, h, c), FirstDozerAt(WithControls(dz, h, c), h)) == EraseAt(dz, FirstDozerAt(dz, h))
  {
    match FirstDozerAt(dz, h)
    case None =>
    case Some(i) =>
      var r := WithControls(dz, h, c);
      assert r[..i] == dz[..i] && r[i + 1..] == dz[i + 1..];
  }

  /** A level whose balls and dozers are all attached has them all on a transform. */
  lemma AttachedPlaced(ts: seq<Transform>, balls: seq<Ball>, dozers: seq<Dozer>)
    requires forall k :: 0 <= k < |balls| ==> Attached(ts, balls[k].transform)
    requires forall k :: 0 <= k < |dozers| ==> Attached(ts, dozers[k].transform)
    ensures Placed(balls, dozers)
  {
  }

  /** Setting a dozer's controls keeps every ball and dozer on a transform. */
  lemma PlacedWithControls(balls: seq<Ball>, dozers: seq<Dozer>, h: Handle, c: Controls)
    requires Placed(balls, dozers)
    ensures Placed(balls, WithControls(dozers, h, c))
  {
  }

  /** Erasing a dozer keeps every remaining ball and dozer on a transform. */
  lemma PlacedAfterErase(balls: seq<Ball>, dozers: seq<Dozer>, h: Handle)
    requires Placed(balls, dozers)
    ensures Placed(balls, EraseAt(dozers, FirstDozerAt(dozers, h)))
  {
    if FirstDozerAt(dozers, h).Some? {
      EraseAtKeepsOrder(dozers, FirstDozerAt(dozers, h).value);
    }
  }
}
