/**
 * The scene graph pieces the game levels are built from. A transform is a
 * value that carries its own handle, the stand-in for its address: every
 * pointer to a transform is an `Option<Handle>`, `None` being the null
 * pointer, and a transform is found in a level's list by its handle.
 */
module Scene {
  import opened Wrappers
  import opened Geometry

  type Handle = nat

  datatype Transform = Transform(id: Handle, name: string, position: Vec3, rotation: Quat, scale: Vec3,
                                 parent: Option<Handle>)

  /** A range of vertices of a mesh buffer: primitive type, first vertex and vertex count. */
  datatype Mesh = Mesh(primitive: nat, start: nat, count: nat)

  datatype Drawable = Drawable(transform: Option<Handle>, mesh: Mesh)
  datatype Camera = Camera(transform: Option<Handle>, fovy: real, near: real)
  datatype Lamp = Lamp(transform: Option<Handle>)

  /** A transform as `emplace_back()` creates it: unnamed, at the origin, unrotated, unit scale, no parent. */
  function NewTransform(id: Handle): (t: Transform)
    ensures t.id == id && t.parent.None? && t.position == Zero3 && t.scale == One3
  {
    Transform(id, "", Zero3, IdentityQuat, One3, None)
  }

  /** No two transforms of the list share an address. */
  predicate UniqueIds(ts: seq<Transform>) {
    forall i, j :: 0 <= i < j < |ts| ==> ts[i].id != ts[j].id
  }

  /** `r` is the null pointer or points to a transform of the list. */
  predicate Resolves(ts: seq<Transform>, r: Option<Handle>) {
    r.None? || exists i :: 0 <= i < |ts| && ts[i].id == r.value
  }

  /** The position in the list of the transform with handle `h`. */
  function IndexOf(ts: seq<Transform>, h: Handle): (r: Option<nat>)
    ensures r.Some? ==> r.value < |ts| && ts[r.value].id == h
    ensures r.Some? ==> forall j :: 0 <= j < r.value ==> ts[j].id != h
    ensures r.None? <==> forall j :: 0 <= j < |ts| ==> ts[j].id != h
  {
    if |ts| == 0 then None
    else if ts[0].id == h then Some(0)
    else match IndexOf(ts[1..], h)
      case None =>
        assert forall j :: 1 <= j < |ts| ==> ts[j].id == ts[1..][j - 1].id;
        None
      case Some(k) =>
        assert forall j :: 1 <= j < k + 1 ==> ts[j].id == ts[1..][j - 1].id;
        Some(k + 1)
  }

  /** In a list without shared addresses, the transform at position `i` is found at `i`. */
  lemma IndexOfUnique(ts: seq<Transform>, i: nat)
    requires UniqueIds(ts) && i < |ts|
    ensures IndexOf(ts, ts[i].id) == Some(i)
  {
  }

  /** A handle one past every handle of the list: the address of a newly allocated transform. */
  function FreshHandle(ts: seq<Transform>): (h: Handle)
    ensures forall i :: 0 <= i < |ts| ==> ts[i].id < h
  {
    if |ts| == 0 then 0
    else
      var rest := FreshHandle(ts[1..]);
      assert forall i :: 1 <= i < |ts| ==> ts[i] == ts[1..][i - 1];
      if ts[0].id < rest then rest else ts[0].id + 1
  }

  /** The list with the position of the transform with handle `h` replaced by `p`. */
  function SetPosition(ts: seq<Transform>, h: Handle, p: Vec3): (r: seq<Transform>)
    ensures |r| == |ts|
    ensures forall i :: 0 <= i < |ts| ==>
      r[i] == if ts[i].id == h then ts[i].(position := p) else ts[i]
  {
    seq(|ts|, i requires 0 <= i < |ts| => if ts[i].id == h then ts[i].(position := p) else ts[i])
  }

  /** The position of the transform with handle `h`, the origin if there is none. */
  function PositionOf(ts: seq<Transform>, h: Handle): (p: Vec3)
    ensures IndexOf(ts, h).None? ==> p == Zero3
    ensures UniqueIds(ts) ==> forall i :: 0 <= i < |ts| && ts[i].id == h ==> p == ts[i].position
  {
    match IndexOf(ts, h)
    case None => Zero3
    case Some(i) => ts[i].position
  }

  /**
   * Setting a position and reading it back gives that position when the
   * handle is in the list; every other handle reads as before, and the
   * handles stay where they were.
   */
  lemma PositionAfterSet(ts: seq<Transform>, h: Handle, p: Vec3, g: Handle)
    ensures IndexOf(SetPosition(ts, h, p), g) == IndexOf(ts, g)
    ensures PositionOf(SetPosition(ts, h, p), g) == if g == h && IndexOf(ts, h).Some? then p else PositionOf(ts, g)
  {
    var r := SetPosition(ts, h, p);
    assert forall i :: 0 <= i < |ts| ==> r[i].id == ts[i].id;
    IndexOfSameIds(ts, r, g);
  }

  /** Lists with the same handles in the same order agree on every lookup. */
  lemma {:induction false} IndexOfSameIds(ts: seq<Transform>, us: seq<Transform>, g: Handle)
    requires |ts| == |us| && forall i :: 0 <= i < |ts| ==> ts[i].id == us[i].id
    ensures IndexOf(ts, g) == IndexOf(us, g)
  {
    if |ts| > 0 && ts[0].id != g {
      assert forall i :: 0 <= i < |ts| - 1 ==> ts[1..][i].id == us[1..][i].id by {
        forall i | 0 <= i < |ts| - 1
          ensures ts[1..][i].id == us[1..][i].id
        {
          assert ts[1..][i] == ts[i + 1] && us[1..][i] == us[i + 1];
        }
      }
      IndexOfSameIds(ts[1..], us[1..], g);
    }
  }

  /**
   * One call of a level's loading callback: a transform of the scene file
   * that carries a mesh, and the mesh's name.
   */
  datatype MeshItem = MeshItem(transform: Transform, name: string)

  /**
   * What reading a scene file yields (the reading itself is not part of this
   * model): its transforms, cameras and lamps, and the mesh-bearing
   * transforms in the order the loading callback sees them.
   */
  datatype LoadedScene = LoadedScene(transforms: seq<Transform>, cameras: seq<Camera>, lamps: seq<Lamp>,
                                     items: seq<MeshItem>)

  /** Every item's mesh is in the buffer (a buffer lookup of any other name throws). */
  predicate AllMeshesFound(items: seq<MeshItem>, buffer: map<string, Mesh>) {
    forall i :: 0 <= i < |items| ==> items[i].name in buffer
  }

  /** The drawables the loading callbacks create: one per item, drawing that item's mesh at its transform. */
  function MeshDrawables(items: seq<MeshItem>, buffer: map<string, Mesh>): (ds: seq<Drawable>)
    requires AllMeshesFound(items, buffer)
    decreases |items|
  {
    if |items| == 0 then []
    else MeshDrawables(items[..|items| - 1], buffer)
         + [Drawable(Some(items[|items| - 1].transform.id), buffer[items[|items| - 1].name])]
  }

  /** Each item gets exactly one drawable, in item order, carrying the item's transform and mesh. */
  lemma {:induction false} MeshDrawablesOnePerItem(items: seq<MeshItem>, buffer: map<string, Mesh>)
    requires AllMeshesFound(items, buffer)
    ensures |MeshDrawables(items, buffer)| == |items|
    ensures forall i :: 0 <= i < |items| ==>
      MeshDrawables(items, buffer)[i] == Drawable(Some(items[i].transform.id), buffer[items[i].name])
    decreases |items|
  {
    if |items| > 0 {
      MeshDrawablesOnePerItem(items[..|items| - 1], buffer);
    }
  }
}
