/**
 * RollLevel: a Sphere Roll level. Loading sorts the meshes of a scene into
 * the player's starting sphere, goals, box colliders, mesh colliders and
 * decoration; copying a level gives its transforms new addresses and points
 * every reference at the copies.
 */
module RollLevels {
  import opened Wrappers
  import opened Geometry
  import opened Scene

  /** The box-collider meshes and the half-extent of each. */
  const BoxMeshes: map<string, Vec3> := map["Block.Dark" := One3, "Block.Light" := One3]

  /** The mesh-collider meshes. */
  const ColliderMeshes: set<string> := {"Round.Quarter", "Round.Corner", "Round.Corner.Outer"}

  /** What a mesh of the level stands for. */
  datatype Role = AsPlayer | AsGoal | AsBox(radius: Vec3) | AsMeshCollider | AsDecoration

  /**
   * The loading callback's classification of a mesh by its name: "Sphere"
   * is the player's start, "Goal" a goal, a mesh of the box table a box
   * collider with the table's half-extent, a mesh of the collider set a mesh
   * collider, and anything else decoration.
   */
  function Classify(name: string): (r: Role)
    ensures r == AsPlayer <==> name == "Sphere"
    ensures r == AsGoal <==> name == "Goal"
    ensures r.AsBox? <==> name in BoxMeshes
    ensures r.AsBox? ==> r.radius == BoxMeshes[name]
    ensures r == AsMeshCollider <==> name in ColliderMeshes
    ensures r == AsDecoration <==> name != "Sphere" && name != "Goal" && name !in BoxMeshes && name !in ColliderMeshes
  {
    if name == "Sphere" then AsPlayer
    else if name == "Goal" then AsGoal
    else if name in BoxMeshes then AsBox(BoxMeshes[name])
    else if name in ColliderMeshes then AsMeshCollider
    else AsDecoration
  }

  /** The two blocks are unit boxes and the three rounded pieces are mesh colliders. */
  lemma ClassifyTables()
    ensures Classify("Block.Dark") == AsBox(One3) && Classify("Block.Light") == AsBox(One3)
    ensures Classify("Round.Quarter") == AsMeshCollider && Classify("Round.Corner") == AsMeshCollider
    ensures Classify("Round.Corner.Outer") == AsMeshCollider
    ensures Classify("Sphere") == AsPlayer && Classify("Goal") == AsGoal
  {
  }

  datatype BoxCollider = BoxCollider(transform: Option<Handle>, radius: Vec3)
  datatype MeshCollider = MeshCollider(transform: Option<Handle>, mesh: Mesh)

  /** A goal and how far round its spin is, as a fraction of a turn. */
  datatype Goal = Goal(transform: Option<Handle>, spinAcc: real)

  /** The sphere being rolled, and the direction the player looks from. */
  datatype Player = Player(transform: Option<Handle>, rotationalVelocity: Vec3, velocity: Vec3,
                           viewAzimuth: real, viewElevation: real)

  /** A player before loading: no sphere, at rest, looking down at 45 degrees. */
  const NewPlayer := Player(None, Zero3, Zero3, 0.0, 45.0 / 180.0 * Pi)

  /** The camera made for the player: a 60-degree field of view and a near plane at 0.05. */
  const PlayerFovy: real := 60.0 / 180.0 * Pi
  const PlayerNear: real := 0.05

  datatype LoadError = MissingMesh(name: string) | SecondSphere | NoSphere

  /** What the loading callbacks have built so far. */
  datatype Loaded = Loaded(drawables: seq<Drawable>, boxes: seq<BoxCollider>, meshColliders: seq<MeshCollider>,
                           goals: seq<Goal>, player: Player)

  /**
   * One call of the loading callback: every mesh gets a drawable; then the
   * mesh's role adds a goal or a collider, or places the player, and a
   * second sphere is an error. A mesh missing from the buffer is an error too.
   */
  function LoadItem(l: Loaded, item: MeshItem, buffer: map<string, Mesh>): (r: Result<Loaded, LoadError>)
    ensures r.Ok? <==> item.name in buffer && !(item.name == "Sphere" && l.player.transform.Some?)
    ensures r.Err? ==> r.error == if item.name !in buffer then MissingMesh(item.name) else SecondSphere
    ensures r.Ok? ==> r.value.drawables == l.drawables + [Drawable(Some(item.transform.id), buffer[item.name])]
    ensures r.Ok? ==> (r.value.player ==
      if item.name == "Sphere" then l.player.(transform := Some(item.transform.id)) else l.player)
    ensures r.Ok? ==> (r.value.goals ==
      l.goals + if item.name == "Goal" then [Goal(Some(item.transform.id), 0.0)] else [])
    ensures r.Ok? ==> (r.value.boxes ==
      l.boxes + if item.name in BoxMeshes then [BoxCollider(Some(item.transform.id), BoxMeshes[item.name])] else [])
    ensures r.Ok? ==> (r.value.meshColliders ==
      l.meshColliders + if item.name in ColliderMeshes then [MeshCollider(Some(item.transform.id), buffer[item.name])] else [])
  {
    if item.name !in buffer then Err(MissingMesh(item.name))
    else
      var h := Some(item.transform.id);
      var l := l.(drawables := l.drawables + [Drawable(h, buffer[item.name])]);
      match Classify(item.name)
      case AsPlayer =>
        if l.player.transform.Some? then Err(SecondSphere)
        else Ok(l.(player := l.player.(transform := h)))
      case AsGoal => Ok(l.(goals := l.goals + [Goal(h, 0.0)]))
      case AsBox(radius) => Ok(l.(boxes := l.boxes + [BoxCollider(h, radius)]))
      case AsMeshCollider => Ok(l.(meshColliders := l.meshColliders + [MeshCollider(h, buffer[item.name])]))
      case AsDecoration => Ok(l)
  }

  /** The callbacks run over the items in order; the first one that throws ends the loading. */
  function LoadItems(items: seq<MeshItem>, buffer: map<string, Mesh>): Result<Loaded, LoadError>
    decreases |items|
  {
    if |items| == 0 then Ok(Loaded([], [], [], [], NewPlayer))
    else match LoadItems(items[..|items| - 1], buffer)
      case Err(e) => Err(e)
      case Ok(l) => LoadItem(l, items[|items| - 1], buffer)
  }

  /** The whole of loading: the callbacks, then the check that some sphere placed the player. */
  function LoadLevel(items: seq<MeshItem>, buffer: map<string, Mesh>): Result<Loaded, LoadError> {
    match LoadItems(items, buffer)
    case Err(e) => Err(e)
    case Ok(l) => if l.player.transform.None? then Err(NoSphere) else Ok(l)
  }

  /** The number of "Sphere" meshes among the items. */
  function Spheres(items: seq<MeshItem>): nat
    decreases |items|
  {
    if |items| == 0 then 0
    else Spheres(items[..|items| - 1]) + if items[|items| - 1].name == "Sphere" then 1 else 0
  }

  /**
   * The callbacks succeed exactly when every mesh is in the buffer and there
   * is at most one sphere; the player is then placed exactly when there is
   * one, on that sphere's transform, and is otherwise as before loading.
   */
  lemma {:induction false} LoadItemsSucceeds(items: seq<MeshItem>, buffer: map<string, Mesh>)
    ensures LoadItems(items, buffer).Ok? <==> AllMeshesFound(items, buffer) && Spheres(items) <= 1
    ensures LoadItems(items, buffer).Ok? ==>
      var p := LoadItems(items, buffer).value.player;
      p == NewPlayer.(transform := p.transform) &&
      (p.transform.Some? <==> Spheres(items) == 1) &&
      (p.transform.Some? ==> exists i :: 0 <= i < |items| && items[i].name == "Sphere" && p.transform == Some(items[i].transform.id))
    decreases |items|
  {
    if |items| > 0 {
      var front := items[..|items| - 1];
      var last := items[|items| - 1];
      LoadItemsSucceeds(front, buffer);
      assert forall i :: 0 <= i < |front| ==> front[i] == items[i];
      if LoadItems(items, buffer).Ok? {
        var p := LoadItems(items, buffer).value.player;
        if p.transform.Some? && last.name != "Sphere" {
          var q := LoadItems(front, buffer).value.player;
          var i :| 0 <= i < |front| && front[i].name == "Sphere" && q.transform == Some(front[i].transform.id);
          assert items[i] == front[i];
        }
      }
    }
  }

  /** Loading succeeds exactly when every mesh is in the buffer and there is exactly one sphere. */
  lemma LoadLevelSucceeds(items: seq<MeshItem>, buffer: map<string, Mesh>)
    ensures LoadLevel(items, buffer).Ok? <==> AllMeshesFound(items, buffer) && Spheres(items) == 1
    ensures LoadLevel(items, buffer).Ok? ==>
      exists i :: 0 <= i < |items| && items[i].name == "Sphere" &&
        LoadLevel(items, buffer).value.player == NewPlayer.(transform := Some(items[i].transform.id))
  {
    LoadItemsSucceeds(items, buffer);
  }

  /** A successful loading gives every mesh its drawable, in item order, whatever the mesh stands for. */
  lemma {:induction false} LoadedDrawables(items: seq<MeshItem>, buffer: map<string, Mesh>)
    requires LoadItems(items, buffer).Ok?
    ensures AllMeshesFound(items, buffer)
    ensures LoadItems(items, buffer).value.drawables == MeshDrawables(items, buffer)
    decreases |items|
  {
    if |items| > 0 {
      var front := items[..|items| - 1];
      LoadedDrawables(front, buffer);
      assert forall i :: 0 <= i < |front| ==> front[i] == items[i];
    }
  }

  /** Loading one more item runs the callback on it after the ones before. */
  lemma LoadOneMore(items: seq<MeshItem>, buffer: map<string, Mesh>, i: nat, l: Loaded)
    requires i < |items| && LoadItems(items[..i], buffer) == Ok(l)
    ensures LoadItems(items[..i + 1], buffer) == LoadItem(l, items[i], buffer)
  {
    assert items[..i + 1][..i] == items[..i];
  }

  /** Once an item throws, the loading as a whole fails with that error. */
  lemma {:induction false} AbortedLoad(items: seq<MeshItem>, buffer: map<string, Mesh>, i: nat)
    requires i < |items| && LoadItems(items[..i + 1], buffer).Err?
    ensures LoadItems(items, buffer) == LoadItems(items[..i + 1], buffer)
    decreases |items|
  {
    if i + 1 < |items| {
      var front := items[..|items| - 1];
      assert front[..i + 1] == items[..i + 1];
      AbortedLoad(front, buffer, i);
    } else {
      assert items[..i + 1] == items;
    }
  }

  // ---- copying ----

  /**
   * Where the copy's reference to the transform `r` points: the copies sit
   * at the same positions as the originals and a copy's address is its
   * position; the null pointer stays null.
   */
  function Moved(ts: seq<Transform>, r: Option<Handle>): (m: Option<Handle>)
    requires Resolves(ts, r)
    ensures r.None? <==> m.None?
    ensures m.Some? ==> m.value < |ts| && ts[m.value].id == r.value
  {
    if r.None? then None
    else
      assert IndexOf(ts, r.value).Some?;
      Some(IndexOf(ts, r.value).value)
  }

  /** Every transform's parent is null or another transform of the list. */
  predicate ParentsResolve(ts: seq<Transform>) {
    forall i :: 0 <= i < |ts| ==> Resolves(ts, ts[i].parent)
  }

  /** The copies of the transforms: same name, position, rotation and scale, the copy's parent is the parent's copy. */
  function Copies(ts: seq<Transform>): (cs: seq<Transform>)
    requires ParentsResolve(ts)
    ensures |cs| == |ts|
  {
    seq(|ts|, i requires 0 <= i < |ts| =>
      Transform(i, ts[i].name, ts[i].position, ts[i].rotation, ts[i].scale, Moved(ts, ts[i].parent)))
  }

  /**
   * The copies have distinct addresses, each copy is found at its own
   * position, and a moved reference finds the copy of the transform the
   * original reference pointed to.
   */
  lemma CopiesMirror(ts: seq<Transform>, h: Handle)
    requires ParentsResolve(ts) && Resolves(ts, Some(h))
    ensures UniqueIds(Copies(ts))
    ensures var j := Moved(ts, Some(h)).value;
      var orig := ts[IndexOf(ts, h).value];
      IndexOf(Copies(ts), j) == Some(j) &&
      Copies(ts)[j].name == orig.name && Copies(ts)[j].position == orig.position &&
      Copies(ts)[j].rotation == orig.rotation && Copies(ts)[j].scale == orig.scale &&
      Copies(ts)[j].parent == Moved(ts, orig.parent)
  {
    var cs := Copies(ts);
    var j := Moved(ts, Some(h)).value;
    IndexOfUnique(cs, j);
  }

  /** Every reference of the list resolves. */
  predicate AllResolve<T>(xs: seq<T>, ts: seq<Transform>, target: T -> Option<Handle>) {
    forall k :: 0 <= k < |xs| ==> Resolves(ts, target(xs[k]))
  }

  /** The list with each element's transform reference moved to the copies. */
  function Repointed<T>(xs: seq<T>, ts: seq<Transform>, target: T -> Option<Handle>,
                        retarget: (T, Option<Handle>) -> T): (ys: seq<T>)
    requires AllResolve(xs, ts, target)
    ensures |ys| == |xs|
  {
    seq(|xs|, k requires 0 <= k < |xs| => retarget(xs[k], Moved(ts, target(xs[k]))))
  }

  // The transform reference of each kind of element, read and replaced.
  function ParentOf(t: Transform): Option<Handle> { t.parent }
  function WithParent(t: Transform, h: Option<Handle>): Transform { t.(parent := h) }
  function DrawableRef(d: Drawable): Option<Handle> { d.transform }
  function DrawableTo(d: Drawable, h: Option<Handle>): Drawable { d.(transform := h) }
  function CameraRef(c: Camera): Option<Handle> { c.transform }
  function CameraTo(c: Camera, h: Option<Handle>): Camera { c.(transform := h) }
  function LampRef(l: Lamp): Option<Handle> { l.transform }
  function LampTo(l: Lamp, h: Option<Handle>): Lamp { l.(transform := h) }
  function BoxRef(b: BoxCollider): Option<Handle> { b.transform }
  function BoxTo(b: BoxCollider, h: Option<Handle>): BoxCollider { b.(transform := h) }
  function MeshColliderRef(m: MeshCollider): Option<Handle> { m.transform }
  function MeshColliderTo(m: MeshCollider, h: Option<Handle>): MeshCollider { m.(transform := h) }
  function GoalRef(g: Goal): Option<Handle> { g.transform }
  function GoalTo(g: Goal, h: Option<Handle>): Goal { g.(transform := h) }

  class RollLevel {
    var transforms: seq<Transform>
    var drawables: seq<Drawable>
    var cameras: seq<Camera>
    var lamps: seq<Lamp>
    var boxColliders: seq<BoxCollider>
    var meshColliders: seq<MeshCollider>
    var goals: seq<Goal>
    var player: Player
    /** The camera the level is seen through, as a position in `cameras`; `None` is the null pointer. */
    var camera: Option<nat>

    /** A level made of the given parts. */
    constructor(transforms: seq<Transform>, drawables: seq<Drawable>, cameras: seq<Camera>, lamps: seq<Lamp>,
                boxColliders: seq<BoxCollider>, meshColliders: seq<MeshCollider>, goals: seq<Goal>,
                player: Player, camera: Option<nat>)
      ensures this.transforms == transforms && this.drawables == drawables
      ensures this.cameras == cameras && this.lamps == lamps
      ensures this.boxColliders == boxColliders && this.meshColliders == meshColliders && this.goals == goals
      ensures this.player == player && this.camera == camera
    {
      this.transforms, this.drawables, this.cameras, this.lamps := transforms, drawables, cameras, lamps;
      this.boxColliders, this.meshColliders, this.goals := boxColliders, meshColliders, goals;
      this.player, this.camera := player, camera;
    }

    /** The loading callbacks run over the scene's mesh items in order, stopping at the first that throws. */
    static method RunCallbacks(items: seq<MeshItem>, buffer: map<string, Mesh>) returns (r: Result<Loaded, LoadError>)
      ensures r == LoadItems(items, buffer)
    {
      var l := Loaded([], [], [], [], NewPlayer);
      for i := 0 to |items|
        invariant LoadItems(items[..i], buffer) == Ok(l)
      {
        LoadOneMore(items, buffer, i, l);
        var item := items[i];
        if item.name !in buffer {
          r := Err(MissingMesh(item.name));
          AbortedLoad(items, buffer, i);
          return;
        }
        var h := Some(item.transform.id);
        l := l.(drawables := l.drawables + [Drawable(h, buffer[item.name])]);
        match Classify(item.name)
        case AsPlayer =>
          if l.player.transform.Some? {
            r := Err(SecondSphere);
            AbortedLoad(items, buffer, i);
            return;
          }
          l := l.(player := l.player.(transform := h));
        case AsGoal =>
          l := l.(goals := l.goals + [Goal(h, 0.0)]);
        case AsBox(radius) =>
          l := l.(boxes := l.boxes + [BoxCollider(h, radius)]);
        case AsMeshCollider =>
          l := l.(meshColliders := l.meshColliders + [MeshCollider(h, buffer[item.name])]);
        case AsDecoration =>
      }
      assert items[..|items|] == items;
      r := Ok(l);
    }

    /**
     * Build a level from a scene: its transforms, cameras and lamps, what
     * the loading callbacks make of each mesh, then a new transform with the
     * player's camera on it, which becomes the level's camera.
     */
    static method FromScene(scene: LoadedScene, buffer: map<string, Mesh>) returns (r: Result<RollLevel, LoadError>)
      ensures r.Ok? <==> LoadLevel(scene.items, buffer).Ok?
      ensures r.Err? ==> LoadLevel(scene.items, buffer) == Err(r.error)
      ensures r.Ok? ==> fresh(r.value)
      ensures r.Ok? ==>
        Loaded(r.value.drawables, r.value.boxColliders, r.value.meshColliders, r.value.goals, r.value.player)
        == LoadLevel(scene.items, buffer).value
      ensures r.Ok? ==> var h := FreshHandle(scene.transforms);
        r.value.transforms == scene.transforms + [NewTransform(h)] &&
        r.value.cameras == scene.cameras + [Camera(Some(h), PlayerFovy, PlayerNear)] &&
        r.value.lamps == scene.lamps && r.value.camera == Some(|scene.cameras|)
    {
      var loaded := RunCallbacks(scene.items, buffer);
      if loaded.Err? {
        return Err(loaded.error);
      }
      var l := loaded.value;
      if l.player.transform.None? {
        return Err(NoSphere);
      }
      var h := FreshHandle(scene.transforms);
      var level := new RollLevel(scene.transforms + [NewTransform(h)], l.drawables,
                                 scene.cameras + [Camera(Some(h), PlayerFovy, PlayerNear)], scene.lamps,
                                 l.boxes, l.meshColliders, l.goals, l.player, Some(|scene.cameras|));
      r := Ok(level);
    }

    /**
     * One of the copy's fix-up loops: each element of `xs` with its
     * transform reference moved to the copy. A reference that does not
     * resolve makes the map lookup throw, so the copy fails.
     */
    static method Repoint<T>(xs: seq<T>, ts: seq<Transform>, target: T -> Option<Handle>,
                             retarget: (T, Option<Handle>) -> T) returns (r: Option<seq<T>>)
      ensures r.Some? <==> AllResolve(xs, ts, target)
      ensures r.Some? ==> (|r.value| == |xs| &&
        forall k :: 0 <= k < |xs| ==> r.value[k] == retarget(xs[k], Moved(ts, target(xs[k]))))
      ensures r.Some? ==> r.value == Repointed(xs, ts, target, retarget)
    {
      var ys := xs;
      for k := 0 to |xs|
        invariant |ys| == |xs|
        invariant forall j :: 0 <= j < k ==> Resolves(ts, target(xs[j])) && ys[j] == retarget(xs[j], Moved(ts, target(xs[j])))
      {
        var t := target(xs[k]);
        if t.Some? && IndexOf(ts, t.value).None? {
          return None;
        }
        ys := ys[k := retarget(xs[k], Moved(ts, t))];
      }
      r := Some(ys);
    }

    /**
     * The copy's first two loops: copy each transform, keeping its parent
     * pointer, then move every parent pointer to the copies.
     */
    static method CopyTransforms(ts: seq<Transform>) returns (r: Option<seq<Transform>>)
      ensures r.Some? <==> ParentsResolve(ts)
      ensures r.Some? ==> r.value == Copies(ts)
    {
      var copies: seq<Transform> := [];
      for i := 0 to |ts|
        invariant |copies| == i
        invariant forall j :: 0 <= j < i ==>
          copies[j] == Transform(j, ts[j].name, ts[j].position, ts[j].rotation, ts[j].scale, ts[j].parent)
      {
        copies := copies + [Transform(i, ts[i].name, ts[i].position, ts[i].rotation, ts[i].scale, ts[i].parent)];
      }
      assert forall i :: 0 <= i < |ts| ==> ParentOf(copies[i]) == ts[i].parent;
      r := Repoint(copies, ts, ParentOf, WithParent);
    }

    /** Whether every transform reference of the level resolves. */
    predicate Copyable()
      reads this
    {
      ParentsResolve(transforms) &&
      AllResolve(drawables, transforms, DrawableRef) && AllResolve(cameras, transforms, CameraRef) &&
      AllResolve(lamps, transforms, LampRef) && AllResolve(boxColliders, transforms, BoxRef) &&
      AllResolve(meshColliders, transforms, MeshColliderRef) && AllResolve(goals, transforms, GoalRef) &&
      Resolves(transforms, player.transform)
    }

    /**
     * The copy constructor: copy the transforms in order, then move every
     * reference (parents, drawables, cameras, lamps, colliders, goals and
     * the player) to the copies; the level's camera is the copy of the
     * original's. It fails when some reference does not resolve.
     */
    static method Copy(other: RollLevel) returns (r: Option<RollLevel>)
      ensures r.Some? <==> other.Copyable()
      ensures r.Some? ==> fresh(r.value)
      ensures r.Some? ==> r.value.transforms == Copies(other.transforms)
      ensures r.Some? ==> var ts := other.transforms;
        r.value.drawables == Repointed(other.drawables, ts, DrawableRef, DrawableTo) &&
        r.value.cameras == Repointed(other.cameras, ts, CameraRef, CameraTo) &&
        r.value.lamps == Repointed(other.lamps, ts, LampRef, LampTo) &&
        r.value.boxColliders == Repointed(other.boxColliders, ts, BoxRef, BoxTo) &&
        r.value.meshColliders == Repointed(other.meshColliders, ts, MeshColliderRef, MeshColliderTo) &&
        r.value.goals == Repointed(other.goals, ts, GoalRef, GoalTo)
      ensures r.Some? ==> r.value.player == other.player.(transform := Moved(other.transforms, other.player.transform))
      ensures r.Some? ==> (r.value.camera ==
        if other.camera.Some? && other.camera.value < |other.cameras| then other.camera else None)
    {
      var ts := other.transforms;
      var copies := CopyTransforms(ts);
      if copies.None? {
        return None;
      }
      var ds := Repoint(other.drawables, ts, DrawableRef, DrawableTo);
      if ds.None? {
        return None;
      }
      var cs := Repoint(other.cameras, ts, CameraRef, CameraTo);
      if cs.None? {
        return None;
      }
      var ls := Repoint(other.lamps, ts, LampRef, LampTo);
      if ls.None? {
        return None;
      }
      var bs := Repoint(other.boxColliders, ts, BoxRef, BoxTo);
      if bs.None? {
        return None;
      }
      var ms := Repoint(other.meshColliders, ts, MeshColliderRef, MeshColliderTo);
      if ms.None? {
        return None;
      }
      var gs := Repoint(other.goals, ts, GoalRef, GoalTo);
      if gs.None? {
        return None;
      }
      var p := other.player;
      if p.transform.Some? && IndexOf(ts, p.transform.value).None? {
        return None;
      }
      var camera := if other.camera.Some? && other.camera.value < |other.cameras| then other.camera else None;
      var level := new RollLevel(copies.value, ds.value, cs.value, ls.value, bs.value, ms.value, gs.value,
                                 p.(transform := Moved(ts, p.transform)), camera);
      r := Some(level);
    }
  }
}
