/**
 * ObserveMode: a fly-through of the city scene that switches between the
 * scene's cameras with the LEFT and RIGHT keys.
 */
module Observe {
  import opened Input

  /**
   * The camera LEFT selects after camera `i` of a list of `n`: the previous
   * one, wrapping from the first to the last. A position outside the list
   * (a pointer to no camera of the list) also selects the last camera.
   */
  function Previous(i: int, n: nat): (r: int)
    requires 0 < n
    ensures 0 <= r < n
  {
    if 0 < i < n then i - 1 else n - 1
  }

  /**
   * The camera RIGHT selects after camera `i`: the next one, wrapping from
   * the last to the first; a position outside the list selects the first.
   */
  function Next(i: int, n: nat): (r: int)
    requires 0 < n
    ensures 0 <= r < n
  {
    if 0 <= i < n - 1 then i + 1 else 0
  }

  /** LEFT and RIGHT undo each other on every camera of the list. */
  lemma NextUndoesPrevious(i: int, n: nat)
    requires 0 <= i < n
    ensures Next(Previous(i, n), n) == i
    ensures Previous(Next(i, n), n) == i
  {
  }

  /** Pressing RIGHT `k` times from camera `i` reaches camera i + k while that is in the list. */
  lemma {:induction false} NextStepsAlong(i: int, n: nat, k: nat)
    requires 0 <= i && i + k < n
    ensures Iterate(i, n, k) == i + k
  {
    if k > 0 {
      NextStepsAlong(i, n, k - 1);
    }
  }

  /** From camera `i`, RIGHT comes back to the first camera after passing the last one. */
  lemma NextWraps(i: int, n: nat)
    requires 0 <= i < n
    ensures Iterate(i, n, n - i) == 0
  {
    NextStepsAlong(i, n, n - i - 1);
  }

  /** The camera selected by `k` presses of RIGHT from camera `i`. */
  function Iterate(i: int, n: nat, k: nat): (r: int)
    requires 0 <= i < n
    ensures 0 <= r < n
  {
    if k == 0 then i else Next(Iterate(i, n, k - 1), n)
  }

  class ObserveMode {
    /** The number of cameras in the city scene, whose camera list never changes. */
    const cameraCount: nat
    /**
     * The position of `current_camera` in the scene's camera list; a value
     * outside [0, cameraCount) stands for a pointer to no camera of the list.
     */
    var current: int

    /** The constructor insists on a camera and starts with the first one. */
    constructor(cameraCount: nat)
      requires 0 < cameraCount
      ensures this.cameraCount == cameraCount && current == 0
    {
      this.cameraCount := cameraCount;
      current := 0;
    }

    /** The search of the camera list for the current camera: its position, or the end. */
    method Find() returns (ci: int)
      ensures ci == if 0 <= current < cameraCount then current else cameraCount
    {
      ci := 0;
      while ci != cameraCount && ci != current
        invariant 0 <= ci <= cameraCount
        invariant 0 <= current < cameraCount ==> ci <= current
        decreases cameraCount - ci
      {
        ci := ci + 1;
      }
    }

    /** handle_event: LEFT and RIGHT switch cameras; every other event is left alone. */
    method HandleEvent(evt: Event) returns (handled: bool)
      requires 0 < cameraCount
      modifies this
      ensures evt == Press(KeyLeft) ==> handled && current == Previous(old(current), cameraCount)
      ensures evt == Press(KeyRight) ==> handled && current == Next(old(current), cameraCount)
      ensures evt != Press(KeyLeft) && evt != Press(KeyRight) ==> !handled && current == old(current)
    {
      handled := false;
      if evt == Press(KeyLeft) {
        var ci := Find();
        if ci == 0 {
          ci := cameraCount;
        }
        ci := ci - 1;
        current := ci;
        handled := true;
      } else if evt == Press(KeyRight) {
        var ci := Find();
        if ci != cameraCount {
          ci := ci + 1;
        }
        if ci == cameraCount {
          ci := 0;
        }
        current := ci;
        handled := true;
      }
    }
  }
}
