/**
 * `entity.camera.MovableCamera`: a camera whose position is moved along the
 * world axes. Its superclass `entity.camera.Camera` is not part of this
 * model; the position it keeps is the only state the moves touch.
 */
module MovableCameras {
  import opened Common

  /**
   * The position after `move(dx, dy, dz)`: a translation by the three
   * deltas. The single-axis moves below are this move with two deltas 0.
   */
  function Moved(p: Vec3, dx: real, dy: real, dz: real): (q: Vec3)
    ensures q.x - p.x == dx && q.y - p.y == dy && q.z - p.z == dz
  {
    Vec3(p.x + dx, p.y + dy, p.z + dz)
  }

  /** The position after `moveHorizontal(dx)`: only x changes. */
  function MovedHorizontal(p: Vec3, dx: real): (q: Vec3)
    ensures q.x - p.x == dx && q.y == p.y && q.z == p.z
    ensures q == Moved(p, dx, 0.0, 0.0)
  {
    p.(x := p.x + dx)
  }

  /** The position after `moveVertical(dy)`: only y changes. */
  function MovedVertical(p: Vec3, dy: real): (q: Vec3)
    ensures q.y - p.y == dy && q.x == p.x && q.z == p.z
    ensures q == Moved(p, 0.0, dy, 0.0)
  {
    p.(y := p.y + dy)
  }

  /** The position after `moveOut(dz)`: only z changes. */
  function MovedOut(p: Vec3, dz: real): (q: Vec3)
    ensures q.z - p.z == dz && q.x == p.x && q.y == p.y
    ensures q == Moved(p, 0.0, 0.0, dz)
  {
    p.(z := p.z + dz)
  }

  /** One `move` is the three single-axis moves one after the other, in any order. */
  lemma MoveIsThreeAxisMoves(p: Vec3, dx: real, dy: real, dz: real)
    ensures Moved(p, dx, dy, dz) == MovedOut(MovedVertical(MovedHorizontal(p, dx), dy), dz)
    ensures Moved(p, dx, dy, dz) == MovedHorizontal(MovedVertical(MovedOut(p, dz), dy), dx)
  {
  }

  /** Moves add up, and a move is undone by the opposite move. */
  lemma MovesCompose(p: Vec3, dx: real, dy: real, dz: real, ex: real, ey: real, ez: real)
    ensures Moved(Moved(p, dx, dy, dz), ex, ey, ez) == Moved(p, dx + ex, dy + ey, dz + ez)
    ensures Moved(Moved(p, dx, dy, dz), -dx, -dy, -dz) == p
  {
  }

  class MovableCamera {
    var position: Vec3
    var pitch: real
    var yaw: real
    var roll: real

    /** The superclass constructor is taken to store the pose it is given. */
    constructor (position: Vec3, pitch: real, yaw: real, roll: real)
      ensures this.position == position && this.pitch == pitch
      ensures this.yaw == yaw && this.roll == roll
    {
      this.position := position;
      this.pitch := pitch;
      this.yaw := yaw;
      this.roll := roll;
    }

    method Move(dx: real, dy: real, dz: real)
      modifies this
      ensures position == Moved(old(position), dx, dy, dz)
      ensures pitch == old(pitch) && yaw == old(yaw) && roll == old(roll)
    {
      position := position.(x := position.x + dx);
      position := position.(y := position.y + dy);
      position := position.(z := position.z + dz);
    }

    method MoveHorizontal(dx: real)
      modifies this
      ensures position == MovedHorizontal(old(position), dx)
      ensures pitch == old(pitch) && yaw == old(yaw) && roll == old(roll)
    {
      position := position.(x := position.x + dx);
    }

    method MoveVertical(dy: real)
      modifies this
      ensures position == MovedVertical(old(position), dy)
      ensures pitch == old(pitch) && yaw == old(yaw) && roll == old(roll)
    {
      position := position.(y := position.y + dy);
    }

    method MoveOut(dz: real)
      modifies this
      ensures position == MovedOut(old(position), dz)
      ensures pitch == old(pitch) && yaw == old(yaw) && roll == old(roll)
    {
      position := position.(z := position.z + dz);
    }
  }
}
