/**
 * The drawable instance (`entity.Entity`) and the records it refers to: the
 * textured model it is grouped under and the texture's material settings.
 */
module Entities {
  import opened Common

  /**
   * The material a renderer reads from a texture: GL texture id, specular
   * settings, transparency and fake-lighting flags, and the atlas row count.
   */
  datatype ModelTexture = ModelTexture(
    textureId: int,
    shineDamper: real,
    reflectivity: real,
    hasTransparency: bool,
    useFakeLighting: bool,
    numberOfRows: int)

  /**
   * A `TexturedModel`: a VAO id and vertex count with its texture. It is a
   * class because the Java type defines no `equals`/`hashCode`: two models
   * built from the same VAO and texture are different map keys.
   */
  class TexturedModel {
    const vaoId: int
    const vertexCount: int
    const texture: ModelTexture

    constructor (vaoId: int, vertexCount: int, texture: ModelTexture)
      ensures this.vaoId == vaoId && this.vertexCount == vertexCount
      ensures this.texture == texture
    {
      this.vaoId := vaoId;
      this.vertexCount := vertexCount;
      this.texture := texture;
    }
  }

  /** The user code behind an `EntityActionCallback`; only its identity is modelled. */
  datatype ActionCallback = ActionCallback(id: nat)

  /** One call `callback.doAction(target)`. */
  datatype Invocation = Invocation(callback: ActionCallback, target: Entity)

  /** Every field of an entity, read at one moment. */
  datatype EntityState = EntityState(
    model: TexturedModel,
    position: Vec3,
    rotationX: real,
    rotationY: real,
    rotationZ: real,
    scale: real,
    callback: Option<ActionCallback>)

  class Entity {
    var model: TexturedModel
    var position: Vec3
    var rotationX: real
    var rotationY: real
    var rotationZ: real
    var scale: real
    var callback: Option<ActionCallback>

    function State(): EntityState
      reads this
    {
      EntityState(model, position, rotationX, rotationY, rotationZ, scale, callback)
    }

    /** Stores the six arguments; no callback is set yet. */
    constructor (model: TexturedModel, position: Vec3, rotationX: real, rotationY: real,
                 rotationZ: real, scale: real)
      ensures State() == EntityState(model, position, rotationX, rotationY, rotationZ, scale, None)
    {
      this.model := model;
      this.position := position;
      this.rotationX := rotationX;
      this.rotationY := rotationY;
      this.rotationZ := rotationZ;
      this.scale := scale;
      this.callback := None;
    }

    method IncreasePosition(dx: real, dy: real, dz: real)
      modifies this
      ensures State() == old(State()).(position := Add3(old(position), Vec3(dx, dy, dz)))
    {
      position := Vec3(position.x + dx, position.y + dy, position.z + dz);
    }

    method IncreaseRotation(dx: real, dy: real, dz: real)
      modifies this
      ensures State() == old(State()).(rotationX := old(rotationX) + dx,
                                       rotationY := old(rotationY) + dy,
                                       rotationZ := old(rotationZ) + dz)
    {
      rotationX := rotationX + dx;
      rotationY := rotationY + dy;
      rotationZ := rotationZ + dz;
    }

    method SetModel(m: TexturedModel)
      modifies this
      ensures State() == old(State()).(model := m)
    {
      model := m;
    }

    method SetPosition(p: Vec3)
      modifies this
      ensures State() == old(State()).(position := p)
    {
      position := p;
    }

    method SetRotationX(r: real)
      modifies this
      ensures State() == old(State()).(rotationX := r)
    {
      rotationX := r;
    }

    method SetRotationY(r: real)
      modifies this
      ensures State() == old(State()).(rotationY := r)
    {
      rotationY := r;
    }

    method SetRotationZ(r: real)
      modifies this
      ensures State() == old(State()).(rotationZ := r)
    {
      rotationZ := r;
    }

    method SetScale(s: real)
      modifies this
      ensures State() == old(State()).(scale := s)
    {
      scale := s;
    }

    /** Replaces any callback set before; `None` (Java's `null`) clears it. */
    method SetCallback(cb: Option<ActionCallback>)
      modifies this
      ensures State() == old(State()).(callback := cb)
    {
      callback := cb;
    }

    /**
     * Runs the callback once, on this entity, when one is set; otherwise does
     * nothing. The returned list holds the calls made.
     */
    method DoAction() returns (calls: seq<Invocation>)
      ensures callback.None? <==> calls == []
      ensures callback.Some? ==> |calls| == 1 && calls[0].callback == callback.value
      ensures forall c | c in calls :: c.target == this
    {
      if callback.Some? {
        calls := [Invocation(callback.value, this)];
      } else {
        calls := [];
      }
    }
  }
}
