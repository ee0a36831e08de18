/**
 * `glStart.RenderResources`: the registry of the second renderer version.
 * Beside cameras, lights and shaders it owns two entity maps in a deque: the
 * head is the map the current frame fills, the tail the map drawn in the
 * previous frame, which mouse picking reads. Swapping rotates the deque.
 */
module GlStartResources {
  import opened Common
  import opened CameraCycle
  import opened Lights
  import opened Batching
  import opened Picking
  import GlCodeResources

  /** `pollFirst` then `addLast`: the head moves to the tail. */
  function Rotated<T>(d: seq<T>): (r: seq<T>)
    requires |d| > 0
    ensures |r| == |d| && r[|r| - 1] == d[0]
    ensures forall i | 0 <= i < |d| - 1 :: r[i] == d[i + 1]
  {
    d[1..] + [d[0]]
  }

  /** With two maps, a rotation exchanges the active and the last-used map. */
  lemma RotatedPairSwaps<T>(d: seq<T>)
    requires |d| == 2
    ensures Rotated(d) == [d[1], d[0]]
  {
  }

  /** Rotating a pair twice gives back the original roles. */
  lemma RotatedPairTwiceRestores<T>(d: seq<T>)
    requires |d| == 2
    ensures Rotated(Rotated(d)) == d
  {
    RotatedPairSwaps(d);
    RotatedPairSwaps(Rotated(d));
  }

  /** A rotation neither adds nor drops a map. */
  lemma RotatedKeepsElements<T>(d: seq<T>)
    requires |d| > 0
    ensures multiset(Rotated(d)) == multiset(d)
  {
    assert d == [d[0]] + d[1..];
  }

  class RenderResources<C(==)> {
    var entityBuffers: seq<EntityBatch>
    var pickEngine: Option<PickingEngine>
    /** Declared but never assigned, so it stays null. */
    var shaderList: Option<seq<GlCodeResources.ShaderProgram>>
    var cameraList: seq<C>
    var currentCamera: int
    var lightList: seq<Light>
    var skyColour: Vec3

    /** The deque holds two different maps, each a well-formed render list. */
    ghost predicate Valid()
      reads this, entityBuffers
    {
      && |entityBuffers| == 2
      && entityBuffers[0] != entityBuffers[1]
      && entityBuffers[0].Valid() && entityBuffers[1].Valid()
      && shaderList == None
    }

    /** Black sky, no cameras or lights, and two new empty maps. */
    constructor ()
      ensures Valid()
      ensures fresh(entityBuffers[0]) && fresh(entityBuffers[1])
      ensures entityBuffers[0].Value() == EmptyBatch && entityBuffers[1].Value() == EmptyBatch
      ensures skyColour == Zero3 && cameraList == [] && lightList == [] && currentCamera == 0
      ensures pickEngine == None
    {
      skyColour := Zero3;
      cameraList := [];
      lightList := [];
      currentCamera := 0;
      shaderList := None;
      pickEngine := None;
      var first := new EntityBatch();
      var second := new EntityBatch();
      entityBuffers := [first, second];
    }

    /** `peek()`: the head of the deque, the map being filled. */
    method GetActiveEntityBuffer() returns (m: EntityBatch)
      requires Valid()
      ensures m == entityBuffers[0]
      ensures m != entityBuffers[1]
    {
      m := entityBuffers[0];
    }

    /** `peekLast()`: the tail of the deque, the map of the previous frame. */
    method GetLastUsedEntityBuffer() returns (m: EntityBatch)
      requires Valid()
      ensures m == entityBuffers[1]
      ensures m != entityBuffers[0]
    {
      m := entityBuffers[|entityBuffers| - 1];
    }

    /**
     * Moves the head of the deque to its tail. The maps themselves are not
     * touched: the map that was being filled becomes the last-used one with
     * its contents, and the other becomes the active one.
     */
    method SwapEntityBuffer()
      requires Valid()
      modifies this
      ensures Valid()
      ensures entityBuffers == Rotated(old(entityBuffers))
      ensures entityBuffers[1] == old(entityBuffers[0]) && entityBuffers[0] == old(entityBuffers[1])
      ensures entityBuffers[1].Value() == old(entityBuffers[0].Value())
      ensures entityBuffers[0].Value() == old(entityBuffers[1].Value())
      ensures cameraList == old(cameraList) && currentCamera == old(currentCamera)
      ensures lightList == old(lightList) && skyColour == old(skyColour)
      ensures pickEngine == old(pickEngine) && shaderList == old(shaderList)
    {
      var head := entityBuffers[0];
      entityBuffers := entityBuffers[1..];
      entityBuffers := entityBuffers + [head];
      RotatedPairSwaps(old(entityBuffers));
    }

    method AddCamera(cam: C)
      modifies this
      ensures cameraList == old(cameraList) + [cam]
      ensures currentCamera == old(currentCamera) && lightList == old(lightList)
      ensures entityBuffers == old(entityBuffers) && shaderList == old(shaderList)
      ensures skyColour == old(skyColour) && pickEngine == old(pickEngine)
    {
      cameraList := cameraList + [cam];
    }

    /** Appends to the shader list, which is never created: every call throws. */
    method AddShader(shader: GlCodeResources.ShaderProgram) returns (o: Outcome)
      modifies this
      ensures old(shaderList).None? ==> o == Thrown(NullPointer) && shaderList == old(shaderList)
      ensures old(shaderList).Some? ==> o == Done && shaderList == Some(old(shaderList).value + [shader])
      ensures cameraList == old(cameraList) && currentCamera == old(currentCamera)
      ensures lightList == old(lightList) && entityBuffers == old(entityBuffers)
      ensures skyColour == old(skyColour) && pickEngine == old(pickEngine)
    {
      if shaderList.None? {
        o := Thrown(NullPointer);
      } else {
        shaderList := Some(shaderList.value + [shader]);
        o := Done;
      }
    }

    method AddLight(light: Light)
      modifies this
      ensures lightList == old(lightList) + [light]
      ensures cameraList == old(cameraList) && currentCamera == old(currentCamera)
      ensures entityBuffers == old(entityBuffers) && shaderList == old(shaderList)
      ensures skyColour == old(skyColour) && pickEngine == old(pickEngine)
    {
      lightList := lightList + [light];
    }

    /**
     * Selects `cam`; a camera the list does not hold is appended first and
     * the selection retried, which then finds it at the end.
     */
    method SetActiveCamera(cam: C)
      modifies this
      decreases if cam in cameraList then 0 else 1
      ensures cameraList == if cam in old(cameraList) then old(cameraList) else old(cameraList) + [cam]
      ensures 0 <= currentCamera < |cameraList| && cameraList[currentCamera] == cam
      ensures cam !in cameraList[..currentCamera]
      ensures lightList == old(lightList) && entityBuffers == old(entityBuffers)
      ensures shaderList == old(shaderList)
      ensures skyColour == old(skyColour) && pickEngine == old(pickEngine)
    {
      var index := IndexOf(cameraList, cam);
      if index == -1 {
        cameraList := cameraList + [cam];
        assert cameraList[|cameraList| - 1] == cam;
        SetActiveCamera(cam);
      } else {
        currentCamera := index;
      }
    }

    /** Wraps to the first camera from the last one. */
    method NextCamera()
      modifies this
      ensures currentCamera == NextIndex(old(currentCamera), |cameraList|)
      ensures cameraList == old(cameraList) && lightList == old(lightList)
      ensures entityBuffers == old(entityBuffers) && shaderList == old(shaderList)
      ensures skyColour == old(skyColour) && pickEngine == old(pickEngine)
    {
      if currentCamera >= |cameraList| - 1 {
        currentCamera := 0;
      } else {
        currentCamera := currentCamera + 1;
      }
    }

    /** Wraps to the last camera from the first one. */
    method PreviousCamera()
      modifies this
      ensures currentCamera == PreviousIndex(old(currentCamera), |cameraList|)
      ensures cameraList == old(cameraList) && lightList == old(lightList)
      ensures entityBuffers == old(entityBuffers) && shaderList == old(shaderList)
      ensures skyColour == old(skyColour) && pickEngine == old(pickEngine)
    {
      if currentCamera <= 0 {
        currentCamera := |cameraList| - 1;
      } else {
        currentCamera := currentCamera - 1;
      }
    }

    /** `cameraList.get(currentCamera)`, which throws when the index is out of range. */
    method GetActiveCamera() returns (r: Result<C>)
      ensures 0 <= currentCamera < |cameraList| <==> r.Ok?
      ensures r.Ok? ==> r.value == cameraList[currentCamera]
      ensures r.Err? ==> r.error == IndexOutOfBounds
    {
      if 0 <= currentCamera < |cameraList| {
        r := Ok(cameraList[currentCamera]);
      } else {
        r := Err(IndexOutOfBounds);
      }
    }

    /** Copies the shader list; throws because that list is never created. */
    method GetShaderList() returns (r: Result<seq<GlCodeResources.ShaderProgram>>)
      ensures shaderList.None? <==> r == Err(NullPointer)
      ensures shaderList.Some? ==> r == Ok(shaderList.value)
    {
      if shaderList.None? {
        r := Err(NullPointer);
      } else {
        r := Ok(shaderList.value);
      }
    }

    /** A copy of the camera list. */
    method GetCameraList() returns (cams: seq<C>)
      ensures cams == cameraList
    {
      cams := cameraList;
    }

    /**
     * Java hands out the live list; the model returns its contents, so a
     * caller's later change to that list is not seen here.
     */
    method GetLightList() returns (lights: seq<Light>)
      ensures lights == lightList
    {
      lights := lightList;
    }

    method SetSkyColour(colour: Vec3)
      modifies this
      ensures skyColour == colour
      ensures cameraList == old(cameraList) && currentCamera == old(currentCamera)
      ensures lightList == old(lightList) && entityBuffers == old(entityBuffers)
      ensures pickEngine == old(pickEngine) && shaderList == old(shaderList)
    {
      skyColour := colour;
    }

    method SetPickEngine(engine: PickingEngine)
      modifies this
      ensures pickEngine == Some(engine)
      ensures cameraList == old(cameraList) && currentCamera == old(currentCamera)
      ensures lightList == old(lightList) && entityBuffers == old(entityBuffers)
      ensures skyColour == old(skyColour) && shaderList == old(shaderList)
    {
      pickEngine := Some(engine);
    }
  }
}
