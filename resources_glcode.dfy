/**
 * `glCode.RenderResources`: the registry of cameras, lights and shader
 * programs of the first renderer version. The camera type is a parameter;
 * cameras are compared by identity as `List.indexOf` does for a class without
 * `equals`.
 */
module GlCodeResources {
  import opened Common
  import opened CameraCycle
  import opened Lights

  /** A linked shader program; only its GL id is modelled. */
  datatype ShaderProgram = ShaderProgram(programId: int)

  class RenderResources<C(==)> {
    var cameraList: seq<C>
    var currentCamera: int
    var lightList: seq<Light>
    /** Declared but never assigned, so it stays null. */
    var shaderList: Option<seq<ShaderProgram>>

    ghost predicate Valid()
      reads this
    {
      shaderList == None
    }

    /** Both lists empty, camera index 0, no shader list. */
    constructor ()
      ensures Valid()
      ensures cameraList == [] && lightList == [] && currentCamera == 0
    {
      cameraList := [];
      lightList := [];
      currentCamera := 0;
      shaderList := None;
    }

    method AddCamera(cam: C)
      modifies this
      ensures cameraList == old(cameraList) + [cam]
      ensures currentCamera == old(currentCamera) && lightList == old(lightList)
      ensures shaderList == old(shaderList)
    {
      cameraList := cameraList + [cam];
    }

    /**
     * Appends to the shader list; since that list is never created
     * (`Valid`), every call throws and changes nothing.
     */
    method AddShader(shader: ShaderProgram) returns (o: Outcome)
      modifies this
      ensures old(shaderList).None? ==> o == Thrown(NullPointer) && shaderList == old(shaderList)
      ensures old(shaderList).Some? ==> o == Done && shaderList == Some(old(shaderList).value + [shader])
      ensures cameraList == old(cameraList) && currentCamera == old(currentCamera)
      ensures lightList == old(lightList)
    {
      if shaderList.None? {
        o := Thrown(NullPointer);
      } else {
        shaderList := Some(shaderList.value + [shader]);
        o := Done;
      }
    }

    method AddLight(light: Light)
      modifies this
      ensures lightList == old(lightList) + [light]
      ensures cameraList == old(cameraList) && currentCamera == old(currentCamera)
      ensures shaderList == old(shaderList)
    {
      lightList := lightList + [light];
    }

    /**
     * Selects `cam`, first appending it when the list does not hold it; a
     * camera held more than once selects its first position.
     */
    method SetActiveCamera(cam: C)
      modifies this
      ensures cameraList == if cam in old(cameraList) then old(cameraList) else old(cameraList) + [cam]
      ensures 0 <= currentCamera < |cameraList| && cameraList[currentCamera] == cam
      ensures cam !in cameraList[..currentCamera]
      ensures lightList == old(lightList) && shaderList == old(shaderList)
    {
      var index := IndexOf(cameraList, cam);
      if index == -1 {
        cameraList := cameraList + [cam];
        index := IndexOf(cameraList, cam);
        assert cameraList[|cameraList| - 1] == cam;
      }
      currentCamera := index;
    }

    /** Wraps to the first camera from the last one. */
    method NextCamera()
      modifies this
      ensures currentCamera == NextIndex(old(currentCamera), |cameraList|)
      ensures cameraList == old(cameraList) && lightList == old(lightList)
      ensures shaderList == old(shaderList)
    {
      if currentCamera >= |cameraList| - 1 {
        currentCamera := 0;
      } else {
        currentCamera := currentCamera + 1;
      }
    }

    /** Wraps to the last camera from the first one. */
    method PreviousCamera()
      modifies this
      ensures currentCamera == PreviousIndex(old(currentCamera), |cameraList|)
      ensures cameraList == old(cameraList) && lightList == old(lightList)
      ensures shaderList == old(shaderList)
    {
      if currentCamera <= 0 {
        currentCamera := |cameraList| - 1;
      } else {
        currentCamera := currentCamera - 1;
      }
    }

    /** `cameraList.get(currentCamera)`, which throws when the index is out of range. */
    method GetActiveCamera() returns (r: Result<C>)
      ensures 0 <= currentCamera < |cameraList| <==> r.Ok?
      ensures r.Ok? ==> r.value == cameraList[currentCamera]
      ensures r.Err? ==> r.error == IndexOutOfBounds
    {
      if 0 <= currentCamera < |cameraList| {
        r := Ok(cameraList[currentCamera]);
      } else {
        r := Err(IndexOutOfBounds);
      }
    }

    /** Copies the shader list; on a valid registry it throws because that list is never created. */
    method GetShaderList() returns (r: Result<seq<ShaderProgram>>)
      ensures shaderList.None? <==> r == Err(NullPointer)
      ensures shaderList.Some? ==> r == Ok(shaderList.value)
    {
      if shaderList.None? {
        r := Err(NullPointer);
      } else {
        r := Ok(shaderList.value);
      }
    }

    /** A copy of the camera list. */
    method GetCameraList() returns (cams: seq<C>)
      ensures cams == cameraList
    {
      cams := cameraList;
    }

    /** The light list itself (not a copy). */
    /**
     * Java hands out the live list; the model returns its contents, so a
     * caller's later change to that list is not seen here.
     */
    method GetLightList() returns (lights: seq<Light>)
      ensures lights == lightList
    {
      lights := lightList;
    }
  }
}
