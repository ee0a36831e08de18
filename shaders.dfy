/**
 * The light uniforms of `shader.TerrainShader` and `shader.FlatShader`.
 * Each shader looks up one uniform location per light slot under an indexed
 * name (`lightPosition[i]`, ...) and, when lights are loaded, fills every
 * slot: from the light list while it lasts, with a dark placeholder light
 * after that.
 *
 * The linked program's active uniforms are a map from name to location; the
 * uniform uploads are recorded in order.
 */
module Shaders {
  import opened Common
  import opened Lights

  /** One `glUniform*` call: a vector or a float loaded at a location. */
  datatype Upload = Vector3(location: int, vector: Vec3) | Scalar(location: int, scalar: real)

  /** The decimal digit `d`. */
  function Digit(d: nat): char
    requires d < 10
  {
    "0123456789"[d]
  }

  /** Java's decimal rendering of a non-negative `int`. */
  function DecimalString(n: nat): (s: string)
    ensures |s| >= 1
  {
    if n < 10 then [Digit(n)] else DecimalString(n / 10) + [Digit(n % 10)]
  }

  /** Different numbers are rendered differently. */
  lemma {:induction false} DecimalStringInjective(a: nat, b: nat)
    requires DecimalString(a) == DecimalString(b)
    ensures a == b
  {
    var s := DecimalString(a);
    if a < 10 && b < 10 {
      assert Digit(a) == s[0] == Digit(b);
    } else if a >= 10 && b >= 10 {
      assert Digit(a % 10) == s[|s| - 1] == Digit(b % 10);
      assert DecimalString(a / 10) == s[..|s| - 1] == DecimalString(b / 10);
      DecimalStringInjective(a / 10, b / 10);
    }
  }

  const LightPositionName: string := "lightPosition"
  const LightColourName: string := "lightColour"
  const AttenuationName: string := "attenuation"

  /** `name + "[" + i + "]"`: the uniform of element `i` of a GLSL array. */
  function UniformName(name: string, i: nat): (u: string)
    ensures |u| == |name| + |DecimalString(i)| + 2
    ensures u[..|name|] == name && u[|name|] == '[' && u[|u| - 1] == ']'
  {
    name + "[" + DecimalString(i) + "]"
  }

  /** Within one array, different slots have different uniform names. */
  lemma UniformNameInjective(name: string, i: nat, j: nat)
    requires UniformName(name, i) == UniformName(name, j)
    ensures i == j
  {
    var u := UniformName(name, i);
    assert u[|name| + 1..|u| - 1] == DecimalString(i);
    assert UniformName(name, j)[|name| + 1..|u| - 1] == DecimalString(j);
    DecimalStringInjective(i, j);
  }

  /** The three light arrays never share a uniform name, whatever the slots. */
  lemma LightArraysHaveDistinctNames(i: nat, j: nat)
    ensures UniformName(LightPositionName, i) != UniformName(LightColourName, j)
    ensures UniformName(LightPositionName, i) != UniformName(AttenuationName, j)
    ensures UniformName(LightColourName, i) != UniformName(AttenuationName, j)
  {
    assert UniformName(LightPositionName, i)[5] == 'P';
    assert UniformName(LightColourName, j)[5] == 'C';
    assert UniformName(LightPositionName, i)[0] == 'l' && UniformName(LightColourName, i)[0] == 'l';
    assert UniformName(AttenuationName, j)[0] == 'a';
  }

  /** The values of the lights, read in list order. */
  function States(lights: seq<Light>): (r: seq<LightState>)
    reads lights
    ensures |r| == |lights|
    ensures forall i | 0 <= i < |lights| :: r[i] == lights[i].State()
  {
    if |lights| == 0 then [] else States(lights[..|lights| - 1]) + [lights[|lights| - 1].State()]
  }

  /** The attenuation an unused slot gets: constant 1, no falloff. */
  const PlaceholderAttenuation: Vec3 := Vec3(1.0, 0.0, 0.0)

  /** The three uploads `TerrainShader.loadLights` makes for slot `i`. */
  function TerrainSlotUploads(pos: int, col: int, att: int, lights: seq<LightState>, i: nat): seq<Upload> {
    if i < |lights| then
      [Vector3(pos, lights[i].position), Vector3(col, lights[i].color), Vector3(att, lights[i].attenuation)]
    else
      [Vector3(pos, Zero3), Vector3(col, Zero3), Vector3(att, PlaceholderAttenuation)]
  }

  /** The uploads of the first `n` slots of the terrain shader. */
  function TerrainLightUploads(pos: seq<int>, col: seq<int>, att: seq<int>, lights: seq<LightState>,
                               n: nat): seq<Upload>
    requires n <= |pos| && n <= |col| && n <= |att|
  {
    if n == 0 then []
    else TerrainLightUploads(pos, col, att, lights, n - 1)
         + TerrainSlotUploads(pos[n - 1], col[n - 1], att[n - 1], lights, n - 1)
  }

  /**
   * Filling `n` slots makes three uploads per slot. Slot `i` gets the
   * position, colour and attenuation of light `i` when there is one, and a
   * black light at the origin with attenuation (1, 0, 0) otherwise.
   */
  lemma {:induction false} TerrainLightUploadsAt(pos: seq<int>, col: seq<int>, att: seq<int>,
                                                 lights: seq<LightState>, n: nat, i: nat)
    requires n <= |pos| && n <= |col| && n <= |att| && i < n
    ensures |TerrainLightUploads(pos, col, att, lights, n)| == 3 * n
    ensures var u := TerrainLightUploads(pos, col, att, lights, n);
            && u[3 * i] == Vector3(pos[i], if i < |lights| then lights[i].position else Zero3)
            && u[3 * i + 1] == Vector3(col[i], if i < |lights| then lights[i].color else Zero3)
            && u[3 * i + 2] == Vector3(att[i], if i < |lights| then lights[i].attenuation
                                               else PlaceholderAttenuation)
  {
    TerrainLightUploadsLength(pos, col, att, lights, n - 1);
    if i < n - 1 {
      TerrainLightUploadsAt(pos, col, att, lights, n - 1, i);
    }
  }

  lemma {:induction false} TerrainLightUploadsLength(pos: seq<int>, col: seq<int>, att: seq<int>,
                                                     lights: seq<LightState>, n: nat)
    requires n <= |pos| && n <= |col| && n <= |att|
    ensures |TerrainLightUploads(pos, col, att, lights, n)| == 3 * n
  {
    if n > 0 {
      TerrainLightUploadsLength(pos, col, att, lights, n - 1);
    }
  }

  /** Lights past the last slot are never loaded: only the first `n` lights matter. */
  lemma {:induction false} TerrainIgnoresExtraLights(pos: seq<int>, col: seq<int>, att: seq<int>,
                                                     lights: seq<LightState>, n: nat)
    requires n <= |pos| && n <= |col| && n <= |att| && n <= |lights|
    ensures TerrainLightUploads(pos, col, att, lights, n) == TerrainLightUploads(pos, col, att, lights[..n], n)
    decreases n
  {
    if n > 0 {
      TerrainIgnoresExtraLights(pos, col, att, lights[..n], n - 1);
      TerrainIgnoresExtraLights(pos, col, att, lights, n - 1);
      assert lights[..n][..n - 1] == lights[..n - 1];
    }
  }

  /** `FlatShader.MAX_LIGHTS`. */
  const FlatMaxLights: nat := 2

  /** The two uploads `FlatShader.loadLights` makes for slot `i`. */
  function FlatSlotUploads(pos: int, col: int, lights: seq<LightState>, i: nat): seq<Upload> {
    if i < |lights| then [Vector3(pos, lights[i].position), Vector3(col, lights[i].color)]
    else [Vector3(pos, Zero3), Vector3(col, Zero3)]
  }

  /** The uploads of the first `n` slots of the flat shader. */
  function FlatLightUploads(pos: seq<int>, col: seq<int>, lights: seq<LightState>, n: nat): seq<Upload>
    requires n <= |pos| && n <= |col|
  {
    if n == 0 then []
    else FlatLightUploads(pos, col, lights, n - 1) + FlatSlotUploads(pos[n - 1], col[n - 1], lights, n - 1)
  }

  /**
   * Filling `n` slots of the flat shader makes two uploads per slot, the
   * light's position and colour or black at the origin; every upload goes to
   * a position or colour location, so nothing is loaded as attenuation.
   */
  lemma {:induction false} FlatLightUploadsAt(pos: seq<int>, col: seq<int>, lights: seq<LightState>,
                                              n: nat, i: nat)
    requires n <= |pos| && n <= |col| && i < n
    ensures |FlatLightUploads(pos, col, lights, n)| == 2 * n
    ensures var u := FlatLightUploads(pos, col, lights, n);
            && u[2 * i] == Vector3(pos[i], if i < |lights| then lights[i].position else Zero3)
            && u[2 * i + 1] == Vector3(col[i], if i < |lights| then lights[i].color else Zero3)
  {
    FlatLightUploadsLength(pos, col, lights, n - 1);
    if i < n - 1 {
      FlatLightUploadsAt(pos, col, lights, n - 1, i);
    }
  }

  lemma {:induction false} FlatLightUploadsLength(pos: seq<int>, col: seq<int>, lights: seq<LightState>,
                                                  n: nat)
    requires n <= |pos| && n <= |col|
    ensures |FlatLightUploads(pos, col, lights, n)| == 2 * n
  {
    if n > 0 {
      FlatLightUploadsLength(pos, col, lights, n - 1);
    }
  }

  /**
   * `glGetUniformLocation`: the location of an active uniform of the linked
   * program, and -1 for a name the program does not use.
   */
  function UniformLocation(uniforms: map<string, int>, name: string): int {
    if name in uniforms then uniforms[name] else -1
  }

  /** Slot `i` of `a` holds the location of element `i` of the GLSL array `name`. */
  ghost predicate SlotsLocated(uniforms: map<string, int>, a: array<int>, name: string)
    reads a
  {
    SlotsLocatedBelow(uniforms, a, name, a.Length)
  }

  /** The first `n` slots of `a` hold the locations of the first `n` elements of `name`. */
  ghost predicate SlotsLocatedBelow(uniforms: map<string, int>, a: array<int>, name: string, n: int)
    reads a
  {
    forall i | 0 <= i < n && i < a.Length :: a[i] == UniformLocation(uniforms, UniformName(name, i))
  }

  /** One pass of the loop: slot `i` of each of the three arrays is located. */
  method LocateLightSlot(uniforms: map<string, int>, i: nat,
                         position: array<int>, colour: array<int>, attenuation: array<int>)
    requires i < position.Length && i < colour.Length && i < attenuation.Length
    requires position != colour && colour != attenuation && position != attenuation
    modifies position, colour, attenuation
    ensures position[..] == old(position[..])[i := UniformLocation(uniforms, UniformName(LightPositionName, i))]
    ensures colour[..] == old(colour[..])[i := UniformLocation(uniforms, UniformName(LightColourName, i))]
    ensures attenuation[..] == old(attenuation[..])[i := UniformLocation(uniforms, UniformName(AttenuationName, i))]
  {
    position[i] := UniformLocation(uniforms, UniformName(LightPositionName, i));
    colour[i] := UniformLocation(uniforms, UniformName(LightColourName, i));
    attenuation[i] := UniformLocation(uniforms, UniformName(AttenuationName, i));
  }

  /** Locating slot `i` extends the located prefix by one. */
  lemma LocatedPrefixGrows(uniforms: map<string, int>, a: array<int>, before: seq<int>, name: string, i: nat)
    requires i < a.Length == |before|
    requires forall k | 0 <= k < i :: before[k] == UniformLocation(uniforms, UniformName(name, k))
    requires a[..] == before[i := UniformLocation(uniforms, UniformName(name, i))]
    ensures SlotsLocatedBelow(uniforms, a, name, i + 1)
  {
    forall k | 0 <= k < i + 1
      ensures a[k] == UniformLocation(uniforms, UniformName(name, k))
    {
      assert a[k] == a[..][k];
    }
  }

  /**
   * The loop of `TerrainShader.getAllUniformVarLocations`: new location
   * arrays of `n` slots for `lightPosition`, `lightColour` and
   * `attenuation`, filled slot by slot in one pass.
   */
  method LocateLightArrays(uniforms: map<string, int>, n: nat)
    returns (position: array<int>, colour: array<int>, attenuation: array<int>)
    ensures fresh(position) && fresh(colour) && fresh(attenuation)
    ensures position.Length == n && colour.Length == n && attenuation.Length == n
    ensures SlotsLocated(uniforms, position, LightPositionName)
    ensures SlotsLocated(uniforms, colour, LightColourName)
    ensures SlotsLocated(uniforms, attenuation, AttenuationName)
  {
    position := new int[n];
    colour := new int[n];
    attenuation := new int[n];
    var i := 0;
    while i < n
      modifies position, colour, attenuation
      invariant 0 <= i <= n
      invariant SlotsLocatedBelow(uniforms, position, LightPositionName, i)
      invariant SlotsLocatedBelow(uniforms, colour, LightColourName, i)
      invariant SlotsLocatedBelow(uniforms, attenuation, AttenuationName, i)
    {
      ghost var p, c, t := position[..], colour[..], attenuation[..];
      LocateLightSlot(uniforms, i, position, colour, attenuation);
      LocatedPrefixGrows(uniforms, position, p, LightPositionName, i);
      LocatedPrefixGrows(uniforms, colour, c, LightColourName, i);
      LocatedPrefixGrows(uniforms, attenuation, t, AttenuationName, i);
      i := i + 1;
    }
  }

  /**
   * The loop of `FlatShader.getAllUniformVarLocations`: new location arrays
   * of `FlatMaxLights` slots for `lightPosition` and `lightColour`, filled
   * slot by slot in one pass.
   */
  method LocateFlatLightArrays(uniforms: map<string, int>) returns (position: array<int>, colour: array<int>)
    ensures fresh(position) && fresh(colour)
    ensures position.Length == FlatMaxLights && colour.Length == FlatMaxLights
    ensures SlotsLocated(uniforms, position, LightPositionName)
    ensures SlotsLocated(uniforms, colour, LightColourName)
  {
    position := new int[FlatMaxLights];
    colour := new int[FlatMaxLights];
    var i := 0;
    while i < FlatMaxLights
      modifies position, colour
      invariant 0 <= i <= FlatMaxLights
      invariant SlotsLocatedBelow(uniforms, position, LightPositionName, i)
      invariant SlotsLocatedBelow(uniforms, colour, LightColourName, i)
    {
      ghost var p, c := position[..], colour[..];
      position[i] := UniformLocation(uniforms, UniformName(LightPositionName, i));
      colour[i] := UniformLocation(uniforms, UniformName(LightColourName, i));
      LocatedPrefixGrows(uniforms, position, p, LightPositionName, i);
      LocatedPrefixGrows(uniforms, colour, c, LightColourName, i);
      i := i + 1;
    }
  }

  class TerrainShader {
    /** `MAX_LIGHTS_IN_SHADERS`, a constant of an interface outside this model. */
    const maxLights: nat
    /** The active uniforms of the linked program and their locations. */
    const uniforms: map<string, int>
    var locationTransformationMatrix: int
    var locationProjectionMatrix: int
    var locationViewMatrix: int
    var locationShineDamper: int
    var locationReflectivity: int
    var locationSkyColour: int
    var locationLightPosition: array<int>
    var locationLightColour: array<int>
    var locationAttenuation: array<int>
    var uploads: seq<Upload>

    ghost predicate Valid()
      reads this
    {
      && locationLightPosition.Length == maxLights
      && locationLightColour.Length == maxLights
      && locationAttenuation.Length == maxLights
    }

    /** The matrix, shine and sky locations were looked up under their uniforms' names. */
    ghost predicate ScalarsLocated()
      reads this
    {
      && locationTransformationMatrix == UniformLocation(uniforms, "transformationMatrix")
      && locationProjectionMatrix == UniformLocation(uniforms, "projectionMatrix")
      && locationViewMatrix == UniformLocation(uniforms, "viewMatrix")
      && locationShineDamper == UniformLocation(uniforms, "shineDamper")
      && locationReflectivity == UniformLocation(uniforms, "reflectivity")
      && locationSkyColour == UniformLocation(uniforms, "skyColour")
    }

    /** Every location was looked up under its uniform's name. */
    ghost predicate Located()
      reads this, locationLightPosition, locationLightColour, locationAttenuation
    {
      && ScalarsLocated()
      && SlotsLocated(uniforms, locationLightPosition, LightPositionName)
      && SlotsLocated(uniforms, locationLightColour, LightColourName)
      && SlotsLocated(uniforms, locationAttenuation, AttenuationName)
    }

    /** The program is built and its uniform locations looked up; nothing is uploaded yet. */
    constructor (maxLights: nat, uniforms: map<string, int>)
      ensures this.maxLights == maxLights && this.uniforms == uniforms
      ensures Valid() && Located() && uploads == []
    {
      this.maxLights := maxLights;
      this.uniforms := uniforms;
      uploads := [];
      locationLightPosition := new int[0];
      locationLightColour := new int[0];
      locationAttenuation := new int[0];
      new;
      GetAllUniformVarLocations();
    }

    /** Looks up the scalar uniforms and one location per light slot in each of the three arrays. */
    method GetAllUniformVarLocations()
      modifies this
      ensures Valid() && Located()
      ensures uploads == old(uploads)
    {
      LocateScalars();
      var position, colour, attenuation := LocateLightArrays(uniforms, maxLights);
      locationLightPosition, locationLightColour, locationAttenuation := position, colour, attenuation;
    }

    /** The first part of `getAllUniformVarLocations`: the six single uniforms. */
    method LocateScalars()
      modifies this`locationTransformationMatrix, this`locationProjectionMatrix, this`locationViewMatrix
      modifies this`locationShineDamper, this`locationReflectivity, this`locationSkyColour
      ensures ScalarsLocated()
    {
      locationTransformationMatrix := UniformLocation(uniforms, "transformationMatrix");
      locationProjectionMatrix := UniformLocation(uniforms, "projectionMatrix");
      locationViewMatrix := UniformLocation(uniforms, "viewMatrix");
      locationShineDamper := UniformLocation(uniforms, "shineDamper");
      locationReflectivity := UniformLocation(uniforms, "reflectivity");
      locationSkyColour := UniformLocation(uniforms, "skyColour");
    }

    /** Fills every light slot, from `lights` while it lasts and with a dark placeholder after that. */
    method LoadLights(lights: seq<Light>)
      requires Valid()
      modifies this`uploads
      ensures uploads == old(uploads) + TerrainLightUploads(locationLightPosition[..], locationLightColour[..],
                                                            locationAttenuation[..], States(lights), maxLights)
    {
      ghost var values := States(lights);
      ghost var pos, col, att := locationLightPosition[..], locationLightColour[..], locationAttenuation[..];
      for i := 0 to maxLights
        invariant uploads == old(uploads) + TerrainLightUploads(pos, col, att, values, i)
      {
        LoadLightSlot(lights, i, values, pos[i], col[i], att[i]);
        assert uploads == old(uploads) + (TerrainLightUploads(pos, col, att, values, i)
                                          + TerrainSlotUploads(pos[i], col[i], att[i], values, i));
      }
    }

    /** One pass of the `loadLights` loop: the three uploads of slot `i`. */
    method LoadLightSlot(lights: seq<Light>, i: nat, ghost values: seq<LightState>, ghost pos: int, ghost col: int, ghost att: int)
      requires Valid() && i < maxLights && values == States(lights)
      requires pos == locationLightPosition[i] && col == locationLightColour[i] && att == locationAttenuation[i]
      modifies this`uploads
      ensures uploads == old(uploads) + TerrainSlotUploads(pos, col, att, values, i)
    {
      if i < |lights| {
        uploads := uploads + [Vector3(locationLightPosition[i], lights[i].position),
                              Vector3(locationLightColour[i], lights[i].color),
                              Vector3(locationAttenuation[i], lights[i].attenuation)];
      } else {
        uploads := uploads + [Vector3(locationLightPosition[i], Zero3),
                              Vector3(locationLightColour[i], Zero3),
                              Vector3(locationAttenuation[i], PlaceholderAttenuation)];
      }
    }

    /** The damper goes to `shineDamper`, the reflectivity to `reflectivity`. */
    method LoadShineVariables(damper: real, reflectivity: real)
      modifies this`uploads
      ensures uploads == old(uploads) + [Scalar(locationShineDamper, damper), Scalar(locationReflectivity, reflectivity)]
    {
      uploads := uploads + [Scalar(locationShineDamper, damper)];
      uploads := uploads + [Scalar(locationReflectivity, reflectivity)];
    }

    method LoadSkyColour(sky: Vec3)
      modifies this`uploads
      ensures uploads == old(uploads) + [Vector3(locationSkyColour, sky)]
    {
      uploads := uploads + [Vector3(locationSkyColour, sky)];
    }
  }

  class FlatShader {
    /** The active uniforms of the linked program and their locations. */
    const uniforms: map<string, int>
    var locationTransformationMatrix: int
    var locationProjectionMatrix: int
    var locationViewMatrix: int
    var locationLightPosition: array<int>
    var locationLightColour: array<int>
    var uploads: seq<Upload>

    ghost predicate Valid()
      reads this
    {
      locationLightPosition.Length == FlatMaxLights && locationLightColour.Length == FlatMaxLights
    }

    /** Every location was looked up under its uniform's name; there is no attenuation uniform. */
    ghost predicate Located()
      reads this, locationLightPosition, locationLightColour
      requires Valid()
    {
      && locationTransformationMatrix == UniformLocation(uniforms, "transformationMatrix")
      && locationProjectionMatrix == UniformLocation(uniforms, "projectionMatrix")
      && locationViewMatrix == UniformLocation(uniforms, "viewMatrix")
      && SlotsLocated(uniforms, locationLightPosition, LightPositionName)
      && SlotsLocated(uniforms, locationLightColour, LightColourName)
    }

    constructor (uniforms: map<string, int>)
      ensures this.uniforms == uniforms
      ensures Valid() && Located() && uploads == []
    {
      this.uniforms := uniforms;
      uploads := [];
      locationLightPosition := new int[0];
      locationLightColour := new int[0];
      new;
      GetAllUniformVarLocations();
    }

    /** Looks up the matrices and `lightPosition[i]`, `lightColour[i]` for i = 0, 1. */
    method GetAllUniformVarLocations()
      modifies this
      ensures Valid() && Located()
      ensures uploads == old(uploads)
    {
      locationTransformationMatrix := UniformLocation(uniforms, "transformationMatrix");
      locationProjectionMatrix := UniformLocation(uniforms, "projectionMatrix");
      locationViewMatrix := UniformLocation(uniforms, "viewMatrix");
      var position, colour := LocateFlatLightArrays(uniforms);
      locationLightPosition, locationLightColour := position, colour;
    }

    /** Fills both light slots, from `lights` while it lasts and with black at the origin after that. */
    method LoadLights(lights: seq<Light>)
      requires Valid()
      modifies this`uploads
      ensures uploads == old(uploads) + FlatLightUploads(locationLightPosition[..], locationLightColour[..],
                                                         States(lights), FlatMaxLights)
    {
      ghost var values := States(lights);
      ghost var pos, col := locationLightPosition[..], locationLightColour[..];
      var i := 0;
      while i < FlatMaxLights
        invariant 0 <= i <= FlatMaxLights
        invariant uploads == old(uploads) + FlatLightUploads(pos, col, values, i)
      {
        ghost var before := uploads;
        if i < |lights| {
          uploads := uploads + [Vector3(locationLightPosition[i], lights[i].position)];
          uploads := uploads + [Vector3(locationLightColour[i], lights[i].color)];
        } else {
          uploads := uploads + [Vector3(locationLightPosition[i], Zero3)];
          uploads := uploads + [Vector3(locationLightColour[i], Zero3)];
        }
        assert uploads == before + FlatSlotUploads(pos[i], col[i], values, i);
        i := i + 1;
      }
    }
  }
}
