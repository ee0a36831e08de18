/**
 * `loader.ObjBuilder`: the callbacks a Wavefront OBJ parser drives. Geometric
 * vertices, texture coordinates and normals are collected in call order;
 * each face turns its index triples into `Vertex` records appended to one
 * sorted list, resolving 1-based and negative (relative) indices against
 * the lists collected so far.
 *
 * `EMPTY_VERTEX_VALUE`, a constant of the parser interface, is given to the
 * constructor.
 */
module ObjBuilding {
  import opened Common
  import opened ObjBuildSystem

  /**
   * The list position a face index selects in a list of `size` elements, or
   * none: a negative index is first shifted by the size, then every index is
   * decreased by one for OBJ's 1-based numbering.
   */
  function Resolve(compIndex: int, size: nat): (r: Option<nat>)
    ensures r.Some? ==> r.value < size
    ensures 1 <= compIndex <= size ==> r == Some(compIndex - 1)
    ensures 1 - size <= compIndex < 0 ==> r == Some(size + compIndex - 1)
    ensures r.None? <==> compIndex == 0 || compIndex > size || compIndex < 1 - size
  {
    var shifted := if compIndex < 0 then compIndex + size else compIndex;
    var c := shifted - 1;
    if 0 <= c < size then Some(c) else None
  }

  /**
   * The relative index -1 selects the second-to-last element rather than the
   * last, and the first element cannot be reached relatively at all: -size
   * resolves to nothing. With a single element, -1 resolves to nothing.
   */
  lemma RelativeIndexMissesByOne(size: nat)
    requires size >= 1
    ensures size >= 2 ==> Resolve(-1, size) == Some(size - 2)
    ensures Resolve(0 - size, size).None?
    ensures size == 1 ==> Resolve(-1, size).None?
  {
  }

  /** The Wavefront OBJ convention: -1 is the last element, -size the first. */
  function ResolveCorrected(compIndex: int, size: nat): (r: Option<nat>)
    ensures r.Some? ==> r.value < size
    ensures 1 <= compIndex <= size ==> r == Some(compIndex - 1)
    ensures 0 <= compIndex + size && compIndex < 0 ==> r == Some(size + compIndex)
    ensures r.None? <==> compIndex == 0 || compIndex > size || compIndex + size < 0
  {
    var c := if compIndex < 0 then compIndex + size else compIndex - 1;
    if 0 <= c < size then Some(c) else None
  }

  /**
   * With the correction, absolute index k and relative index k - size - 1
   * name the same element, so every element is reachable both ways.
   */
  lemma ResolveCorrectedAgrees(size: nat, k: int)
    requires 1 <= k <= size
    ensures ResolveCorrected(k, size) == ResolveCorrected(k - size - 1, size) == Some(k - 1)
  {
  }

  /** The lists a face resolves its indices against. */
  datatype Pools = Pools(vertices: seq<Vec3>, textureCoords: seq<Vec2>, normals: seq<Vec3>, emptyValue: int)

  /** The components carried from one triple to the next. */
  datatype Components = Components(vCoord: Option<Vec3>, texCoord: Option<Vec2>, normVec: Option<Vec3>)

  /** The selected element, or the previous component when the index selects nothing. */
  function Select<T>(list: seq<T>, compIndex: int, previous: Option<T>): (r: Option<T>)
    ensures Resolve(compIndex, |list|).Some? ==> r == Some(list[Resolve(compIndex, |list|).value])
    ensures Resolve(compIndex, |list|).None? ==> r == previous
    ensures r == previous || (r.Some? && r.value in list)
  {
    match Resolve(compIndex, |list|)
    case Some(c) => Some(list[c])
    case None => previous
  }

  /**
   * One triple (vertex, texture, normal). A texture or normal index equal to
   * `EMPTY_VERTEX_VALUE`, and any index that selects nothing, leaves that
   * component as the previous triple left it.
   */
  function Step(pools: Pools, c: Components, v: int, t: int, n: int): Components {
    Components(
      Select(pools.vertices, v, c.vCoord),
      if t == pools.emptyValue then c.texCoord else Select(pools.textureCoords, t, c.texCoord),
      if n == pools.emptyValue then c.normVec else Select(pools.normals, n, c.normVec))
  }

  /** The components after the first `k` triples of `indices`; all null before the first. */
  function Carry(pools: Pools, indices: seq<int>, k: nat): Components
    requires 3 * k <= |indices|
  {
    if k == 0 then Components(None, None, None)
    else Step(pools, Carry(pools, indices, k - 1), indices[3 * k - 3], indices[3 * k - 2], indices[3 * k - 1])
  }

  /** The vertices the first `k` triples append, numbered from `base`. */
  function FaceVertices(pools: Pools, indices: seq<int>, k: nat, base: nat): seq<Vertex>
    requires 3 * k <= |indices|
  {
    if k == 0 then []
    else
      var c := Carry(pools, indices, k);
      FaceVertices(pools, indices, k - 1, base) + [Vertex(base + k - 1, c.vCoord, c.texCoord, c.normVec)]
  }

  /**
   * One vertex per triple, numbered consecutively from `base`; vertex m
   * holds the components in force after triple m.
   */
  lemma {:induction false} FaceVerticesAt(pools: Pools, indices: seq<int>, k: nat, base: nat, m: nat)
    requires 3 * k <= |indices| && m < k
    ensures |FaceVertices(pools, indices, k, base)| == k
    ensures var c := Carry(pools, indices, m + 1);
            FaceVertices(pools, indices, k, base)[m] == Vertex(base + m, c.vCoord, c.texCoord, c.normVec)
  {
    FaceVerticesLength(pools, indices, k - 1, base);
    if m < k - 1 {
      FaceVerticesAt(pools, indices, k - 1, base, m);
    }
  }

  lemma {:induction false} FaceVerticesLength(pools: Pools, indices: seq<int>, k: nat, base: nat)
    requires 3 * k <= |indices|
    ensures |FaceVertices(pools, indices, k, base)| == k
  {
    if k > 0 {
      FaceVerticesLength(pools, indices, k - 1, base);
    }
  }

  /**
   * A face only ever reads the three lists: a vertex component is either
   * null or an element of the list its index points into.
   */
  lemma {:induction false} CarriedComponentsComeFromPools(pools: Pools, indices: seq<int>, k: nat)
    requires 3 * k <= |indices|
    ensures var c := Carry(pools, indices, k);
            && (c.vCoord.Some? ==> c.vCoord.value in pools.vertices)
            && (c.texCoord.Some? ==> c.texCoord.value in pools.textureCoords)
            && (c.normVec.Some? ==> c.normVec.value in pools.normals)
  {
    if k > 0 {
      CarriedComponentsComeFromPools(pools, indices, k - 1);
    }
  }

  /** Every vertex's index is its position in the list. */
  predicate NumberedByPosition(list: seq<Vertex>) {
    forall k | 0 <= k < |list| :: list[k].index == k
  }

  lemma NumberingExtends(list: seq<Vertex>, v: Vertex)
    requires NumberedByPosition(list) && v.index == |list|
    ensures NumberedByPosition(list + [v])
  {
  }

  lemma AppendAssociates(xs: seq<Vertex>, ys: seq<Vertex>, v: Vertex)
    ensures xs + ys + [v] == xs + (ys + [v])
  {
  }

  /** A snapshot of the builder's fields. */
  datatype BuilderState = BuilderState(
    objName: Option<string>,
    vertices: seq<Vec3>,
    textureCoords: seq<Vec2>,
    normal: seq<Vec3>,
    sortedVertexList: seq<Vertex>,
    currentMaterial: Option<Material>,
    currentMap: Option<Material>,
    materialLib: map<string, Material>)

  class ObjBuilder {
    /** `EMPTY_VERTEX_VALUE`. */
    const emptyVertexValue: int
    var objName: Option<string>
    var vertices: seq<Vec3>
    var textureCoords: seq<Vec2>
    var normal: seq<Vec3>
    var sortedVertexList: seq<Vertex>
    var currentMaterial: Option<Material>
    /** Never assigned, so every face is created with a null map. */
    var currentMap: Option<Material>
    var materialLib: map<string, Material>

    function State(): BuilderState
      reads this
    {
      BuilderState(objName, vertices, textureCoords, normal, sortedVertexList, currentMaterial, currentMap, materialLib)
    }

    function CurrentPools(): Pools
      reads this
    {
      Pools(vertices, textureCoords, normal, emptyVertexValue)
    }

    /** Every vertex's index is its position in the sorted list. */
    ghost predicate Valid()
      reads this
    {
      NumberedByPosition(sortedVertexList)
    }

    constructor (emptyVertexValue: int)
      ensures this.emptyVertexValue == emptyVertexValue
      ensures State() == BuilderState(None, [], [], [], [], None, None, map[])
      ensures Valid()
    {
      this.emptyVertexValue := emptyVertexValue;
      objName := None;
      vertices := [];
      textureCoords := [];
      normal := [];
      sortedVertexList := [];
      currentMaterial := None;
      currentMap := None;
      materialLib := map[];
    }

    method SetObjFilename(filename: string)
      modifies this
      ensures State() == old(State()).(objName := Some(filename))
    {
      objName := Some(filename);
    }

    method AddVertexGeometric(x: real, y: real, z: real)
      requires Valid()
      modifies this
      ensures Valid()
      ensures State() == old(State()).(vertices := old(vertices) + [Vec3(x, y, z)])
    {
      vertices := vertices + [Vec3(x, y, z)];
    }

    method AddVertexTexture(u: real, v: real)
      requires Valid()
      modifies this
      ensures Valid()
      ensures State() == old(State()).(textureCoords := old(textureCoords) + [Vec2(u, v)])
    {
      textureCoords := textureCoords + [Vec2(u, v)];
    }

    method AddVertexNormal(x: real, y: real, z: real)
      requires Valid()
      modifies this
      ensures Valid()
      ensures State() == old(State()).(normal := old(normal) + [Vec3(x, y, z)])
    {
      normal := normal + [Vec3(x, y, z)];
    }

    /** Points are ignored. */
    method AddPoints(values: seq<int>)
      ensures State() == old(State())
    {
    }

    /** Lines are ignored. */
    method AddLine(values: seq<int>)
      ensures State() == old(State())
    {
    }

    /** Material definitions are ignored, so the library is never filled. */
    method NewMtl(name: string)
      ensures State() == old(State())
    {
    }

    /**
     * `usemtl`: the current material becomes the library's entry for `name`,
     * null when there is none. No member adds to the library, so from a
     * fresh builder this is always null.
     */
    method SetCurrentUseMaterial(name: string)
      requires Valid()
      modifies this
      ensures Valid()
      ensures currentMaterial == (if name in old(materialLib) then Some(old(materialLib)[name]) else None)
      ensures old(materialLib) == map[] ==> currentMaterial == None
      ensures State() == old(State()).(currentMaterial := currentMaterial)
    {
      currentMaterial := if name in materialLib then Some(materialLib[name]) else None;
    }

    /**
     * Reads `vertexIndices` three at a time and appends one vertex per
     * triple, numbered by its position in the sorted list. An array whose
     * length is not a multiple of three is read past its end after its
     * complete triples, which throws.
     */
    method AddFace(vertexIndices: seq<int>) returns (o: Outcome)
      requires Valid()
      modifies this
      ensures Valid()
      ensures o == if |vertexIndices| % 3 == 0 then Done else Thrown(IndexOutOfBounds)
      ensures sortedVertexList ==
                old(sortedVertexList) + FaceVertices(old(CurrentPools()), vertexIndices, |vertexIndices| / 3,
                                                     |old(sortedVertexList)|)
      ensures State() == old(State()).(sortedVertexList := sortedVertexList)
    {
      ghost var pools := CurrentPools();
      ghost var base := |sortedVertexList|;
      var vertexCoord: Option<Vec3> := None;
      var texCoord: Option<Vec2> := None;
      var normVec: Option<Vec3> := None;
      var face := new VertexGroup(currentMaterial, currentMap);
      var i := 0;
      ghost var k: nat := 0;
      while i < |vertexIndices|
        invariant i == 3 * k && i <= |vertexIndices|
        invariant Components(vertexCoord, texCoord, normVec) == Carry(pools, vertexIndices, k)
        invariant sortedVertexList == old(sortedVertexList) + FaceVertices(pools, vertexIndices, k, base)
        invariant face.vertexList == FaceVertices(pools, vertexIndices, k, base)
        invariant State() == old(State()).(sortedVertexList := sortedVertexList)
        invariant Valid()
      {
        var compIndex := vertexIndices[i];
        i := i + 1;
        vertexCoord := Select(vertices, compIndex, vertexCoord);
        if i >= |vertexIndices| {
          return Thrown(IndexOutOfBounds);
        }
        compIndex := vertexIndices[i];
        i := i + 1;
        if compIndex != emptyVertexValue {
          texCoord := Select(textureCoords, compIndex, texCoord);
        }
        if i >= |vertexIndices| {
          return Thrown(IndexOutOfBounds);
        }
        compIndex := vertexIndices[i];
        i := i + 1;
        if compIndex != emptyVertexValue {
          normVec := Select(normal, compIndex, normVec);
        }
        ghost var prev := FaceVertices(pools, vertexIndices, k, base);
        FaceVerticesLength(pools, vertexIndices, k, base);
        k := k + 1;
        assert Components(vertexCoord, texCoord, normVec) == Carry(pools, vertexIndices, k);
        var index := |sortedVertexList|;
        var v := Vertex(index, vertexCoord, texCoord, normVec);
        assert FaceVertices(pools, vertexIndices, k, base) == prev + [v];
        NumberingExtends(sortedVertexList, v);
        AppendAssociates(old(sortedVertexList), prev, v);
        sortedVertexList := sortedVertexList + [v];
        face.AddVertex(v);
      }
      assert k == |vertexIndices| / 3;
      o := Done;
    }
  }
}
