/**
 * `loader.Loader`: creates the OpenGL objects for models and textures and
 * keeps every id it created, so that `cleanUp` can release them. A model is
 * one vertex array object (VAO) holding a position buffer at attribute 0, a
 * texture-coordinate buffer at attribute 1 and an index buffer.
 *
 * OpenGL is modelled as the sequence of calls made: ids that OpenGL
 * generates are parameters, and each call is recorded as a `GlCall`.
 */
module Loading {
  import opened Common
  import opened TextureLoading

  /** `Renderer.POSITION_ATTR_INDEX` and `Renderer.TEXTURE_COORD_ATTR_INDEX`. */
  const PositionAttrIndex: int := 0
  const TextureCoordAttrIndex: int := 1

  /** The kinds of OpenGL object the loader creates. */
  datatype GlObject = VertexArrayObject | BufferObject | TextureObject

  datatype BufferTarget = ArrayBuffer | ElementArrayBuffer

  /** The data given to `glBufferData`. */
  datatype BufferContents = Floats(floats: seq<real>) | Ints(ints: seq<int>)

  datatype GlCall =
    | GenVertexArray(vao: int)
    | BindVertexArray(vao: int)
    | GenBuffer(vbo: int)
    | BindBuffer(target: BufferTarget, vbo: int)
    | BufferData(target: BufferTarget, contents: BufferContents)
    | VertexAttribPointer(index: int, size: int)
    | UploadTexture(upload: TextureUpload)
    | Delete(kind: GlObject, id: int)

  /** `model.Model`: a VAO id and the number of vertices to draw. */
  datatype Model = Model(vaoId: int, vertexCount: int)

  /** The calls of `storeDataInVAO`: a new buffer filled with `data` and bound to attribute `index`. */
  function StoreCalls(index: int, coordSize: int, data: seq<real>, vbo: int): seq<GlCall> {
    [GenBuffer(vbo), BindBuffer(ArrayBuffer, vbo), BufferData(ArrayBuffer, Floats(data)),
     VertexAttribPointer(index, coordSize), BindBuffer(ArrayBuffer, 0)]
  }

  /** The calls of `bindIndicesBuffer`: a new element buffer filled with the indices. */
  function IndexCalls(indices: seq<int>, vbo: int): seq<GlCall> {
    [GenBuffer(vbo), BindBuffer(ElementArrayBuffer, vbo), BufferData(ElementArrayBuffer, Ints(indices))]
  }

  /** The calls of `loadToVAO`. */
  function LoadToVaoCalls(positions: seq<real>, textureCoords: seq<real>, indices: seq<int>,
                          vao: int, positionVbo: int, textureVbo: int, indexVbo: int): seq<GlCall> {
    [GenVertexArray(vao), BindVertexArray(vao)]
      + StoreCalls(PositionAttrIndex, 3, positions, positionVbo)
      + StoreCalls(TextureCoordAttrIndex, 2, textureCoords, textureVbo)
      + IndexCalls(indices, indexVbo)
      + [BindVertexArray(0)]
  }

  /** The attribute pointer one call sets, if any. */
  function PointerOf(c: GlCall): seq<(int, int)> {
    if c.VertexAttribPointer? then [(c.index, c.size)] else []
  }

  /** The buffer contents one call uploads, if any. */
  function UploadOf(c: GlCall): seq<(BufferTarget, BufferContents)> {
    if c.BufferData? then [(c.target, c.contents)] else []
  }

  /** The attribute pointers set by a sequence of calls, in order. */
  function AttributePointers(calls: seq<GlCall>): (r: seq<(int, int)>)
    ensures |r| <= |calls|
  {
    if |calls| == 0 then [] else PointerOf(calls[0]) + AttributePointers(calls[1..])
  }

  /** The buffer contents uploaded by a sequence of calls, in order. */
  function Uploads(calls: seq<GlCall>): (r: seq<(BufferTarget, BufferContents)>)
    ensures |r| <= |calls|
  {
    if |calls| == 0 then [] else UploadOf(calls[0]) + Uploads(calls[1..])
  }

  lemma {:induction false} PointersDistribute(a: seq<GlCall>, b: seq<GlCall>)
    ensures AttributePointers(a + b) == AttributePointers(a) + AttributePointers(b)
  {
    if |a| == 0 {
      assert a + b == b;
    } else {
      assert (a + b)[0] == a[0];
      assert (a + b)[1..] == a[1..] + b;
      PointersDistribute(a[1..], b);
    }
  }

  lemma {:induction false} UploadsDistribute(a: seq<GlCall>, b: seq<GlCall>)
    ensures Uploads(a + b) == Uploads(a) + Uploads(b)
  {
    if |a| == 0 {
      assert a + b == b;
    } else {
      assert (a + b)[0] == a[0];
      assert (a + b)[1..] == a[1..] + b;
      UploadsDistribute(a[1..], b);
    }
  }

  lemma StoreCallsTrace(index: int, coordSize: int, data: seq<real>, vbo: int)
    ensures AttributePointers(StoreCalls(index, coordSize, data, vbo)) == [(index, coordSize)]
    ensures Uploads(StoreCalls(index, coordSize, data, vbo)) == [(ArrayBuffer, Floats(data))]
  {
    var s := StoreCalls(index, coordSize, data, vbo);
    assert s[4..][1..] == [];
    assert s[3..][1..] == s[4..];
    assert s[2..][1..] == s[3..];
    assert s[1..][1..] == s[2..];
    assert AttributePointers(s[4..]) == [] && Uploads(s[4..]) == [];
    assert AttributePointers(s[3..]) == [(index, coordSize)] && Uploads(s[3..]) == [];
    assert AttributePointers(s[2..]) == [(index, coordSize)];
    assert Uploads(s[2..]) == [(ArrayBuffer, Floats(data))];
    assert AttributePointers(s[1..]) == [(index, coordSize)];
    assert Uploads(s[1..]) == [(ArrayBuffer, Floats(data))];
  }

  lemma IndexCallsTrace(indices: seq<int>, vbo: int)
    ensures AttributePointers(IndexCalls(indices, vbo)) == []
    ensures Uploads(IndexCalls(indices, vbo)) == [(ElementArrayBuffer, Ints(indices))]
  {
    var s := IndexCalls(indices, vbo);
    assert s[2..][1..] == [];
    assert s[1..][1..] == s[2..];
    assert AttributePointers(s[2..]) == [];
    assert Uploads(s[2..]) == [(ElementArrayBuffer, Ints(indices))];
    assert AttributePointers(s[1..]) == [];
    assert Uploads(s[1..]) == [(ElementArrayBuffer, Ints(indices))];
  }

  /**
   * A model's VAO gets exactly two attributes: positions (3 floats each) at
   * attribute 0 and texture coordinates (2 floats each) at attribute 1; no
   * normals are stored. Three buffers are filled: positions, texture
   * coordinates and indices, in that order.
   */
  lemma LoadToVaoLayout(positions: seq<real>, textureCoords: seq<real>, indices: seq<int>,
                        vao: int, positionVbo: int, textureVbo: int, indexVbo: int)
    ensures var calls := LoadToVaoCalls(positions, textureCoords, indices, vao, positionVbo, textureVbo, indexVbo);
            && AttributePointers(calls) == [(PositionAttrIndex, 3), (TextureCoordAttrIndex, 2)]
            && Uploads(calls) == [(ArrayBuffer, Floats(positions)), (ArrayBuffer, Floats(textureCoords)),
                                 (ElementArrayBuffer, Ints(indices))]
  {
    var head := [GenVertexArray(vao), BindVertexArray(vao)];
    var s1 := StoreCalls(PositionAttrIndex, 3, positions, positionVbo);
    var s2 := StoreCalls(TextureCoordAttrIndex, 2, textureCoords, textureVbo);
    var s3 := IndexCalls(indices, indexVbo);
    var tail := [BindVertexArray(0)];
    PointersDistribute(head + s1 + s2 + s3, tail);
    PointersDistribute(head + s1 + s2, s3);
    PointersDistribute(head + s1, s2);
    PointersDistribute(head, s1);
    UploadsDistribute(head + s1 + s2 + s3, tail);
    UploadsDistribute(head + s1 + s2, s3);
    UploadsDistribute(head + s1, s2);
    UploadsDistribute(head, s1);
    StoreCallsTrace(PositionAttrIndex, 3, positions, positionVbo);
    StoreCallsTrace(TextureCoordAttrIndex, 2, textureCoords, textureVbo);
    IndexCallsTrace(indices, indexVbo);
    assert head[1..][1..] == [] && tail[1..] == [];
  }

  /** One `Delete` call of the given kind per id, in order. */
  function DeleteCalls(kind: GlObject, ids: seq<int>): (r: seq<GlCall>)
    ensures |r| == |ids|
    ensures forall k | 0 <= k < |ids| :: r[k] == Delete(kind, ids[k])
  {
    if |ids| == 0 then [] else DeleteCalls(kind, ids[..|ids| - 1]) + [Delete(kind, ids[|ids| - 1])]
  }

  /** The calls of `cleanUp` as written: buffer ids are released with the VAO-delete call. */
  function CleanUpCalls(vaoIds: seq<int>, vboIds: seq<int>, textureIds: seq<int>): seq<GlCall> {
    DeleteCalls(VertexArrayObject, vaoIds) + DeleteCalls(VertexArrayObject, vboIds) + DeleteCalls(TextureObject, textureIds)
  }

  /** The calls `cleanUp` evidently intends: buffers are released as buffers. */
  function CleanUpCallsCorrected(vaoIds: seq<int>, vboIds: seq<int>, textureIds: seq<int>): seq<GlCall> {
    DeleteCalls(VertexArrayObject, vaoIds) + DeleteCalls(BufferObject, vboIds) + DeleteCalls(TextureObject, textureIds)
  }

  /**
   * As written, no buffer is ever released: each buffer id is handed to the
   * VAO delete call instead.
   */
  lemma CleanUpNeverDeletesBuffers(vaoIds: seq<int>, vboIds: seq<int>, textureIds: seq<int>)
    ensures forall c | c in CleanUpCalls(vaoIds, vboIds, textureIds) :: c.Delete? && c.kind != BufferObject
    ensures forall k | 0 <= k < |vboIds| ::
              CleanUpCalls(vaoIds, vboIds, textureIds)[|vaoIds| + k] == Delete(VertexArrayObject, vboIds[k])
  {
    var vaos := DeleteCalls(VertexArrayObject, vaoIds);
    var vbos := DeleteCalls(VertexArrayObject, vboIds);
    var textures := DeleteCalls(TextureObject, textureIds);
    forall c: GlCall | c in vaos + vbos + textures
      ensures c.Delete? && c.kind != BufferObject
    {
      assert c in vaos || c in vbos || c in textures;
      if c in vaos {
        var k :| 0 <= k < |vaos| && vaos[k] == c;
      } else if c in vbos {
        var k :| 0 <= k < |vbos| && vbos[k] == c;
      } else {
        var k :| 0 <= k < |textures| && textures[k] == c;
      }
    }
  }

  /** With the correction, every created object is released as what it is. */
  lemma CleanUpCorrectedReleasesEverything(vaoIds: seq<int>, vboIds: seq<int>, textureIds: seq<int>)
    ensures var calls := CleanUpCallsCorrected(vaoIds, vboIds, textureIds);
            && (forall id | id in vaoIds :: Delete(VertexArrayObject, id) in calls)
            && (forall id | id in vboIds :: Delete(BufferObject, id) in calls)
            && (forall id | id in textureIds :: Delete(TextureObject, id) in calls)
  {
    var calls := CleanUpCallsCorrected(vaoIds, vboIds, textureIds);
    forall id | id in vboIds
      ensures Delete(BufferObject, id) in calls
    {
      var k :| 0 <= k < |vboIds| && vboIds[k] == id;
      assert calls[|vaoIds| + k] == Delete(BufferObject, id);
    }
    forall id | id in textureIds
      ensures Delete(TextureObject, id) in calls
    {
      var k :| 0 <= k < |textureIds| && textureIds[k] == id;
      assert calls[|vaoIds| + |vboIds| + k] == Delete(TextureObject, id);
    }
    forall id | id in vaoIds
      ensures Delete(VertexArrayObject, id) in calls
    {
      var k :| 0 <= k < |vaoIds| && vaoIds[k] == id;
      assert calls[k] == Delete(VertexArrayObject, id);
    }
  }

  lemma CallsAssociate(x: seq<GlCall>, a: seq<GlCall>, b: seq<GlCall>, c: seq<GlCall>)
    ensures x + a + b + c == x + (a + b + c)
  {
  }

  /** A snapshot of the loader's fields. */
  datatype LoaderState = LoaderState(vaoIds: seq<int>, vboIds: seq<int>, textureIds: seq<int>, calls: seq<GlCall>)

  class Loader {
    var vaoIds: seq<int>
    var vboIds: seq<int>
    var textureIds: seq<int>
    /** The OpenGL calls made so far, in order. */
    var calls: seq<GlCall>

    function State(): LoaderState
      reads this
    {
      LoaderState(vaoIds, vboIds, textureIds, calls)
    }

    constructor ()
      ensures State() == LoaderState([], [], [], [])
    {
      vaoIds := [];
      vboIds := [];
      textureIds := [];
      calls := [];
    }

    /** `createVAO`: records the VAO OpenGL generated. */
    method CreateVao(generated: int) returns (vaoId: int)
      modifies this
      ensures vaoId == generated
      ensures State() == old(State()).(vaoIds := old(vaoIds) + [generated], calls := old(calls) + [GenVertexArray(generated)])
    {
      vaoId := generated;
      calls := calls + [GenVertexArray(vaoId)];
      vaoIds := vaoIds + [vaoId];
    }

    /** `storeDataInVAO`: records the buffer OpenGL generated and fills it. */
    method StoreDataInVao(index: int, coordSize: int, data: seq<real>, generated: int)
      modifies this
      ensures State() == old(State()).(vboIds := old(vboIds) + [generated],
                                       calls := old(calls) + StoreCalls(index, coordSize, data, generated))
    {
      var vboId := generated;
      calls := calls + [GenBuffer(vboId)];
      vboIds := vboIds + [vboId];
      calls := calls + [BindBuffer(ArrayBuffer, vboId), BufferData(ArrayBuffer, Floats(data)),
                        VertexAttribPointer(index, coordSize), BindBuffer(ArrayBuffer, 0)];
    }

    /** `bindIndicesBuffer`: records the element buffer OpenGL generated and fills it. */
    method BindIndicesBuffer(indices: seq<int>, generated: int)
      modifies this
      ensures State() == old(State()).(vboIds := old(vboIds) + [generated],
                                       calls := old(calls) + IndexCalls(indices, generated))
    {
      var vboId := generated;
      calls := calls + [GenBuffer(vboId)];
      vboIds := vboIds + [vboId];
      calls := calls + [BindBuffer(ElementArrayBuffer, vboId), BufferData(ElementArrayBuffer, Ints(indices))];
    }

    /**
     * `loadToVAO`: one new VAO and three new buffers are recorded, and the
     * model draws as many vertices as there are indices.
     */
    method LoadToVao(positions: seq<real>, textureCoords: seq<real>, indices: seq<int>,
                     generatedVao: int, positionVbo: int, textureVbo: int, indexVbo: int)
      returns (model: Model)
      modifies this
      ensures model == Model(generatedVao, |indices|)
      ensures vaoIds == old(vaoIds) + [generatedVao]
      ensures vboIds == old(vboIds) + [positionVbo, textureVbo, indexVbo]
      ensures textureIds == old(textureIds)
      ensures calls == old(calls) + LoadToVaoCalls(positions, textureCoords, indices,
                                                   generatedVao, positionVbo, textureVbo, indexVbo)
    {
      var vaoId := CreateVao(generatedVao);
      calls := calls + [BindVertexArray(vaoId)];
      StoreDataInVao(PositionAttrIndex, 3, positions, positionVbo);
      StoreDataInVao(TextureCoordAttrIndex, 2, textureCoords, textureVbo);
      BindIndicesBuffer(indices, indexVbo);
      calls := calls + [BindVertexArray(0)];
      model := Model(vaoId, |indices|);
    }

    /**
     * `loadTexture`: the id `TextureLoader` returns is recorded, even when
     * it is 0 because no image could be read; an exception from the
     * texture loader records nothing.
     */
    method LoadTexture(image: Option<Image>, generatedId: int) returns (r: Result<int>)
      modifies this
      ensures image.None? ==> r == Ok(0) && State() == old(State()).(textureIds := old(textureIds) + [0])
      ensures image.Some? ==>
                match PixelBuffer(image.value, CapacityAsWritten(image.value), RgbAlpha)
                case Err(e) => r == Err(e) && State() == old(State())
                case Ok(pixels) =>
                  && r == Ok(generatedId)
                  && State() == old(State()).(
                       textureIds := old(textureIds) + [generatedId],
                       calls := old(calls)
                                + [UploadTexture(TextureUpload(generatedId, image.value.width, image.value.height, pixels))])
    {
      var textLoad := new TextureLoader(image);
      var upload;
      r, upload := textLoad.LoadTexture(generatedId);
      if r.Err? {
        return;
      }
      if upload.Some? {
        calls := calls + [UploadTexture(upload.value)];
      }
      textureIds := textureIds + [r.value];
    }

    /** One loop of `cleanUp`: a delete call of the given kind for each id, in order. */
    method DeleteEach(kind: GlObject, ids: seq<int>)
      modifies this
      ensures State() == old(State()).(calls := old(calls) + DeleteCalls(kind, ids))
    {
      ghost var start := calls;
      for k := 0 to |ids|
        invariant State() == old(State()).(calls := start + DeleteCalls(kind, ids[..k]))
      {
        assert ids[..k + 1][..k] == ids[..k];
        calls := calls + [Delete(kind, ids[k])];
      }
      assert ids[..|ids|] == ids;
    }

    /**
     * `cleanUp`: every recorded VAO, buffer and texture id is handed to a
     * delete call, VAOs first; the id lists are kept.
     */
    method CleanUp()
      modifies this
      ensures State() == old(State()).(calls := old(calls) + CleanUpCalls(vaoIds, vboIds, textureIds))
    {
      CallsAssociate(calls, DeleteCalls(VertexArrayObject, vaoIds), DeleteCalls(VertexArrayObject, vboIds),
                     DeleteCalls(TextureObject, textureIds));
      DeleteEach(VertexArrayObject, vaoIds);
      DeleteEach(VertexArrayObject, vboIds);
      DeleteEach(TextureObject, textureIds);
    }
  }
}
