/**
 * `loader.ObjBuildSystem`: the records the OBJ builder produces. A `Vertex`
 * is an immutable value: its position in the builder's sorted list and the
 * three components it was resolved to, each of which may be null. A
 * `VertexGroup` is a face: the material and map it was created under, and
 * the vertices added to it in order.
 */
module ObjBuildSystem {
  import opened Common

  /** A material of an MTL library; its contents are not part of this model. */
  datatype Material = Material(name: string)

  /** `Vertex(index, vCoord, texCoord, normVec)`; the getters return these fields. */
  datatype Vertex = Vertex(index: int, vCoord: Option<Vec3>, texCoord: Option<Vec2>, normVec: Option<Vec3>)

  class VertexGroup {
    const material: Option<Material>
    const textureMap: Option<Material>
    var vertexList: seq<Vertex>

    /** A new face under the given material and map, with no vertices yet. */
    constructor (material: Option<Material>, textureMap: Option<Material>)
      ensures this.material == material && this.textureMap == textureMap
      ensures vertexList == []
    {
      this.material := material;
      this.textureMap := textureMap;
      vertexList := [];
    }

    /** `addvertex`: appends at the end, keeping the earlier vertices in order. */
    method AddVertex(vertex: Vertex)
      modifies this
      ensures vertexList == old(vertexList) + [vertex]
      ensures |vertexList| == |old(vertexList)| + 1 && vertexList[..|old(vertexList)|] == old(vertexList)
    {
      vertexList := vertexList + [vertex];
    }
  }
}
