/**
 * `terrain.Terrain`: a flat square tile of `VERTEX_COUNT` x `VERTEX_COUNT`
 * vertices, `SIZE` units wide, triangulated two triangles per grid quad.
 *
 * Vertex positions and texture coordinates are the float quotients
 * `k / (VERTEX_COUNT - 1)`, taken here as exact reals. The model the loader
 * builds from the four arrays is left abstract: the terrain keeps the arrays
 * it hands over.
 */
module Terrains {
  import opened Common
  import opened Entities

  /** `SIZE`. */
  const Size: real := 800.0
  /** `VERTEX_COUNT`. */
  const VertexCount: nat := 128
  /** The number of vertices, `VERTEX_COUNT * VERTEX_COUNT`. */
  const Count: nat := VertexCount * VertexCount
  /** The number of grid quads, `(VERTEX_COUNT - 1)^2`. */
  const QuadCount: nat := (VertexCount - 1) * (VertexCount - 1)

  /** The tile origin as the constructor computes it: both coordinates come from `gridX`. */
  function OriginAsWritten(gridX: int, gridZ: int): (real, real) {
    (gridX as real * Size, gridX as real * Size)
  }

  /** Two tiles in the same grid column get the same origin, whatever their rows. */
  lemma OriginIgnoresRow(gridX: int, gridZ: int, otherZ: int)
    ensures OriginAsWritten(gridX, gridZ) == OriginAsWritten(gridX, otherZ)
    ensures gridZ != gridX ==> OriginAsWritten(gridX, gridZ).1 != gridZ as real * Size
  {
  }

  /** The origin with `z` taken from `gridZ`. */
  function OriginCorrected(gridX: int, gridZ: int): (real, real) {
    (gridX as real * Size, gridZ as real * Size)
  }

  /** With the correction, different grid cells get different origins. */
  lemma OriginCorrectedInjective(gridX: int, gridZ: int, otherX: int, otherZ: int)
    requires (gridX, gridZ) != (otherX, otherZ)
    ensures OriginCorrected(gridX, gridZ) != OriginCorrected(otherX, otherZ)
  {
  }

  /** The float quotient `k / (VERTEX_COUNT - 1)`: 0 at the first grid line, 1 at the last. */
  function GridCoord(k: int): real {
    k as real / (VertexCount - 1) as real
  }

  /** The slot of the vertex in row `i`, column `j`. */
  function Slot(i: int, j: int): int {
    i * VertexCount + j
  }

  /** Slots enumerate the grid row by row: the slot of (i, j) gives back row i and column j. */
  lemma SlotParts(i: int, j: int)
    requires 0 <= i < VertexCount && 0 <= j < VertexCount
    ensures 0 <= Slot(i, j) < Count
    ensures Slot(i, j) / VertexCount == i && Slot(i, j) % VertexCount == j
  {
  }

  /** The position stored for vertex slot `p`: column gives x, row gives z, y is 0. */
  function ExpectedVertex(p: int): Vec3 {
    Vec3(GridCoord(p % VertexCount) * Size, 0.0, GridCoord(p / VertexCount) * Size)
  }

  /** Every normal points straight up. */
  const Up: Vec3 := Vec3(0.0, 1.0, 0.0)

  /** The texture coordinate stored for vertex slot `p`: the whole texture spans the tile. */
  function ExpectedTexture(p: int): Vec2 {
    Vec2(GridCoord(p % VertexCount), GridCoord(p / VertexCount))
  }

  /** Elements `3p .. 3p+2` of `a`, read as a vector. */
  ghost function Triple(a: array<real>, p: nat): Vec3
    reads a
    requires 3 * p + 2 < a.Length
  {
    Vec3(a[3 * p], a[3 * p + 1], a[3 * p + 2])
  }

  /** Elements `2p, 2p+1` of `a`, read as a vector. */
  ghost function Pair(a: array<real>, p: nat): Vec2
    reads a
    requires 2 * p + 1 < a.Length
  {
    Vec2(a[2 * p], a[2 * p + 1])
  }

  /**
   * The grid point in row i, column j sits at x = j/(VC-1)·SIZE, z =
   * i/(VC-1)·SIZE on the ground plane, with texture coordinate
   * (j/(VC-1), i/(VC-1)); the corners of the tile are (0, 0) and (SIZE, SIZE).
   */
  lemma GridPointPlacement(i: int, j: int)
    requires 0 <= i < VertexCount && 0 <= j < VertexCount
    ensures ExpectedVertex(Slot(i, j)) == Vec3(GridCoord(j) * Size, 0.0, GridCoord(i) * Size)
    ensures ExpectedTexture(Slot(i, j)) == Vec2(GridCoord(j), GridCoord(i))
    ensures 0.0 <= GridCoord(j) <= 1.0 && 0.0 <= GridCoord(i) <= 1.0
    ensures i == 0 && j == 0 ==> ExpectedVertex(Slot(i, j)) == Vec3(0.0, 0.0, 0.0)
    ensures i == VertexCount - 1 && j == VertexCount - 1 ==> ExpectedVertex(Slot(i, j)) == Vec3(Size, 0.0, Size)
  {
    SlotParts(i, j);
  }

  /**
   * The body of the inner loop for row i, column j: the vertex, normal and
   * texture coordinate of slot `i * VERTEX_COUNT + j`, and nothing else.
   */
  method PutGridPoint(vertices: array<real>, normals: array<real>, textureCoords: array<real>, i: int, j: int)
    requires 0 <= i < VertexCount && 0 <= j < VertexCount
    requires vertices.Length == 3 * Count && normals.Length == 3 * Count && textureCoords.Length == 2 * Count
    requires vertices != normals
    modifies vertices, normals, textureCoords
    ensures Triple(vertices, Slot(i, j)) == ExpectedVertex(Slot(i, j))
    ensures Triple(normals, Slot(i, j)) == Up
    ensures Pair(textureCoords, Slot(i, j)) == ExpectedTexture(Slot(i, j))
    ensures forall t | 0 <= t < 3 * Slot(i, j) :: vertices[t] == old(vertices[t])
    ensures forall t | 0 <= t < 3 * Slot(i, j) :: normals[t] == old(normals[t])
    ensures forall t | 0 <= t < 2 * Slot(i, j) :: textureCoords[t] == old(textureCoords[t])
  {
    SlotParts(i, j);
    var vertexPointer := Slot(i, j);
    vertices[vertexPointer * 3] := GridCoord(j) * Size;
    vertices[vertexPointer * 3 + 1] := 0.0;
    vertices[vertexPointer * 3 + 2] := GridCoord(i) * Size;
    normals[vertexPointer * 3] := 0.0;
    normals[vertexPointer * 3 + 1] := 1.0;
    normals[vertexPointer * 3 + 2] := 0.0;
    textureCoords[vertexPointer * 2] := GridCoord(j);
    textureCoords[vertexPointer * 2 + 1] := GridCoord(i);
  }

  /**
   * The first loop nest of `generateTerrain`: rows in the outer loop, columns
   * in the inner one, one vertex slot per grid point.
   */
  method GenerateVertices() returns (vertices: array<real>, normals: array<real>, textureCoords: array<real>)
    ensures fresh(vertices) && fresh(normals) && fresh(textureCoords)
    ensures vertices.Length == 3 * Count && normals.Length == 3 * Count && textureCoords.Length == 2 * Count
    ensures forall p | 0 <= p < Count :: Triple(vertices, p) == ExpectedVertex(p)
    ensures forall p | 0 <= p < Count :: Triple(normals, p) == Up
    ensures forall p | 0 <= p < Count :: Pair(textureCoords, p) == ExpectedTexture(p)
  {
    vertices := new real[3 * Count];
    normals := new real[3 * Count];
    textureCoords := new real[2 * Count];
    var vertexPointer := 0;
    for i := 0 to VertexCount
      invariant vertexPointer == i * VertexCount
      invariant forall p | 0 <= p < vertexPointer :: Triple(vertices, p) == ExpectedVertex(p)
      invariant forall p | 0 <= p < vertexPointer :: Triple(normals, p) == Up
      invariant forall p | 0 <= p < vertexPointer :: Pair(textureCoords, p) == ExpectedTexture(p)
    {
      for j := 0 to VertexCount
        invariant vertexPointer == Slot(i, j)
        invariant forall p | 0 <= p < vertexPointer :: Triple(vertices, p) == ExpectedVertex(p)
        invariant forall p | 0 <= p < vertexPointer :: Triple(normals, p) == Up
        invariant forall p | 0 <= p < vertexPointer :: Pair(textureCoords, p) == ExpectedTexture(p)
      {
        ghost var upTo := vertexPointer;
        label Before:
        PutGridPoint(vertices, normals, textureCoords, i, j);
        forall p | 0 <= p < upTo
          ensures Triple(normals, p) == Up
        {
          assert old@Before(Triple(normals, p)) == Up;
          assert normals[3 * p] == old@Before(normals[3 * p]);
          assert normals[3 * p + 1] == old@Before(normals[3 * p + 1]);
          assert normals[3 * p + 2] == old@Before(normals[3 * p + 2]);
        }
        vertexPointer := vertexPointer + 1;
      }
    }
  }

  /** The six indices of the quad in row `gz`, column `gx`: triangles (tl, bl, tr) and (tr, bl, br). */
  function QuadIndices(gz: int, gx: int): seq<int> {
    var topLeft := gz * VertexCount + gx;
    var topRight := topLeft + 1;
    var bottomLeft := (gz + 1) * VertexCount + gx;
    var bottomRight := bottomLeft + 1;
    [topLeft, bottomLeft, topRight, topRight, bottomLeft, bottomRight]
  }

  /** The quad number of row `gz`, column `gx`, in emission order. */
  function QuadSlot(gz: int, gx: int): int {
    gz * (VertexCount - 1) + gx
  }

  /** Quads are numbered row by row: quad number `QuadSlot(gz, gx)` gives back gz and gx. */
  lemma QuadSlotParts(gz: int, gx: int, k: int)
    requires 0 <= gz < VertexCount - 1 && 0 <= gx < VertexCount - 1 && 0 <= k < 6
    ensures 0 <= QuadSlot(gz, gx) < QuadCount
    ensures (6 * QuadSlot(gz, gx) + k) / 6 == QuadSlot(gz, gx) && (6 * QuadSlot(gz, gx) + k) % 6 == k
    ensures QuadSlot(gz, gx) / (VertexCount - 1) == gz && QuadSlot(gz, gx) % (VertexCount - 1) == gx
  {
  }

  /**
   * The value the index loop writes at position `t`: corner `t % 6` of quad
   * `t / 6`, quads taken row by row.
   */
  function ExpectedIndex(t: nat): int {
    var q := t / 6;
    QuadIndices(q / (VertexCount - 1), q % (VertexCount - 1))[t % 6]
  }

  /** Position `6 * QuadSlot(gz, gx) + k` holds corner k of quad (gz, gx): rows outer, columns inner. */
  lemma QuadPlacement(gz: int, gx: int, k: int)
    requires 0 <= gz < VertexCount - 1 && 0 <= gx < VertexCount - 1 && 0 <= k < 6
    ensures 6 * QuadSlot(gz, gx) + k < 6 * QuadCount
    ensures ExpectedIndex(6 * QuadSlot(gz, gx) + k) == QuadIndices(gz, gx)[k]
  {
    QuadSlotParts(gz, gx, k);
  }

  /**
   * Every index the loop writes names a vertex of the grid, and the two
   * triangles of a quad share its diagonal from top-right to bottom-left.
   */
  lemma IndicesNameGridVertices(t: nat)
    requires t < 6 * QuadCount
    ensures 0 <= ExpectedIndex(t) < Count
    ensures t % 6 == 2 ==> ExpectedIndex(t) == ExpectedIndex(t + 1)
    ensures t % 6 == 1 ==> ExpectedIndex(t) == ExpectedIndex(t + 3)
  {
    var q := t / 6;
    var gz, gx := q / (VertexCount - 1), q % (VertexCount - 1);
    assert q == QuadSlot(gz, gx);
    QuadSlotParts(gz, gx, t % 6);
    if t % 6 == 2 {
      QuadSlotParts(gz, gx, 3);
      assert t + 1 == 6 * q + 3;
    }
    if t % 6 == 1 {
      QuadSlotParts(gz, gx, 4);
      assert t + 3 == 6 * q + 4;
    }
  }

  /** The body of the inner index loop: six writes from `pointer = 6 * QuadSlot(gz, gx)` on. */
  method PutQuad(indices: array<int>, gz: int, gx: int)
    requires 0 <= gz < VertexCount - 1 && 0 <= gx < VertexCount - 1
    requires indices.Length >= 6 * QuadCount
    modifies indices
    ensures forall t | 6 * QuadSlot(gz, gx) <= t < 6 * QuadSlot(gz, gx) + 6 :: indices[t] == ExpectedIndex(t)
    ensures forall t | 0 <= t < indices.Length && !(6 * QuadSlot(gz, gx) <= t < 6 * QuadSlot(gz, gx) + 6) ::
              indices[t] == old(indices[t])
  {
    QuadSlotParts(gz, gx, 0);
    QuadSlotParts(gz, gx, 1);
    QuadSlotParts(gz, gx, 2);
    QuadSlotParts(gz, gx, 3);
    QuadSlotParts(gz, gx, 4);
    QuadSlotParts(gz, gx, 5);
    var pointer := 6 * QuadSlot(gz, gx);
    var topLeft := (gz * VertexCount) + gx;
    var topRight := topLeft + 1;
    var bottomLeft := ((gz + 1) * VertexCount) + gx;
    var bottomRight := bottomLeft + 1;
    indices[pointer] := topLeft;
    indices[pointer + 1] := bottomLeft;
    indices[pointer + 2] := topRight;
    indices[pointer + 3] := topRight;
    indices[pointer + 4] := bottomLeft;
    indices[pointer + 5] := bottomRight;
  }

  /**
   * The second loop nest of `generateTerrain`: quads row by row, six
   * indices each, written through the `pointer` counter. Whatever the array
   * holds past the last quad is left as it was.
   */
  method FillQuads(indices: array<int>)
    requires indices.Length >= 6 * QuadCount
    modifies indices
    ensures forall t | 0 <= t < 6 * QuadCount :: indices[t] == ExpectedIndex(t)
    ensures forall t | 6 * QuadCount <= t < indices.Length :: indices[t] == old(indices[t])
  {
    var pointer := 0;
    for gz := 0 to VertexCount - 1
      invariant pointer == 6 * QuadSlot(gz, 0)
      invariant forall t | 0 <= t < pointer :: indices[t] == ExpectedIndex(t)
      invariant forall t | pointer <= t < indices.Length :: indices[t] == old(indices[t])
    {
      for gx := 0 to VertexCount - 1
        invariant pointer == 6 * QuadSlot(gz, gx)
        invariant forall t | 0 <= t < pointer :: indices[t] == ExpectedIndex(t)
        invariant forall t | pointer <= t < indices.Length :: indices[t] == old(indices[t])
      {
        PutQuad(indices, gz, gx);
        pointer := pointer + 6;
      }
    }
  }

  /**
   * The index array as `generateTerrain` allocates it, `6 * (VC - 1) * VC`
   * long: the loop fills only the first `6 * (VC - 1)^2` entries, and the
   * last `6 * (VC - 1)` keep Java's initial 0, so the tile is drawn with
   * 2 * (VC - 1) extra degenerate triangles on vertex 0.
   */
  method GenerateIndicesAsWritten() returns (indices: array<int>)
    ensures fresh(indices)
    ensures indices.Length == 6 * (VertexCount - 1) * VertexCount
    ensures indices.Length - 6 * QuadCount == 6 * (VertexCount - 1)
    ensures forall t | 0 <= t < 6 * QuadCount :: indices[t] == ExpectedIndex(t)
    ensures forall t | 6 * QuadCount <= t < indices.Length :: indices[t] == 0
  {
    indices := new int[6 * (VertexCount - 1) * (VertexCount * 1)](_ => 0);
    FillQuads(indices);
  }

  /** The index array sized `6 * (VC - 1)^2`: every entry is a corner of a grid quad. */
  method GenerateIndicesCorrected() returns (indices: array<int>)
    ensures fresh(indices)
    ensures indices.Length == 6 * QuadCount
    ensures forall t | 0 <= t < indices.Length :: indices[t] == ExpectedIndex(t) && 0 <= indices[t] < Count
  {
    indices := new int[6 * QuadCount];
    FillQuads(indices);
    forall t | 0 <= t < indices.Length
      ensures 0 <= indices[t] < Count
    {
      IndicesNameGridVertices(t);
    }
  }

  class Terrain {
    var x: real
    var z: real
    var texture: ModelTexture
    /** The four arrays handed to the loader to build the tile's model. */
    var vertices: array<real>
    var normals: array<real>
    var textureCoords: array<real>
    var indices: array<int>

    /** The tile at grid cell (`gridX`, `gridZ`), its origin computed from `gridX` alone. */
    constructor (gridX: int, gridZ: int, texture: ModelTexture)
      ensures (x, z) == OriginAsWritten(gridX, gridZ) && this.texture == texture
      ensures vertices.Length == 3 * Count && normals.Length == 3 * Count && textureCoords.Length == 2 * Count
      ensures forall p | 0 <= p < Count :: Triple(vertices, p) == ExpectedVertex(p)
      ensures forall p | 0 <= p < Count :: Triple(normals, p) == Up
      ensures forall p | 0 <= p < Count :: Pair(textureCoords, p) == ExpectedTexture(p)
      ensures indices.Length == 6 * (VertexCount - 1) * VertexCount
      ensures forall t | 0 <= t < 6 * QuadCount :: indices[t] == ExpectedIndex(t)
      ensures forall t | 6 * QuadCount <= t < indices.Length :: indices[t] == 0
    {
      this.texture := texture;
      x := gridX as real * Size;
      z := gridX as real * Size;
      var v, n, c := GenerateVertices();
      var i := GenerateIndicesAsWritten();
      vertices, normals, textureCoords, indices := v, n, c, i;
    }
  }
}
