/**
 * `loader.OBJLoader`: a single-pass reader for Wavefront OBJ files. Until
 * the first face line it collects `v`, `vt` and `vn` lines; from the first
 * face line on it reads only face lines, and for each of their first three
 * corners records the vertex index and writes the corner's texture
 * coordinate (with v flipped) and normal into the slots of that vertex.
 *
 * Reading the file and parsing numbers are outside the model: a file is a
 * sequence of `Line`s, each carrying the numbers its tokens parse to. Every
 * exception raised while reading is caught at one place, after which the
 * arrays are assembled from whatever was collected; the model records
 * only that reading stopped.
 */
module ObjLoading {
  import opened Common

  /** The OBJ line prefixes, tested in this order. */
  const GeometricPrefix: string := "v "
  const TexturePrefix: string := "vt "
  const NormalPrefix: string := "vn "
  const FacePrefix: string := "f "

  predicate StartsWith(s: string, prefix: string) {
    |prefix| <= |s| && forall k | 0 <= k < |prefix| :: s[k] == prefix[k]
  }

  datatype Kind = GeometricLine | TextureLine | NormalLine | FaceLine | OtherLine

  /**
   * The kind of a line by its prefix. The four prefixes exclude each other,
   * so the order of the tests does not matter.
   */
  function KindOf(text: string): (k: Kind)
    ensures k == GeometricLine <==> StartsWith(text, GeometricPrefix)
    ensures k == TextureLine <==> StartsWith(text, TexturePrefix)
    ensures k == NormalLine <==> StartsWith(text, NormalPrefix)
    ensures k == FaceLine <==> StartsWith(text, FacePrefix)
  {
    assert StartsWith(text, GeometricPrefix) ==> text[0] == 'v' && text[1] == ' ';
    assert StartsWith(text, TexturePrefix) ==> text[0] == 'v' && text[1] == 't';
    assert StartsWith(text, NormalPrefix) ==> text[0] == 'v' && text[1] == 'n';
    assert StartsWith(text, FacePrefix) ==> text[0] == 'f';
    if StartsWith(text, GeometricPrefix) then GeometricLine
    else if StartsWith(text, TexturePrefix) then TextureLine
    else if StartsWith(text, NormalPrefix) then NormalLine
    else if StartsWith(text, FacePrefix) then FaceLine
    else OtherLine
  }

  /**
   * One `v/t/n` token of a face line, as `Integer.parseInt` reads its parts;
   * `None` where the part is missing or is not a number.
   */
  datatype Corner = Corner(vertex: Option<JavaInt>, texture: Option<JavaInt>, normal: Option<JavaInt>)

  /** The values `Integer.parseInt` can return. */
  type JavaInt = x: int | IsJavaInt(x)

  /**
   * A line of the file: its text, the floats its tokens after the first
   * parse to (up to the first token that is missing or does not parse),
   * and, for a face line, its tokens after the first split into corners.
   */
  datatype Line = Line(text: string, values: seq<real>, corners: seq<Corner>)

  // ---------------------------------------------------------------------
  // The attribute phase: lines before the first face line
  // ---------------------------------------------------------------------

  datatype Attributes = Attributes(vertices: seq<Vec3>, textures: seq<Vec2>, normals: seq<Vec3>)

  /** Attributes collected so far, and whether reading is still going on. */
  datatype AttributeProgress = AttributeProgress(attributes: Attributes, ok: bool)

  /** The attributes after one line; a line with too few numbers throws. */
  function AddAttribute(a: Attributes, line: Line): AttributeProgress {
    match KindOf(line.text)
    case GeometricLine =>
      if |line.values| < 3 then AttributeProgress(a, false)
      else AttributeProgress(a.(vertices := a.vertices + [Vec3(line.values[0], line.values[1], line.values[2])]), true)
    case TextureLine =>
      if |line.values| < 2 then AttributeProgress(a, false)
      else AttributeProgress(a.(textures := a.textures + [Vec2(line.values[0], line.values[1])]), true)
    case NormalLine =>
      if |line.values| < 3 then AttributeProgress(a, false)
      else AttributeProgress(a.(normals := a.normals + [Vec3(line.values[0], line.values[1], line.values[2])]), true)
    case _ => AttributeProgress(a, true)
  }

  /** The attributes collected from the first `k` lines; nothing after a throw. */
  function AttributesBefore(lines: seq<Line>, k: nat): AttributeProgress
    requires k <= |lines|
  {
    if k == 0 then AttributeProgress(Attributes([], [], []), true)
    else
      var prev := AttributesBefore(lines, k - 1);
      if !prev.ok then prev else AddAttribute(prev.attributes, lines[k - 1])
  }

  /** Once a line has thrown, later lines change nothing. */
  lemma {:induction false} AttributeFailureStays(lines: seq<Line>, i: nat, k: nat)
    requires i <= k <= |lines| && !AttributesBefore(lines, i).ok
    ensures AttributesBefore(lines, k) == AttributesBefore(lines, i)
  {
    if k > i {
      AttributeFailureStays(lines, i, k - 1);
    }
  }

  /** The attribute phase reads only the lines it has reached. */
  lemma {:induction false} AttributesOfPrefix(lines: seq<Line>, more: seq<Line>, k: nat)
    requires k <= |lines|
    ensures AttributesBefore(lines + more, k) == AttributesBefore(lines, k)
  {
    if k > 0 {
      AttributesOfPrefix(lines, more, k - 1);
      assert (lines + more)[k - 1] == lines[k - 1];
    }
  }

  /** The position of the first face line at or after `k`, or `|lines|` when there is none. */
  function FirstFaceFrom(lines: seq<Line>, k: nat): (f: nat)
    requires k <= |lines|
    ensures k <= f <= |lines|
    ensures forall j | k <= j < f :: KindOf(lines[j].text) != FaceLine
    ensures f < |lines| ==> KindOf(lines[f].text) == FaceLine
    decreases |lines| - k
  {
    if k == |lines| then k
    else if KindOf(lines[k].text) == FaceLine then k
    else FirstFaceFrom(lines, k + 1)
  }

  function FirstFace(lines: seq<Line>): nat {
    FirstFaceFrom(lines, 0)
  }

  // ---------------------------------------------------------------------
  // The face phase: `processVertex` on the arrays sized at the first face
  // ---------------------------------------------------------------------

  /** The index list and the two arrays, as values. */
  datatype FaceState = FaceState(indices: seq<int>, tex: seq<real>, norm: seq<real>)

  /** The state reached, and whether reading is still going on. */
  datatype Progress = Progress(state: FaceState, ok: bool)

  /** `(u, 1 - v)` into the texture slots of vertex `p`, each write bounds-checked. */
  function PutTexture(st: FaceState, p: int, tc: Vec2): (r: Progress)
    ensures r.state.indices == st.indices && r.state.norm == st.norm && |r.state.tex| == |st.tex|
  {
    var a := Wrap32(p * 2);
    if !(0 <= a < |st.tex|) then Progress(st, false)
    else
      var s := st.(tex := st.tex[a := tc.x]);
      var b := Wrap32(a + 1);
      if !(0 <= b < |s.tex|) then Progress(s, false)
      else Progress(s.(tex := s.tex[b := 1.0 - tc.y]), true)
  }

  /** The normal into the three normal slots of vertex `p`, each write bounds-checked. */
  function PutNormal(st: FaceState, p: int, n: Vec3): (r: Progress)
    ensures r.state.indices == st.indices && r.state.tex == st.tex && |r.state.norm| == |st.norm|
  {
    var a := Wrap32(p * 3);
    if !(0 <= a < |st.norm|) then Progress(st, false)
    else
      var s := st.(norm := st.norm[a := n.x]);
      var b := Wrap32(a + 1);
      if !(0 <= b < |s.norm|) then Progress(s, false)
      else
        var s' := s.(norm := s.norm[b := n.y]);
        var c := Wrap32(a + 2);
        if !(0 <= c < |s'.norm|) then Progress(s', false)
        else Progress(s'.(norm := s'.norm[c := n.z]), true)
  }

  /**
   * `processVertex` for one corner: the vertex index is recorded before the
   * texture coordinate and normal are looked up, so a corner that throws
   * later still leaves its index behind.
   */
  function CornerStep(st: FaceState, c: Corner, at: Attributes): (r: Progress)
    ensures |r.state.tex| == |st.tex| && |r.state.norm| == |st.norm|
  {
    if c.vertex.None? then Progress(st, false)
    else
      var p := Wrap32(c.vertex.value - 1);
      var s1 := st.(indices := st.indices + [p]);
      if c.texture.None? then Progress(s1, false)
      else
        var t := Wrap32(c.texture.value - 1);
        if !(0 <= t < |at.textures|) then Progress(s1, false)
        else
          var s2 := PutTexture(s1, p, at.textures[t]);
          if !s2.ok || c.normal.None? then Progress(s2.state, false)
          else
            var n := Wrap32(c.normal.value - 1);
            if !(0 <= n < |at.normals|) then Progress(s2.state, false)
            else PutNormal(s2.state, p, at.normals[n])
  }

  /** A face line processes its first three corners; other lines are skipped. */
  function LineStep(st: FaceState, line: Line, at: Attributes): (r: Progress)
    ensures |r.state.tex| == |st.tex| && |r.state.norm| == |st.norm|
  {
    if KindOf(line.text) != FaceLine then Progress(st, true)
    else if |line.corners| < 3 then Progress(st, false)
    else
      var p1 := CornerStep(st, line.corners[0], at);
      if !p1.ok then p1
      else
        var p2 := CornerStep(p1.state, line.corners[1], at);
        if !p2.ok then p2 else CornerStep(p2.state, line.corners[2], at)
  }

  /** The face phase over `ls`, from `init`; nothing after a throw. */
  function FacesRun(ls: seq<Line>, at: Attributes, init: FaceState): (r: Progress)
    ensures |r.state.tex| == |init.tex| && |r.state.norm| == |init.norm|
  {
    if |ls| == 0 then Progress(init, true)
    else
      var prev := FacesRun(ls[..|ls| - 1], at, init);
      if !prev.ok then prev else LineStep(prev.state, ls[|ls| - 1], at)
  }

  lemma {:induction false} FacesRunFailureStays(xs: seq<Line>, ys: seq<Line>, at: Attributes, init: FaceState)
    requires !FacesRun(xs, at, init).ok
    ensures FacesRun(xs + ys, at, init) == FacesRun(xs, at, init)
  {
    if |ys| > 0 {
      FacesRunFailureStays(xs, ys[..|ys| - 1], at, init);
      assert (xs + ys)[..|xs + ys| - 1] == xs + ys[..|ys| - 1];
    } else {
      assert xs + ys == xs;
    }
  }

  /**
   * Lines that are not face lines are skipped in the face phase: a `v`,
   * `vt` or `vn` line after the first face line has no effect.
   */
  lemma {:induction false} NonFaceLineIgnored(xs: seq<Line>, line: Line, ys: seq<Line>, at: Attributes, init: FaceState)
    requires KindOf(line.text) != FaceLine
    ensures FacesRun(xs + [line] + ys, at, init) == FacesRun(xs + ys, at, init)
  {
    if |ys| == 0 {
      assert (xs + [line] + ys)[..|xs| + 1 - 1] == xs;
      assert xs + ys == xs;
    } else {
      NonFaceLineIgnored(xs, line, ys[..|ys| - 1], at, init);
      assert (xs + [line] + ys)[..|xs + [line] + ys| - 1] == xs + [line] + ys[..|ys| - 1];
      assert (xs + ys)[..|xs + ys| - 1] == xs + ys[..|ys| - 1];
    }
  }

  // ---------------------------------------------------------------------
  // Well-formed faces
  // ---------------------------------------------------------------------

  /** A corner whose three numbers name existing elements (1-based). */
  predicate CornerFits(c: Corner, at: Attributes) {
    && c.vertex.Some? && 1 <= c.vertex.value <= |at.vertices|
    && c.texture.Some? && 1 <= c.texture.value <= |at.textures|
    && c.normal.Some? && 1 <= c.normal.value <= |at.normals|
  }

  /** A face line has three corners that fit; other lines always fit. */
  predicate LineFits(line: Line, at: Attributes) {
    KindOf(line.text) == FaceLine ==>
      && |line.corners| >= 3
      && CornerFits(line.corners[0], at) && CornerFits(line.corners[1], at) && CornerFits(line.corners[2], at)
  }

  predicate FacesFit(ls: seq<Line>, at: Attributes) {
    forall j | 0 <= j < |ls| :: LineFits(ls[j], at)
  }

  /** The arrays as sized at the first face line, small enough that no index arithmetic wraps. */
  predicate SizedFor(st: FaceState, at: Attributes) {
    && |st.tex| == 2 * |at.vertices| && |st.norm| == 3 * |at.vertices|
    && IsJavaInt(3 * |at.vertices|)
  }

  /**
   * A corner that fits records its 0-based vertex index q, writes the
   * texture coordinate (u, 1 - v) at slots 2q and 2q + 1 and the normal at
   * slots 3q to 3q + 2, and changes nothing else.
   */
  lemma CornerWritesItsVertexSlots(st: FaceState, c: Corner, at: Attributes)
    requires CornerFits(c, at) && SizedFor(st, at)
    ensures var r := CornerStep(st, c, at);
            var q := c.vertex.value - 1;
            var tc := at.textures[c.texture.value - 1];
            var n := at.normals[c.normal.value - 1];
            && r.ok
            && r.state.indices == st.indices + [q]
            && r.state.tex == st.tex[2 * q := tc.x][2 * q + 1 := 1.0 - tc.y]
            && r.state.norm == st.norm[3 * q := n.x][3 * q + 1 := n.y][3 * q + 2 := n.z]
  {
    var q := c.vertex.value - 1;
    var tc := at.textures[c.texture.value - 1];
    var n := at.normals[c.normal.value - 1];
    assert Wrap32(c.vertex.value - 1) == q;
    assert Wrap32(c.texture.value - 1) == c.texture.value - 1;
    assert Wrap32(c.normal.value - 1) == c.normal.value - 1;
    var s1 := st.(indices := st.indices + [q]);
    assert Wrap32(q * 2) == 2 * q && Wrap32(2 * q + 1) == 2 * q + 1;
    var s2 := PutTexture(s1, q, tc);
    assert s2 == Progress(s1.(tex := st.tex[2 * q := tc.x][2 * q + 1 := 1.0 - tc.y]), true);
    assert Wrap32(q * 3) == 3 * q && Wrap32(3 * q + 1) == 3 * q + 1 && Wrap32(3 * q + 2) == 3 * q + 2;
    assert PutNormal(s2.state, q, n)
        == Progress(s2.state.(norm := st.norm[3 * q := n.x][3 * q + 1 := n.y][3 * q + 2 := n.z]), true);
    assert CornerStep(st, c, at) == PutNormal(s2.state, q, n);
  }

  /** The 0-based vertex index a corner names; -1 when it has no vertex number. */
  function VertexIndex(c: Corner): int {
    if c.vertex.Some? then c.vertex.value - 1 else -1
  }

  /** The vertex indices of the first three corners of a face line; none for other lines. */
  function LineIndices(line: Line): seq<int> {
    if KindOf(line.text) != FaceLine || |line.corners| < 3 then []
    else [VertexIndex(line.corners[0]), VertexIndex(line.corners[1]), VertexIndex(line.corners[2])]
  }

  /** The vertex indices of all face lines, in file order. */
  function CornerIndices(ls: seq<Line>): seq<int> {
    if |ls| == 0 then [] else CornerIndices(ls[..|ls| - 1]) + LineIndices(ls[|ls| - 1])
  }

  /**
   * When every face fits, the face phase never throws and the index list is
   * the corners' vertex indices in file order, three per face line.
   */
  lemma {:induction false} FittingFacesIndexInOrder(ls: seq<Line>, at: Attributes, init: FaceState)
    requires FacesFit(ls, at) && SizedFor(init, at)
    ensures var r := FacesRun(ls, at, init);
            r.ok && r.state.indices == init.indices + CornerIndices(ls)
  {
    if |ls| > 0 {
      var xs := ls[..|ls| - 1];
      assert FacesFit(xs, at) by {
        forall j | 0 <= j < |xs| ensures xs[j] == ls[j] { }
      }
      FittingFacesIndexInOrder(xs, at, init);
      var line := ls[|ls| - 1];
      var prev := FacesRun(xs, at, init).state;
      FittingLineStep(prev, line, at);
      AppendAssociates(init.indices, CornerIndices(xs), LineIndices(line));
    }
  }

  lemma AppendAssociates(a: seq<int>, b: seq<int>, c: seq<int>)
    ensures (a + b) + c == a + (b + c)
  {
  }

  /** A corner that fits records its vertex index and keeps the arrays' sizes. */
  lemma FittingCornerStep(st: FaceState, c: Corner, at: Attributes)
    requires SizedFor(st, at) && CornerFits(c, at)
    ensures var r := CornerStep(st, c, at);
            r.ok && r.state.indices == st.indices + [VertexIndex(c)] && SizedFor(r.state, at)
  {
    CornerWritesItsVertexSlots(st, c, at);
  }

  /** One face line whose corners fit appends its three vertex indices and keeps the array sizes. */
  lemma FittingLineStep(st: FaceState, line: Line, at: Attributes)
    requires SizedFor(st, at) && LineFits(line, at)
    ensures var r := LineStep(st, line, at);
            r.ok && r.state.indices == st.indices + LineIndices(line)
  {
    if KindOf(line.text) == FaceLine {
      var c := line.corners;
      FittingCornerStep(st, c[0], at);
      var s1 := CornerStep(st, c[0], at).state;
      FittingCornerStep(s1, c[1], at);
      var s2 := CornerStep(s1, c[1], at).state;
      FittingCornerStep(s2, c[2], at);
      var s3 := CornerStep(s2, c[2], at).state;
      assert s3.indices == st.indices + [VertexIndex(c[0]), VertexIndex(c[1]), VertexIndex(c[2])];
    }
  }

  /**
   * A Java `int` corner number far below zero wraps around when doubled:
   * vertex number -2147483646 records index -2147483647 but writes its
   * texture coordinate into slots 2 and 3, which belong to vertex 2.
   */
  lemma WrappedCornerWritesAnotherVertex(st: FaceState, tc: Vec2)
    requires |st.tex| >= 4
    ensures var r := PutTexture(st, Wrap32(-2147483646 - 1), tc);
            && Wrap32(-2147483646 - 1) == -2147483647
            && r.ok && r.state.tex == st.tex[2 := tc.x][3 := 1.0 - tc.y]
  {
    assert Wrap32(-2147483647 * 2) == 2;
  }

  // ---------------------------------------------------------------------
  // The whole reading
  // ---------------------------------------------------------------------

  function Zeros(n: nat): (z: seq<real>)
    ensures |z| == n && forall k | 0 <= k < n :: z[k] == 0.0
  {
    seq(n, _ => 0.0)
  }

  /**
   * What the reading leaves: the attributes, the texture and normal arrays
   * (null unless a face line was reached and the array was created) and
   * the index list.
   */
  datatype Reading = Reading(attributes: Attributes, textureArray: Option<seq<real>>,
                             normalsArray: Option<seq<real>>, indices: seq<int>)

  function ReadFile(lines: seq<Line>): Reading {
    var f := FirstFace(lines);
    var a := AttributesBefore(lines, f);
    if !a.ok || f == |lines| then Reading(a.attributes, None, None, [])
    else
      var vs := |a.attributes.vertices|;
      var n2 := Wrap32(vs * 2);
      if n2 < 0 then Reading(a.attributes, None, None, [])
      else
        var n3 := Wrap32(vs * 3);
        if n3 < 0 then Reading(a.attributes, Some(Zeros(n2)), None, [])
        else
          var r := FacesRun(lines[f..], a.attributes, FaceState([], Zeros(n2), Zeros(n3)));
          Reading(a.attributes, Some(r.state.tex), Some(r.state.norm), r.state.indices)
  }

  /**
   * A file without a face line, or one that throws before it, leaves the
   * texture and normal arrays null and no indices.
   */
  lemma {:induction false} NoFaceLeavesArraysNull(lines: seq<Line>)
    requires forall j | 0 <= j < |lines| :: KindOf(lines[j].text) != FaceLine
    ensures ReadFile(lines).textureArray.None? && ReadFile(lines).normalsArray.None?
    ensures ReadFile(lines).indices == []
  {
    assert FirstFace(lines) == |lines|;
  }

  /** `FirstFace` is the only position with no face line before it and one at it. */
  lemma FirstFaceIsUnique(lines: seq<Line>, g: nat)
    requires g <= |lines|
    requires forall k | 0 <= k < g :: KindOf(lines[k].text) != FaceLine
    requires g < |lines| ==> KindOf(lines[g].text) == FaceLine
    ensures FirstFace(lines) == g
  {
  }

  /** Inserting a line after the first face line does not move it. */
  lemma InsertionKeepsFirstFace(lines: seq<Line>, j: nat, line: Line)
    requires FirstFace(lines) < j <= |lines|
    ensures FirstFace(lines[..j] + [line] + lines[j..]) == FirstFace(lines)
  {
    var longer := lines[..j] + [line] + lines[j..];
    var f := FirstFace(lines);
    assert forall k | 0 <= k <= f :: longer[k] == lines[k];
    FirstFaceIsUnique(longer, f);
  }

  /** Inserting a line at or after position `j` leaves the attributes read before `j` unchanged. */
  lemma InsertionKeepsAttributes(lines: seq<Line>, j: nat, line: Line, f: nat)
    requires f <= j <= |lines|
    ensures AttributesBefore(lines[..j] + [line] + lines[j..], f) == AttributesBefore(lines, f)
  {
    var rest := [line] + lines[j..];
    assert lines[..j] + [line] + lines[j..] == lines[..j] + rest;
    AttributesOfPrefix(lines[..j], rest, f);
    assert lines == lines[..j] + lines[j..];
    AttributesOfPrefix(lines[..j], lines[j..], f);
  }

  /**
   * A `v`, `vt` or `vn` line (or any other line) placed after the first
   * face line does not change what is read.
   */
  lemma LateLineIgnored(lines: seq<Line>, j: nat, line: Line)
    requires FirstFace(lines) < j <= |lines| && KindOf(line.text) != FaceLine
    ensures ReadFile(lines[..j] + [line] + lines[j..]) == ReadFile(lines)
  {
    var longer := lines[..j] + [line] + lines[j..];
    var f := FirstFace(lines);
    InsertionKeepsFirstFace(lines, j, line);
    InsertionKeepsAttributes(lines, j, line, f);
    var a := AttributesBefore(lines, f);
    var n2 := Wrap32(|a.attributes.vertices| * 2);
    var n3 := Wrap32(|a.attributes.vertices| * 3);
    if a.ok && n2 >= 0 && n3 >= 0 {
      assert longer[f..] == lines[f..j] + [line] + lines[j..];
      assert lines[f..] == lines[f..j] + lines[j..];
      NonFaceLineIgnored(lines[f..j], line, lines[j..], a.attributes, FaceState([], Zeros(n2), Zeros(n3)));
    }
  }

  /** The x, y, z flattening of the vertex positions, at position t. */
  function Coordinate(vs: seq<Vec3>, t: nat): real
    requires t < 3 * |vs|
  {
    var v := vs[t / 3];
    if t % 3 == 0 then v.x else if t % 3 == 1 then v.y else v.z
  }

  /** Vertex k's x, y and z sit at 3k, 3k + 1 and 3k + 2. */
  lemma CoordinatesOfVertex(vs: seq<Vec3>, k: nat)
    requires k < |vs|
    ensures Coordinate(vs, 3 * k) == vs[k].x
    ensures Coordinate(vs, 3 * k + 1) == vs[k].y
    ensures Coordinate(vs, 3 * k + 2) == vs[k].z
  {
  }

  /** The arrays `loadObjModel` hands on to the loader. */
  datatype ObjArrays = ObjArrays(vertices: array<real>, textures: Option<array<real>>,
                                 normals: Option<array<real>>, indices: array<int>)

  /** Writes one corner's data, as `processVertex` does, and reports whether it threw. */
  method ProcessVertex(c: Corner, at: Attributes, indices: seq<int>, textureArray: array<real>, normalsArray: array<real>)
    returns (indices': seq<int>, ok: bool)
    requires textureArray != normalsArray
    modifies textureArray, normalsArray
    ensures var r := CornerStep(FaceState(indices, old(textureArray[..]), old(normalsArray[..])), c, at);
            && indices' == r.state.indices && ok == r.ok
            && textureArray[..] == r.state.tex && normalsArray[..] == r.state.norm
  {
    indices' := indices;
    if c.vertex.None? {
      return indices', false;
    }
    var currentVertexPointer := Wrap32(c.vertex.value - 1);
    indices' := indices' + [currentVertexPointer];
    if c.texture.None? {
      return indices', false;
    }
    var t := Wrap32(c.texture.value - 1);
    if !(0 <= t < |at.textures|) {
      return indices', false;
    }
    var currentTex := at.textures[t];
    ok := WriteTexture(currentVertexPointer, currentTex, textureArray);
    if !ok || c.normal.None? {
      return indices', false;
    }
    var n := Wrap32(c.normal.value - 1);
    if !(0 <= n < |at.normals|) {
      return indices', false;
    }
    var currentNorm := at.normals[n];
    ok := WriteNormal(currentVertexPointer, currentNorm, normalsArray);
  }

  /** The texture-coordinate writes of `processVertex` (the v coordinate is flipped). */
  method WriteTexture(p: int, tc: Vec2, textureArray: array<real>) returns (ok: bool)
    modifies textureArray
    ensures var r := PutTexture(FaceState([], old(textureArray[..]), []), p, tc);
            ok == r.ok && textureArray[..] == r.state.tex
  {
    var a := Wrap32(p * 2);
    if !(0 <= a < textureArray.Length) {
      return false;
    }
    textureArray[a] := tc.x;
    var b := Wrap32(a + 1);
    if !(0 <= b < textureArray.Length) {
      return false;
    }
    textureArray[b] := 1.0 - tc.y;
    ok := true;
  }

  /** The normal-vector writes of `processVertex`. */
  method WriteNormal(p: int, n: Vec3, normalsArray: array<real>) returns (ok: bool)
    modifies normalsArray
    ensures var r := PutNormal(FaceState([], [], old(normalsArray[..])), p, n);
            ok == r.ok && normalsArray[..] == r.state.norm
  {
    var a := Wrap32(p * 3);
    if !(0 <= a < normalsArray.Length) {
      return false;
    }
    normalsArray[a] := n.x;
    var b := Wrap32(a + 1);
    if !(0 <= b < normalsArray.Length) {
      return false;
    }
    normalsArray[b] := n.y;
    var d := Wrap32(a + 2);
    if !(0 <= d < normalsArray.Length) {
      return false;
    }
    normalsArray[d] := n.z;
    ok := true;
  }


  /**
   * The first loop of `loadObjModel`: collects attributes until the first
   * face line, the end of the file or a throw.
   */
  method ReadAttributes(lines: seq<Line>) returns (at: Attributes, i: nat, thrown: bool)
    ensures i <= |lines|
    ensures AttributesBefore(lines, FirstFace(lines)) == AttributeProgress(at, !thrown)
    ensures !thrown ==> i == FirstFace(lines)
  {
    var vertices: seq<Vec3> := [];
    var textures: seq<Vec2> := [];
    var normals: seq<Vec3> := [];
    thrown := false;
    i := 0;
    while !thrown && i < |lines| && KindOf(lines[i].text) != FaceLine
      invariant i <= |lines|
      invariant forall j | 0 <= j < i :: KindOf(lines[j].text) != FaceLine
      invariant AttributesBefore(lines, i) == AttributeProgress(Attributes(vertices, textures, normals), !thrown)
    {
      var line := lines[i];
      match KindOf(line.text) {
        case GeometricLine =>
          if |line.values| < 3 {
            thrown := true;
          } else {
            vertices := vertices + [Vec3(line.values[0], line.values[1], line.values[2])];
          }
        case TextureLine =>
          if |line.values| < 2 {
            thrown := true;
          } else {
            textures := textures + [Vec2(line.values[0], line.values[1])];
          }
        case NormalLine =>
          if |line.values| < 3 {
            thrown := true;
          } else {
            normals := normals + [Vec3(line.values[0], line.values[1], line.values[2])];
          }
        case _ =>
      }
      i := i + 1;
    }
    at := Attributes(vertices, textures, normals);
    if thrown {
      AttributeFailureStays(lines, i, FirstFace(lines));
    }
  }

  /**
   * The second loop of `loadObjModel`, from the first face line `f`: face
   * lines are processed corner by corner until the end of the file or a
   * throw; other lines are skipped.
   */
  method ReadFaces(lines: seq<Line>, f: nat, at: Attributes, textureArray: array<real>, normalsArray: array<real>)
    returns (indices: seq<int>, thrown: bool)
    requires f <= |lines| && textureArray != normalsArray
    modifies textureArray, normalsArray
    ensures FacesRun(lines[f..], at, FaceState([], old(textureArray[..]), old(normalsArray[..])))
         == Progress(FaceState(indices, textureArray[..], normalsArray[..]), !thrown)
  {
    ghost var init := FaceState([], textureArray[..], normalsArray[..]);
    indices := [];
    thrown := false;
    var i := f;
    while !thrown && i < |lines|
      invariant f <= i <= |lines|
      invariant FacesRun(lines[f..i], at, init) == Progress(FaceState(indices, textureArray[..], normalsArray[..]), !thrown)
    {
      var line := lines[i];
      if KindOf(line.text) == FaceLine {
        if |line.corners| < 3 {
          thrown := true;
        } else {
          var ok;
          indices, ok := ProcessVertex(line.corners[0], at, indices, textureArray, normalsArray);
          if ok {
            indices, ok := ProcessVertex(line.corners[1], at, indices, textureArray, normalsArray);
            if ok {
              indices, ok := ProcessVertex(line.corners[2], at, indices, textureArray, normalsArray);
            }
          }
          thrown := !ok;
        }
      }
      assert lines[f..i + 1][..i - f] == lines[f..i];
      i := i + 1;
    }
    if thrown {
      assert lines[f..] == lines[f..i] + lines[i..];
      FacesRunFailureStays(lines[f..i], lines[i..], at, init);
    } else {
      assert lines[f..i] == lines[f..];
    }
  }

  /** The `for (Vector3f vertex : vertices)` loop: x, y, z of each vertex in order. */
  method FlattenVertices(vertices: seq<Vec3>, verticesArray: array<real>)
    requires verticesArray.Length == 3 * |vertices|
    modifies verticesArray
    ensures forall t | 0 <= t < 3 * |vertices| :: verticesArray[t] == Coordinate(vertices, t)
  {
    var vertexPointer := 0;
    for k := 0 to |vertices|
      invariant vertexPointer == 3 * k
      invariant forall t | 0 <= t < 3 * k :: verticesArray[t] == Coordinate(vertices, t)
    {
      var vertex := vertices[k];
      CoordinatesOfVertex(vertices, k);
      verticesArray[vertexPointer] := vertex.x;
      verticesArray[vertexPointer + 1] := vertex.y;
      verticesArray[vertexPointer + 2] := vertex.z;
      vertexPointer := vertexPointer + 3;
    }
  }

  /** The copy of the index list into a fresh array. */
  method CopyIndices(indices: seq<int>) returns (indicesArray: array<int>)
    ensures fresh(indicesArray) && indicesArray[..] == indices
  {
    indicesArray := new int[|indices|](_ => 0);
    for k := 0 to |indices|
      invariant indicesArray[..k] == indices[..k]
    {
      indicesArray[k] := indices[k];
    }
  }

  /**
   * `loadObjModel`: reads the lines and returns the arrays it passes to the
   * loader. The position array is built outside the exception handler, so
   * a vertex count whose threefold does not fit in an `int` escapes as an
   * exception.
   */
  method LoadObjModel(lines: seq<Line>) returns (r: Result<ObjArrays>)
    ensures var rd := ReadFile(lines);
            var vs := rd.attributes.vertices;
            && (r.Err? <==> !IsJavaInt(3 * |vs|))
            && (r.Err? ==> r.error == if Wrap32(3 * |vs|) < 0 then NegativeArraySize else IndexOutOfBounds)
            && (r.Ok? ==>
                  && r.value.vertices.Length == 3 * |vs|
                  && (forall t | 0 <= t < 3 * |vs| :: r.value.vertices[t] == Coordinate(vs, t))
                  && (r.value.textures.Some? <==> rd.textureArray.Some?)
                  && (r.value.textures.Some? ==> r.value.textures.value[..] == rd.textureArray.value)
                  && (r.value.normals.Some? <==> rd.normalsArray.Some?)
                  && (r.value.normals.Some? ==> r.value.normals.value[..] == rd.normalsArray.value)
                  && r.value.indices[..] == rd.indices)
  {
    var at, i, thrown := ReadAttributes(lines);
    var vertices := at.vertices;
    var indices: seq<int> := [];
    var textureArray: Option<array<real>> := None;
    var normalsArray: Option<array<real>> := None;
    if !thrown && i < |lines| {
      // the first face line sizes the two arrays
      var n2 := Wrap32(|vertices| * 2);
      if n2 >= 0 {
        var ta := new real[n2](_ => 0.0);
        textureArray := Some(ta);
        var n3 := Wrap32(|vertices| * 3);
        if n3 >= 0 {
          var na := new real[n3](_ => 0.0);
          normalsArray := Some(na);
          assert ta[..] == Zeros(n2) && na[..] == Zeros(n3);
          indices, thrown := ReadFaces(lines, i, at, ta, na);
        } else {
          assert ta[..] == Zeros(n2);
        }
      }
    }
    assert ReadFile(lines) == Reading(at, if textureArray.Some? then Some(textureArray.value[..]) else None,
                                      if normalsArray.Some? then Some(normalsArray.value[..]) else None, indices);
    // the arrays handed on
    var n := Wrap32(|vertices| * 3);
    if n < 0 {
      return Err(NegativeArraySize);
    }
    if n < 3 * |vertices| {
      // the array is too short: the copy below would run past its end
      return Err(IndexOutOfBounds);
    }
    var verticesArray := new real[n](_ => 0.0);
    FlattenVertices(vertices, verticesArray);
    var indicesArray := CopyIndices(indices);
    r := Ok(ObjArrays(verticesArray, textureArray, normalsArray, indicesArray));
  }
}
