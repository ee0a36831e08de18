/**
 * `render.EntityRenderer`: draws the render list group by group. For each
 * model it binds the model's vertex array and texture and loads its material
 * uniforms, then loads each instance's uniforms and issues one draw, then
 * unbinds. The picking pass also numbers the instances 1, 2, 3, … so that the
 * number written into the picking framebuffer identifies the instance.
 *
 * The OpenGL calls and shader uniform loads are recorded as a trace of
 * events. `Scan` replays a trace and records, for every draw, the uniforms
 * and culling state in force at that moment; the lemmas state what a pass
 * draws in those terms.
 */
module EntityRendering {
  import opened Common
  import opened Entities
  import opened Batching

  /** The three shader programs the renderer loads transforms into. */
  datatype Shader = StaticShader | FlatShader | PickingShader

  /** The OpenGL calls and uniform loads of a pass. */
  datatype GlEvent =
    | BindVertexArray(vao: int)
    | EnableAttribute(slot: int)
    | DisableAttribute(slot: int)
    | LoadTextureRows(rows: int)
    | Culling(enabled: bool)
    | LoadWireframe(on: bool)
    | LoadFakeLighting(on: bool)
    | LoadShine(damper: real, reflectivity: real)
    | ActiveTexture0
    | BindTexture(textureId: int)
    /** The transformation matrix built from this entity's position, rotation and scale. */
    | LoadTransform(shader: Shader, entity: Entity)
    /** The entity's texture atlas offset, into the static shader. */
    | LoadTextureOffset(entity: Entity)
    | LoadObjectIndex(index: real)
    | DrawElements(vertexCount: int)

  /** `render` with `flat` false, `render` with `flat` true, and `renderForPicking`. */
  datatype Pass = Normal | Flat | Pick

  /** The attribute slots of positions, texture coordinates and normals. */
  const PositionAttribute := 0
  const TextureCoordAttribute := 1
  const NormalsAttribute := 2

  function ShaderOf(pass: Pass): Shader {
    match pass
    case Normal => StaticShader
    case Flat => FlatShader
    case Pick => PickingShader
  }

  /** The calls of `prepareTexturedModel(model, wireframe)`. */
  function PrepareEvents(model: TexturedModel, wireframe: bool): seq<GlEvent> {
    var t := model.texture;
    [BindVertexArray(model.vaoId), EnableAttribute(PositionAttribute),
     EnableAttribute(TextureCoordAttribute), EnableAttribute(NormalsAttribute),
     LoadTextureRows(t.numberOfRows)]
    + (if t.hasTransparency then [Culling(false)] else [])
    + [LoadWireframe(wireframe), LoadFakeLighting(t.useFakeLighting),
       LoadShine(t.shineDamper, t.reflectivity), ActiveTexture0, BindTexture(t.textureId)]
  }

  /** The calls of `unbindTexturedModel`. */
  const UnbindEvents: seq<GlEvent> :=
    [Culling(true), DisableAttribute(PositionAttribute), DisableAttribute(TextureCoordAttribute),
     DisableAttribute(NormalsAttribute), BindVertexArray(0)]

  /** The calls for one instance of `model`: its uniforms, then one draw of the model. */
  function InstanceEvents(pass: Pass, entity: Entity, model: TexturedModel, index: real): seq<GlEvent> {
    match pass
    case Normal => [LoadTransform(StaticShader, entity), LoadTextureOffset(entity), DrawElements(model.vertexCount)]
    case Flat => [LoadTransform(FlatShader, entity), DrawElements(model.vertexCount)]
    case Pick => [LoadObjectIndex(index), LoadTransform(PickingShader, entity), DrawElements(model.vertexCount)]
  }

  /** The calls for the instances `list` of `model`, numbered from `first`. */
  function ListEvents(pass: Pass, model: TexturedModel, list: seq<Entity>, first: int): seq<GlEvent> {
    if |list| == 0 then []
    else
      ListEvents(pass, model, list[..|list| - 1], first)
      + InstanceEvents(pass, list[|list| - 1], model, (first + |list| - 1) as real)
  }

  /** The calls for one group: prepare `model`, its instances `list` numbered from `first`, unbind. */
  function GroupCalls(pass: Pass, wireframe: bool, model: TexturedModel, list: seq<Entity>,
                      first: int): seq<GlEvent> {
    PrepareEvents(model, wireframe) + ListEvents(pass, model, list, first) + UnbindEvents
  }

  /** The calls of a pass over some groups, and how many instances they number. */
  datatype Numbered = Numbered(calls: seq<GlEvent>, count: nat)

  /**
   * The calls for the groups `order` of a pass, instances numbered from
   * `first`, together with the number of instances drawn.
   */
  function GroupPass(pass: Pass, wireframe: bool, order: seq<TexturedModel>,
                     lists: map<TexturedModel, seq<Entity>>, first: int): Numbered
    requires Covers(order, lists)
  {
    if |order| == 0 then Numbered([], 0)
    else
      var p := GroupPass(pass, wireframe, order[..|order| - 1], lists, first);
      var model := order[|order| - 1];
      Numbered(p.calls + GroupCalls(pass, wireframe, model, lists[model], first + p.count),
               p.count + |lists[model]|)
  }

  /** The calls for the groups `order` of a pass, instances numbered from `first`. */
  function GroupEvents(pass: Pass, wireframe: bool, order: seq<TexturedModel>,
                       lists: map<TexturedModel, seq<Entity>>, first: int): seq<GlEvent>
    requires Covers(order, lists)
  {
    GroupPass(pass, wireframe, order, lists, first).calls
  }

  /** A pass numbers exactly the instances it visits. */
  lemma {:induction false} GroupPassCount(pass: Pass, wireframe: bool, order: seq<TexturedModel>,
                                          lists: map<TexturedModel, seq<Entity>>, first: int)
    requires Covers(order, lists)
    ensures GroupPass(pass, wireframe, order, lists, first).count == |Flatten(order, lists)|
  {
    if |order| > 0 {
      GroupPassCount(pass, wireframe, order[..|order| - 1], lists, first);
    }
  }

  /** The calls of `render(entities, flat, wireframe)`. */
  function RenderTrace(b: Batch, flat: bool, wireframe: bool): seq<GlEvent>
    requires WellFormed(b)
  {
    GroupEvents(if flat then Flat else Normal, wireframe, b.order, b.lists, 1)
  }

  /** The calls of `renderForPicking(entities)`: object index 0 first, then every group unlit by wireframe. */
  function PickingTrace(b: Batch): seq<GlEvent>
    requires WellFormed(b)
  {
    [LoadObjectIndex(0.0)] + GroupEvents(Pick, false, b.order, b.lists, 1)
  }

  /** The uniforms and culling state in force at one draw call. */
  datatype DrawRecord = DrawRecord(
    objectIndex: real,
    transform: Option<(Shader, Entity)>,
    offset: Option<Entity>,
    culling: bool,
    vertexCount: int)

  /** The uniforms and culling state at a point of a trace, and the draws so far. */
  datatype ScanState = ScanState(
    objectIndex: real,
    transform: Option<(Shader, Entity)>,
    offset: Option<Entity>,
    culling: bool,
    draws: seq<DrawRecord>)

  /** The effect of one event on the recorded state. */
  function Step(s: ScanState, e: GlEvent): ScanState {
    match e
    case LoadObjectIndex(i) => s.(objectIndex := i)
    case LoadTransform(sh, ent) => s.(transform := Some((sh, ent)))
    case LoadTextureOffset(ent) => s.(offset := Some(ent))
    case Culling(on) => s.(culling := on)
    case DrawElements(c) => s.(draws := s.draws + [DrawRecord(s.objectIndex, s.transform, s.offset, s.culling, c)])
    case _ => s
  }

  /** Replays a trace from state `s`. */
  function Scan(s: ScanState, t: seq<GlEvent>): ScanState {
    if |t| == 0 then s else Step(Scan(s, t[..|t| - 1]), t[|t| - 1])
  }

  /** Events that change none of the recorded state. */
  predicate Inert(e: GlEvent) {
    !(e.LoadObjectIndex? || e.LoadTransform? || e.LoadTextureOffset? || e.Culling? || e.DrawElements?)
  }

  lemma {:induction false} ScanAppend(s: ScanState, a: seq<GlEvent>, b: seq<GlEvent>)
    ensures Scan(s, a + b) == Scan(Scan(s, a), b)
  {
    if b == [] {
      assert a + b == a;
    } else {
      ScanAppend(s, a, b[..|b| - 1]);
      assert (a + b)[..|a + b| - 1] == a + b[..|b| - 1];
    }
  }

  lemma ScanOne(s: ScanState, e: GlEvent)
    ensures Scan(s, [e]) == Step(s, e)
  {
    assert [e][..0] == [];
  }

  lemma {:induction false} ScanInert(s: ScanState, t: seq<GlEvent>)
    requires forall i | 0 <= i < |t| :: Inert(t[i])
    ensures Scan(s, t) == s
  {
    if t != [] {
      ScanInert(s, t[..|t| - 1]);
    }
  }

  /** Preparing a group only switches culling off, and only for a transparent texture. */
  lemma ScanPrepare(s: ScanState, model: TexturedModel, wireframe: bool)
    ensures Scan(s, PrepareEvents(model, wireframe)) ==
            s.(culling := if model.texture.hasTransparency then false else s.culling)
  {
    var t := model.texture;
    var a: seq<GlEvent> := [BindVertexArray(model.vaoId), EnableAttribute(PositionAttribute),
                            EnableAttribute(TextureCoordAttribute), EnableAttribute(NormalsAttribute),
                            LoadTextureRows(t.numberOfRows)];
    var c: seq<GlEvent> := if t.hasTransparency then [Culling(false)] else [];
    var d: seq<GlEvent> := [LoadWireframe(wireframe), LoadFakeLighting(t.useFakeLighting),
                            LoadShine(t.shineDamper, t.reflectivity), ActiveTexture0, BindTexture(t.textureId)];
    assert PrepareEvents(model, wireframe) == a + c + d;
    ScanAppend(s, a + c, d);
    ScanAppend(s, a, c);
    ScanInert(s, a);
    if t.hasTransparency {
      ScanOne(s, Culling(false));
    }
    ScanInert(Scan(s, a + c), d);
  }

  /** Unbinding a group switches culling back on and changes nothing else recorded. */
  lemma ScanUnbind(s: ScanState)
    ensures Scan(s, UnbindEvents) == s.(culling := true)
  {
    var rest: seq<GlEvent> := [DisableAttribute(PositionAttribute), DisableAttribute(TextureCoordAttribute),
                               DisableAttribute(NormalsAttribute), BindVertexArray(0)];
    assert UnbindEvents == [Culling(true)] + rest;
    ScanAppend(s, [Culling(true)], rest);
    ScanOne(s, Culling(true));
    ScanInert(s.(culling := true), rest);
  }

  /** The draw record of the instance `entity` of `model`, numbered `index`, with culling `culling`. */
  function InstanceDraw(pass: Pass, s: ScanState, entity: Entity, model: TexturedModel,
                        index: real, culling: bool): DrawRecord {
    DrawRecord(
      if pass == Pick then index else s.objectIndex,
      Some((ShaderOf(pass), entity)),
      if pass == Normal then Some(entity) else s.offset,
      culling,
      model.vertexCount)
  }

  /** What the state keeps across instances of a pass: the fields the pass does not load per instance. */
  predicate Carried(pass: Pass, s: ScanState, r: ScanState) {
    && (pass != Pick ==> r.objectIndex == s.objectIndex)
    && (pass != Normal ==> r.offset == s.offset)
  }

  lemma ScanTwo(s: ScanState, e1: GlEvent, e2: GlEvent)
    ensures Scan(s, [e1, e2]) == Step(Step(s, e1), e2)
  {
    assert [e1, e2][..1] == [e1];
    ScanOne(s, e1);
  }

  lemma ScanThree(s: ScanState, e1: GlEvent, e2: GlEvent, e3: GlEvent)
    ensures Scan(s, [e1, e2, e3]) == Step(Step(Step(s, e1), e2), e3)
  {
    assert [e1, e2, e3][..2] == [e1, e2];
    ScanTwo(s, e1, e2);
  }

  lemma ScanInstance(pass: Pass, s: ScanState, entity: Entity, model: TexturedModel, index: real)
    ensures var r := Scan(s, InstanceEvents(pass, entity, model, index));
            && r.draws == s.draws + [InstanceDraw(pass, s, entity, model, index, s.culling)]
            && r.culling == s.culling
            && Carried(pass, s, r)
  {
    match pass
    case Normal =>
      ScanThree(s, LoadTransform(StaticShader, entity), LoadTextureOffset(entity), DrawElements(model.vertexCount));
    case Flat =>
      ScanTwo(s, LoadTransform(FlatShader, entity), DrawElements(model.vertexCount));
    case Pick =>
      ScanThree(s, LoadObjectIndex(index), LoadTransform(PickingShader, entity), DrawElements(model.vertexCount));
  }

  /** The draw records of the instances `list` of `model`, numbered from `first`. */
  function ListDraws(pass: Pass, s: ScanState, model: TexturedModel, list: seq<Entity>, first: int,
                     culling: bool): seq<DrawRecord> {
    if |list| == 0 then []
    else
      ListDraws(pass, s, model, list[..|list| - 1], first, culling)
      + [InstanceDraw(pass, s, list[|list| - 1], model, (first + |list| - 1) as real, culling)]
  }

  /** A group's instances are drawn once each, in list order, numbered consecutively. */
  lemma {:induction false} ScanList(pass: Pass, s: ScanState, model: TexturedModel, list: seq<Entity>, first: int)
    ensures var r := Scan(s, ListEvents(pass, model, list, first));
            && r.draws == s.draws + ListDraws(pass, s, model, list, first, s.culling)
            && r.culling == s.culling
            && Carried(pass, s, r)
  {
    if list != [] {
      var init := list[..|list| - 1];
      var last := list[|list| - 1];
      var index := (first + |list| - 1) as real;
      ScanList(pass, s, model, init, first);
      var s1 := Scan(s, ListEvents(pass, model, init, first));
      ScanAppend(s, ListEvents(pass, model, init, first), InstanceEvents(pass, last, model, index));
      ScanInstance(pass, s1, last, model, index);
      assert InstanceDraw(pass, s1, last, model, index, s1.culling) ==
             InstanceDraw(pass, s, last, model, index, s.culling);
    }
  }

  /**
   * The draw record expected for the instance at 0-based position `n` of a
   * pass over a map: key `model`, numbered `first + n`, culling off exactly
   * for a transparent texture.
   */
  function ExpectedDraw(pass: Pass, s: ScanState, first: int, n: nat, entity: Entity,
                        model: TexturedModel): DrawRecord {
    InstanceDraw(pass, s, entity, model, (first + n) as real, !model.texture.hasTransparency)
  }

  /** The expected draw records of the instances `es` filed under the keys `ks`. */
  function ExpectedDraws(pass: Pass, s: ScanState, first: int, es: seq<Entity>,
                         ks: seq<TexturedModel>): seq<DrawRecord>
    requires |es| == |ks|
  {
    if |es| == 0 then []
    else
      ExpectedDraws(pass, s, first, es[..|es| - 1], ks[..|ks| - 1])
      + [ExpectedDraw(pass, s, first, |es| - 1, es[|es| - 1], ks[|ks| - 1])]
  }

  lemma {:induction false} ExpectedDrawsAt(pass: Pass, s: ScanState, first: int, es: seq<Entity>,
                                           ks: seq<TexturedModel>)
    requires |es| == |ks|
    ensures |ExpectedDraws(pass, s, first, es, ks)| == |es|
    ensures forall n | 0 <= n < |es| ::
              ExpectedDraws(pass, s, first, es, ks)[n] == ExpectedDraw(pass, s, first, n, es[n], ks[n])
  {
    if es != [] {
      ExpectedDrawsAt(pass, s, first, es[..|es| - 1], ks[..|ks| - 1]);
    }
  }

  /** One group's draws extend the expected draws of the groups before it. */
  lemma {:induction false} ExpectedDrawsStep(pass: Pass, s: ScanState, s1: ScanState, first: int,
                                             es: seq<Entity>, ks: seq<TexturedModel>,
                                             model: TexturedModel, list: seq<Entity>)
    requires |es| == |ks|
    requires Carried(pass, s, s1) && s1.culling == !model.texture.hasTransparency
    ensures ExpectedDraws(pass, s, first, es + list, ks + Repeat(model, |list|)) ==
            ExpectedDraws(pass, s, first, es, ks) + ListDraws(pass, s1, model, list, first + |es|, s1.culling)
  {
    if list == [] {
      assert es + list == es;
      assert ks + Repeat(model, 0) == ks;
    } else {
      var m := |list|;
      ExpectedDrawsStep(pass, s, s1, first, es, ks, model, list[..m - 1]);
      assert (es + list)[..|es| + m - 1] == es + list[..m - 1];
      assert (ks + Repeat(model, m))[..|ks| + m - 1] == ks + Repeat(model, m - 1);
    }
  }

  /**
   * A pass over the groups `order` (culling on at its start) draws every
   * instance once, in the order `Flatten` lists them: instance n with the
   * vertex count of its model, numbered `first + n`, with its own transform
   * in the pass's shader, and culling off exactly while a transparent
   * model is drawn. Culling is on again at the end.
   */
  lemma {:induction false} ScanGroups(pass: Pass, wireframe: bool, s: ScanState, order: seq<TexturedModel>,
                                      lists: map<TexturedModel, seq<Entity>>, first: int)
    requires Covers(order, lists) && s.culling
    ensures |FlattenKeys(order, lists)| == |Flatten(order, lists)|
    ensures var r := Scan(s, GroupEvents(pass, wireframe, order, lists, first));
            && r.draws == s.draws + ExpectedDraws(pass, s, first, Flatten(order, lists), FlattenKeys(order, lists))
            && r.culling
            && Carried(pass, s, r)
  {
    if |order| == 0 {
      assert ExpectedDraws(pass, s, first, [], []) == [];
    } else {
      var init := order[..|order| - 1];
      var model := order[|order| - 1];
      ScanGroups(pass, wireframe, s, init, lists, first);
      ScanGroupsExtend(pass, wireframe, s, order, lists, first);
    }
  }

  /** What `ScanGroups` states for all groups but the last extends to the last one. */
  lemma ScanGroupsExtend(pass: Pass, wireframe: bool, s: ScanState, order: seq<TexturedModel>,
                         lists: map<TexturedModel, seq<Entity>>, first: int)
    requires Covers(order, lists) && |order| > 0
    requires var init := order[..|order| - 1];
             && |FlattenKeys(init, lists)| == |Flatten(init, lists)|
             && var r := Scan(s, GroupEvents(pass, wireframe, init, lists, first));
             && r.draws == s.draws + ExpectedDraws(pass, s, first, Flatten(init, lists), FlattenKeys(init, lists))
             && r.culling
             && Carried(pass, s, r)
    ensures |FlattenKeys(order, lists)| == |Flatten(order, lists)|
    ensures var r := Scan(s, GroupEvents(pass, wireframe, order, lists, first));
            && r.draws == s.draws + ExpectedDraws(pass, s, first, Flatten(order, lists), FlattenKeys(order, lists))
            && r.culling
            && Carried(pass, s, r)
  {
    var init := order[..|order| - 1];
    var model := order[|order| - 1];
    FlattenUnfold(order, lists);
    GroupEventsUnfold(pass, wireframe, order, lists, first);
    var g, es, ks := GroupEvents(pass, wireframe, init, lists, first), Flatten(init, lists), FlattenKeys(init, lists);
    var list := lists[model];
    var calls := GroupCalls(pass, wireframe, model, list, first + |es|);
    assert GroupEvents(pass, wireframe, order, lists, first) == g + calls;
    assert Flatten(order, lists) == es + list;
    assert FlattenKeys(order, lists) == ks + Repeat(model, |list|);
    ScanGroupStep(pass, wireframe, s, g, model, list, first, es, ks, g + calls, es + list, ks + Repeat(model, |list|));
  }

  /** Scanning one more group after the groups `g` before it, whose draws are known. */
  lemma ScanGroupStep(pass: Pass, wireframe: bool, s: ScanState, g: seq<GlEvent>, model: TexturedModel,
                      list: seq<Entity>, first: int, es: seq<Entity>, ks: seq<TexturedModel>,
                      g': seq<GlEvent>, es': seq<Entity>, ks': seq<TexturedModel>)
    requires |es| == |ks|
    requires Scan(s, g).draws == s.draws + ExpectedDraws(pass, s, first, es, ks)
    requires Scan(s, g).culling && Carried(pass, s, Scan(s, g))
    requires g' == g + GroupCalls(pass, wireframe, model, list, first + |es|)
    requires es' == es + list && ks' == ks + Repeat(model, |list|)
    ensures |es'| == |ks'|
    ensures var r := Scan(s, g');
            && r.draws == s.draws + ExpectedDraws(pass, s, first, es', ks')
            && r.culling
            && Carried(pass, s, r)
  {
    var s1 := Scan(s, g);
    var calls := GroupCalls(pass, wireframe, model, list, first + |es|);
    ScanAppend(s, g, calls);
    ScanGroupCalls(pass, wireframe, s1, model, list, first + |es|);
    CombineGroup(pass, s, s1, Scan(s1, calls), first, es, ks, model, list);
  }

  /** The calls of the last group come after the calls of the groups before it. */
  lemma GroupEventsUnfold(pass: Pass, wireframe: bool, order: seq<TexturedModel>,
                          lists: map<TexturedModel, seq<Entity>>, first: int)
    requires Covers(order, lists) && |order| > 0
    ensures Covers(order[..|order| - 1], lists)
    ensures GroupEvents(pass, wireframe, order, lists, first) ==
            GroupEvents(pass, wireframe, order[..|order| - 1], lists, first)
            + GroupCalls(pass, wireframe, order[|order| - 1], lists[order[|order| - 1]],
                         first + |Flatten(order[..|order| - 1], lists)|)
  {
    GroupPassCount(pass, wireframe, order[..|order| - 1], lists, first);
  }

  /** Scanning one group's calls, with culling on at its start. */
  lemma ScanGroupCalls(pass: Pass, wireframe: bool, s: ScanState, model: TexturedModel,
                       list: seq<Entity>, first: int)
    requires s.culling
    ensures var r := Scan(s, GroupCalls(pass, wireframe, model, list, first));
            && r.draws == s.draws + ListDraws(pass, s.(culling := !model.texture.hasTransparency), model, list,
                                              first, !model.texture.hasTransparency)
            && r.culling
            && Carried(pass, s, r)
  {
    var p := PrepareEvents(model, wireframe);
    var l := ListEvents(pass, model, list, first);
    var s2 := Scan(s, p);
    var s3 := Scan(s2, l);
    ScanAppend(s, p + l, UnbindEvents);
    ScanAppend(s, p, l);
    ScanPrepare(s, model, wireframe);
    ScanList(pass, s2, model, list, first);
    ScanUnbind(s3);
  }

  /** The draws of one more group extend the draws of the groups before it. */
  lemma CombineGroup(pass: Pass, s: ScanState, s1: ScanState, r: ScanState, first: int,
                     es: seq<Entity>, ks: seq<TexturedModel>, model: TexturedModel, list: seq<Entity>)
    requires |es| == |ks|
    requires s1.draws == s.draws + ExpectedDraws(pass, s, first, es, ks) && Carried(pass, s, s1)
    requires r.draws == s1.draws + ListDraws(pass, s1.(culling := !model.texture.hasTransparency), model, list,
                                             first + |es|, !model.texture.hasTransparency)
    requires Carried(pass, s1, r)
    ensures r.draws == s.draws + ExpectedDraws(pass, s, first, es + list, ks + Repeat(model, |list|))
    ensures Carried(pass, s, r)
  {
    ExpectedDrawsStep(pass, s, s1.(culling := !model.texture.hasTransparency), first, es, ks, model, list);
  }

  /**
   * The picking pass numbers the instances of a map 1, 2, 3, … in `Flatten`
   * order: draw n carries object index n + 1 and the transform of instance
   * n in the picking shader, uses the vertex count of instance n's model,
   * and has culling off exactly for a transparent model. It issues one draw
   * per instance and leaves culling on.
   */
  lemma PickingNumbersInstances(b: Batch, s: ScanState)
    requires WellFormed(b) && s.culling
    ensures |InstanceKeys(b)| == |Instances(b)|
    ensures var r := Scan(s, PickingTrace(b));
            && |r.draws| == |s.draws| + |Instances(b)|
            && r.draws[..|s.draws|] == s.draws
            && (forall n | 0 <= n < |Instances(b)| ::
                  r.draws[|s.draws| + n] ==
                  DrawRecord((n + 1) as real, Some((PickingShader, Instances(b)[n])), s.offset,
                             !InstanceKeys(b)[n].texture.hasTransparency, InstanceKeys(b)[n].vertexCount))
            && r.culling
  {
    var s0 := s.(objectIndex := 0.0);
    var es, ks := Instances(b), InstanceKeys(b);
    FlattenKeysLength(b.order, b.lists);
    ScanAppend(s, [LoadObjectIndex(0.0)], GroupEvents(Pick, false, b.order, b.lists, 1));
    ScanOne(s, LoadObjectIndex(0.0));
    ScanGroups(Pick, false, s0, b.order, b.lists, 1);
    ExpectedDrawsAt(Pick, s0, 1, es, ks);
    var r := Scan(s, PickingTrace(b));
    assert r.draws == s.draws + ExpectedDraws(Pick, s0, 1, es, ks);
    forall n | 0 <= n < |es|
      ensures r.draws[|s.draws| + n] ==
              DrawRecord((n + 1) as real, Some((PickingShader, es[n])), s.offset,
                         !ks[n].texture.hasTransparency, ks[n].vertexCount)
    {
      assert r.draws[|s.draws| + n] == ExpectedDraw(Pick, s0, 1, n, es[n], ks[n]);
    }
  }

  /**
   * `render` draws every instance once, in `Flatten` order, with its
   * model's vertex count and culling off exactly for a transparent model.
   * With `flat` false the transform goes to the static shader together with
   * the instance's texture offset; with `flat` true the transform goes to the
   * flat shader and no texture offset is loaded. Culling is on afterwards.
   */
  lemma RenderDrawsInstances(b: Batch, flat: bool, wireframe: bool, s: ScanState)
    requires WellFormed(b) && s.culling
    ensures |InstanceKeys(b)| == |Instances(b)|
    ensures var r := Scan(s, RenderTrace(b, flat, wireframe));
            && |r.draws| == |s.draws| + |Instances(b)|
            && r.draws[..|s.draws|] == s.draws
            && (forall n | 0 <= n < |Instances(b)| ::
                  r.draws[|s.draws| + n] ==
                  DrawRecord(s.objectIndex,
                             Some((if flat then FlatShader else StaticShader, Instances(b)[n])),
                             if flat then s.offset else Some(Instances(b)[n]),
                             !InstanceKeys(b)[n].texture.hasTransparency, InstanceKeys(b)[n].vertexCount))
            && r.culling
  {
    var pass := if flat then Flat else Normal;
    var es, ks := Instances(b), InstanceKeys(b);
    FlattenKeysLength(b.order, b.lists);
    ScanGroups(pass, wireframe, s, b.order, b.lists, 1);
    ExpectedDrawsAt(pass, s, 1, es, ks);
    var r := Scan(s, RenderTrace(b, flat, wireframe));
    assert r.draws == s.draws + ExpectedDraws(pass, s, 1, es, ks);
    forall n | 0 <= n < |es|
      ensures r.draws[|s.draws| + n] ==
              DrawRecord(s.objectIndex, Some((if flat then FlatShader else StaticShader, es[n])),
                         if flat then s.offset else Some(es[n]),
                         !ks[n].texture.hasTransparency, ks[n].vertexCount)
    {
      assert r.draws[|s.draws| + n] == ExpectedDraw(pass, s, 1, n, es[n], ks[n]);
    }
  }

  /** Every wireframe flag loaded in `t` is `wireframe`. */
  predicate LoadsWireframe(t: seq<GlEvent>, wireframe: bool) {
    forall i | 0 <= i < |t| :: t[i].LoadWireframe? ==> t[i].on == wireframe
  }

  lemma LoadsWireframeAppend(a: seq<GlEvent>, b: seq<GlEvent>, wireframe: bool)
    requires LoadsWireframe(a, wireframe) && LoadsWireframe(b, wireframe)
    ensures LoadsWireframe(a + b, wireframe)
  {
    forall i | 0 <= i < |a + b| && (a + b)[i].LoadWireframe?
      ensures (a + b)[i].on == wireframe
    {
      if i >= |a| {
        assert (a + b)[i] == b[i - |a|];
      }
    }
  }

  /** A group's calls load the wireframe flag only in its preparation, with the flag given. */
  lemma GroupCallsWireframe(pass: Pass, wireframe: bool, model: TexturedModel, list: seq<Entity>, first: int)
    ensures LoadsWireframe(GroupCalls(pass, wireframe, model, list, first), wireframe)
  {
    ListNoMaterial(pass, model, list, first);
    LoadsWireframeAppend(PrepareEvents(model, wireframe), ListEvents(pass, model, list, first), wireframe);
    LoadsWireframeAppend(PrepareEvents(model, wireframe) + ListEvents(pass, model, list, first),
                         UnbindEvents, wireframe);
  }

  /** Every load of `render`'s material uniforms happens with the requested wireframe flag. */
  lemma {:induction false} GroupWireframe(pass: Pass, wireframe: bool, order: seq<TexturedModel>,
                                          lists: map<TexturedModel, seq<Entity>>, first: int)
    requires Covers(order, lists)
    ensures LoadsWireframe(GroupEvents(pass, wireframe, order, lists, first), wireframe)
  {
    if |order| > 0 {
      var init := order[..|order| - 1];
      var model := order[|order| - 1];
      GroupEventsUnfold(pass, wireframe, order, lists, first);
      GroupWireframe(pass, wireframe, init, lists, first);
      GroupCallsWireframe(pass, wireframe, model, lists[model], first + |Flatten(init, lists)|);
      LoadsWireframeAppend(GroupEvents(pass, wireframe, init, lists, first),
                           GroupCalls(pass, wireframe, model, lists[model], first + |Flatten(init, lists)|),
                           wireframe);
    }
  }

  /** Instance calls load no material uniforms. */
  lemma {:induction false} ListNoMaterial(pass: Pass, model: TexturedModel, list: seq<Entity>, first: int)
    ensures LoadsWireframe(ListEvents(pass, model, list, first), false)
    ensures LoadsWireframe(ListEvents(pass, model, list, first), true)
  {
    if |list| > 0 {
      ListNoMaterial(pass, model, list[..|list| - 1], first);
      var init := ListEvents(pass, model, list[..|list| - 1], first);
      var last := InstanceEvents(pass, list[|list| - 1], model, (first + |list| - 1) as real);
      LoadsWireframeAppend(init, last, false);
      LoadsWireframeAppend(init, last, true);
    }
  }

  /** The picking pass prepares every group with wireframe off. */
  lemma PickingWithoutWireframe(b: Batch)
    requires WellFormed(b)
    ensures forall i | 0 <= i < |PickingTrace(b)| :: PickingTrace(b)[i].LoadWireframe? ==> !PickingTrace(b)[i].on
  {
    GroupWireframe(Pick, false, b.order, b.lists, 1);
    LoadsWireframeAppend([LoadObjectIndex(0.0)], GroupEvents(Pick, false, b.order, b.lists, 1), false);
  }

  /** The instance calls for one more element of `list`. */
  lemma ListEventsStep(pass: Pass, model: TexturedModel, list: seq<Entity>, j: nat, first: int)
    requires j < |list|
    ensures ListEvents(pass, model, list[..j + 1], first) ==
            ListEvents(pass, model, list[..j], first) + InstanceEvents(pass, list[j], model, (first + j) as real)
  {
    assert list[..j + 1][..j] == list[..j];
  }

  /** The calls for one more group of `order`. */
  lemma GroupEventsStep(pass: Pass, wireframe: bool, order: seq<TexturedModel>,
                        lists: map<TexturedModel, seq<Entity>>, g: nat, first: int)
    requires Covers(order, lists) && g < |order|
    ensures Covers(order[..g + 1], lists) && Covers(order[..g], lists)
    ensures GroupEvents(pass, wireframe, order[..g + 1], lists, first) ==
            GroupEvents(pass, wireframe, order[..g], lists, first)
            + GroupCalls(pass, wireframe, order[g], lists[order[g]], first + |Flatten(order[..g], lists)|)
  {
    assert order[..g + 1][..g] == order[..g];
    GroupEventsUnfold(pass, wireframe, order[..g + 1], lists, first);
    GroupPassCount(pass, wireframe, order[..g], lists, first);
  }

  /** Regrouping calls appended one after another. */
  lemma AppendEvents(t: seq<GlEvent>, a: seq<GlEvent>, b: seq<GlEvent>)
    ensures t + a + b == t + (a + b)
  {
  }

  /** Regrouping the calls of one more group after a trace. */
  lemma AppendGroup(t: seq<GlEvent>, g: seq<GlEvent>, pass: Pass, wireframe: bool, model: TexturedModel,
                    list: seq<Entity>, first: int)
    ensures t + g + PrepareEvents(model, wireframe) + ListEvents(pass, model, list, first) + UnbindEvents
            == t + (g + GroupCalls(pass, wireframe, model, list, first))
  {
  }

  /** The renderer's only state is the trace of what it sent to OpenGL. */
  class EntityRenderer {
    var trace: seq<GlEvent>

    constructor ()
      ensures trace == []
    {
      trace := [];
    }

    method PrepareTexturedModel(model: TexturedModel, wireframe: bool)
      modifies this
      ensures trace == old(trace) + PrepareEvents(model, wireframe)
    {
      var t := model.texture;
      trace := trace + [BindVertexArray(model.vaoId), EnableAttribute(PositionAttribute),
                        EnableAttribute(TextureCoordAttribute), EnableAttribute(NormalsAttribute)];
      trace := trace + [LoadTextureRows(t.numberOfRows)];
      if t.hasTransparency {
        trace := trace + [Culling(false)];
      }
      trace := trace + [LoadWireframe(wireframe), LoadFakeLighting(t.useFakeLighting),
                        LoadShine(t.shineDamper, t.reflectivity), ActiveTexture0, BindTexture(t.textureId)];
    }

    method UnbindTexturedModel()
      modifies this
      ensures trace == old(trace) + UnbindEvents
    {
      trace := trace + UnbindEvents;
    }

    /** Loads the transform of `entity` and its texture atlas offset into the static shader. */
    method PrepareNormalInstance(entity: Entity)
      modifies this
      ensures trace == old(trace) + [LoadTransform(StaticShader, entity), LoadTextureOffset(entity)]
    {
      trace := trace + [LoadTransform(StaticShader, entity)];
      trace := trace + [LoadTextureOffset(entity)];
    }

    /** Loads the transform of `entity` into the flat shader. */
    method PrepareFlatShadingInstance(entity: Entity)
      modifies this
      ensures trace == old(trace) + [LoadTransform(FlatShader, entity)]
    {
      trace := trace + [LoadTransform(FlatShader, entity)];
    }

    /** Loads the transform of `entity` into the picking shader. */
    method PreparePickingInstance(entity: Entity)
      modifies this
      ensures trace == old(trace) + [LoadTransform(PickingShader, entity)]
    {
      trace := trace + [LoadTransform(PickingShader, entity)];
    }

    /**
     * The inner loop of `render`: the instance calls for the entities `ent`
     * of `model`, with the flat or the static shader.
     */
    method RenderInstances(model: TexturedModel, ent: seq<Entity>, flat: bool, ghost first: int)
      modifies this
      ensures trace == old(trace) + ListEvents(if flat then Flat else Normal, model, ent, first)
    {
      ghost var pass := if flat then Flat else Normal;
      var j := 0;
      while j < |ent|
        invariant 0 <= j <= |ent|
        invariant trace == old(trace) + ListEvents(pass, model, ent[..j], first)
      {
        ghost var listed := trace;
        var entity := ent[j];
        if !flat {
          PrepareNormalInstance(entity);
        } else {
          PrepareFlatShadingInstance(entity);
        }
        trace := trace + [DrawElements(model.vertexCount)];
        assert trace == listed + InstanceEvents(pass, entity, model, (first + j) as real);
        ListEventsStep(pass, model, ent, j, first);
        AppendEvents(old(trace), ListEvents(pass, model, ent[..j], first),
                     InstanceEvents(pass, entity, model, (first + j) as real));
        j := j + 1;
      }
      assert ent[..j] == ent;
    }

    /**
     * The inner loop of `renderForPicking`: each entity of `ent` gets the
     * object index `i`, which then goes up by one; the index after the last
     * entity is returned.
     */
    method RenderPickingInstances(model: TexturedModel, ent: seq<Entity>, i: real, ghost first: int)
      returns (next: real)
      requires i == first as real
      modifies this
      ensures trace == old(trace) + ListEvents(Pick, model, ent, first)
      ensures next == (first + |ent|) as real
    {
      next := i;
      var j := 0;
      while j < |ent|
        invariant 0 <= j <= |ent|
        invariant trace == old(trace) + ListEvents(Pick, model, ent[..j], first)
        invariant next == (first + j) as real
      {
        ghost var listed := trace;
        var entity := ent[j];
        trace := trace + [LoadObjectIndex(next)];
        next := next + 1.0;
        PreparePickingInstance(entity);
        trace := trace + [DrawElements(model.vertexCount)];
        assert trace == listed + InstanceEvents(Pick, entity, model, (first + j) as real);
        ListEventsStep(Pick, model, ent, j, first);
        AppendEvents(old(trace), ListEvents(Pick, model, ent[..j], first),
                     InstanceEvents(Pick, entity, model, (first + j) as real));
        j := j + 1;
      }
      assert ent[..j] == ent;
    }

    /** Draws every group of `entities`, with the flat or the static shader. */
    method Render(entities: EntityBatch, flat: bool, wireframe: bool)
      requires entities.Valid()
      modifies this
      ensures trace == old(trace) + RenderTrace(entities.Value(), flat, wireframe)
    {
      ghost var pass := if flat then Flat else Normal;
      var order, lists := entities.order, entities.lists;
      var g := 0;
      while g < |order|
        invariant 0 <= g <= |order| && Covers(order[..g], lists)
        invariant trace == old(trace) + GroupEvents(pass, wireframe, order[..g], lists, 1)
      {
        ghost var start := 1 + |Flatten(order[..g], lists)|;
        var model := order[g];
        PrepareTexturedModel(model, wireframe);
        var ent := lists[model];
        RenderInstances(model, ent, flat, start);
        UnbindTexturedModel();
        GroupEventsStep(pass, wireframe, order, lists, g, 1);
        AppendGroup(old(trace), GroupEvents(pass, wireframe, order[..g], lists, 1),
                    pass, wireframe, model, ent, start);
        g := g + 1;
      }
      assert order[..g] == order;
    }

    /** Draws every group of `entities` with the picking shader, numbering the instances from 1. */
    method RenderForPicking(entities: EntityBatch)
      requires entities.Valid()
      modifies this
      ensures trace == old(trace) + PickingTrace(entities.Value())
    {
      var i: real := 1.0;
      trace := trace + [LoadObjectIndex(0.0)];
      ghost var loaded := trace;
      var order, lists := entities.order, entities.lists;
      var g := 0;
      while g < |order|
        invariant 0 <= g <= |order| && Covers(order[..g], lists)
        invariant trace == loaded + GroupEvents(Pick, false, order[..g], lists, 1)
        invariant i == (1 + |Flatten(order[..g], lists)|) as real
      {
        ghost var start := 1 + |Flatten(order[..g], lists)|;
        var model := order[g];
        PrepareTexturedModel(model, false);
        var ent := lists[model];
        i := RenderPickingInstances(model, ent, i, start);
        UnbindTexturedModel();
        GroupEventsStep(Pick, false, order, lists, g, 1);
        FlattenStep(order, lists, g);
        AppendGroup(loaded, GroupEvents(Pick, false, order[..g], lists, 1),
                    Pick, false, model, ent, start);
        g := g + 1;
      }
      assert order[..g] == order;
      AppendEvents(old(trace), [LoadObjectIndex(0.0)], GroupEvents(Pick, false, order, lists, 1));
    }
  }
}
