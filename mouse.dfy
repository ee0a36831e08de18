/**
 * `callbacks.MouseButtonCallback`: a left click reads the picking sample
 * under the cursor and runs the action of the entity drawn there. The
 * sample's object number `k` names entity `k - 1` of the previous frame's
 * render list, counted over the lists in the map's iteration order; 0 is the
 * background.
 *
 * The cursor position (GLFW) and the picking texture are parameters.
 */
module MouseCallbacks {
  import opened Common
  import opened Entities
  import opened Batching
  import opened Picking
  import opened GlStartResources
  import opened EntityRendering

  /** `GLFW_MOUSE_BUTTON_LEFT`. */
  const MouseButtonLeft: int := 0
  /** `GLFW_PRESS`. */
  const Press: int := 1

  /** The entity object number `objId` names among the instances of a pass, or none. */
  function EntityAt(instances: seq<Entity>, objId: int): Option<Entity> {
    if 1 <= objId <= |instances| then Some(instances[objId - 1]) else None
  }

  /** The background number 0, and every number past the last instance, name no entity. */
  lemma EntityAtOutside(instances: seq<Entity>, objId: int)
    requires objId <= 0 || objId > |instances|
    ensures EntityAt(instances, objId) == None
  {
  }

  /**
   * Numbering and lookup are inverse: the n-th draw of the picking pass
   * draws instance n with object number n + 1, and looking that number up
   * again in the same, unchanged map gives back instance n.
   */
  lemma PickedNumberNamesDrawnEntity(b: Batch, s: ScanState, n: nat)
    requires WellFormed(b) && s.culling && n < |Instances(b)|
    ensures |Scan(s, PickingTrace(b)).draws| == |s.draws| + |Instances(b)|
    ensures var d := Scan(s, PickingTrace(b)).draws[|s.draws| + n];
            && d.transform == Some((PickingShader, Instances(b)[n]))
            && EntityAt(Instances(b), JavaIntCast(d.objectIndex)) == Some(Instances(b)[n])
  {
    PickingNumbersInstances(b, s);
    var r := Scan(s, PickingTrace(b));
    var k := InstanceKeys(b)[n];
    assert r.draws[|s.draws| + n] ==
           DrawRecord((n + 1) as real, Some((PickingShader, Instances(b)[n])), s.offset,
                      !k.texture.hasTransparency, k.vertexCount);
    assert JavaIntCast((n + 1) as real) == n + 1;
  }

  /**
   * Conversely, every number the lookup resolves was loaded before exactly
   * one draw of the picking pass, the one drawing the entity it resolves to.
   */
  lemma LookedUpNumberWasDrawn(b: Batch, s: ScanState, k: int)
    requires WellFormed(b) && s.culling && EntityAt(Instances(b), k).Some?
    ensures 1 <= k <= |Instances(b)|
    ensures |Scan(s, PickingTrace(b)).draws| == |s.draws| + |Instances(b)|
    ensures var drawn := Scan(s, PickingTrace(b)).draws[|s.draws|..];
            && |drawn| == |Instances(b)|
            && drawn[k - 1].objectIndex == k as real
            && drawn[k - 1].transform == Some((PickingShader, EntityAt(Instances(b), k).value))
            && (forall n | 0 <= n < |drawn| && n != k - 1 :: drawn[n].objectIndex != k as real)
  {
    PickingNumbersInstances(b, s);
    var r := Scan(s, PickingTrace(b));
    var drawn := r.draws[|s.draws|..];
    forall n | 0 <= n < |drawn|
      ensures drawn[n].objectIndex == (n + 1) as real
    {
      var key := InstanceKeys(b)[n];
      assert drawn[n] == r.draws[|s.draws| + n] ==
             DrawRecord((n + 1) as real, Some((PickingShader, Instances(b)[n])), s.offset,
                        !key.texture.hasTransparency, key.vertexCount);
    }
    var key := InstanceKeys(b)[k - 1];
    assert drawn[k - 1] == r.draws[|s.draws| + (k - 1)] ==
           DrawRecord(k as real, Some((PickingShader, Instances(b)[k - 1])), s.offset,
                      !key.texture.hasTransparency, key.vertexCount);
  }

  /**
   * The loop of `getEntityById`: walks the lists in key order, subtracting
   * each list's length from `n` until `n` falls inside a list; the result is
   * instance `n` of the pass, or none when `n` is negative or past the last
   * instance.
   */
  method FindInstance(order: seq<TexturedModel>, lists: map<TexturedModel, seq<Entity>>, n: int)
    returns (target: Option<Entity>)
    requires Covers(order, lists)
    ensures target == if 0 <= n < |Flatten(order, lists)| then Some(Flatten(order, lists)[n]) else None
  {
    var objId := n;
    target := None;
    var g := 0;
    while g < |order| && objId >= 0
      invariant 0 <= g <= |order|
      invariant Covers(order[..g], lists)
      invariant objId == n - |Flatten(order[..g], lists)|
      invariant objId < 0 ==> g == 0
      invariant target == None
    {
      var l := lists[order[g]];
      FlattenStep(order, lists, g);
      if objId < |l| {
        target := Some(l[objId]);
        FlattenPrefix(order, lists, g + 1);
        assert Flatten(order, lists)[n] == Flatten(order[..g + 1], lists)[n];
        return;
      }
      objId := objId - |l|;
      g := g + 1;
    }
    if objId >= 0 {
      assert order[..g] == order;
    }
  }

  class MouseButtonCallback<C(==)> {
    const res: RenderResources<C>
    /** The picking engine; its fields are static in the source. */
    const engine: PickingEngine
    /** The last cursor position read. */
    var vectorBuffer: Vec2

    constructor (res: RenderResources<C>, engine: PickingEngine)
      ensures this.res == res && this.engine == engine
      ensures vectorBuffer == Vec2(0.0, 0.0)
    {
      this.res := res;
      this.engine := engine;
      vectorBuffer := Vec2(0.0, 0.0);
    }

    /**
     * Walks the lists of the last-used map, taking each list's size off the
     * 0-based index until the index falls inside a list. A null pick throws;
     * otherwise the result is the entity `EntityAt` names in that map.
     */
    method GetEntityById(pick: Option<PickedPixel>) returns (r: Result<Option<Entity>>)
      requires res.Valid()
      ensures pick.None? <==> r.Err?
      ensures r.Err? ==> r.error == NullPointer
      ensures pick.Some? ==>
                r == Ok(EntityAt(Instances(res.entityBuffers[1].Value()), JavaIntCast(pick.value.objectId)))
    {
      if pick.None? {
        return Err(NullPointer);
      }
      var objId := JavaIntCast(pick.value.objectId);
      if objId == 0 {
        return Ok(None);
      }
      var entityMap := res.GetLastUsedEntityBuffer();
      var target := FindInstance(entityMap.order, entityMap.lists, objId - 1);
      r := Ok(target);
    }

    /**
     * A left-button press reads the cursor, picks the pixel under it, looks
     * the sample up and runs the entity's action; any other button or action
     * does nothing. An incomplete picking framebuffer yields a null pick,
     * and the lookup then throws.
     */
    method Invoke(window: int, button: int, action: int, cursor: Vec2, complete: bool, texels: Texels)
      returns (o: Outcome, calls: seq<Invocation>)
      requires res.Valid()
      modifies this, engine
      ensures !(button == MouseButtonLeft && action == Press) ==>
                && o == Done && calls == []
                && vectorBuffer == old(vectorBuffer) && engine.State() == old(engine.State())
      ensures button == MouseButtonLeft && action == Press ==> vectorBuffer == cursor
      ensures button == MouseButtonLeft && action == Press && !complete ==>
                o == Thrown(NullPointer) && calls == [] && engine.State() == old(engine.State())
      ensures button == MouseButtonLeft && action == Press && complete ==>
                var t := texels(JavaIntCast(cursor.x), FlipY(old(engine.height), JavaIntCast(cursor.y)));
                var hit := EntityAt(Instances(res.entityBuffers[1].Value()), JavaIntCast(t.x));
                && o == Done
                && (hit.None? ==> calls == [])
                && (hit.Some? ==> calls == if hit.value.callback.Some?
                                           then [Invocation(hit.value.callback.value, hit.value)]
                                           else [])
                && engine.State() == old(engine.State()).(readFramebuffer := 0, readSource := NoBuffer)
    {
      o, calls := Done, [];
      if button == MouseButtonLeft && action == Press {
        vectorBuffer := cursor;
        var pick := engine.ReadPixel(JavaIntCast(vectorBuffer.x), JavaIntCast(vectorBuffer.y), complete, texels);
        var e := GetEntityById(pick);
        if e.Err? {
          return Thrown(e.error), [];
        }
        if e.value.Some? {
          calls := e.value.value.DoAction();
        }
      }
    }
  }
}
