/**
 * `render.Render`: collects the entities of a frame grouped by model and,
 * when the frame is drawn, hands the whole map to the entity renderer and
 * empties it.
 */
module Rendering {
  import opened Common
  import opened Entities
  import opened Lights
  import opened Batching
  import opened GlCodeResources

  class Render {
    var entityMap: EntityBatch

    ghost predicate Valid()
      reads this, entityMap
    {
      entityMap.Valid()
    }

    /** Starts with an empty render list. */
    constructor ()
      ensures Valid() && fresh(entityMap) && entityMap.Value() == EmptyBatch
    {
      entityMap := new EntityBatch();
    }

    /**
     * Files `entity` under the model it has now, creating that model's list
     * on first use, and appends it there.
     */
    method ProcessEntity(entity: Entity)
      requires Valid()
      modifies entityMap
      ensures Valid()
      ensures entityMap.Value() == WithEntity(old(entityMap.Value()), entity, entity.model)
    {
      var model := entity.model;
      var entList := entityMap.Get(model);
      var list: seq<Entity>;
      if entList.None? {
        entityMap.Put(model, []);
        list := [];
      } else {
        list := entList.value;
      }
      entityMap.Put(model, list + [entity]);
    }

    /**
     * Draws a frame: loads the first light, then the active camera, draws
     * every collected instance, and clears the list. A missing light throws
     * before anything is loaded; an out-of-range camera index throws after
     * the light has been loaded. In both cases nothing is drawn and the list
     * is kept.
     */
    method Render<C>(res: RenderResources<C>)
      returns (o: Outcome, loadedLight: Option<Light>, loadedCamera: Option<C>, drawn: seq<Entity>)
      requires Valid()
      modifies entityMap
      ensures Valid()
      ensures o.Done? <==> |res.lightList| > 0 && 0 <= res.currentCamera < |res.cameraList|
      ensures loadedLight == if |res.lightList| > 0 then Some(res.lightList[0]) else None
      ensures o.Done? ==> && loadedCamera == Some(res.cameraList[res.currentCamera])
                          && drawn == Instances(old(entityMap.Value()))
                          && entityMap.Value() == EmptyBatch
      ensures o.Thrown? ==> && o.error == IndexOutOfBounds && loadedCamera == None && drawn == []
                            && entityMap.Value() == old(entityMap.Value())
    {
      var lights := res.GetLightList();
      if |lights| == 0 {
        return Thrown(IndexOutOfBounds), None, None, [];
      }
      loadedLight := Some(lights[0]);
      var cam := res.GetActiveCamera();
      if cam.Err? {
        return Thrown(cam.error), loadedLight, None, [];
      }
      loadedCamera := Some(cam.value);
      drawn := Instances(entityMap.Value());
      entityMap.Clear();
      o := Done;
    }
  }
}
