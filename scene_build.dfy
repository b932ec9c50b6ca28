/**
 * Scene construction (src/scene.h): a Scene owns index-aligned parallel
 * collections and hands out 16-bit entity ids from a counter that starts at 1.
 */
module SceneBuild {
  import opened Geometry
  import opened Entities

  /** `objects` in order, the i-th carrying id `start + i` (16-bit, wrapping). */
  function WithIds(objects: seq<Plane>, start: EntityId): (r: seq<Plane>)
    ensures |r| == |objects|
    decreases |objects|
  {
    if objects == [] then []
    else [objects[0].(id := start)] + WithIds(objects[1..], NextId(start))
  }

  /** The counter after `n` increments. */
  function AdvanceId(start: EntityId, n: nat): EntityId
    decreases n
  {
    if n == 0 then start else AdvanceId(NextId(start), n - 1)
  }

  class Scene {
    var nextEntityId: EntityId
    var spheres: seq<Sphere>
    var sphereMaterials: seq<Material>
    var planes: seq<Plane>
    var planeMaterials: seq<Material>
    var directionalLights: seq<DirectionalLight>
    var areaLights: seq<Plane>
    var areaLightData: seq<AreaLight>

    /** The contents as the renderer reads them. */
    function View(): SceneView
      reads this
    {
      SceneView(spheres, sphereMaterials, planes, planeMaterials, directionalLights, areaLights, areaLightData)
    }

    predicate Valid()
      reads this
    {
      WellFormed(View())
    }

    /**
     * Ids are non-zero, below the counter, allocated in increasing order within
     * each collection, and never shared between a sphere and a plane.
     */
    predicate IdsFresh()
      reads this
    {
      && NULL_ENTITY < nextEntityId
      && (forall i :: 0 <= i < |spheres| ==> NULL_ENTITY < spheres[i].id < nextEntityId)
      && (forall i :: 0 <= i < |planes| ==> NULL_ENTITY < planes[i].id < nextEntityId)
      && (forall i, j :: 0 <= i < j < |spheres| ==> spheres[i].id < spheres[j].id)
      && (forall i, j :: 0 <= i < j < |planes| ==> planes[i].id < planes[j].id)
      && (forall i, j :: 0 <= i < |spheres| && 0 <= j < |planes| ==> spheres[i].id != planes[j].id)
    }

    constructor ()
      ensures Valid() && IdsFresh()
      ensures nextEntityId == 1
      ensures spheres == [] && sphereMaterials == [] && planes == [] && planeMaterials == []
      ensures directionalLights == [] && areaLights == [] && areaLightData == []
    {
      nextEntityId := 1;
      spheres, sphereMaterials := [], [];
      planes, planeMaterials := [], [];
      directionalLights := [];
      areaLights, areaLightData := [], [];
    }

    /** add_sphere: the sphere gets the current counter value as its id. */
    method AddSphere(obj: Sphere, material: Material) returns (id: EntityId)
      requires Valid()
      modifies this
      ensures Valid()
      ensures id == old(nextEntityId) && nextEntityId == NextId(old(nextEntityId))
      ensures spheres == old(spheres) + [obj.(id := id)]
      ensures sphereMaterials == old(sphereMaterials) + [material]
      ensures planes == old(planes) && planeMaterials == old(planeMaterials)
      ensures directionalLights == old(directionalLights)
      ensures areaLights == old(areaLights) && areaLightData == old(areaLightData)
      ensures old(IdsFresh()) && old(nextEntityId) < 0xFFFF ==> IdsFresh()
    {
      id := nextEntityId;
      nextEntityId := NextId(nextEntityId);
      spheres := spheres + [obj.(id := id)];
      sphereMaterials := sphereMaterials + [material];
    }

    /** add_plane: the plane gets the current counter value as its id. */
    method AddPlane(material: Material, obj: Plane) returns (id: EntityId)
      requires Valid()
      modifies this
      ensures Valid()
      ensures id == old(nextEntityId) && nextEntityId == NextId(old(nextEntityId))
      ensures planes == old(planes) + [obj.(id := id)]
      ensures planeMaterials == old(planeMaterials) + [material]
      ensures spheres == old(spheres) && sphereMaterials == old(sphereMaterials)
      ensures directionalLights == old(directionalLights)
      ensures areaLights == old(areaLights) && areaLightData == old(areaLightData)
      ensures old(IdsFresh()) && old(nextEntityId) < 0xFFFF ==> IdsFresh()
    {
      id := nextEntityId;
      nextEntityId := NextId(nextEntityId);
      planes := planes + [obj.(id := id)];
      planeMaterials := planeMaterials + [material];
    }

    /** add_planes: every plane in order, all with the same material. */
    method AddPlanes(material: Material, objects: seq<Plane>)
      requires Valid()
      modifies this
      ensures Valid()
      ensures planes == old(planes) + WithIds(objects, old(nextEntityId))
      ensures planeMaterials == old(planeMaterials) + seq(|objects|, _ => material)
      ensures nextEntityId == AdvanceId(old(nextEntityId), |objects|)
      ensures spheres == old(spheres) && sphereMaterials == old(sphereMaterials)
      ensures directionalLights == old(directionalLights)
      ensures areaLights == old(areaLights) && areaLightData == old(areaLightData)
      ensures old(IdsFresh()) && old(nextEntityId) as int + |objects| < 0x1_0000 ==> IdsFresh()
    {
      ghost var start := nextEntityId;
      ghost var fresh0 := IdsFresh();
      for i := 0 to |objects|
        invariant Valid()
        invariant planes == old(planes) + WithIds(objects, start)[..i]
        invariant planeMaterials == old(planeMaterials) + seq(i, _ => material)
        invariant nextEntityId == AdvanceId(start, i)
        invariant spheres == old(spheres) && sphereMaterials == old(sphereMaterials)
        invariant directionalLights == old(directionalLights)
        invariant areaLights == old(areaLights) && areaLightData == old(areaLightData)
        invariant fresh0 && start as int + |objects| < 0x1_0000 ==>
                    IdsFresh() && nextEntityId as int == start as int + i
      {
        WithIdsAt(objects, start, i);
        AdvanceIdStep(start, i);
        var _ := AddPlane(material, objects[i]);
        assert WithIds(objects, start)[..i + 1] == WithIds(objects, start)[..i] + [WithIds(objects, start)[i]];
      }
      assert WithIds(objects, start)[..|objects|] == WithIds(objects, start);
    }

    /**
     * add_area_light: the light's plane is added as ordinary geometry with the
     * invisible material, and the same plane (with the id just handed out) is
     * recorded with the light's data. make_mat_invisible is foreign, so its
     * result is a parameter.
     */
    method AddAreaLight(light: AreaLight, obj: Plane, invisible: Material)
      requires Valid()
      modifies this
      ensures Valid()
      ensures nextEntityId == NextId(old(nextEntityId))
      ensures planes == old(planes) + [obj.(id := old(nextEntityId))]
      ensures planeMaterials == old(planeMaterials) + [invisible]
      ensures areaLights == old(areaLights) + [obj.(id := old(nextEntityId))]
      ensures areaLightData == old(areaLightData) + [light]
      ensures spheres == old(spheres) && sphereMaterials == old(sphereMaterials)
      ensures directionalLights == old(directionalLights)
      ensures old(IdsFresh()) && old(nextEntityId) < 0xFFFF ==> IdsFresh()
    {
      var id := AddPlane(invisible, obj);
      areaLights := areaLights + [obj.(id := id)];
      areaLightData := areaLightData + [light];
      assert areaLights[|areaLights| - 1] == planes[|planes| - 1];
    }
  }

  lemma {:induction false} WithIdsAt(objects: seq<Plane>, start: EntityId, i: nat)
    requires i < |objects|
    ensures WithIds(objects, start)[i] == objects[i].(id := AdvanceId(start, i))
    decreases i
  {
    if i > 0 {
      WithIdsAt(objects[1..], NextId(start), i - 1);
    }
  }

  lemma {:induction false} AdvanceIdStep(start: EntityId, n: nat)
    ensures AdvanceId(start, n + 1) == NextId(AdvanceId(start, n))
    ensures start as int + n < 0x1_0000 ==> AdvanceId(start, n) as int == start as int + n
    decreases n
  {
    if n > 0 {
      AdvanceIdStep(NextId(start), n - 1);
    }
  }

}
