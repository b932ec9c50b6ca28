/**
 * The records of the tracer: entity ids, spheres, planes, materials, lights,
 * hit records (src/scene.h, src/material.h, src/light.h, src/ray.h) and a
 * read-only snapshot of a scene, which is what rendering queries.
 */
module Entities {
  import opened Geometry

  /** EntityId is an unsigned short. */
  newtype EntityId = n: int | 0 <= n < 0x1_0000

  const NULL_ENTITY: EntityId := 0

  /** `next_entity_id++` on an unsigned short: wraps from 65535 to 0. */
  function NextId(id: EntityId): EntityId {
    if id == 0xFFFF then 0 else id + 1
  }

  datatype Sphere = Sphere(id: EntityId, position: Vec3, radius: real)

  /** A plane through `position`; `width`/`height` bound it along bi-tangent/tangent. */
  datatype Plane = Plane(
    id: EntityId,
    position: Vec3,
    normal: Vec3,
    tangent: Vec3,
    biTangent: Vec3,
    width: real,
    height: real)

  /**
   * The tagged material. The source's tag enum names the first tag kAmbient
   * while the integrator tests for kUnlit; both denote the unshaded variant.
   */
  datatype Material =
    | Unlit(color: Vec3)
    | BlinnPhong(color: Vec3, diffuseIntensity: real, specularIntensity: real, shininess: real)

  datatype DirectionalLight = DirectionalLight(direction: Vec3, color: Vec3, intensity: real)

  datatype AreaLight = AreaLight(
    color: Vec3,
    intensity: real,
    uSamples: nat,
    vSamples: nat,
    maxRandomOffset: real)

  /** The transient result of a nearest-hit query; the normal opposes the ray. */
  datatype HitRecord = HitRecord(
    entityId: EntityId,
    distance: real,
    position: Vec3,
    normal: Vec3,
    frontFacing: bool,
    material: Material)

  /** The contents of a Scene, as rendering sees them (const Scene &). */
  datatype SceneView = SceneView(
    spheres: seq<Sphere>,
    sphereMaterials: seq<Material>,
    planes: seq<Plane>,
    planeMaterials: seq<Material>,
    directionalLights: seq<DirectionalLight>,
    areaLights: seq<Plane>,
    areaLightData: seq<AreaLight>)

  /** Geometry and materials are index-aligned parallel collections. */
  predicate Aligned(v: SceneView) {
    && |v.spheres| == |v.sphereMaterials|
    && |v.planes| == |v.planeMaterials|
  }

  /** The scene invariant: aligned collections, and every area light is also a plane. */
  predicate WellFormed(v: SceneView) {
    && Aligned(v)
    && |v.areaLights| == |v.areaLightData|
    && (forall k :: 0 <= k < |v.areaLights| ==> v.areaLights[k] in v.planes)
  }

  /** What the integrator needs: a well-formed scene whose area lights take at least one sample per axis. */
  predicate Renderable(v: SceneView) {
    && WellFormed(v)
    && (forall k :: 0 <= k < |v.areaLightData| ==> v.areaLightData[k].uSamples > 0 && v.areaLightData[k].vSamples > 0)
  }
}
