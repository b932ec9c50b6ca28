/**
 * The shading integrator (src/ray.cpp): the decisions ray_color takes, the
 * Blinn-Phong gating and the material dispatch. Radiometric values are
 * computed over the reals with the helpers of `Maths`; only the control
 * structure is reasoned about.
 */
module Integrator {
  import opened Wrappers
  import opened Geometry
  import opened Entities
  import opened Intersect

  /**
   * What one shading call sees: camera.position, the scene, the numeric
   * helpers, the draw stream and `trace`, the scene's hit_scene query.
   */
  datatype Context = Context(eye: Vec3, scene: SceneView, env: Maths, rand: nat -> real, trace: Ray -> Option<HitRecord>)

  /** The context's query is hit_scene against its own renderable scene. */
  ghost predicate Traces(ctx: Context) {
    && Renderable(ctx.scene)
    && forall r :: ctx.trace(r) == HitScene(r, ctx.scene, ctx.env)
  }

  /** The context of a render: the query is hit_scene on `scene`. */
  function MakeContext(eye: Vec3, scene: SceneView, env: Maths, rand: nat -> real): (ctx: Context)
    requires Renderable(scene)
    ensures Traces(ctx)
    ensures ctx.eye == eye && ctx.scene == scene && ctx.env == env && ctx.rand == rand
  {
    Context(eye, scene, env, rand, r => HitScene(r, scene, env))
  }

  /** dot(N, L) must exceed this before a specular term is computed. */
  const SPECULAR_THRESHOLD: real := 0.001

  /** The uniform-hemisphere density 1 / (2 PI). */
  const HEMISPHERE_PDF: real := 1.0 / (2.0 * PI)

  // ------------------------------------------------------------- the BRDF

  /**
   * The (diffuse, specular) factors of blinn_phong: the diffuse factor is
   * dot(N, L) clamped to [0,1] and scaled; specular is zero unless the
   * material is shiny and the light is above the threshold.
   */
  function BlinnPhongFactors(hit: HitRecord, eye: Vec3, toLight: Vec3, env: Maths): (r: (real, real))
    requires hit.material.BlinnPhong?
    ensures hit.material.diffuseIntensity >= 0.0 ==> 0.0 <= r.0 <= hit.material.diffuseIntensity
    ensures !(hit.material.shininess > 0.0 && Dot(hit.normal, toLight) > SPECULAR_THRESHOLD) ==> r.1 == 0.0
  {
    var mat := hit.material;
    var dotNormal := Dot(hit.normal, toLight);
    var diffuse := DiffuseFactor(dotNormal, mat.diffuseIntensity);
    var specular :=
      if mat.shininess > 0.0 && dotNormal > SPECULAR_THRESHOLD then
        var toCam := env.normalize(Sub(eye, hit.position));
        var halfWay := env.normalize(Add(toLight, toCam));
        env.pow(Max(Dot(hit.normal, halfWay), 0.0), mat.shininess) * mat.specularIntensity
      else 0.0;
    (diffuse, specular)
  }

  /** The diffuse factor: dot(N, L) clamped to [0,1], times the intensity. */
  function DiffuseFactor(dotNormal: real, intensity: real): (d: real)
    ensures intensity >= 0.0 ==> 0.0 <= d <= intensity
  {
    var cosine := Clamp(dotNormal, 0.0, 1.0);
    FractionBound(cosine, intensity);
    cosine * intensity
  }

  lemma FractionBound(c: real, k: real)
    requires 0.0 <= c <= 1.0
    ensures k >= 0.0 ==> 0.0 <= c * k <= k
  {
    if k >= 0.0 {
      assert (1.0 - c) * k >= 0.0;
    }
  }

  function BlinnPhongColor(hit: HitRecord, eye: Vec3, toLight: Vec3, env: Maths): Vec3
    requires hit.material.BlinnPhong?
  {
    var f := BlinnPhongFactors(hit, eye, toLight, env);
    Scale(hit.material.color, f.0 + f.1)
  }

  /** calc_surface_color: Blinn-Phong materials are shaded, every other material yields black. */
  function CalcSurfaceColor(hit: HitRecord, eye: Vec3, toLight: Vec3, env: Maths): (r: Vec3)
    ensures !hit.material.BlinnPhong? ==> r == Zero()
  {
    match hit.material
    case BlinnPhong(_, _, _, _) => BlinnPhongColor(hit, eye, toLight, env)
    case _ => Zero()
  }

  // ---------------------------------------------------- directional lights

  /** A directional light's term at a hit, or None when its shadow ray hits anything. */
  function DirectionalTerm(ctx: Context, hit: HitRecord, l: DirectionalLight): (r: Option<Vec3>)
    ensures r.None? <==> ctx.trace(SecondaryRay(hit.position, Neg(l.direction))).Some?
  {
    var toLight := Neg(l.direction);
    if ctx.trace(SecondaryRay(hit.position, toLight)).Some? then None
    else Some(Mul(Scale(l.color, l.intensity), CalcSurfaceColor(hit, ctx.eye, toLight, ctx.env)))
  }

  /** The directional loop's accumulation over `lights`, in order, skipping shadowed ones. */
  function DirectionalSum(ctx: Context, hit: HitRecord, lights: seq<DirectionalLight>): Vec3
    decreases |lights|
  {
    if lights == [] then Zero()
    else
      var acc := DirectionalSum(ctx, hit, lights[..|lights| - 1]);
      var term := DirectionalTerm(ctx, hit, lights[|lights| - 1]);
      if term.Some? then Add(acc, term.value) else acc
  }

  // ----------------------------------------------------------- area lights

  /** The jittered point of cell (u, v) on an area light's rectangle. */
  function SamplePoint(plane: Plane, data: AreaLight, u: nat, v: nat, ru: real, rv: real): Vec3
    requires data.uSamples > 0 && data.vSamples > 0
  {
    var uSize := plane.width / data.uSamples as real;
    var vSize := plane.height / data.vSamples as real;
    var corner := Sub(Sub(plane.position, Scale(plane.biTangent, plane.width * 0.5)), Scale(plane.tangent, plane.height * 0.5));
    var offsetX := (u as real + 0.5 + ru) * uSize;
    var offsetY := (v as real + 0.5 + rv) * vSize;
    Add(Add(corner, Scale(plane.biTangent, offsetX)), Scale(plane.tangent, offsetY))
  }

  /**
   * An area-light sample counts unless its direction leaves through the
   * emitter's back (dot > 0) or its shadow ray first hits a different entity.
   */
  predicate SampleAccepted(ctx: Context, hit: HitRecord, plane: Plane, dir: Vec3) {
    && !(Dot(dir, plane.normal) > 0.0)
    && var lightHit := ctx.trace(SecondaryRay(hit.position, dir));
       !(lightHit.Some? && lightHit.value.entityId != plane.id)
  }

  /** The sample of cell (u, v) drawing its two offsets at positions k and k + 1 of the stream. */
  function AreaSample(ctx: Context, hit: HitRecord, plane: Plane, data: AreaLight, u: nat, v: nat, k: nat): Option<Vec3>
    requires data.uSamples > 0 && data.vSamples > 0
  {
    var pos := SamplePoint(plane, data, u, v, ctx.rand(k), ctx.rand(k + 1));
    var dir := ctx.env.normalize(Sub(pos, hit.position));
    if SampleAccepted(ctx, hit, plane, dir) then Some(CalcSurfaceColor(hit, ctx.eye, dir, ctx.env)) else None
  }

  /** The positions (light i, row u) the area-light loops can stand at. */
  predicate InSweep(v: SceneView, i: nat, u: nat) {
    && i <= |v.areaLights| <= |v.areaLightData|
    && (i < |v.areaLights| ==> u <= v.areaLightData[i].uSamples)
  }

  /** A light's accumulated samples, tinted by its colour and intensity and averaged over its u*v cells. */
  function LightAverage(data: AreaLight, area: Vec3): Vec3
    requires data.uSamples > 0 && data.vSamples > 0
  {
    assert data.uSamples * data.vSamples > 0;
    Div(Mul(area, Scale(data.color, data.intensity)), (data.uSamples * data.vSamples) as real)
  }

  /**
   * The inner v loop of one row u of area light i, run from cell v at stream
   * position k with running sum `area`: the row's sum and the stream position
   * after it. Every cell draws twice, accepted or not.
   */
  function RowSweep(ctx: Context, hit: HitRecord, i: nat, u: nat, v: nat, k: nat, area: Vec3): (r: (Vec3, nat))
    requires Renderable(ctx.scene) && i < |ctx.scene.areaLights|
    requires u < ctx.scene.areaLightData[i].uSamples && v <= ctx.scene.areaLightData[i].vSamples
    ensures r.1 == k + 2 * (ctx.scene.areaLightData[i].vSamples - v)
    decreases ctx.scene.areaLightData[i].vSamples - v
  {
    var data := ctx.scene.areaLightData[i];
    if v == data.vSamples then (area, k)
    else
      var s := AreaSample(ctx, hit, ctx.scene.areaLights[i], data, u, v, k);
      RowSweep(ctx, hit, i, u, v + 1, k + 2, if s.Some? then Add(area, s.value) else area)
  }

  /**
   * The area-light loops of ray_color, run from light i, row u, stream
   * position k, with `area` the current light's running sum and `direct`
   * the direct colour so far: the direct colour once every light is done,
   * and the stream position then.
   */
  function AreaSweep(ctx: Context, hit: HitRecord, i: nat, u: nat, k: nat, area: Vec3, direct: Vec3): (r: (Vec3, nat))
    requires Renderable(ctx.scene) && InSweep(ctx.scene, i, u)
    ensures r.1 >= k
    decreases |ctx.scene.areaLights| - i,
              if i < |ctx.scene.areaLights| then ctx.scene.areaLightData[i].uSamples - u else 0
  {
    if i == |ctx.scene.areaLights| then (direct, k)
    else
      var data := ctx.scene.areaLightData[i];
      if u == data.uSamples then
        AreaSweep(ctx, hit, i + 1, 0, k, Zero(), Add(direct, LightAverage(data, area)))
      else
        var row := RowSweep(ctx, hit, i, u, 0, k, area);
        AreaSweep(ctx, hit, i, u + 1, row.1, row.0, direct)
  }

  // -------------------------------------------------------------- ray_color

  /** The rendering-equation estimate of one indirect sample (not reasoned about). */
  function IndirectTerm(albedo: Vec3, incoming: Vec3, cos0: real): Vec3 {
    Div(Scale(Mul(Div(albedo, PI), incoming), cos0), HEMISPHERE_PDF)
  }

  /** The light a surface sends back along a ray, before the final clamp. */
  function DirectLight(ctx: Context, h: HitRecord, cursor: nat): (Vec3, nat)
    requires Renderable(ctx.scene)
  {
    AreaSweep(ctx, h, 0, 0, cursor, Zero(), DirectionalSum(ctx, h, ctx.scene.directionalLights))
  }

  /**
   * What ray_color returns for `ray`, with the draw stream at position
   * `cursor`, together with the stream position afterwards.
   */
  function Radiance(ctx: Context, ray: Ray, maxDepth: int, cursor: nat): (r: (Vec3, nat))
    requires Renderable(ctx.scene)
    ensures r.1 >= cursor
    decreases maxDepth, 1
  {
    if maxDepth <= 0 then (Zero(), cursor)
    else
      var hit := ctx.trace(ray);
      if hit.None? || !hit.value.frontFacing then (Zero(), cursor)
      else
        var h := hit.value;
        if h.material.Unlit? then (h.material.color, cursor)
        else
          var direct := DirectLight(ctx, h, cursor);
          var indirect := Bounce(ctx, h, maxDepth, direct.1);
          (Clamp01(Add(direct.0, indirect.0)), indirect.1)
  }

  /**
   * The indirect term of a shaded hit whose direct lighting left the stream
   * at c1: above depth one, a hemisphere direction from draws c1 and c1 + 1
   * and the radiance coming back along it, weighted by cos / pdf.
   */
  function Bounce(ctx: Context, h: HitRecord, maxDepth: int, c1: nat): (r: (Vec3, nat))
    requires Renderable(ctx.scene)
    ensures r.1 >= c1
    decreases maxDepth, 0
  {
    if maxDepth > 1 then
      var dir := ctx.env.normalize(ctx.env.hemisphere(ctx.rand(c1), ctx.rand(c1 + 1), h.normal));
      var incoming := Radiance(ctx, SecondaryRay(h.position, dir), maxDepth - 1, c1 + 2);
      var cos0 := Max(0.0, Dot(h.normal, dir));
      (Add(Zero(), IndirectTerm(h.material.color, incoming.0, cos0)), incoming.1)
    else (Zero(), c1)
  }

  /** The directional-light loop of ray_color. */
  method DirectionalLighting(ctx: Context, h: HitRecord) returns (directColor: Vec3)
    ensures directColor == DirectionalSum(ctx, h, ctx.scene.directionalLights)
  {
    var lights := ctx.scene.directionalLights;
    directColor := Zero();
    for k := 0 to |lights|
      invariant directColor == DirectionalSum(ctx, h, lights[..k])
    {
      assert lights[..k + 1][..k] == lights[..k];
      var l := lights[k];
      var lightRay := SecondaryRay(h.position, Neg(l.direction));
      var lightHit := ctx.trace(lightRay);
      if lightHit.Some? {
        continue;
      }
      var surfaceColor := CalcSurfaceColor(h, ctx.eye, Neg(l.direction), ctx.env);
      directColor := Add(directColor, Mul(Scale(l.color, l.intensity), surfaceColor));
    }
    assert lights[..|lights|] == lights;
  }

  /** One stratified sample of an area light: two draws, then the back-face and shadow tests. */
  method TakeAreaSample(ctx: Context, h: HitRecord, plane: Plane, data: AreaLight, u: nat, v: nat, rng: Random)
      returns (sample: Option<Vec3>)
    requires data.uSamples > 0 && data.vSamples > 0
    requires rng.stream == ctx.rand
    modifies rng
    ensures sample == AreaSample(ctx, h, plane, data, u, v, old(rng.drawn))
    ensures rng.drawn == old(rng.drawn) + 2
  {
    var ru := rng.RandFloat();
    var rv := rng.RandFloat();
    var pos := SamplePoint(plane, data, u, v, ru, rv);
    var dir := ctx.env.normalize(Sub(pos, h.position));
    // the sample sees the emitter from behind
    if Dot(dir, plane.normal) > 0.0 {
      return None;
    }
    var lightHit := ctx.trace(SecondaryRay(h.position, dir));
    // something other than the emitter is in the way
    if lightHit.Some? && lightHit.value.entityId != plane.id {
      return None;
    }
    sample := Some(CalcSurfaceColor(h, ctx.eye, dir, ctx.env));
  }

  /** One row of an area light's grid: the samples (u, 0) .. (u, vSamples-1) added to `area`. */
  method SampleRow(ctx: Context, h: HitRecord, i: nat, u: nat, area: Vec3, rng: Random, ghost k: nat)
      returns (rowColor: Vec3)
    requires Renderable(ctx.scene) && i < |ctx.scene.areaLights| && u < ctx.scene.areaLightData[i].uSamples
    requires rng.stream == ctx.rand && rng.drawn == k
    modifies rng
    ensures (rowColor, rng.drawn) == RowSweep(ctx, h, i, u, 0, k, area)
  {
    var plane := ctx.scene.areaLights[i];
    var data := ctx.scene.areaLightData[i];
    rowColor := area;
    for v := 0 to data.vSamples
      invariant RowSweep(ctx, h, i, u, v, rng.drawn, rowColor) == RowSweep(ctx, h, i, u, 0, k, area)
    {
      var sample := TakeAreaSample(ctx, h, plane, data, u, v, rng);
      if sample.Some? {
        rowColor := Add(rowColor, sample.value);
      }
    }
  }

  /** One pass of ray_color's area-light loop: the averaged stratified samples of light i. */
  method AreaLighting(ctx: Context, h: HitRecord, i: nat, rng: Random, ghost k: nat, ghost direct: Vec3) returns (areaColor: Vec3)
    requires Renderable(ctx.scene) && i < |ctx.scene.areaLights|
    requires rng.stream == ctx.rand && rng.drawn == k
    modifies rng
    ensures AreaSweep(ctx, h, i + 1, 0, rng.drawn, Zero(), Add(direct, areaColor)) == AreaSweep(ctx, h, i, 0, k, Zero(), direct)
  {
    var data := ctx.scene.areaLightData[i];
    areaColor := Zero();
    for u := 0 to data.uSamples
      invariant AreaSweep(ctx, h, i, u, rng.drawn, areaColor, direct) == AreaSweep(ctx, h, i, 0, k, Zero(), direct)
    {
      areaColor := SampleRow(ctx, h, i, u, areaColor, rng, rng.drawn);
    }
    areaColor := LightAverage(data, areaColor);
  }

  /** The direct part of ray_color: every directional light, then every area light in order. */
  method DirectLighting(ctx: Context, h: HitRecord, rng: Random, ghost cursor: nat) returns (directColor: Vec3)
    requires Renderable(ctx.scene)
    requires rng.stream == ctx.rand && rng.drawn == cursor
    modifies rng
    ensures (directColor, rng.drawn) == DirectLight(ctx, h, cursor)
  {
    directColor := DirectionalLighting(ctx, h);
    for i := 0 to |ctx.scene.areaLights|
      invariant AreaSweep(ctx, h, i, 0, rng.drawn, Zero(), directColor) == DirectLight(ctx, h, cursor)
    {
      var areaColor := AreaLighting(ctx, h, i, rng, rng.drawn, directColor);
      directColor := Add(directColor, areaColor);
    }
  }

  /** The indirect-lighting block of ray_color: one bounce when depth allows. */
  method IndirectLighting(ctx: Context, h: HitRecord, rng: Random, maxDepth: int, ghost c1: nat) returns (indirectColor: Vec3)
    requires Renderable(ctx.scene) && rng.stream == ctx.rand && rng.drawn == c1
    modifies rng
    ensures (indirectColor, rng.drawn) == Bounce(ctx, h, maxDepth, c1)
    decreases maxDepth, 0
  {
    indirectColor := Zero();
    if maxDepth > 1 {
      var r1 := rng.RandFloat();
      var r2 := rng.RandFloat();
      var dir := ctx.env.normalize(ctx.env.hemisphere(r1, r2, h.normal));
      var indirect := RayColor(ctx, SecondaryRay(h.position, dir), rng, maxDepth - 1, c1 + 2);
      var cos0 := Max(0.0, Dot(h.normal, dir));
      indirectColor := Add(indirectColor, IndirectTerm(h.material.color, indirect, cos0));
    }
  }

  /**
   * ray_color: shade the nearest hit with every directional light, every area
   * light's stratified samples and, above depth one, one indirect bounce.
   */
  method RayColor(ctx: Context, ray: Ray, rng: Random, maxDepth: int, ghost cursor: nat) returns (color: Vec3)
    requires Renderable(ctx.scene) && rng.stream == ctx.rand && rng.drawn == cursor
    modifies rng
    ensures (color, rng.drawn) == Radiance(ctx, ray, maxDepth, cursor)
    decreases maxDepth, 1
  {
    if maxDepth <= 0 {
      return Zero();
    }
    var hit := ctx.trace(ray);
    if hit.None? || !hit.value.frontFacing {
      return Zero();
    }
    var h := hit.value;
    if h.material.Unlit? {
      return h.material.color;
    }
    var directColor := DirectLighting(ctx, h, rng, cursor);
    var indirectColor := IndirectLighting(ctx, h, rng, maxDepth, rng.drawn);
    color := Clamp01(Add(directColor, indirectColor));
  }

  // ------------------------------------------------------- ray_color laws

  /** ray_color's early exits: depth exhausted, a miss or a back face give black; unlit surfaces their own colour. */
  lemma RadianceEarlyExits(ctx: Context, ray: Ray, maxDepth: int, cursor: nat)
    requires Renderable(ctx.scene)
    ensures maxDepth <= 0 ==> Radiance(ctx, ray, maxDepth, cursor) == (Zero(), cursor)
    ensures var hit := ctx.trace(ray);
            maxDepth > 0 && (hit.None? || !hit.value.frontFacing) ==> Radiance(ctx, ray, maxDepth, cursor) == (Zero(), cursor)
    ensures var hit := ctx.trace(ray);
            maxDepth > 0 && hit.Some? && hit.value.frontFacing && hit.value.material.Unlit? ==>
              Radiance(ctx, ray, maxDepth, cursor) == (hit.value.material.color, cursor)
  {
  }

  /** Through hit_scene: a ray that meets no sphere and no plane comes back black and draws nothing. */
  lemma RadianceOfMiss(ctx: Context, ray: Ray, maxDepth: int, cursor: nat)
    requires Traces(ctx)
    requires forall i :: 0 <= i < |ctx.scene.spheres| ==> IntersectSphere(ray, ctx.scene.spheres[i], ctx.env.sqrt).None?
    requires forall i :: 0 <= i < |ctx.scene.planes| ==> IntersectPlane(ray, ctx.scene.planes[i]).None?
    ensures Radiance(ctx, ray, maxDepth, cursor) == (Zero(), cursor)
  {
    HitSceneMiss(ray, ctx.scene, ctx.env);
    assert ctx.trace(ray).None?;
  }

  /** Every shaded (lit, front-facing) result is a valid colour: each channel lies in [0,1]. */
  lemma ShadedRadianceInUnit(ctx: Context, ray: Ray, maxDepth: int, cursor: nat)
    requires Renderable(ctx.scene)
    requires maxDepth > 0
    requires ctx.trace(ray).Some? && ctx.trace(ray).value.frontFacing && !ctx.trace(ray).value.material.Unlit?
    ensures InUnit(Radiance(ctx, ray, maxDepth, cursor).0)
  {
  }

  /**
   * At depth one there is no bounce: the shaded result is the clamped direct
   * light, and the stream is left where direct lighting left it.
   */
  lemma NoBounceAtDepthOne(ctx: Context, ray: Ray, cursor: nat)
    requires Renderable(ctx.scene)
    requires ctx.trace(ray).Some? && ctx.trace(ray).value.frontFacing && !ctx.trace(ray).value.material.Unlit?
    ensures var direct := DirectLight(ctx, ctx.trace(ray).value, cursor);
            Radiance(ctx, ray, 1, cursor) == (Clamp01(direct.0), direct.1)
  {
    var direct := DirectLight(ctx, ctx.trace(ray).value, cursor);
    assert Add(direct.0, Zero()) == direct.0;
  }

  /**
   * Above depth one the bounce takes two draws for its direction and recurses
   * one level down along the sampled direction.
   */
  lemma BounceRecurses(ctx: Context, h: HitRecord, maxDepth: int, c1: nat)
    requires Renderable(ctx.scene) && maxDepth > 1
    ensures var dir := ctx.env.normalize(ctx.env.hemisphere(ctx.rand(c1), ctx.rand(c1 + 1), h.normal));
            Bounce(ctx, h, maxDepth, c1).1 == Radiance(ctx, SecondaryRay(h.position, dir), maxDepth - 1, c1 + 2).1
  {
  }

  /** Directional lights whose shadow rays all hit something contribute nothing. */
  lemma {:induction false} OccludedLightsIgnored(ctx: Context, hit: HitRecord, lights: seq<DirectionalLight>)
    requires forall k :: 0 <= k < |lights| ==> ctx.trace(SecondaryRay(hit.position, Neg(lights[k].direction))).Some?
    ensures DirectionalSum(ctx, hit, lights) == Zero()
    decreases |lights|
  {
    if lights != [] {
      var prefix := lights[..|lights| - 1];
      assert forall k :: 0 <= k < |prefix| ==> prefix[k] == lights[k];
      OccludedLightsIgnored(ctx, hit, prefix);
    }
  }

  /**
   * The acceptance rule of an area-light sample: rejected when the point is
   * seen from the emitter's back or the shadow ray first meets another entity;
   * an unobstructed shadow ray and one that meets the light's own plane both count.
   */
  lemma AreaSampleAcceptance(ctx: Context, hit: HitRecord, plane: Plane, data: AreaLight, u: nat, v: nat, k: nat)
    requires data.uSamples > 0 && data.vSamples > 0
    ensures var pos := SamplePoint(plane, data, u, v, ctx.rand(k), ctx.rand(k + 1));
            var dir := ctx.env.normalize(Sub(pos, hit.position));
            var lightHit := ctx.trace(SecondaryRay(hit.position, dir));
            && (Dot(dir, plane.normal) > 0.0 ==> AreaSample(ctx, hit, plane, data, u, v, k).None?)
            && (lightHit.Some? && lightHit.value.entityId != plane.id ==> AreaSample(ctx, hit, plane, data, u, v, k).None?)
            && (!(Dot(dir, plane.normal) > 0.0) && (lightHit.None? || lightHit.value.entityId == plane.id) ==>
                  AreaSample(ctx, hit, plane, data, u, v, k) == Some(CalcSurfaceColor(hit, ctx.eye, dir, ctx.env)))
  {
  }

  /** The cells in rows u .. uSamples - 1 of an area light's grid. */
  function RowCells(data: AreaLight, u: nat): nat
    decreases data.uSamples - u
  {
    if u >= data.uSamples then 0 else data.vSamples + RowCells(data, u + 1)
  }

  /** The sample of cell w of row u when the row was entered at cell v with the stream at k. */
  function RowCellSample(ctx: Context, hit: HitRecord, i: nat, u: nat, v: nat, k: nat, w: nat): Option<Vec3>
    requires Renderable(ctx.scene) && i < |ctx.scene.areaLights| && v <= w
  {
    AreaSample(ctx, hit, ctx.scene.areaLights[i], ctx.scene.areaLightData[i], u, w, k + 2 * (w - v))
  }

  /** A row whose every sample is rejected leaves the running sum unchanged, and still draws twice per cell. */
  lemma {:induction false} RowAllRejected(ctx: Context, hit: HitRecord, i: nat, u: nat, v: nat, k: nat, area: Vec3)
    requires Renderable(ctx.scene) && i < |ctx.scene.areaLights|
    requires u < ctx.scene.areaLightData[i].uSamples && v <= ctx.scene.areaLightData[i].vSamples
    requires forall w :: v <= w < ctx.scene.areaLightData[i].vSamples ==> RowCellSample(ctx, hit, i, u, v, k, w).None?
    ensures RowSweep(ctx, hit, i, u, v, k, area) == (area, k + 2 * (ctx.scene.areaLightData[i].vSamples - v))
    decreases ctx.scene.areaLightData[i].vSamples - v
  {
    if v < ctx.scene.areaLightData[i].vSamples {
      assert RowCellSample(ctx, hit, i, u, v, k, v).None?;
      var v', k' := v + 1, k + 2;
      forall w | v' <= w < ctx.scene.areaLightData[i].vSamples
        ensures RowCellSample(ctx, hit, i, u, v', k', w).None?
      {
        assert RowCellSample(ctx, hit, i, u, v, k, w).None?;
        assert k' + 2 * (w - v') == k + 2 * (w - v);
      }
      RowAllRejected(ctx, hit, i, u, v', k', area);
    }
  }

  /** Rows u on hold (uSamples - u) * vSamples cells; the whole grid uSamples * vSamples. */
  lemma {:induction false} RowCellsProduct(data: AreaLight, u: nat)
    requires u <= data.uSamples
    ensures RowCells(data, u) == (data.uSamples - u) * data.vSamples
    decreases data.uSamples - u
  {
    if u < data.uSamples {
      RowCellsProduct(data, u + 1);
      assert (data.uSamples - u) * data.vSamples == (data.uSamples - (u + 1)) * data.vSamples + data.vSamples;
    }
  }

  /** The cells of the area lights from index i on. */
  function LightCells(v: SceneView, i: nat): nat
    requires i <= |v.areaLights| <= |v.areaLightData|
    decreases |v.areaLights| - i
  {
    if i == |v.areaLights| then 0 else RowCells(v.areaLightData[i], 0) + LightCells(v, i + 1)
  }

  /** The cells the area-light loops still have to visit from light i, row u. */
  function CellsLeft(v: SceneView, i: nat, u: nat): nat
    requires InSweep(v, i, u)
  {
    if i == |v.areaLights| then 0 else RowCells(v.areaLightData[i], u) + LightCells(v, i + 1)
  }

  /** Every remaining cell takes exactly two draws of the stream. */
  lemma {:induction false} SweepDraws(ctx: Context, hit: HitRecord, i: nat, u: nat, k: nat, area: Vec3, direct: Vec3)
    requires Renderable(ctx.scene) && InSweep(ctx.scene, i, u)
    ensures AreaSweep(ctx, hit, i, u, k, area, direct).1 == k + 2 * CellsLeft(ctx.scene, i, u)
    decreases |ctx.scene.areaLights| - i,
              if i < |ctx.scene.areaLights| then ctx.scene.areaLightData[i].uSamples - u else 0
  {
    if i < |ctx.scene.areaLights| {
      var data := ctx.scene.areaLightData[i];
      if u == data.uSamples {
        SweepDraws(ctx, hit, i + 1, 0, k, Zero(), Add(direct, LightAverage(data, area)));
      } else {
        var row := RowSweep(ctx, hit, i, u, 0, k, area);
        SweepDraws(ctx, hit, i, u + 1, row.1, row.0, direct);
      }
    }
  }

  /** Direct lighting takes exactly two draws per cell of every area light. */
  lemma DirectLightDraws(ctx: Context, h: HitRecord, cursor: nat)
    requires Renderable(ctx.scene)
    ensures DirectLight(ctx, h, cursor).1 == cursor + 2 * LightCells(ctx.scene, 0)
  {
    SweepDraws(ctx, h, 0, 0, cursor, Zero(), DirectionalSum(ctx, h, ctx.scene.directionalLights));
  }
}
