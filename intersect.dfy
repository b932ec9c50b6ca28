/**
 * Ray-primitive intersection and nearest-hit resolution (src/scene.cpp).
 * Distances are Option<real>; an Option bound of None stands for INFINITY.
 */
module Intersect {
  import opened Wrappers
  import opened Geometry
  import opened Entities

  // ---------------------------------------------------------------- spheres

  /** Projection of the origin-to-centre vector on the ray direction (tca). */
  function Tca(ray: Ray, sphere: Sphere): real {
    Dot(Sub(sphere.position, ray.origin), ray.direction)
  }

  /** Squared distance from the centre to the ray's line (d2), for a unit direction. */
  function D2(ray: Ray, sphere: Sphere): real {
    var l := Sub(sphere.position, ray.origin);
    Dot(l, l) - Tca(ray, sphere) * Tca(ray, sphere)
  }

  function Radius2(sphere: Sphere): real { sphere.radius * sphere.radius }

  /** Half chord length (thc), as the tracer's sqrt returns it. */
  function Thc(ray: Ray, sphere: Sphere, sqrt: real -> real): real {
    sqrt(Radius2(sphere) - D2(ray, sphere))
  }

  /** A root of the ray-sphere quadratic: tca - thc or tca + thc. */
  predicate IsRoot(ray: Ray, sphere: Sphere, sqrt: real -> real, t: real) {
    t == Tca(ray, sphere) - Thc(ray, sphere, sqrt) || t == Tca(ray, sphere) + Thc(ray, sphere, sqrt)
  }

  /**
   * intersect_sphere: no hit when the line misses the sphere; otherwise the
   * smallest non-negative root, or no hit when both roots are negative.
   */
  function IntersectSphere(ray: Ray, sphere: Sphere, sqrt: real -> real): (r: Option<real>)
    ensures D2(ray, sphere) > Radius2(sphere) ==> r.None?
    ensures r.Some? ==> r.value >= 0.0
  {
    var tca := Tca(ray, sphere);
    var d2 := D2(ray, sphere);
    if d2 > Radius2(sphere) then None
    else
      var thc := sqrt(Radius2(sphere) - d2);
      var t0 := tca - thc;
      var t1 := tca + thc;
      var t0', t1' := if t0 > t1 then t1 else t0, if t0 > t1 then t0 else t1;
      if t0' < 0.0 then
        if t1' < 0.0 then None else Some(t1')
      else Some(t0')
  }

  /**
   * When the line meets the sphere, intersect_sphere returns the smallest
   * non-negative root, and no hit only when both roots lie behind the origin.
   */
  lemma SphereNearestRoot(ray: Ray, sphere: Sphere, sqrt: real -> real)
    ensures var r := IntersectSphere(ray, sphere, sqrt);
            && (r.Some? ==> IsRoot(ray, sphere, sqrt, r.value))
            && (r.Some? ==> forall t :: IsRoot(ray, sphere, sqrt, t) && t >= 0.0 ==> r.value <= t)
            && (r.None? && D2(ray, sphere) <= Radius2(sphere) ==> forall t :: IsRoot(ray, sphere, sqrt, t) ==> t < 0.0)
  {
  }

  // ----------------------------------------------------------------- planes

  /** dot(plane.normal, ray.direction): zero when the ray runs parallel to the plane. */
  function Denominator(ray: Ray, plane: Plane): real {
    Dot(plane.normal, ray.direction)
  }

  /** The ray parameter where the ray meets the plane's infinite extension. */
  function PlaneT(ray: Ray, plane: Plane): real
    requires Denominator(ray, plane) != 0.0
  {
    Dot(Sub(plane.position, ray.origin), plane.normal) / Denominator(ray, plane)
  }

  /**
   * intersect_plane: the crossing parameter when it is non-negative. The
   * plane's width and height are not consulted. A parallel ray gives no hit:
   * the source divides by zero there, and the infinite or NaN result never
   * passes the strict comparison in hit_planes.
   */
  function IntersectPlane(ray: Ray, plane: Plane): (r: Option<real>)
    ensures Denominator(ray, plane) == 0.0 ==> r.None?
    ensures Denominator(ray, plane) != 0.0 ==>
              (r.None? <==> PlaneT(ray, plane) < 0.0) && (r.Some? ==> r.value == PlaneT(ray, plane))
  {
    var d := Denominator(ray, plane);
    if d == 0.0 then None
    else
      var t := Dot(Sub(plane.position, ray.origin), plane.normal) / d;
      if t < 0.0 then None else Some(t)
  }

  // ------------------------------------------------------------ argmin scan

  /** `t < bound`, where a missing bound is +infinity. */
  predicate Below(t: real, bound: Option<real>) {
    bound.None? || t < bound.value
  }

  /**
   * The linear scan of hit_spheres and hit_planes over precomputed distances:
   * an object replaces the current best only when strictly closer than the
   * running bound. The result is the index of the nearest distance below the
   * initial bound, the earliest one among equals, or None when nothing is below it.
   */
  function Nearest(ds: seq<Option<real>>, bound: Option<real>): (r: Option<nat>)
    ensures r.Some? ==> r.value < |ds| && ds[r.value].Some? && Below(ds[r.value].value, bound)
    decreases |ds|
  {
    if ds == [] then None
    else
      var n := |ds| - 1;
      var prev := Nearest(ds[..n], bound);
      var closest := if prev.Some? then Some(ds[prev.value].value) else bound;
      if ds[n].Some? && Below(ds[n].value, closest) then Some(n) else prev
  }

  /**
   * The scan finds the minimum: no distance is below the one it returns, every
   * earlier distance is strictly above it, and it returns None exactly when
   * no distance is below the bound.
   */
  lemma {:induction false} NearestIsMinimum(ds: seq<Option<real>>, bound: Option<real>)
    ensures var r := Nearest(ds, bound);
            && (r.Some? ==> forall i :: 0 <= i < |ds| && ds[i].Some? ==> ds[r.value].value <= ds[i].value)
            && (r.Some? ==> forall i :: 0 <= i < r.value && ds[i].Some? ==> ds[r.value].value < ds[i].value)
            && (r.None? <==> forall i :: 0 <= i < |ds| && ds[i].Some? ==> !Below(ds[i].value, bound))
    decreases |ds|
  {
    if ds != [] {
      NearestIsMinimum(ds[..|ds| - 1], bound);
    }
  }

  /** Raising the bound above the unbounded minimum leaves the scan's answer unchanged. */
  lemma {:induction false} NearestUnderBound(ds: seq<Option<real>>, bound: Option<real>, k: nat)
    requires Nearest(ds, None) == Some(k)
    ensures Below(ds[k].value, bound) ==> Nearest(ds, bound) == Some(k)
    ensures !Below(ds[k].value, bound) ==> Nearest(ds, bound).None?
    decreases |ds|
  {
    var n := |ds| - 1;
    var prefix := ds[..n];
    NearestIsMinimum(prefix, None);
    NearestIsMinimum(prefix, bound);
    if k < n {
      NearestUnderBound(prefix, bound, k);
    } else {
      var prev := Nearest(prefix, bound);
      if prev.Some? {
        var j := Nearest(prefix, None).value;
        assert ds[n].value < ds[j].value <= ds[prev.value].value;
      }
    }
  }

  // ------------------------------------------------------------ hit records

  /**
   * The flip of hit_spheres/hit_planes: `front_facing` is dot(direction, raw) < 0,
   * the normal is negated exactly when it is false, so it never points along the ray.
   */
  function FaceForward(direction: Vec3, raw: Vec3): (r: (Vec3, bool))
    ensures r.1 <==> Dot(direction, raw) < 0.0
    ensures r.0 == if r.1 then raw else Neg(raw)
    ensures Dot(direction, r.0) <= 0.0
  {
    DotNeg(direction, raw);
    var frontFacing := Dot(direction, raw) < 0.0;
    (if frontFacing then raw else Neg(raw), frontFacing)
  }

  function SphereRecord(ray: Ray, sphere: Sphere, material: Material, t: real, normalize: Vec3 -> Vec3): HitRecord {
    var pos := RayAt(ray, t);
    var face := FaceForward(ray.direction, normalize(Sub(pos, sphere.position)));
    HitRecord(sphere.id, t, pos, face.0, face.1, material)
  }

  function PlaneRecord(ray: Ray, plane: Plane, material: Material, t: real): HitRecord {
    var face := FaceForward(ray.direction, plane.normal);
    HitRecord(plane.id, t, RayAt(ray, t), face.0, face.1, material)
  }

  function SphereDistances(ray: Ray, spheres: seq<Sphere>, sqrt: real -> real): (ds: seq<Option<real>>)
    ensures |ds| == |spheres|
    ensures forall i :: 0 <= i < |spheres| ==> ds[i] == IntersectSphere(ray, spheres[i], sqrt)
  {
    seq(|spheres|, i requires 0 <= i < |spheres| => IntersectSphere(ray, spheres[i], sqrt))
  }

  function PlaneDistances(ray: Ray, planes: seq<Plane>): (ds: seq<Option<real>>)
    ensures |ds| == |planes|
    ensures forall i :: 0 <= i < |planes| ==> ds[i] == IntersectPlane(ray, planes[i])
  {
    seq(|planes|, i requires 0 <= i < |planes| => IntersectPlane(ray, planes[i]))
  }

  /** What hit_spheres returns: the record of the nearest sphere below `bound`. */
  function NearestSphereHit(ray: Ray, v: SceneView, env: Maths, bound: Option<real>): (r: Option<HitRecord>)
    requires Aligned(v)
    ensures r.None? <==>
              forall i :: 0 <= i < |v.spheres| && IntersectSphere(ray, v.spheres[i], env.sqrt).Some? ==>
                !Below(IntersectSphere(ray, v.spheres[i], env.sqrt).value, bound)
    ensures r.Some? ==> Below(r.value.distance, bound) && Dot(ray.direction, r.value.normal) <= 0.0
    ensures r.Some? ==> forall i :: 0 <= i < |v.spheres| && IntersectSphere(ray, v.spheres[i], env.sqrt).Some? ==>
              r.value.distance <= IntersectSphere(ray, v.spheres[i], env.sqrt).value
    ensures r.Some? ==> exists i :: 0 <= i < |v.spheres| && IntersectSphere(ray, v.spheres[i], env.sqrt) == Some(r.value.distance) &&
                                   r.value == SphereRecord(ray, v.spheres[i], v.sphereMaterials[i], r.value.distance, env.normalize)
  {
    var ds := SphereDistances(ray, v.spheres, env.sqrt);
    var j := Nearest(ds, bound);
    NearestIsMinimum(ds, bound);
    if j.None? then None
    else Some(SphereRecord(ray, v.spheres[j.value], v.sphereMaterials[j.value], ds[j.value].value, env.normalize))
  }

  /** What hit_planes returns: the record of the nearest plane below `bound`. */
  function NearestPlaneHit(ray: Ray, v: SceneView, bound: Option<real>): (r: Option<HitRecord>)
    requires Aligned(v)
    ensures r.None? <==>
              forall i :: 0 <= i < |v.planes| && IntersectPlane(ray, v.planes[i]).Some? ==>
                !Below(IntersectPlane(ray, v.planes[i]).value, bound)
    ensures r.Some? ==> Below(r.value.distance, bound) && Dot(ray.direction, r.value.normal) <= 0.0
    ensures r.Some? ==> forall i :: 0 <= i < |v.planes| && IntersectPlane(ray, v.planes[i]).Some? ==>
              r.value.distance <= IntersectPlane(ray, v.planes[i]).value
    ensures r.Some? ==> exists i :: 0 <= i < |v.planes| && IntersectPlane(ray, v.planes[i]) == Some(r.value.distance) &&
                                   r.value == PlaneRecord(ray, v.planes[i], v.planeMaterials[i], r.value.distance)
  {
    var ds := PlaneDistances(ray, v.planes);
    var j := Nearest(ds, bound);
    NearestIsMinimum(ds, bound);
    if j.None? then None
    else Some(PlaneRecord(ray, v.planes[j.value], v.planeMaterials[j.value], ds[j.value].value))
  }

  /** The scan of hit_spheres: the nearest sphere strictly below the running bound, and that bound. */
  method ScanSpheres(ray: Ray, v: SceneView, env: Maths, bound: Option<real>) returns (sphere: Option<nat>, closest: Option<real>)
    requires Aligned(v)
    ensures sphere == Nearest(SphereDistances(ray, v.spheres, env.sqrt), bound)
    ensures closest == if sphere.Some? then Some(SphereDistances(ray, v.spheres, env.sqrt)[sphere.value].value) else bound
  {
    ghost var ds := SphereDistances(ray, v.spheres, env.sqrt);
    closest := bound;
    sphere := None;
    for i := 0 to |v.spheres|
      invariant sphere == Nearest(ds[..i], bound)
      invariant closest == if sphere.Some? then Some(ds[sphere.value].value) else bound
    {
      assert ds[..i + 1][..i] == ds[..i];
      var hitDst := IntersectSphere(ray, v.spheres[i], env.sqrt);
      if hitDst.Some? && Below(hitDst.value, closest) {
        sphere := Some(i);
        closest := Some(hitDst.value);
      }
    }
    assert ds[..|v.spheres|] == ds;
  }

  /**
   * hit_spheres: scan the spheres keeping the closest hit strictly below the
   * running bound, then build the record (normal flipped towards the ray).
   */
  method HitSpheres(ray: Ray, v: SceneView, env: Maths, bound: Option<real>) returns (hit: Option<HitRecord>)
    requires Aligned(v)
    ensures hit == NearestSphereHit(ray, v, env, bound)
  {
    var sphere, closest := ScanSpheres(ray, v, env, bound);
    if sphere.None? {
      return None;
    }
    var obj := v.spheres[sphere.value];
    var t := closest.value;
    var pos := RayAt(ray, t);
    var normal := env.normalize(Sub(pos, obj.position));
    var frontFacing := Dot(ray.direction, normal) < 0.0;
    if !frontFacing {
      normal := Neg(normal);
    }
    hit := Some(HitRecord(obj.id, t, pos, normal, frontFacing, v.sphereMaterials[sphere.value]));
  }

  /** The scan of hit_planes: the nearest plane strictly below the running bound, and that bound. */
  method ScanPlanes(ray: Ray, v: SceneView, bound: Option<real>) returns (plane: Option<nat>, closest: Option<real>)
    requires Aligned(v)
    ensures plane == Nearest(PlaneDistances(ray, v.planes), bound)
    ensures closest == if plane.Some? then Some(PlaneDistances(ray, v.planes)[plane.value].value) else bound
  {
    ghost var ds := PlaneDistances(ray, v.planes);
    closest := bound;
    plane := None;
    for i := 0 to |v.planes|
      invariant plane == Nearest(ds[..i], bound)
      invariant closest == if plane.Some? then Some(ds[plane.value].value) else bound
    {
      assert ds[..i + 1][..i] == ds[..i];
      var hitDst := IntersectPlane(ray, v.planes[i]);
      if hitDst.Some? && Below(hitDst.value, closest) {
        plane := Some(i);
        closest := Some(hitDst.value);
      }
    }
    assert ds[..|v.planes|] == ds;
  }

  /** hit_planes: the same scan over the planes. */
  method HitPlanes(ray: Ray, v: SceneView, bound: Option<real>) returns (hit: Option<HitRecord>)
    requires Aligned(v)
    ensures hit == NearestPlaneHit(ray, v, bound)
  {
    var plane, closest := ScanPlanes(ray, v, bound);
    if plane.None? {
      return None;
    }
    var obj := v.planes[plane.value];
    var t := closest.value;
    var pos := RayAt(ray, t);
    var normal := obj.normal;
    var frontFacing := Dot(ray.direction, normal) < 0.0;
    if !frontFacing {
      normal := Neg(normal);
    }
    hit := Some(HitRecord(obj.id, t, pos, normal, frontFacing, v.planeMaterials[plane.value]));
  }

  /**
   * hit_scene: the plane scan is bounded by the sphere hit's distance, so a
   * plane wins only when strictly closer; otherwise the sphere hit stands.
   */
  function HitScene(ray: Ray, v: SceneView, env: Maths): Option<HitRecord>
    requires Aligned(v)
  {
    var sphere := NearestSphereHit(ray, v, env, None);
    var plane := NearestPlaneHit(ray, v, if sphere.Some? then Some(sphere.value.distance) else None);
    if plane.Some? then plane else sphere
  }

  // ------------------------------------------------------- hit_scene laws

  /** hit_scene reports no hit exactly when no sphere and no plane is hit at all. */
  lemma HitSceneMiss(ray: Ray, v: SceneView, env: Maths)
    requires Aligned(v)
    ensures HitScene(ray, v, env).None? <==>
              (forall i :: 0 <= i < |v.spheres| ==> IntersectSphere(ray, v.spheres[i], env.sqrt).None?) &&
              (forall i :: 0 <= i < |v.planes| ==> IntersectPlane(ray, v.planes[i]).None?)
  {
    var sphere := NearestSphereHit(ray, v, env, None);
    if sphere.Some? {
      var plane := NearestPlaneHit(ray, v, Some(sphere.value.distance));
      if plane.None? {
        var j := Nearest(SphereDistances(ray, v.spheres, env.sqrt), None).value;
        assert IntersectSphere(ray, v.spheres[j], env.sqrt).Some?;
      }
    } else {
      var plane := NearestPlaneHit(ray, v, None);
      if plane.Some? {
        var k := Nearest(PlaneDistances(ray, v.planes), None).value;
        assert IntersectPlane(ray, v.planes[k]).Some?;
      }
    }
  }

  /** A hit from hit_scene is no farther than any sphere or plane intersection, and faces the ray. */
  lemma HitSceneNearest(ray: Ray, v: SceneView, env: Maths)
    requires Aligned(v)
    ensures var r := HitScene(ray, v, env);
            r.Some? ==>
              && Dot(ray.direction, r.value.normal) <= 0.0
              && (forall i :: 0 <= i < |v.spheres| && IntersectSphere(ray, v.spheres[i], env.sqrt).Some? ==>
                    r.value.distance <= IntersectSphere(ray, v.spheres[i], env.sqrt).value)
              && (forall i :: 0 <= i < |v.planes| && IntersectPlane(ray, v.planes[i]).Some? ==>
                    r.value.distance <= IntersectPlane(ray, v.planes[i]).value)
  {
    var sphere := NearestSphereHit(ray, v, env, None);
    var bound := if sphere.Some? then Some(sphere.value.distance) else None;
    var plane := NearestPlaneHit(ray, v, bound);
    if plane.Some? {
      forall i | 0 <= i < |v.spheres| && IntersectSphere(ray, v.spheres[i], env.sqrt).Some?
        ensures plane.value.distance <= IntersectSphere(ray, v.spheres[i], env.sqrt).value
      {
        assert sphere.Some?;
      }
    } else if sphere.Some? {
      forall i | 0 <= i < |v.planes| && IntersectPlane(ray, v.planes[i]).Some?
        ensures sphere.value.distance <= IntersectPlane(ray, v.planes[i]).value
      {
        assert !Below(IntersectPlane(ray, v.planes[i]).value, bound);
      }
    }
  }

  /**
   * The tie-break of hit_scene, stated on the unbounded nearest sphere j and
   * nearest plane k: the sphere's record is returned unless the plane is
   * strictly closer; at equal distance the sphere wins.
   */
  lemma HitSceneTieBreak(ray: Ray, v: SceneView, env: Maths)
    requires Aligned(v)
    ensures var sd := SphereDistances(ray, v.spheres, env.sqrt);
            var pd := PlaneDistances(ray, v.planes);
            var j := Nearest(sd, None);
            var k := Nearest(pd, None);
            && (j.Some? && (k.None? || sd[j.value].value <= pd[k.value].value) ==>
                  HitScene(ray, v, env) ==
                    Some(SphereRecord(ray, v.spheres[j.value], v.sphereMaterials[j.value], sd[j.value].value, env.normalize)))
            && (k.Some? && (j.None? || pd[k.value].value < sd[j.value].value) ==>
                  HitScene(ray, v, env) ==
                    Some(PlaneRecord(ray, v.planes[k.value], v.planeMaterials[k.value], pd[k.value].value)))
  {
    var sd := SphereDistances(ray, v.spheres, env.sqrt);
    var pd := PlaneDistances(ray, v.planes);
    var j := Nearest(sd, None);
    var k := Nearest(pd, None);
    var bound := if j.Some? then Some(sd[j.value].value) else None;
    if k.Some? {
      NearestUnderBound(pd, bound, k.value);
    } else {
      NearestIsMinimum(pd, None);
      NearestIsMinimum(pd, bound);
    }
  }

  // ---------------------------------------------------------- geometry laws

  /** |a*t - b|^2 expanded. */
  lemma ScaledDiffSquare(a: Vec3, b: Vec3, t: real)
    ensures var w := Sub(Scale(a, t), b);
            Dot(w, w) == t * t * Dot(a, a) - 2.0 * t * Dot(a, b) + Dot(b, b)
  {
    var w := Sub(Scale(a, t), b);
    assert w.x * w.x == t * t * (a.x * a.x) - 2.0 * t * (a.x * b.x) + b.x * b.x;
    assert w.y * w.y == t * t * (a.y * a.y) - 2.0 * t * (a.y * b.y) + b.y * b.y;
    assert w.z * w.z == t * t * (a.z * a.z) - 2.0 * t * (a.z * b.z) + b.z * b.z;
  }

  /**
   * With a unit direction and an exact square root, every root of the
   * ray-sphere quadratic, and so the distance intersect_sphere returns, is a
   * point on the sphere.
   */
  lemma SphereHitOnSurface(ray: Ray, sphere: Sphere, sqrt: real -> real, t: real)
    requires Dot(ray.direction, ray.direction) == 1.0
    requires D2(ray, sphere) <= Radius2(sphere)
    requires Thc(ray, sphere, sqrt) * Thc(ray, sphere, sqrt) == Radius2(sphere) - D2(ray, sphere)
    requires IsRoot(ray, sphere, sqrt, t)
    ensures var w := Sub(RayAt(ray, t), sphere.position);
            Dot(w, w) == Radius2(sphere)
  {
    var l := Sub(sphere.position, ray.origin);
    DistanceAlongRay(ray, sphere, t);
    RootOnSurface(t, Tca(ray, sphere), Thc(ray, sphere, sqrt), Dot(l, l), D2(ray, sphere), Radius2(sphere));
  }

  /** The squared distance from the centre to the point at t, for a unit direction. */
  lemma DistanceAlongRay(ray: Ray, sphere: Sphere, t: real)
    requires Dot(ray.direction, ray.direction) == 1.0
    ensures var w := Sub(RayAt(ray, t), sphere.position);
            var l := Sub(sphere.position, ray.origin);
            Dot(w, w) == t * t - 2.0 * t * Tca(ray, sphere) + Dot(l, l)
  {
    var d := ray.direction;
    var l := Sub(sphere.position, ray.origin);
    var w := Sub(RayAt(ray, t), sphere.position);
    assert w == Sub(Scale(d, t), l);
    ScaledDiffSquare(d, l, t);
    assert Dot(d, l) == Tca(ray, sphere);
  }

  /** The quadratic identity behind SphereHitOnSurface, over plain reals. */
  lemma RootOnSurface(t: real, tca: real, thc: real, ll: real, d2: real, r2: real)
    requires t == tca - thc || t == tca + thc
    requires thc * thc == r2 - d2
    requires d2 == ll - tca * tca
    ensures t * t - 2.0 * t * tca + ll == r2
  {
    assert (t - tca) * (t - tca) == thc * thc;
  }

  /**
   * A sphere of radius r centred at distance dist > r straight ahead of a unit
   * ray is first hit at dist - r.
   */
  lemma SphereAhead(ray: Ray, sphere: Sphere, sqrt: real -> real, dist: real)
    requires Dot(ray.direction, ray.direction) == 1.0
    requires sphere.position == RayAt(ray, dist)
    requires 0.0 < sphere.radius < dist
    requires sqrt(sphere.radius * sphere.radius) == sphere.radius
    ensures IntersectSphere(ray, sphere, sqrt) == Some(dist - sphere.radius)
  {
    var l := Sub(sphere.position, ray.origin);
    var d := ray.direction;
    assert l == Scale(d, dist);
    assert Dot(l, d) == dist * Dot(d, d);
    assert Dot(l, l) == dist * dist * Dot(d, d);
    assert D2(ray, sphere) == 0.0;
    assert Radius2(sphere) - D2(ray, sphere) == sphere.radius * sphere.radius;
  }

  /**
   * A unit ray starting strictly inside a sphere gets the far root: the near
   * root lies behind the origin.
   */
  lemma SphereFromInside(ray: Ray, sphere: Sphere, sqrt: real -> real)
    requires Dot(ray.direction, ray.direction) == 1.0
    requires var l := Sub(sphere.position, ray.origin); Dot(l, l) < Radius2(sphere)
    requires Thc(ray, sphere, sqrt) >= 0.0
    requires Thc(ray, sphere, sqrt) * Thc(ray, sphere, sqrt) == Radius2(sphere) - D2(ray, sphere)
    ensures IntersectSphere(ray, sphere, sqrt) == Some(Tca(ray, sphere) + Thc(ray, sphere, sqrt))
  {
    var tca := Tca(ray, sphere);
    var thc := Thc(ray, sphere, sqrt);
    SquareDominates(thc, tca);
  }

  lemma SquareDominates(a: real, b: real)
    requires a >= 0.0 && a * a > b * b
    ensures -a < b < a
  {
  }

  /** The point intersect_plane returns lies on the plane. */
  lemma PlaneHitOnPlane(ray: Ray, plane: Plane)
    requires IntersectPlane(ray, plane).Some?
    ensures Dot(Sub(RayAt(ray, IntersectPlane(ray, plane).value), plane.position), plane.normal) == 0.0
  {
    var t := IntersectPlane(ray, plane).value;
    var n := plane.normal;
    var d := Denominator(ray, plane);
    var p := Sub(plane.position, ray.origin);
    assert t * d == Dot(p, n);
    var w := Sub(RayAt(ray, t), plane.position);
    assert w == Sub(Scale(ray.direction, t), p);
    assert Dot(w, n) == t * Dot(ray.direction, n) - Dot(p, n);
  }
}
