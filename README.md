# A verified model of a small tile-based path tracer

The tracer renders a scene made of spheres and planes. Its
lights are directional lights and rectangular area lights, and each lit
surface is either unlit or Blinn-Phong. The image is cut into 100 x 100
tiles, which are queued and drained by worker threads. Each pixel is
sampled on a `samples_base x samples_base` sub-pixel grid and traced
recursively up to `max_depth` bounces. The pixel is then clamped to [0,1]
and stored as three bytes. Image row y = 0 is the bottom of the view, and
the buffer holds the top row first.

This project models four parts of that program in Dafny and proves their
properties:

- **Scene construction** (`scene_build.dfy`): `add_sphere`, `add_plane`,
  `add_planes` and `add_area_light` on a `Scene` class. Each call hands out
  the next 16-bit entity id and appends to index-aligned collections.
- **Nearest-hit resolution** (`intersect.dfy`):
  - sphere root selection and the plane sign filter;
  - the strict-`<` argmin scans of `hit_spheres` and `hit_planes`, as loops
    proved equal to a specification function;
  - the sphere-before-plane tie-break of `hit_scene`.
- **The integrator's control structure** (`integrator.dfy`):
  - `ray_color`'s depth cut-off, miss / back-face and unlit exits;
  - directional shadow tests;
  - area-light sample acceptance and the `u_samples * v_samples` average;
  - the bounce and the final clamp;
  - `blinn_phong`'s gating and `calc_surface_color`'s dispatch.
- **Tiles and pixels** (`tiles.dfy`, `render.dfy`):
  - the x-major tile queue of `generate_image`;
  - one sequential worker running `generate_image_part`, which drains the
    queue in FIFO order, averages the sub-samples, clamps, and writes the
    flipped three-byte pixel;
  - the proof that every pixel is written exactly once.

Shared material:

- `geometry.dfy`: vectors over `real`, clamps, rays, the random stream.
- `entities.dfy`: ids, shapes, materials, lights, hit records and the
  read-only scene snapshot `SceneView`.
- `wrappers.dfy`: `Option`.
- `arith.dfy`: integer multiplication and division facts.

Vector maths is idealised over `real`. The helpers `sqrt`, `normalize`,
`pow` and the hemisphere sampler are uninterpreted total functions, grouped
in the `Maths` value. Random draws come from an arbitrary stream
`nat -> real`. The `Random` class holds the stream with a cursor that counts
draws. Functions thread the cursor explicitly.
- The integrator methods and `RenderPixel` are proved to leave the cursor
  exactly where the matching function says.
- `RenderTile`, `GenerateImagePart` and `GenerateImage` state only which
  pixels are written and how often. They state nothing about the cursor.

`hit_scene` reaches the integrator as the `trace` field of a `Context`.
`MakeContext` builds that field as `HitScene` over the scene. The integrator
methods call `ctx.trace`, so their proofs do not unfold the intersection
code. Lemmas that need the real query, such as `RadianceOfMiss`, require
`Traces(ctx)`.

### Notes on the code

The model follows the definitions and records these choices:

- `HitRecord` (src/ray.h:18-27) has no entity id. However, src/ray.cpp:93
  compares `light_hit->entity_id`.
  - The model's `HitRecord` carries the id of the hit object.
  - It also carries the object's material, taken from the index-aligned
    material collection. `hit_spheres` and `hit_planes` never set
    `material`, although `ray_color` reads it.
- `MaterialType` (src/material.h) names its first tag `kAmbient`, but
  src/ray.cpp:49 tests `kUnlit`. Both are the `Unlit` variant of
  `Material`.
- `hit_scene` is declared with a `Stats` argument (src/scene.h:59) but
  defined without one (src/scene.cpp:92). `ray_color` is declared with three
  arguments, defined with five and called with six. The model has no
  statistics and no configuration argument, because neither influences the
  result in the shown code.
- `intersect_plane` divides by `d = dot(normal, direction)` without guarding against zero.
  - With `d == 0` the float quotient is -inf, +inf or NaN. A -inf quotient
    is rejected by `intersect_plane`'s own `t < 0` test (src/scene.cpp:34).
    A +inf or NaN quotient passes that test but never passes the strict `<`
    of `hit_planes` (src/scene.cpp:71). So the model returns no hit whenever
    `d == 0`; it also returns no hit when `t < 0`.
  - `intersect_plane` has no epsilon test for near-parallel rays and
    ignores the plane's `width`/`height` (src/scene.cpp:30-36). Every plane
    is therefore infinite for intersection, in the code and in the model.
- `secondary_ray` (src/ray.cpp:9-11) offsets the origin along the ray's own
  direction by `EPSILON`, not along the surface normal. `SecondaryRay` does
  the same.
- The back-face test on area-light samples is a strict `> 0`
  (src/ray.cpp:87), so a sample whose direction is perpendicular to the
  light's normal counts.
- No shown code increments `Stats::ray_count`, and the model has no counter.
- The `AreaLight` record is not defined in any file of the repository that
  is modelled here. Its fields (`color`, `intensity`, `u_samples`,
  `v_samples`, `max_random_offset`) follow its uses in src/ray.cpp:68-100
  and src/main.cpp:171-177.

## Model

| member | source | states |
|---|---|---|
| Geometry.Clamp | src/ray.cpp:17 | the result lies in [lo, hi] and equals the input when the input is already in range (glm::clamp) |
| Geometry.Clamp01 | src/ray.cpp:119 | every channel of the clamped colour lies in [0,1], and a colour already in [0,1] is unchanged |
| Geometry.Random.RandFloat | src/math.h:15-23 | a draw returns the stream value at the cursor and advances the cursor by exactly one |
| SceneBuild.Scene.constructor | src/scene.h:38-53 | a new scene is empty, its counter is 1, and it satisfies the alignment and fresh-id invariants |
| SceneBuild.Scene.AddSphere | src/scene.h:61-66 | returns and stores the old counter as the new sphere's id, bumps the 16-bit counter, appends exactly one sphere and its material at the same index, leaves planes and lights untouched, and keeps ids unique and non-zero while the counter does not wrap |
| SceneBuild.Scene.AddPlane | src/scene.h:68-73 | the same for planes: the returned id is the one stored in the appended plane, materials stay index-aligned, spheres and lights are untouched, ids stay fresh without wrap |
| SceneBuild.Scene.AddPlanes | src/scene.h:75-78 | appends the given planes in order with consecutive ids from the old counter and one material each, and changes nothing else |
| SceneBuild.Scene.AddAreaLight | src/scene.h:80-84 | appends the plane with the invisible material, and the same plane (same id) to the area lights with its data, so every area light is also a plane and the two light collections stay the same length |
| SceneBuild.WithIdsAt | src/scene.h:75-78 | the i-th plane added by add_planes is the i-th input with id counter+i (mod 2^16) |
| SceneBuild.AdvanceIdStep | src/scene.h:62 | n successive increments equal one more increment after n-1, and equal counter+n when no wrap occurs |
| Intersect.IntersectSphere | src/scene.cpp:8-28 | no hit when d2 > radius², and any returned distance is non-negative |
| Intersect.SphereNearestRoot | src/scene.cpp:16-27 | a returned distance is a root of the ray-sphere equation and no larger than any non-negative root; no hit on a meeting line only when both roots are negative |
| Intersect.SphereHitOnSurface | src/scene.cpp:12-18 | for a unit direction, every root of intersect_sphere lies on the sphere: the squared distance to the centre is radius² |
| Intersect.SphereAhead | src/scene.cpp:8-28 | a sphere centred straight ahead at distance dist > radius is hit at dist - radius |
| Intersect.SphereFromInside | src/scene.cpp:20-25 | from inside the sphere the far root tca + thc is returned |
| Intersect.IntersectPlane | src/scene.cpp:30-36 | a parallel ray misses; otherwise there is no hit exactly when t < 0, and a hit returns t unchanged |
| Intersect.PlaneHitOnPlane | src/scene.cpp:30-36 | the point at a returned distance lies on the plane |
| Intersect.Nearest | src/scene.cpp:42-50 | a found index names a present distance strictly below the initial bound |
| Intersect.NearestIsMinimum | src/scene.cpp:42-50 | the scan's pick is no larger than any distance, strictly smaller than every earlier one (the earliest wins on ties), and nothing is found exactly when no distance is below the bound |
| Intersect.NearestUnderBound | src/scene.cpp:93-94 | scanning with a bound picks the unbounded minimum when it is below the bound, and nothing otherwise |
| Intersect.FaceForward | src/scene.cpp:53-56 | front_facing is dot(direction, normal) < 0, the normal is negated exactly when not front-facing, and the stored normal never points along the ray |
| Intersect.NearestSphereHit | src/scene.cpp:39-64 | hit_spheres: no hit iff no sphere is hit below the bound; a hit is below the bound, faces the ray and is no farther than any sphere intersection; a hit is the record of some sphere whose intersection distance it carries |
| Intersect.NearestPlaneHit | src/scene.cpp:66-90 | the same for hit_planes |
| Intersect.ScanSpheres | src/scene.cpp:40-48 | the loop of hit_spheres computes the scan's pick and leaves the running closest at its distance, or at the bound when nothing was picked |
| Intersect.ScanPlanes | src/scene.cpp:67-75 | the loop of hit_planes computes the same for planes |
| Intersect.HitSpheres | src/scene.cpp:39-64 | the method's hit record equals NearestSphereHit |
| Intersect.HitPlanes | src/scene.cpp:66-90 | the method's hit record equals NearestPlaneHit |
| Intersect.HitSceneMiss | src/scene.cpp:92-100 | hit_scene reports no hit exactly when no sphere and no plane is hit at all |
| Intersect.HitSceneNearest | src/scene.cpp:92-100 | a reported hit is no farther than every sphere and plane intersection and faces the ray |
| Intersect.HitSceneTieBreak | src/scene.cpp:93-97 | the nearest sphere is returned unless the nearest plane is strictly closer; at equal distance the sphere wins |
| Integrator.DiffuseFactor | src/ray.cpp:16-18 | the diffuse factor, clamped before scaling, lies between 0 and the diffuse intensity |
| Integrator.BlinnPhongFactors | src/ray.cpp:13-27 | the diffuse factor lies in [0, diffuse_intensity], and specular is zero unless shininess > 0 and dot(N, L) > 0.001 |
| Integrator.CalcSurfaceColor | src/ray.cpp:32-40 | any non-Blinn-Phong material yields black |
| Integrator.DirectionalTerm | src/ray.cpp:56-63 | a directional light contributes exactly when its shadow ray hits nothing |
| Integrator.OccludedLightsIgnored | src/ray.cpp:56-63 | directional lights whose shadow rays all hit something add nothing |
| Integrator.DirectionalLighting | src/ray.cpp:55-63 | the directional loop sums the contributions of the unshadowed lights |
| Integrator.AreaSampleAcceptance | src/ray.cpp:79-95 | a sample is skipped when seen from the emitter's back or when the shadow ray first meets another entity; an unobstructed ray or a self-hit counts the surface colour |
| Integrator.TakeAreaSample | src/ray.cpp:79-95 | one area sample takes two draws and yields the accepted colour or nothing |
| Integrator.SampleRow | src/ray.cpp:78-96 | the inner v loop returns exactly the row's sum of accepted samples and leaves the stream where RowSweep says |
| Integrator.RowSweep | src/ray.cpp:78-96 | the inner v loop of one row draws exactly two numbers per remaining cell |
| Integrator.RowAllRejected | src/ray.cpp:78-96 | a row whose every sample is rejected leaves the light's running sum unchanged, and still draws twice per cell |
| Integrator.AreaLighting | src/ray.cpp:66-102 | one area light's u/v loops, tinting and averaging by u_samples * v_samples advance the sweep to the next light |
| Integrator.DirectLighting | src/ray.cpp:52-102 | the directional and area loops compute DirectLight's colour and stream position |
| Integrator.AreaSweep | src/ray.cpp:66-102 | the loops over lights and rows, each row by RowSweep, never move the stream backwards |
| Integrator.RowCellsProduct | src/ray.cpp:77-78 | the rows left of a light hold (u_samples - u) * v_samples cells |
| Integrator.SweepDraws | src/ray.cpp:66-102 | the sweep draws exactly two numbers per remaining sample cell, accepted or not |
| Integrator.DirectLightDraws | src/ray.cpp:66-102 | direct lighting draws two numbers per cell of every area light |
| Integrator.IndirectLighting | src/ray.cpp:104-117 | the bounce method computes Bounce's colour and stream position |
| Integrator.Bounce | src/ray.cpp:104-117 | the bounce never moves the stream backwards |
| Integrator.BounceRecurses | src/ray.cpp:105-112 | above depth one the bounce takes two draws and recurses one level down along the sampled direction |
| Integrator.Radiance | src/ray.cpp:42-120 | ray_color's result with the stream position it leaves; the stream only moves forward |
| Integrator.RayColor | src/ray.cpp:42-120 | the recursive method with its loops computes Radiance and leaves the random stream where Radiance says |
| Integrator.RadianceEarlyExits | src/ray.cpp:43-50 | depth <= 0, a miss or a back-facing hit give black, and an unlit hit gives its colour unclamped, all without drawing |
| Integrator.RadianceOfMiss | src/ray.cpp:46-47 | through hit_scene, a ray meeting no sphere and no plane is black |
| Integrator.ShadedRadianceInUnit | src/ray.cpp:119 | every channel of a shaded result lies in [0,1] |
| Integrator.NoBounceAtDepthOne | src/ray.cpp:105 | at depth one there is no recursion: the result is the clamped direct light |
| Tiles.TileCountTest | src/main.cpp:80-81 | the float loop `k < extent / 100` runs exactly ceil(extent/100) times |
| Tiles.ColumnTiles | src/main.cpp:81-86 | a column holds one tile per row |
| Tiles.TileWellPlaced | src/main.cpp:82-84 | each tile lies in the image, is non-empty and spans at most 100 pixels per axis |
| Tiles.TilesWellPlaced | src/main.cpp:80-86 | every enqueued tile is well placed |
| Tiles.ColumnWellPlaced | src/main.cpp:81-86 | every tile of a column is well placed |
| Tiles.ColumnsLength | src/main.cpp:80-86 | ceil(width/100) * ceil(height/100) tiles are enqueued |
| Tiles.TileOrder | src/main.cpp:80-85 | x-major order: tile (x, y) is at queue position x * rows + y |
| Tiles.ColumnTileAt | src/main.cpp:81-85 | within a column, tile y is at position y |
| Tiles.TileContains | src/main.cpp:82-84 | a pixel is in tile (x, y) exactly when it is in the image and its coordinates divided by 100 are (x, y) |
| Tiles.ColumnCoverage | src/main.cpp:81-86 | a column covers each of its pixels once |
| Tiles.ColumnsCoverage | src/main.cpp:80-86 | the first n columns cover each of their pixels once |
| Tiles.TilesCoverImage | src/main.cpp:80-86 | the tiles cover every image pixel exactly once and nothing outside the image |
| Tiles.SharedPixelCoverage | src/main.cpp:80-86 | two queue entries sharing a pixel would cover it twice |
| Tiles.TilesDisjoint | src/main.cpp:80-86 | distinct tiles never share a pixel |
| Render.ToByte | src/main.cpp:66-68 | the byte is the integer part of 255.99 * c for c in [0,1] |
| Render.PixelOffset | src/main.cpp:65 | an in-image pixel's three bytes lie inside the width*height*3 buffer |
| Render.PixelRow | src/main.cpp:65 | row y is stored as buffer row height - 1 - y |
| Render.PixelOffsetsDisjoint | src/main.cpp:65 | distinct pixels own disjoint three-byte spans |
| Render.SubCellInGrid | src/main.cpp:55-56 | each sample index maps into the samples_base x samples_base grid |
| Render.SubCellOnto | src/main.cpp:51-56 | every grid cell is visited by some sample index below samples_base² |
| Render.SubCellInjective | src/main.cpp:51-56 | distinct sample indices visit distinct cells |
| Render.SampleInPixel | src/main.cpp:52-56 | every sub-sample position lies strictly inside its pixel |
| Render.SampleSum | src/main.cpp:51-60 | summing the sub-samples moves the random stream only forward |
| Render.PixelColor | src/main.cpp:51-63 | the averaged, clamped pixel colour lies in [0,1] per channel |
| Render.RenderingTask.constructor | src/main.cpp:185-195 | a zeroed buffer of width*height*3 bytes, an empty queue and the tracer's context over the scene |
| Render.RenderingTask.GenerateTiles | src/main.cpp:78-87 | the nested loops enqueue exactly the x-major tile queue |
| Render.RenderingTask.RenderPixel | src/main.cpp:49-63 | the sample loop computes PixelColor and leaves the stream where it says, with every channel in [0,1] |
| Render.RenderingTask.WritePixel | src/main.cpp:65-68 | the three bytes at the flipped offset receive the channels, and nothing else in the buffer changes |
| Render.RenderingTask.RenderTile | src/main.cpp:47-70 | each pixel of the tile is written once more, and no other pixel is written |
| Render.RenderingTask.GenerateImagePart | src/main.cpp:32-72 | the worker renders the queued tiles in FIFO order until the queue is empty, writing each pixel as often as the tiles cover it |
| Render.RenderingTask.GenerateImage | src/main.cpp:78-87 | after tiling and one sequential drain, every pixel of the image has been written exactly once |

## Left out

- Threads, the queue mutex and the atomic `Stats::ray_count`: one sequential worker drains the queue. `ray_count` is never incremented in the shown code. `std::thread::hardware_concurrency()` (src/main.cpp:75) may return 0, in which case the loop at src/main.cpp:91 starts no worker and no pixel is written; the model always runs one worker.
- Floating point: vectors are over `real`. IEEE rounding, infinities and NaN are not modelled. `INFINITY` as a bound becomes `None`.
- `sqrt`, `normalize`, `pow`, `uniform_sample_hemisphere`, `create_tangent` and `align_nbt` are uninterpreted. `create_tangent` and `align_nbt` are folded into the hemisphere helper.
- The random generator: its distribution and the shared static `mt19937` become an arbitrary stream of reals. No claim is made about ranges or independence.
- The camera (`init_camera`, `ray_from_camera`) is an opaque function from image coordinates to rays.
- `make_box`, `make_rect`, `make_mat_lambert`, `make_mat_invisible` and the hard-coded scene of `main` are not part of this model. `AddAreaLight` takes the invisible material as an argument.
- Console output, timing and writing the BMP file are I/O.
- `ambient_light` and `ambient_occlusion_samples` are held by the source but never read by the modelled code.
- The radiometric values: the Monte Carlo estimator's `PI` and `pdf` factors and the Blinn-Phong numbers are stated as computed, with no correctness claim.
- Render.ToByte: `static_cast<char>(255.99f * c)` (src/main.cpp:66-68) converts a float to a signed `char`. A value of 128 or more is out of range for it, which is undefined behaviour in C++, and this happens for every channel above about 0.5. The model stores the floor as an unsigned byte instead.
- Render.RenderingTask.RenderTile, GenerateImagePart, GenerateImage: state which pixels are written and how often, not where the random stream ends. The byte values are stated per pixel by WritePixel.
- Integrator.ShadedRadianceInUnit: covers the shaded path only. An unlit hit returns its material colour unclamped, as the source does.
- SceneBuild.Scene.AddSphere, AddPlane, AddPlanes, AddAreaLight: the fresh-id guarantee needs the 16-bit counter not to wrap. The wrap itself is modelled.
- Render.Usable, Entities.Renderable: the model requires `samples_base > 0` and `u_samples, v_samples > 0`. The source accepts 0 and then divides 0 by 0 (src/main.cpp:62, src/ray.cpp:100), which gives NaN. A NaN colour is not a value over `real`, so those configurations are outside the model.
- 32-bit `int` overflow is not modelled. The model's integers are unbounded for the pixel offset and buffer size (src/main.cpp:65, 185) and for `samples_base * samples_base` (src/main.cpp:35), so the bounds proved there assume the products fit in 32 bits.
- Integrator.IndirectLighting, Integrator.Bounce: C++ leaves unspecified the order in which the two `rand_float()` arguments at src/ray.cpp:106 are evaluated. The model fixes it left to right: the first draw is the hemisphere's first argument.
