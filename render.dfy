/**
 * The renderer of src/main.cpp, run by one worker: the tile queue is filled
 * by generate_image and drained front to back by generate_image_part, which
 * averages samples_base^2 camera rays through fixed sub-pixel cell centres,
 * clamps the average to [0,1] and stores three bytes per pixel. Image row
 * y = 0 is the bottom of the view, and the buffer holds the top row first.
 */
module Render {
  import opened Wrappers
  import opened Geometry
  import opened Entities
  import opened Integrator
  import opened Tiles
  import opened IntArith

  /** The render settings (src/config.h). */
  datatype Config = Config(width: int, height: int, samplesBase: int, maxDepth: int, ambientOcclusionSamples: int)

  /** Settings a render can run with: an image of non-negative size and at least one sample per axis. */
  predicate Usable(cfg: Config) {
    cfg.width >= 0 && cfg.height >= 0 && cfg.samplesBase > 0
  }

  newtype byte = b: int | 0 <= b < 256

  /** The conversion of a channel in [0,1] to a byte: 255.99 * c truncated. */
  function ToByte(c: real): (b: byte)
    requires 0.0 <= c <= 1.0
    ensures b as real <= 255.99 * c < b as real + 1.0
  {
    (255.99 * c).Floor as byte
  }

  // ------------------------------------------------------ pixel addressing

  /** The byte offset of pixel (x, y): the rows are stored flipped (top row first), three bytes per pixel. */
  function PixelOffset(width: int, height: int, x: int, y: int): (o: int)
    ensures 0 <= x < width && 0 <= y < height ==> 0 <= o && o + 3 <= width * height * 3
  {
    PixelRow(width, height, x, y);
    ((height - y - 1) * width + x) * 3
  }

  /** A pixel's three bytes lie in stored row height - 1 - y of the buffer. */
  lemma PixelRow(width: int, height: int, x: int, y: int)
    ensures 0 <= x < width && 0 <= y < height ==>
              var o := ((height - y - 1) * width + x) * 3;
              (height - 1 - y) * width * 3 <= o && o + 3 <= (height - y) * width * 3 <= width * height * 3
  {
    if 0 <= x < width && 0 <= y < height {
      var row := height - y - 1;
      assert 0 <= row * width;
      assert (row + 1) * width <= height * width;
    }
  }

  /** Distinct pixels own disjoint three-byte spans. */
  lemma PixelOffsetsDisjoint(width: int, height: int, x1: int, y1: int, x2: int, y2: int)
    requires 0 <= x1 < width && 0 <= y1 < height
    requires 0 <= x2 < width && 0 <= y2 < height
    requires (x1, y1) != (x2, y2)
    ensures var o1 := PixelOffset(width, height, x1, y1);
            var o2 := PixelOffset(width, height, x2, y2);
            o1 + 3 <= o2 || o2 + 3 <= o1
  {
    var r1 := height - y1 - 1;
    var r2 := height - y2 - 1;
    if r1 < r2 {
      assert (r1 + 1) * width <= r2 * width;
    } else if r2 < r1 {
      assert (r2 + 1) * width <= r1 * width;
    }
  }

  // ------------------------------------------------------ sub-pixel grid

  /** The sub-pixel cell sample i falls in: column i % samples_base, row i / samples_base. */
  function SubCell(samplesBase: int, i: int): (int, int)
    requires samplesBase > 0
  {
    (i % samplesBase, i / samplesBase)
  }

  /** Every sample index lands in the samples_base x samples_base grid ... */
  lemma SubCellInGrid(samplesBase: int, i: int)
    requires samplesBase > 0 && 0 <= i < samplesBase * samplesBase
    ensures 0 <= SubCell(samplesBase, i).0 < samplesBase
    ensures 0 <= SubCell(samplesBase, i).1 < samplesBase
  {
    var q := i / samplesBase;
    assert q * samplesBase <= i;
    MulStrict(q, samplesBase, samplesBase);
  }

  /** ... every cell (a, b) of the grid is the cell of sample b * samples_base + a ... */
  lemma SubCellOnto(samplesBase: int, a: int, b: int)
    requires samplesBase > 0 && 0 <= a < samplesBase && 0 <= b < samplesBase
    ensures 0 <= b * samplesBase + a < samplesBase * samplesBase
    ensures SubCell(samplesBase, b * samplesBase + a) == (a, b)
  {
    MulMonotone(samplesBase, b + 1, samplesBase);
    MulNonneg(b, samplesBase);
    DivModUnique(b * samplesBase + a, samplesBase, b, a);
  }

  /** ... and no two samples share a cell. */
  lemma SubCellInjective(samplesBase: int, i: int, j: int)
    requires samplesBase > 0 && 0 <= i && 0 <= j && i != j
    ensures SubCell(samplesBase, i) != SubCell(samplesBase, j)
  {
  }

  /** The image-plane coordinates of sample i of pixel (x, y): the centre of its sub-pixel cell. */
  function SampleUV(cfg: Config, x: int, y: int, i: int): (real, real)
    requires cfg.width > 0 && cfg.height > 0 && cfg.samplesBase > 0
  {
    var pixelSizeX := 1.0 / cfg.width as real / cfg.samplesBase as real;
    var pixelSizeY := 1.0 / cfg.height as real / cfg.samplesBase as real;
    var cell := SubCell(cfg.samplesBase, i);
    (x as real / cfg.width as real + (cell.0 as real + 0.5) * pixelSizeX,
     y as real / cfg.height as real + (cell.1 as real + 0.5) * pixelSizeY)
  }

  /** Each sample of pixel (x, y) lies strictly inside the pixel's footprint on the image plane. */
  lemma SampleInPixel(cfg: Config, x: int, y: int, i: int)
    requires cfg.width > 0 && cfg.height > 0 && cfg.samplesBase > 0
    requires 0 <= i < cfg.samplesBase * cfg.samplesBase
    ensures var uv := SampleUV(cfg, x, y, i);
            && x as real / cfg.width as real < uv.0 < (x + 1) as real / cfg.width as real
            && y as real / cfg.height as real < uv.1 < (y + 1) as real / cfg.height as real
  {
    SubCellInGrid(cfg.samplesBase, i);
    var cell := SubCell(cfg.samplesBase, i);
    CellOffset(cfg.width as real, cfg.samplesBase as real, cell.0 as real, x as real);
    CellOffset(cfg.height as real, cfg.samplesBase as real, cell.1 as real, y as real);
  }

  /** x / w + (a + 0.5) / w / n lies strictly between x / w and (x + 1) / w when 0 <= a <= n - 1. */
  lemma CellOffset(w: real, n: real, a: real, x: real)
    requires w > 0.0 && n >= 1.0 && 0.0 <= a <= n - 1.0
    ensures x / w < x / w + (a + 0.5) * (1.0 / w / n) < (x + 1.0) / w
  {
    var p := 1.0 / w / n;
    assert p > 0.0;
    assert n * p == 1.0 / w;
    assert (a + 0.5) * p < n * p;
    assert (x + 1.0) / w == x / w + 1.0 / w;
  }

  // ------------------------------------------------------ pixel colour

  /**
   * The first n samples of pixel (x, y) traced through `camera` and summed,
   * the stream starting at `cursor`; also where the stream is afterwards.
   */
  function SampleSum(ctx: Context, camera: (real, real) -> Ray, cfg: Config, x: int, y: int, n: nat, cursor: nat): (r: (Vec3, nat))
    requires Renderable(ctx.scene) && cfg.width > 0 && cfg.height > 0 && cfg.samplesBase > 0
    ensures r.1 >= cursor
  {
    if n == 0 then (Zero(), cursor)
    else
      var prev := SampleSum(ctx, camera, cfg, x, y, n - 1, cursor);
      var uv := SampleUV(cfg, x, y, n - 1);
      var traced := Radiance(ctx, camera(uv.0, uv.1), cfg.maxDepth, prev.1);
      (Add(prev.0, traced.0), traced.1)
  }

  /** The colour stored for pixel (x, y): the sample average, clamped per channel to [0,1]. */
  function PixelColor(ctx: Context, camera: (real, real) -> Ray, cfg: Config, x: int, y: int, cursor: nat): (r: (Vec3, nat))
    requires Renderable(ctx.scene) && cfg.width > 0 && cfg.height > 0 && cfg.samplesBase > 0
    ensures InUnit(r.0)
  {
    var samples := cfg.samplesBase * cfg.samplesBase;
    var sum := SampleSum(ctx, camera, cfg, x, y, samples, cursor);
    (Clamp01(Div(sum.0, samples as real)), sum.1)
  }

  // ------------------------------------------------------ the render task

  /**
   * RenderingTask: the settings, the scene the rays are traced in, the camera
   * (as the ray generator ray_from_camera), the shared generator, the pixel
   * buffer and the tile queue. `writes[y][x]` counts the stores to pixel
   * (x, y) and `rendered` lists the tiles taken off the queue, in order.
   */
  class RenderingTask {
    const cfg: Config
    const ctx: Context
    const camera: (real, real) -> Ray
    const rng: Random
    const pixels: array<byte>
    var rectangles: seq<Rect>
    ghost var writes: seq<seq<nat>>
    ghost var rendered: seq<Rect>

    ghost predicate Valid()
      reads this
    {
      && Usable(cfg)
      && Traces(ctx)
      && rng.stream == ctx.rand
      && pixels.Length == cfg.width * cfg.height * 3
      && |writes| == cfg.height
      && (forall y :: 0 <= y < |writes| ==> |writes[y]| == cfg.width)
    }

    /** Every pixel of the image has been stored `n` times. */
    ghost predicate AllWritten(n: nat)
      reads this
      requires Valid()
    {
      forall y, x :: 0 <= y < cfg.height && 0 <= x < cfg.width ==> writes[y][x] == n
    }

    /** A task over `scene`, with a zeroed width * height * 3 buffer and an empty queue. */
    constructor (cfg: Config, eye: Vec3, scene: SceneView, env: Maths, camera: (real, real) -> Ray, rng: Random)
      requires Usable(cfg) && Renderable(scene)
      ensures Valid() && AllWritten(0)
      ensures this.cfg == cfg && this.camera == camera && this.rng == rng
      ensures ctx == MakeContext(eye, scene, env, rng.stream)
      ensures fresh(pixels) && forall k :: 0 <= k < pixels.Length ==> pixels[k] == 0
      ensures rectangles == [] && rendered == []
    {
      this.cfg := cfg;
      this.ctx := MakeContext(eye, scene, env, rng.stream);
      this.camera := camera;
      this.rng := rng;
      this.pixels := new byte[cfg.width * cfg.height * 3](_ => 0);
      this.rectangles := [];
      this.writes := seq(cfg.height, _ => seq(cfg.width, _ => 0));
      this.rendered := [];
    }

    /** The tile loops of generate_image: the image's tiles pushed onto the queue, x-major. */
    method GenerateTiles()
      requires Valid()
      modifies this
      ensures Valid()
      ensures rectangles == old(rectangles) + TileQueue(cfg.width, cfg.height)
      ensures writes == old(writes) && rendered == old(rendered)
    {
      var x := 0;
      while x * TILE < cfg.width
        invariant 0 <= x <= TileCount(cfg.width)
        invariant Valid() && writes == old(writes) && rendered == old(rendered)
        invariant rectangles == old(rectangles) + Columns(cfg.width, cfg.height, x)
      {
        TileCountTest(cfg.width, x);
        var y := 0;
        while y * TILE < cfg.height
          invariant 0 <= y <= TileCount(cfg.height)
          invariant Valid() && writes == old(writes) && rendered == old(rendered)
          invariant rectangles == old(rectangles) + Columns(cfg.width, cfg.height, x) + ColumnTiles(cfg.width, cfg.height, x, y)
        {
          TileCountTest(cfg.height, y);
          var rect := Rect(x * TILE, y * TILE, 0, 0);
          rect := rect.(x1 := Min(cfg.width, rect.x0 + TILE));
          rect := rect.(y1 := Min(cfg.height, rect.y0 + TILE));
          rectangles := rectangles + [rect];
          y := y + 1;
        }
        TileCountTest(cfg.height, y);
        x := x + 1;
      }
      TileCountTest(cfg.width, x);
    }

    /** The sample loop of generate_image_part for pixel (x, y), then the average and the clamp. */
    method RenderPixel(x: int, y: int) returns (color: Vec3)
      requires Valid() && 0 <= x < cfg.width && 0 <= y < cfg.height
      modifies rng
      ensures (color, rng.drawn) == PixelColor(ctx, camera, cfg, x, y, old(rng.drawn))
      ensures InUnit(color)
    {
      var samples := cfg.samplesBase * cfg.samplesBase;
      ghost var cursor := rng.drawn;
      color := Zero();
      for i := 0 to samples
        invariant (color, rng.drawn) == SampleSum(ctx, camera, cfg, x, y, i, cursor)
      {
        var uv := SampleUV(cfg, x, y, i);
        var r := camera(uv.0, uv.1);
        var traced := RayColor(ctx, r, rng, cfg.maxDepth, rng.drawn);
        color := Add(color, traced);
      }
      color := Div(color, samples as real);
      color := Clamp01(color);
    }

    /** The three byte stores of pixel (x, y) at its vertically flipped offset. */
    method WritePixel(x: int, y: int, color: Vec3)
      requires Valid() && 0 <= x < cfg.width && 0 <= y < cfg.height && InUnit(color)
      modifies this, pixels
      ensures Valid() && rectangles == old(rectangles) && rendered == old(rendered)
      ensures writes == old(writes)[y := old(writes)[y][x := old(writes)[y][x] + 1]]
      ensures var o := PixelOffset(cfg.width, cfg.height, x, y);
              && pixels[o] == ToByte(color.x) && pixels[o + 1] == ToByte(color.y) && pixels[o + 2] == ToByte(color.z)
              && forall k :: 0 <= k < pixels.Length && !(o <= k < o + 3) ==> pixels[k] == old(pixels[k])
    {
      var o := PixelOffset(cfg.width, cfg.height, x, y);
      pixels[o] := ToByte(color.x);
      pixels[o + 1] := ToByte(color.y);
      pixels[o + 2] := ToByte(color.z);
      writes := writes[y := writes[y][x := writes[y][x] + 1]];
    }

    /** The pixel loops of generate_image_part over one tile, rows outer. */
    method RenderTile(rect: Rect)
      requires Valid() && WellPlaced(cfg.width, cfg.height, rect)
      modifies this, pixels, rng
      ensures Valid() && rectangles == old(rectangles) && rendered == old(rendered)
      ensures forall py, px :: 0 <= py < cfg.height && 0 <= px < cfg.width ==>
                writes[py][px] == old(writes)[py][px] + if Contains(rect, px, py) then 1 else 0
    {
      for y := rect.y0 to rect.y1
        invariant Valid() && rectangles == old(rectangles) && rendered == old(rendered)
        invariant forall py, px :: 0 <= py < cfg.height && 0 <= px < cfg.width ==>
                    writes[py][px] == old(writes)[py][px] + if Contains(rect.(y1 := y), px, py) then 1 else 0
      {
        for x := rect.x0 to rect.x1
          invariant Valid() && rectangles == old(rectangles) && rendered == old(rendered)
          invariant forall py, px :: 0 <= py < cfg.height && 0 <= px < cfg.width ==>
                      writes[py][px] == old(writes)[py][px] +
                        if Contains(rect.(y1 := y), px, py) || (py == y && rect.x0 <= px < x) then 1 else 0
        {
          var color := RenderPixel(x, y);
          WritePixel(x, y, color);
        }
      }
    }

    /** generate_image_part: take tiles off the front of the queue and render them until it is empty. */
    method GenerateImagePart()
      requires Valid() && forall r :: r in rectangles ==> WellPlaced(cfg.width, cfg.height, r)
      modifies this, pixels, rng
      ensures Valid() && rectangles == []
      ensures rendered == old(rendered) + old(rectangles)
      ensures forall py, px :: 0 <= py < cfg.height && 0 <= px < cfg.width ==>
                writes[py][px] == old(writes)[py][px] + Coverage(old(rectangles), px, py)
    {
      ghost var queue := rectangles;
      ghost var done := 0;
      while rectangles != []
        invariant Valid() && 0 <= done <= |queue|
        invariant rectangles == queue[done..]
        invariant rendered == old(rendered) + queue[..done]
        invariant forall py, px :: 0 <= py < cfg.height && 0 <= px < cfg.width ==>
                    writes[py][px] == old(writes)[py][px] + Coverage(queue[..done], px, py)
        decreases |rectangles|
      {
        var rect := rectangles[0];
        rectangles := rectangles[1..];
        assert rect == queue[done] && rect in queue;
        assert queue[..done + 1][..done] == queue[..done];
        assert queue[..done + 1] == queue[..done] + [rect];
        rendered := rendered + [rect];
        RenderTile(rect);
        done := done + 1;
      }
      assert queue[..done] == queue;
    }

    /** generate_image with one worker: queue every tile, then drain the queue; every pixel is stored once. */
    method GenerateImage()
      requires Valid() && rectangles == [] && AllWritten(0)
      modifies this, pixels, rng
      ensures Valid() && rectangles == [] && AllWritten(1)
      ensures rendered == old(rendered) + TileQueue(cfg.width, cfg.height)
    {
      GenerateTiles();
      assert rectangles == TileQueue(cfg.width, cfg.height);
      TilesWellPlaced(cfg.width, cfg.height, TileCount(cfg.width));
      GenerateImagePart();
      forall py, px | 0 <= py < cfg.height && 0 <= px < cfg.width
        ensures writes[py][px] == 1
      {
        TilesCoverImage(cfg.width, cfg.height, px, py);
      }
    }
  }
}
