/**
 * The offline video export of src/features/generator/offlineExporter.ts: the canvas size for
 * a resolution tier, the scale from the 1920-wide logical layout to that canvas, the frame
 * count and frame times at 60 frames per second, and the sequence of callbacks an export
 * makes. Every frame is rendered by `RenderLoop` with one particle list that starts empty.
 *
 * The host's side of the export (the 2D context, the WebM writer, the download and the
 * clock) is a `Host` value saying which of those steps succeed, and the writer's content is a
 * `Video`; the callbacks `onProgress`, `onComplete` and `onError` are the `Event`s the export
 * emits, in order.
 */
module OfflineExporter {
  import opened Wrappers
  import opened MathModel
  import opened Store
  import opened Confetti
  import opened RenderLoop

  // ---------------------------------------------------------------------------------------
  // Canvas size and scale

  /** `getBaseDimensions`: 1920 by 1080 unless a later test matches the tier; portrait swaps
      the sides. The if-chain picks each tier's own size. */
  function BaseDimensions(resolution: ResolutionTier, format: LayoutFormat): (r: (real, real))
    ensures format == Landscape ==> r == TierSize(resolution)
    ensures format == Portrait ==> r == (TierSize(resolution).1, TierSize(resolution).0)
  {
    var name := resolution.Name();
    var d0 := (1920.0, 1080.0);
    var d1 := if name == "480p" then (854.0, 480.0) else d0;
    var d2 := if name == "720p" then (1280.0, 720.0) else d1;
    var d3 := if name == "1080p" then (1920.0, 1080.0) else d2;
    var d4 := if name == "2k" then (2560.0, 1440.0) else d3;
    var d5 := if name == "4k" then (3840.0, 2160.0) else d4;
    if format == Portrait then (d5.1, d5.0) else d5
  }

  /** The pixel size of each tier in landscape: wider than tall, and 16:9 for every tier but
      480p. */
  function TierSize(resolution: ResolutionTier): (r: (real, real))
    ensures r.0 > r.1 > 0.0
    ensures resolution != R480p <==> 9.0 * r.0 == 16.0 * r.1
  {
    match resolution
    case R480p => (854.0, 480.0)
    case R720p => (1280.0, 720.0)
    case R1080p => (1920.0, 1080.0)
    case R2k => (2560.0, 1440.0)
    case R4k => (3840.0, 2160.0)
  }

  /** `physicalW`, `physicalH`: the base size times the supersampling factor. */
  function PhysicalDimensions(s: CTAState): (r: (real, real))
    ensures r.0 > 0.0 && r.1 > 0.0
    ensures var size := TierSize(s.resolution);
      r == (if s.format == Landscape then (Mul(size.0, s.superSampling), Mul(size.1, s.superSampling))
            else (Mul(size.1, s.superSampling), Mul(size.0, s.superSampling)))
  {
    var base := BaseDimensions(s.resolution, s.format);
    (Mul(base.0, s.superSampling), Mul(base.1, s.superSampling))
  }

  /** `globalScale`: the canvas width over the logical width (1920 landscape, 1080 portrait). */
  function GlobalScale(s: CTAState): (g: real)
    ensures g > 0.0
  {
    var logicalRefW := if s.format == Landscape then 1920.0 else 1080.0;
    var w := PhysicalDimensions(s).0;
    FractionPositive(w, logicalRefW);
    Div(w, logicalRefW)
  }

  lemma FractionPositive(a: real, b: real)
    requires a > 0.0 && b > 0.0
    ensures Div(a, b) > 0.0
  {
    var q := a / b;
    assert Mul(q, b) == a;
    PositiveFactor(q, b);
  }

  /** At 1080p the global scale is the supersampling factor itself; at factor 2 the canvas is
      3840 by 2160 (2160 by 3840 in portrait). */
  lemma ScaleAt1080p(s: CTAState)
    requires s.resolution == R1080p
    ensures GlobalScale(s) == s.superSampling
    ensures s.superSampling == 2.0 ==>
      PhysicalDimensions(s) == (if s.format == Landscape then (3840.0, 2160.0) else (2160.0, 3840.0))
  {
  }

  /** The logical canvas a frame lays itself out on. */
  function LogicalCanvas(s: CTAState): (r: (real, real)) {
    (Div(PhysicalDimensions(s).0, GlobalScale(s)), Div(PhysicalDimensions(s).1, GlobalScale(s)))
  }

  /** Every tier except 480p gives the layout exactly the 1920 by 1080 logical canvas (1080 by
      1920 in portrait), whatever the supersampling factor. */
  lemma LogicalCanvasIsReference(s: CTAState)
    requires s.resolution != R480p
    ensures LogicalCanvas(s) == (if s.format == Landscape then (1920.0, 1080.0) else (1080.0, 1920.0))
  {
  }

  /** 854 by 480 is not 16:9, so at 480p the logical canvas is slightly shorter than 1080
      (slightly narrower than 1920 in portrait), and the card sits a little above 540. */
  lemma LogicalCanvasAt480p(s: CTAState)
    requires s.resolution == R480p
    ensures LogicalCanvas(s) == (if s.format == Landscape then (1920.0, 480.0 * 1920.0 / 854.0)
                                 else (1080.0, 854.0 * 1080.0 / 480.0))
    ensures s.format == Landscape ==> LogicalCanvas(s).1 < 1080.0
  {
  }

  // ---------------------------------------------------------------------------------------
  // Frames

  const Fps: real := 60.0

  /** `Math.ceil(6 D * 60)`, as the number of times `for (i = 0; i < totalFrames; i++)` runs. */
  function FrameCount(d: real): (n: nat)
    ensures n > 0 ==> d > 0.0
    ensures d > 0.0 ==> (n - 1) as real < 6.0 * d * Fps <= n as real
  {
    var c := Ceil(6.0 * d * Fps);
    if c > 0 then c else 0
  }

  /** The default duration gives 360 frames, six seconds at 60 frames per second; a duration
      of 2 gives 720. */
  lemma FrameCountOfDefaults()
    ensures FrameCount(Defaults.animation.duration) == 360
    ensures FrameCount(2.0) == 720
  {
  }

  /** `i * msPerFrame`: frame `i` is shown `i / 60` seconds in. */
  function FrameTime(i: nat): (t: real)
    ensures t >= 0.0 && t * Fps == 1000.0 * i as real
  {
    i as real * (1000.0 / Fps)
  }

  /** Frame times start at 0, are 1000/60 ms apart, and every exported frame falls inside the
      first cycle `[0, 6000 D)`, so its cycle time is its time. */
  lemma FrameTimesCoverOneCycle(d: real, i: nat)
    requires i < FrameCount(d)
    ensures 0.0 <= FrameTime(i) < 6000.0 * d
    ensures CycleTime(FrameTime(i), d) == FrameTime(i)
    ensures FrameTime(i + 1) - FrameTime(i) == 1000.0 / Fps
  {
  }

  /** `(i / totalFrames) * 100`: a percentage, 0 for the first frame. */
  function Progress(i: nat, n: nat): (p: real)
    requires n > 0
    ensures i <= n ==> 0.0 <= p <= 100.0
    ensures i == 0 ==> p == 0.0
  {
    if 0 < i <= n then
      FractionInUnit(i as real, n as real);
      Div(i as real, n as real) * 100.0
    else Div(i as real, n as real) * 100.0
  }

  /** Progress rises strictly from 0 and never reaches 100: the report for the last frame is
      `(n - 1) / n` of the way. */
  lemma ProgressBounds(i: nat, j: nat, n: nat)
    requires i < j < n
    ensures Progress(0, n) == 0.0
    ensures 0.0 <= Progress(i, n) < Progress(j, n) < 100.0
  {
    var a, b, c := i as real / n as real, j as real / n as real, 1.0;
    assert Mul(a, n as real) == i as real && Mul(b, n as real) == j as real;
    assert Mul(b - a, n as real) == (j - i) as real;
    PositiveFactor(b - a, n as real);
    assert Mul(1.0 - b, n as real) == (n - j) as real;
    PositiveFactor(1.0 - b, n as real);
    DivNonNegative(i as real, n as real);
  }

  // ---------------------------------------------------------------------------------------
  // The export

  /** The host's side: whether a 2D context is available, the first frame `addFrame` throws on
      (if any), whether `complete()` and the download succeed, and `Date.now()`. */
  datatype Host = Host(contextAvailable: bool, writeFailsAt: Option<nat>, finalizes: bool, now: nat)

  /** The `WebMWriter` options. */
  datatype WriterOptions = WriterOptions(quality: real, frameRate: real, transparent: bool)

  /** The options the export creates its writer with. */
  const Options: WriterOptions := WriterOptions(0.9, Fps, true)

  /** The video a `WebMWriter` holds: the options it was created with and the frames handed to
      `addFrame`, in order. `complete()` encodes it into the downloaded blob. */
  datatype Video = Video(options: WriterOptions, frames: seq<Frame>)

  datatype ExportError =
    | NoContext                                    // `getContext('2d')` returned null
    | RenderFailed(frame: nat, cause: RenderError) // `renderFrame` threw
    | WriteFailed(frame: nat)                      // `addFrame` threw
    | FinalizeFailed                               // `complete()` or the download threw

  /** What the caller observes, in order. */
  datatype Event =
    | Rendered(index: nat, time: real, frame: Frame, progress: real)  // frame written, `onProgress`
    | Completed(fileName: string, video: Video)                       // downloaded, `onComplete`
    | Failed(error: ExportError)                                      // `onError`

  /** The decimal digits of `n`, as a template literal prints `Date.now()`. */
  function Decimal(n: nat): (s: string)
    ensures |s| >= 1
    ensures forall k :: 0 <= k < |s| ==> '0' <= s[k] <= '9'
  {
    if n < 10 then [Digit(n)] else Decimal(n / 10) + [Digit(n % 10)]
  }

  function Digit(d: nat): (c: char)
    requires d < 10
    ensures '0' <= c <= '9'
  {
    ('0' as int + d) as char
  }

  /** The number a string of decimal digits denotes. */
  function DigitsValue(s: string): nat
    requires forall k :: 0 <= k < |s| ==> '0' <= s[k] <= '9'
  {
    if s == [] then 0
    else 10 * DigitsValue(s[..|s| - 1]) + (s[|s| - 1] as int - '0' as int)
  }

  /** Reading the printed clock back gives the clock. */
  lemma {:induction false} DecimalRoundTrip(n: nat)
    ensures DigitsValue(Decimal(n)) == n
  {
    if n >= 10 {
      DecimalRoundTrip(n / 10);
      var s := Decimal(n);
      assert s[..|s| - 1] == Decimal(n / 10);
    }
  }

  /** `cta-${resolution}-${Date.now()}.webm`. */
  function FileName(resolution: ResolutionTier, now: nat): (name: string)
    ensures |name| >= 10 && name[..4] == "cta-" && name[|name| - 5..] == ".webm"
  {
    "cta-" + resolution.Name() + "-" + Decimal(now) + ".webm"
  }

  /** The file is always a ".webm" named after the tier and the clock, whatever container
      format the store holds. */
  lemma FileNameShape(resolution: ResolutionTier, now: nat)
    ensures var name := FileName(resolution, now);
      && name[..4] == "cta-"
      && name[|name| - 5..] == ".webm"
      && name[4..4 + |resolution.Name()|] == resolution.Name()
  {
  }

  /** What an export needs of its inputs for the arithmetic to be defined. */
  predicate ExportDefined(s: CTAState, assets: Assets) {
    && NoiseDefined(s.particles)
    && (assets.image.Some? ==> assets.image.value.width > 0.0 && assets.image.value.height > 0.0)
  }

  /** A particle list every particle of which is valid: what one frame hands to the next. */
  type ValidPool = p: Pool | AllValid(p.particles) witness Pool([], 0)

  /** One frame of an export as the loop sees it: from the frame index and the particle list
      the previous frame left, what `renderFrame` returns and the list it leaves behind. */
  type Renderer = (nat, ValidPool) --> (Result<Frame, RenderError>, ValidPool)

  /** The renderer can be asked for every frame below `n`. */
  ghost predicate RendersUpTo(render: Renderer, n: nat) {
    forall i: nat, pool: ValidPool :: i < n ==> render.requires(i, pool)
  }

  /** The terminal event once every frame is written: `onComplete` after `complete()` has
      encoded the writer's `video` and the download, or `onError` when either throws. */
  function Finish(host: Host, name: string, video: Video): (e: seq<Event>)
    ensures |e| == 1 && (e[0].Completed? <==> host.finalizes)
    ensures e[0].Completed? ==> e[0].fileName == name && e[0].video == video
    ensures e[0].Failed? ==> e[0].error == FinalizeFailed
  {
    if host.finalizes then [Completed(name, video)] else [Failed(FinalizeFailed)]
  }

  /** The events of the frame loop from frame `i` of `n` on, given the particle list left by
      frame `i - 1` and the writer's `video` so far: each frame is rendered, then added to the
      writer; the first failure ends the export. */
  function FrameEvents(render: Renderer, host: Host, n: nat, name: string, i: nat, pool: ValidPool,
                       video: Video)
    : (e: seq<Event>)
    requires RendersUpTo(render, n)
    ensures |e| >= 1
    decreases n - i
  {
    if i >= n then Finish(host, name, video)
    else
      var out := render(i, pool);
      match out.0
      case Failure(err) => [Failed(RenderFailed(i, err))]
      case Success(frame) =>
        if host.writeFailsAt == Some(i) then [Failed(WriteFailed(i))]
        else [Rendered(i, FrameTime(i), frame, Progress(i, n))]
             + FrameEvents(render, host, n, name, i + 1, out.1, Video(video.options, video.frames + [frame]))
  }

  /** `renderFrame` as the export calls it: frame `i` at `i * msPerFrame`, on the physical
      canvas, at the global scale, with the store's state and the loaded assets. */
  function ExportRenderer(m: MathLib, s: CTAState, assets: Assets, rng: Stream): (render: Renderer)
    requires ExportDefined(s, assets)
    ensures RendersUpTo(render, FrameCount(s.animation.duration))
  {
    var dims := PhysicalDimensions(s);
    var scale := GlobalScale(s);
    (i: nat, pool: ValidPool) requires s.animation.duration != 0.0 =>
      var next: ValidPool := RenderPool(m, dims.0, dims.1, FrameTime(i), s, scale, rng, pool);
      (RenderResult(m, dims.0, dims.1, FrameTime(i), s, assets, scale, rng, pool), next)
  }

  /** The events of an export that renders with `render`: nothing without a 2D context,
      otherwise the frame loop from frame 0 with an empty particle list and a new writer. */
  function ExportEvents(render: Renderer, host: Host, n: nat, name: string): (e: seq<Event>)
    requires RendersUpTo(render, n)
    ensures |e| >= 1
  {
    if !host.contextAvailable then [Failed(NoContext)]
    else FrameEvents(render, host, n, name, 0, Pool([], 0), Video(Options, []))
  }

  /** `exportVideoOffline`: the events of a whole export. */
  function ExportSpec(m: MathLib, s: CTAState, assets: Assets, host: Host, rng: Stream)
    : (e: seq<Event>)
    requires ExportDefined(s, assets)
    ensures |e| >= 1
  {
    ExportEvents(ExportRenderer(m, s, assets, rng), host, FrameCount(s.animation.duration),
                 FileName(s.resolution, host.now))
  }

  /** `render` answers every frame below `n` as `renderFrame` does on a `width` by `height`
      canvas at `scale`. The link is only drawn for a frame that was actually rendered. */
  ghost predicate RendersAs(render: Renderer, n: nat, m: MathLib, width: real, height: real,
                            s: CTAState, assets: Assets, scale: real, rng: Stream)
    requires FrameDefined(s, assets, scale)
  {
    forall i: nat, pool: ValidPool
      {:trigger RenderResult(m, width, height, FrameTime(i), s, assets, scale, rng, pool)}
      :: i < n ==>
      && render.requires(i, pool)
      && render(i, pool).0 == RenderResult(m, width, height, FrameTime(i), s, assets, scale, rng, pool)
      && render(i, pool).1 == RenderPool(m, width, height, FrameTime(i), s, scale, rng, pool)
  }

  lemma ExportRendererRenders(m: MathLib, s: CTAState, assets: Assets, rng: Stream)
    requires ExportDefined(s, assets) && s.animation.duration != 0.0
    ensures var dims := PhysicalDimensions(s);
      RendersAs(ExportRenderer(m, s, assets, rng), FrameCount(s.animation.duration),
                m, dims.0, dims.1, s, assets, GlobalScale(s), rng)
  {
  }

  /** The export: the context check, then one `ParticleSystem`, fresh and empty, carried
      through every frame. */
  method ExportVideoOffline(m: MathLib, s: CTAState, assets: Assets, host: Host, rng: Stream)
    returns (events: seq<Event>)
    requires ExportDefined(s, assets)
    ensures events == ExportSpec(m, s, assets, host, rng)
  {
    if !host.contextAvailable {
      return [Failed(NoContext)];
    }
    var writer := Video(Options, []);
    var ps := new ParticleSystem(rng, 0);
    ghost var render := ExportRenderer(m, s, assets, rng);
    if s.animation.duration != 0.0 {
      ExportRendererRenders(m, s, assets, rng);
    }
    events := ExportFrames(m, s, assets, host, ps, writer, render);
  }

  /** The frame loop (render, add to the writer, report progress; the first error ends it),
      then the finalisation, on the particle system `ps` and the writer `writer`. */
  method ExportFrames(m: MathLib, s: CTAState, assets: Assets, host: Host, ps: ParticleSystem,
                      writer: Video, ghost render: Renderer)
    returns (events: seq<Event>)
    requires ExportDefined(s, assets) && ps.Valid()
    requires RendersUpTo(render, FrameCount(s.animation.duration))
    requires s.animation.duration != 0.0 ==>
      RendersAs(render, FrameCount(s.animation.duration), m, PhysicalDimensions(s).0,
                PhysicalDimensions(s).1, s, assets, GlobalScale(s), ps.rng)
    modifies ps
    ensures events == FrameEvents(render, host, FrameCount(s.animation.duration),
                                  FileName(s.resolution, host.now), 0, old(ps.State()), writer)
  {
    var n := FrameCount(s.animation.duration);
    var name := FileName(s.resolution, host.now);
    ghost var total := FrameEvents(render, host, n, name, 0, ps.State(), writer);
    var video := writer;
    events := [];
    var i: nat := 0;
    while i < n
      invariant i <= n && ps.Valid()
      invariant events + FrameEvents(render, host, n, name, i, ps.State(), video) == total
      decreases n - i
    {
      FrameStepExtends(render, host, n, name, i, ps.State(), video, events, total);
      var r := RenderExportFrame(m, s, assets, ps, i, render);
      if r.Failure? {
        return events + [Failed(RenderFailed(i, r.error))];
      }
      if host.writeFailsAt == Some(i) {
        return events + [Failed(WriteFailed(i))];
      }
      video := Video(video.options, video.frames + [r.value]);
      events := events + [Rendered(i, FrameTime(i), r.value, Progress(i, n))];
      i := i + 1;
    }
    events := events + Finish(host, name, video);
  }

  /** `FrameEvents` unfolded at frame `i`, one equation per outcome of the frame. */
  lemma FrameEventsStep(render: Renderer, host: Host, n: nat, name: string, i: nat, pool: ValidPool,
                        video: Video)
    requires RendersUpTo(render, n) && i < n
    ensures var out := render(i, pool);
      && (out.0.Failure? ==>
            FrameEvents(render, host, n, name, i, pool, video) == [Failed(RenderFailed(i, out.0.error))])
      && (out.0.Success? && host.writeFailsAt == Some(i) ==>
            FrameEvents(render, host, n, name, i, pool, video) == [Failed(WriteFailed(i))])
      && (out.0.Success? && host.writeFailsAt != Some(i) ==>
            FrameEvents(render, host, n, name, i, pool, video)
            == [Rendered(i, FrameTime(i), out.0.value, Progress(i, n))]
               + FrameEvents(render, host, n, name, i + 1, out.1,
                             Video(video.options, video.frames + [out.0.value])))
  {
  }

  /** How the events emitted before frame `i` and the events from `i` on make up the export,
      one frame further on, per outcome of the frame. */
  lemma FrameStepExtends(render: Renderer, host: Host, n: nat, name: string, i: nat, pool: ValidPool,
                         video: Video, events: seq<Event>, total: seq<Event>)
    requires RendersUpTo(render, n) && i < n
    requires events + FrameEvents(render, host, n, name, i, pool, video) == total
    ensures var out := render(i, pool);
      && (out.0.Failure? ==> events + [Failed(RenderFailed(i, out.0.error))] == total)
      && (out.0.Success? && host.writeFailsAt == Some(i) ==> events + [Failed(WriteFailed(i))] == total)
      && (out.0.Success? && host.writeFailsAt != Some(i) ==>
            events + [Rendered(i, FrameTime(i), out.0.value, Progress(i, n))]
            + FrameEvents(render, host, n, name, i + 1, out.1,
                          Video(video.options, video.frames + [out.0.value]))
            == total)
  {
    FrameEventsStep(render, host, n, name, i, pool, video);
    var out := render(i, pool);
    if out.0.Success? && host.writeFailsAt != Some(i) {
      AppendAssociative(events, [Rendered(i, FrameTime(i), out.0.value, Progress(i, n))],
                        FrameEvents(render, host, n, name, i + 1, out.1,
                                    Video(video.options, video.frames + [out.0.value])));
    }
  }

  lemma AppendAssociative<T>(a: seq<T>, b: seq<T>, c: seq<T>)
    ensures (a + b) + c == a + (b + c)
  {
  }

  /** `renderFrame` called for frame `i` of the export: at `i * msPerFrame`, on the physical
      canvas, at the global scale. It answers as `render` says. */
  method RenderExportFrame(m: MathLib, s: CTAState, assets: Assets, ps: ParticleSystem, i: nat,
                           ghost render: Renderer)
    returns (r: Result<Frame, RenderError>)
    requires ExportDefined(s, assets) && ps.Valid() && i < FrameCount(s.animation.duration)
    requires RendersUpTo(render, FrameCount(s.animation.duration))
    requires RendersAs(render, FrameCount(s.animation.duration), m, PhysicalDimensions(s).0,
                       PhysicalDimensions(s).1, s, assets, GlobalScale(s), ps.rng)
    modifies ps
    ensures ps.Valid()
    ensures r == render(i, old(ps.State())).0 && ps.State() == render(i, old(ps.State())).1
  {
    var dims := PhysicalDimensions(s);
    ghost var before := ps.State();
    r := RenderFrame(m, dims.0, dims.1, FrameTime(i), s, assets, GlobalScale(s), ps);
  }

  // ---------------------------------------------------------------------------------------
  // Properties of an export

  /** `ev` is the `onProgress` report of frame `k` of `n`: rendered at its time and written. */
  predicate WrittenFrame(ev: Event, k: nat, n: nat, host: Host) {
    && ev.Rendered? && ev.index == k && k < n
    && ev.time == FrameTime(k) && ev.progress == Progress(k, n)
    && host.writeFailsAt != Some(k)
  }

  /** `video` holds the writer's earlier frames `before`, then the frames of the `onProgress`
      reports `e`, in order, and nothing else. */
  predicate HoldsFrames(video: Video, before: seq<Frame>, e: seq<Event>)
    requires forall j :: 0 <= j < |e| ==> e[j].Rendered?
  {
    && |video.frames| == |before| + |e|
    && (forall k :: 0 <= k < |before| ==> video.frames[k] == before[k])
    && (forall j :: 0 <= j < |e| ==> video.frames[|before| + j] == e[j].frame)
  }

  /** Adding one report's frame after `before` is holding that report ahead of the rest. */
  lemma HoldsFramesCons(video: Video, before: seq<Frame>, r: Event, rest: seq<Event>)
    requires r.Rendered? && forall j :: 0 <= j < |rest| ==> rest[j].Rendered?
    requires HoldsFrames(video, before + [r.frame], rest)
    ensures HoldsFrames(video, before, [r] + rest)
  {
    var e := [r] + rest;
    forall k | 0 <= k < |before| ensures video.frames[k] == before[k] {
      assert video.frames[k] == (before + [r.frame])[k];
    }
    forall j | 0 <= j < |e| ensures video.frames[|before| + j] == e[j].frame {
      if j == 0 {
        assert video.frames[|before|] == (before + [r.frame])[|before|];
      } else {
        assert video.frames[|before + [r.frame]| + (j - 1)] == rest[j - 1].frame;
      }
    }
  }

  /** From frame `i` on, for any renderer: one `onProgress` report per frame, in frame order,
      each frame written without error; then exactly one terminal event. Completion comes
      after all the remaining frames, and the completed video is the writer's, with those
      frames added after the ones it already held. */
  lemma {:induction false} FrameEventsShape(render: Renderer, host: Host, n: nat, name: string,
                                            i: nat, pool: ValidPool, video: Video)
    requires RendersUpTo(render, n) && i <= n
    ensures var e := FrameEvents(render, host, n, name, i, pool, video);
      && !e[|e| - 1].Rendered?
      && (forall j :: 0 <= j < |e| - 1 ==> WrittenFrame(e[j], i + j, n, host))
      && (e[|e| - 1].Completed? ==>
            && |e| == n - i + 1 && host.finalizes && e[|e| - 1].fileName == name
            && e[|e| - 1].video.options == video.options
            && HoldsFrames(e[|e| - 1].video, video.frames, e[..|e| - 1]))
    decreases n - i
  {
    if i < n {
      var out := render(i, pool);
      if out.0.Success? && host.writeFailsAt != Some(i) {
        var next := Video(video.options, video.frames + [out.0.value]);
        FrameEventsShape(render, host, n, name, i + 1, out.1, next);
        var rest := FrameEvents(render, host, n, name, i + 1, out.1, next);
        var e := FrameEvents(render, host, n, name, i, pool, video);
        assert |e| == 1 + |rest| && e[|e| - 1] == rest[|rest| - 1];
        forall j | 1 <= j < |e| - 1
          ensures WrittenFrame(e[j], i + j, n, host)
        {
          assert WrittenFrame(rest[j - 1], (i + 1) + (j - 1), n, host);
        }
        if e[|e| - 1].Completed? {
          assert e[..|e| - 1] == [e[0]] + rest[..|rest| - 1];
          HoldsFramesCons(e[|e| - 1].video, video.frames, e[0], rest[..|rest| - 1]);
        }
      }
    }
  }

  /** A whole export, whatever renders its frames: `onProgress` once per frame in order,
      then exactly one of `onComplete` and `onError`, last. Without a context nothing is
      rendered. `onComplete` comes only after every one of the `n` frames was rendered and
      written, and the video it downloads is made with the writer's `Options` from exactly
      the reported frames, in order. */
  lemma ExportOutcome(render: Renderer, host: Host, n: nat, name: string)
    requires RendersUpTo(render, n)
    ensures var e := ExportEvents(render, host, n, name);
      && (e[|e| - 1].Completed? || e[|e| - 1].Failed?)
      && (forall j :: 0 <= j < |e| - 1 ==> WrittenFrame(e[j], j, n, host))
      && (!host.contextAvailable ==> e == [Failed(NoContext)])
      && (e[|e| - 1].Completed? ==>
            && |e| == n + 1 && host.finalizes
            && (forall j :: 0 <= j < n ==> host.writeFailsAt != Some(j))
            && e[|e| - 1].fileName == name
            && e[|e| - 1].video.options == Options
            && HoldsFrames(e[|e| - 1].video, [], e[..n]))
  {
    if host.contextAvailable {
      FrameEventsShape(render, host, n, name, 0, Pool([], 0), Video(Options, []));
      var e := FrameEvents(render, host, n, name, 0, Pool([], 0), Video(Options, []));
      if e[|e| - 1].Completed? {
        forall j | 0 <= j < n ensures host.writeFailsAt != Some(j) {
          assert WrittenFrame(e[j], j, n, host);
        }
      }
    }
  }

  /** The downloaded video plays at the export's own frame rate, so frame `j` of the video
      shows at the time it was rendered for; it keeps the alpha channel, at quality 0.9. */
  lemma WriterKeepsFrameClock(render: Renderer, host: Host, n: nat, name: string)
    requires RendersUpTo(render, n)
    ensures var e := ExportEvents(render, host, n, name);
      e[|e| - 1].Completed? ==>
        var v := e[|e| - 1].video;
        && |e| == n + 1 && |v.frames| == n
        && v.options.frameRate == Fps && v.options.transparent && v.options.quality == 0.9
        && (forall j :: 0 <= j < n ==>
              && e[j].Rendered? && v.frames[j] == e[j].frame
              && e[j].time == j as real * (1000.0 / v.options.frameRate))
  {
    ExportOutcome(render, host, n, name);
  }

  /** The particle list frame `k` starts from when the loop starts at frame `i` from `pool`:
      each frame before it hands its new list to the next. */
  ghost function ListAt(render: Renderer, n: nat, i: nat, pool: ValidPool, k: nat): ValidPool
    requires RendersUpTo(render, n) && i <= k <= n
    decreases k - i
  {
    if k == i then pool else ListAt(render, n, i + 1, render(i, pool).1, k)
  }

  /** Frames `i` to `k - 1` all render, each on the list the frame before it hands on, and
      are added to the writer without error. */
  ghost predicate CleanUpTo(render: Renderer, host: Host, n: nat, i: nat, pool: ValidPool, k: nat)
    requires RendersUpTo(render, n) && k <= n
    decreases k - i
  {
    i >= k
    || (&& render(i, pool).0.Success? && host.writeFailsAt != Some(i)
        && CleanUpTo(render, host, n, i + 1, render(i, pool).1, k))
  }

  /** From frame `i` on, the loop ends in `onComplete` exactly when every remaining frame
      renders and is written and `complete()` and the download succeed; it then reports every
      remaining frame once before the single `onComplete`. */
  lemma {:induction false} FrameEventsComplete(render: Renderer, host: Host, n: nat, name: string,
                                               i: nat, pool: ValidPool, video: Video)
    requires RendersUpTo(render, n) && i <= n
    ensures var e := FrameEvents(render, host, n, name, i, pool, video);
      && (e[|e| - 1].Completed? <==> host.finalizes && CleanUpTo(render, host, n, i, pool, n))
      && (e[|e| - 1].Completed? ==> |e| == n - i + 1)
    decreases n - i
  {
    if i < n {
      var out := render(i, pool);
      assert ListAt(render, n, i, pool, i) == pool;
      if out.0.Success? && host.writeFailsAt != Some(i) {
        var next := Video(video.options, video.frames + [out.0.value]);
        FrameEventsComplete(render, host, n, name, i + 1, out.1, next);
      }
    }
  }

  /** The first frame that goes wrong ends the export: if frames `i` to `k - 1` render and are
      written, along the lists they hand on, then a render error or a write error at frame `k`
      is the last event, after the `k - i` reports. */
  lemma {:induction false} FrameEventsFirstFailure(render: Renderer, host: Host, n: nat, name: string,
                                                   i: nat, pool: ValidPool, video: Video, k: nat)
    requires RendersUpTo(render, n) && i <= k < n && CleanUpTo(render, host, n, i, pool, k)
    ensures var e := FrameEvents(render, host, n, name, i, pool, video);
      var out := render(k, ListAt(render, n, i, pool, k));
      && (out.0.Failure? ==> |e| == k - i + 1 && e[k - i] == Failed(RenderFailed(k, out.0.error)))
      && (out.0.Success? && host.writeFailsAt == Some(k) ==>
            |e| == k - i + 1 && e[k - i] == Failed(WriteFailed(k)))
    decreases k - i
  {
    if i < k {
      var out := render(i, pool);
      var next := Video(video.options, video.frames + [out.0.value]);
      FrameEventsFirstFailure(render, host, n, name, i + 1, out.1, next, k);
    }
  }

  /** A whole export calls `onComplete` exactly when there is a 2D context, every frame renders
      and is written, and `complete()` and the download succeed; it then comes once, after all
      `n` reports. Otherwise the first render or write error ends the export with `onError`
      after the reports of the frames before it. */
  lemma ExportSucceedsExactlyWhenClean(render: Renderer, host: Host, n: nat, name: string)
    requires RendersUpTo(render, n)
    ensures var e := ExportEvents(render, host, n, name);
      && (e[|e| - 1].Completed? <==>
            host.contextAvailable && host.finalizes && CleanUpTo(render, host, n, 0, Pool([], 0), n))
      && (e[|e| - 1].Completed? ==>
            |e| == n + 1 && e[n].Completed? && forall j :: 0 <= j < n ==> e[j].Rendered?)
  {
    if host.contextAvailable {
      FrameEventsComplete(render, host, n, name, 0, Pool([], 0), Video(Options, []));
      ExportOutcome(render, host, n, name);
    }
  }

  /** A renderer that never fails, with a writer that never throws, runs clean. */
  lemma {:induction false} NeverFailingRunsClean(render: Renderer, host: Host, n: nat, i: nat,
                                                 pool: ValidPool)
    requires RendersUpTo(render, n) && i <= n && host.writeFailsAt.None?
    requires forall j: nat, p: ValidPool :: j < n ==> render(j, p).0.Success?
    ensures CleanUpTo(render, host, n, i, pool, n)
    decreases n - i
  {
    if i < n {
      NeverFailingRunsClean(render, host, n, i + 1, render(i, pool).1);
    }
  }

  /** With a 2D context, a renderer that never fails, a writer that never throws and a
      successful `complete()` and download, the export reports all `n` frames and then calls
      `onComplete` once, with the file name. */
  lemma ExportCompletesWhenNothingFails(render: Renderer, host: Host, n: nat, name: string)
    requires RendersUpTo(render, n)
    requires host.contextAvailable && host.finalizes && host.writeFailsAt.None?
    requires forall j: nat, p: ValidPool :: j < n ==> render(j, p).0.Success?
    ensures var e := ExportEvents(render, host, n, name);
      && |e| == n + 1 && e[n].Completed? && e[n].fileName == name
      && forall j :: 0 <= j < n ==> WrittenFrame(e[j], j, n, host)
  {
    NeverFailingRunsClean(render, host, n, 0, Pool([], 0));
    ExportSucceedsExactlyWhenClean(render, host, n, name);
    ExportOutcome(render, host, n, name);
  }

  /** In a whole export with a 2D context, the first frame `k` whose render or write fails
      ends it with that error, after the reports of frames `0` to `k - 1`. */
  lemma ExportFailsAtFirstError(render: Renderer, host: Host, n: nat, name: string, k: nat)
    requires RendersUpTo(render, n) && host.contextAvailable && k < n
    requires CleanUpTo(render, host, n, 0, Pool([], 0), k)
    ensures var e := ExportEvents(render, host, n, name);
      var out := render(k, ListAt(render, n, 0, Pool([], 0), k));
      && (out.0.Failure? ==>
            |e| == k + 1 && e[k] == Failed(RenderFailed(k, out.0.error))
            && forall j :: 0 <= j < k ==> WrittenFrame(e[j], j, n, host))
      && (out.0.Success? && host.writeFailsAt == Some(k) ==>
            |e| == k + 1 && e[k] == Failed(WriteFailed(k))
            && forall j :: 0 <= j < k ==> WrittenFrame(e[j], j, n, host))
  {
    FrameEventsFirstFailure(render, host, n, name, 0, Pool([], 0), Video(Options, []), k);
    ExportOutcome(render, host, n, name);
  }

  /** Two renderers that agree on every frame give the same events. */
  lemma {:induction false} FrameEventsOfAgreeingRenderers(render: Renderer, other: Renderer,
                                                           host: Host, n: nat, name: string,
                                                           i: nat, pool: ValidPool, video: Video)
    requires RendersUpTo(render, n) && RendersUpTo(other, n)
    requires forall j: nat, p: ValidPool :: j < n ==> render(j, p) == other(j, p)
    ensures FrameEvents(other, host, n, name, i, pool, video)
         == FrameEvents(render, host, n, name, i, pool, video)
    decreases n - i
  {
    if i < n {
      var out := render(i, pool);
      if out.0.Success? {
        FrameEventsOfAgreeingRenderers(render, other, host, n, name, i + 1, out.1,
                                       Video(video.options, video.frames + [out.0.value]));
      }
    }
  }

  /** The settings an export reads: those a frame reads, plus the tier and the supersampling. */
  predicate SameExportSettings(s: CTAState, t: CTAState) {
    SameFrameSettings(s, t) && s.resolution == t.resolution && s.superSampling == t.superSampling
  }

  /** Frame by frame, the export renders the same for two states that agree on what it reads. */
  lemma RendererReadsOnlyExportSettings(m: MathLib, s: CTAState, t: CTAState, assets: Assets,
                                        rng: Stream)
    requires ExportDefined(s, assets) && SameExportSettings(s, t)
    ensures ExportDefined(t, assets)
    ensures forall j: nat, p: ValidPool :: j < FrameCount(s.animation.duration) ==>
      ExportRenderer(m, s, assets, rng)(j, p) == ExportRenderer(m, t, assets, rng)(j, p)
  {
    var dims := PhysicalDimensions(s);
    assert PhysicalDimensions(t) == dims && GlobalScale(t) == GlobalScale(s);
    forall j: nat, p: ValidPool | j < FrameCount(s.animation.duration)
      ensures ExportRenderer(m, s, assets, rng)(j, p) == ExportRenderer(m, t, assets, rng)(j, p)
    {
      RenderReadsOnlyFrameSettings(m, dims.0, dims.1, FrameTime(j), s, t, assets, GlobalScale(s), rng, p);
    }
  }

  /** The export does not depend on the container format the store holds (it always writes
      WebM), on the font sizes or on the image URL. */
  lemma ExportIgnoresContainerFormat(m: MathLib, s: CTAState, t: CTAState, assets: Assets,
                                     host: Host, rng: Stream)
    requires ExportDefined(s, assets) && SameExportSettings(s, t)
    ensures ExportDefined(t, assets)
    ensures ExportSpec(m, t, assets, host, rng) == ExportSpec(m, s, assets, host, rng)
  {
    RendererReadsOnlyExportSettings(m, s, t, assets, rng);
    FrameEventsOfAgreeingRenderers(ExportRenderer(m, s, assets, rng), ExportRenderer(m, t, assets, rng),
                                   host, FrameCount(s.animation.duration),
                                   FileName(s.resolution, host.now), 0, Pool([], 0), Video(Options, []));
  }
}
