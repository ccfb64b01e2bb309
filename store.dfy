/**
 * The configuration record of src/store/useStore.ts (`CTAState`), its default values and its
 * setters. The store applies each setter by merging a partial object into the current state;
 * here every setter is a function from the old state to the new one.
 *
 * The `seed` and `damping` particle fields are not part of this model: nothing reads them.
 */
module Store {
  import opened Wrappers

  datatype LayoutFormat = Landscape | Portrait
  datatype Curve = Smooth | Elastic | Bounce
  datatype FadeMode = FadeOpacity | FadeScale | FadeBoth | FadeNone
  datatype ParticleShape = SquareShape | CircleShape | ImageShape
  datatype ContainerFormat = WebM | Mov

  datatype ResolutionTier = R480p | R720p | R1080p | R2k | R4k {
    /** The tag the source stores, e.g. "1080p". */
    function Name(): string {
      match this
      case R480p => "480p"
      case R720p => "720p"
      case R1080p => "1080p"
      case R2k => "2k"
      case R4k => "4k"
    }
  }

  /** `superSampling: 1 | 2`. */
  type SamplingFactor = r: real | r == 1.0 || r == 2.0 witness 1.0

  datatype Transform = Transform(scale: real, x: real, y: real)
  datatype Colors = Colors(background: string, text: string, underText: string)
  datatype AnimationSettings = AnimationSettings(
    curve: Curve, duration: real, position: bool, scale: bool, opacity: bool)
  datatype CursorSettings = CursorSettings(visible: bool, animationType: Curve)
  datatype ParticleSettings = ParticleSettings(
    enabled: bool,
    count: real,
    speed: real,
    minSize: real,
    maxSize: real,
    gravity: real,
    rotationSpeed: real,
    lifeMin: real,
    lifeMax: real,
    fadeMode: FadeMode,
    noiseStrength: real,
    noiseScale: real,
    shape: ParticleShape,
    image: Option<string>,
    colors: seq<string>)

  datatype CTAState = CTAState(
    primaryText: string,
    primaryTextSize: real,
    underText: string,
    underTextSize: real,
    imageUrl: Option<string>,
    format: LayoutFormat,
    imageTransform: Transform,
    ctaColors: Colors,
    subscribedColors: Colors,
    roundness: real,
    animation: AnimationSettings,
    cursor: CursorSettings,
    particles: ParticleSettings,
    subscribedText: string,
    subscribedTextSize: real,
    resolution: ResolutionTier,
    superSampling: SamplingFactor,
    exportFormat: ContainerFormat)

  /** The store's initial state. */
  const Defaults: CTAState := CTAState(
    primaryText := "Subscribe",
    primaryTextSize := 72.0,
    underText := "twitch.tv/mychannel",
    underTextSize := 36.0,
    imageUrl := None,
    format := Landscape,
    imageTransform := Transform(1.0, 0.0, 0.0),
    ctaColors := Colors("#f3f4f6", "#000000", "#666666"),
    subscribedColors := Colors("#ffffff", "#8b5cf6", "#666666"),
    roundness := 100.0,
    animation := AnimationSettings(Elastic, 1.0, true, true, true),
    cursor := CursorSettings(true, Smooth),
    particles := ParticleSettings(
      enabled := true, count := 50.0, speed := 10.0, minSize := 5.0, maxSize := 15.0,
      gravity := 0.5, rotationSpeed := 0.0, lifeMin := 0.5, lifeMax := 1.5,
      fadeMode := FadeOpacity, noiseStrength := 0.0, noiseScale := 100.0,
      shape := SquareShape, image := None,
      colors := ["#ff0000", "#00ff00", "#0000ff", "#ffff00", "#8b5cf6"]),
    subscribedText := "SUBSCRIBED",
    subscribedTextSize := 72.0,
    resolution := R1080p,
    superSampling := 1.0,
    exportFormat := Mov)

  /** The defaults meet what the spawn ranges and the colour pick rely on, the noise scale is
      not zero, and neither the card nor the cursor uses the missing bounce curve. */
  lemma DefaultsAreConsistent()
    ensures Defaults.particles.lifeMin <= Defaults.particles.lifeMax
    ensures Defaults.particles.minSize <= Defaults.particles.maxSize
    ensures |Defaults.particles.colors| > 0
    ensures Defaults.animation.duration == 1.0 > 0.0
    ensures Defaults.particles.noiseScale != 0.0
    ensures Defaults.animation.curve != Bounce && Defaults.cursor.animationType != Bounce
  {
  }

  // ---------------------------------------------------------------------------------------
  // A field-by-field view of the state, so that "every other field is unchanged" can be said
  // once for all setters.

  datatype Field =
    | PrimaryText | PrimaryTextSize | UnderText | UnderTextSize | ImageUrl | Format
    | ImageTransform | CtaColors | SubscribedColors | Roundness | Animation | Cursor
    | Particles | SubscribedText | SubscribedTextSize | Resolution | SuperSampling
    | ExportFormat

  datatype Value =
    | TextValue(text: string)
    | NumberValue(number: real)
    | UrlValue(url: Option<string>)
    | FormatValue(format: LayoutFormat)
    | TransformValue(transform: Transform)
    | ColorsValue(colors: Colors)
    | AnimationValue(animation: AnimationSettings)
    | CursorValue(cursor: CursorSettings)
    | ParticlesValue(particles: ParticleSettings)
    | ResolutionValue(resolution: ResolutionTier)
    | SamplingValue(sampling: SamplingFactor)
    | ContainerValue(container: ContainerFormat)

  /** The kind of value field `f` holds. */
  predicate Fits(f: Field, v: Value) {
    match f
    case PrimaryText | UnderText | SubscribedText => v.TextValue?
    case PrimaryTextSize | UnderTextSize | SubscribedTextSize | Roundness => v.NumberValue?
    case ImageUrl => v.UrlValue?
    case Format => v.FormatValue?
    case ImageTransform => v.TransformValue?
    case CtaColors | SubscribedColors => v.ColorsValue?
    case Animation => v.AnimationValue?
    case Cursor => v.CursorValue?
    case Particles => v.ParticlesValue?
    case Resolution => v.ResolutionValue?
    case SuperSampling => v.SamplingValue?
    case ExportFormat => v.ContainerValue?
  }

  function Get(s: CTAState, f: Field): Value {
    match f
    case PrimaryText => TextValue(s.primaryText)
    case PrimaryTextSize => NumberValue(s.primaryTextSize)
    case UnderText => TextValue(s.underText)
    case UnderTextSize => NumberValue(s.underTextSize)
    case ImageUrl => UrlValue(s.imageUrl)
    case Format => FormatValue(s.format)
    case ImageTransform => TransformValue(s.imageTransform)
    case CtaColors => ColorsValue(s.ctaColors)
    case SubscribedColors => ColorsValue(s.subscribedColors)
    case Roundness => NumberValue(s.roundness)
    case Animation => AnimationValue(s.animation)
    case Cursor => CursorValue(s.cursor)
    case Particles => ParticlesValue(s.particles)
    case SubscribedText => TextValue(s.subscribedText)
    case SubscribedTextSize => NumberValue(s.subscribedTextSize)
    case Resolution => ResolutionValue(s.resolution)
    case SuperSampling => SamplingValue(s.superSampling)
    case ExportFormat => ContainerValue(s.exportFormat)
  }

  /** The fields are the whole state: two states that agree on every field are equal. */
  lemma {:induction false} FieldsDetermineState(s: CTAState, t: CTAState)
    requires forall f :: Get(s, f) == Get(t, f)
    ensures s == t
  {
    TextFieldsAgree(s, t);
    StyleFieldsAgree(s, t);
    SettingsFieldsAgree(s, t);
  }

  lemma {:induction false} TextFieldsAgree(s: CTAState, t: CTAState)
    requires forall f :: Get(s, f) == Get(t, f)
    ensures s.primaryText == t.primaryText && s.primaryTextSize == t.primaryTextSize
    ensures s.underText == t.underText && s.underTextSize == t.underTextSize
    ensures s.subscribedText == t.subscribedText && s.subscribedTextSize == t.subscribedTextSize
    ensures s.imageUrl == t.imageUrl && s.format == t.format && s.roundness == t.roundness
  {
    assert Get(s, PrimaryText) == Get(t, PrimaryText);
    assert Get(s, PrimaryTextSize) == Get(t, PrimaryTextSize);
    assert Get(s, UnderText) == Get(t, UnderText);
    assert Get(s, UnderTextSize) == Get(t, UnderTextSize);
    assert Get(s, SubscribedText) == Get(t, SubscribedText);
    assert Get(s, SubscribedTextSize) == Get(t, SubscribedTextSize);
    assert Get(s, ImageUrl) == Get(t, ImageUrl);
    assert Get(s, Format) == Get(t, Format);
    assert Get(s, Roundness) == Get(t, Roundness);
  }

  lemma {:induction false} StyleFieldsAgree(s: CTAState, t: CTAState)
    requires forall f :: Get(s, f) == Get(t, f)
    ensures s.imageTransform == t.imageTransform && s.ctaColors == t.ctaColors
    ensures s.subscribedColors == t.subscribedColors && s.animation == t.animation
  {
    assert Get(s, ImageTransform) == Get(t, ImageTransform);
    assert Get(s, CtaColors) == Get(t, CtaColors);
    assert Get(s, SubscribedColors) == Get(t, SubscribedColors);
    assert Get(s, Animation) == Get(t, Animation);
  }

  lemma {:induction false} SettingsFieldsAgree(s: CTAState, t: CTAState)
    requires forall f :: Get(s, f) == Get(t, f)
    ensures s.cursor == t.cursor && s.particles == t.particles && s.resolution == t.resolution
    ensures s.superSampling == t.superSampling && s.exportFormat == t.exportFormat
  {
    assert Get(s, Cursor) == Get(t, Cursor);
    assert Get(s, Particles) == Get(t, Particles);
    assert Get(s, Resolution) == Get(t, Resolution);
    assert Get(s, SuperSampling) == Get(t, SuperSampling);
    assert Get(s, ExportFormat) == Get(t, ExportFormat);
  }

  /** `s` and `t` differ at most in field `g`. */
  ghost predicate OnlyChanged(s: CTAState, t: CTAState, g: Field) {
    forall f :: f != g ==> Get(t, f) == Get(s, f)
  }

  /** `set({ [f]: v })`: the state with field `f` replaced by `v`. Every setter of the store is
      one of these. */
  function Put(s: CTAState, f: Field, v: Value): (r: CTAState)
    requires Fits(f, v)
    ensures Get(r, f) == v
    ensures OnlyChanged(s, r, f)
  {
    CTAState(
      primaryText := if f == PrimaryText then v.text else s.primaryText,
      primaryTextSize := if f == PrimaryTextSize then v.number else s.primaryTextSize,
      underText := if f == UnderText then v.text else s.underText,
      underTextSize := if f == UnderTextSize then v.number else s.underTextSize,
      imageUrl := if f == ImageUrl then v.url else s.imageUrl,
      format := if f == Format then v.format else s.format,
      imageTransform := if f == ImageTransform then v.transform else s.imageTransform,
      ctaColors := if f == CtaColors then v.colors else s.ctaColors,
      subscribedColors := if f == SubscribedColors then v.colors else s.subscribedColors,
      roundness := if f == Roundness then v.number else s.roundness,
      animation := if f == Animation then v.animation else s.animation,
      cursor := if f == Cursor then v.cursor else s.cursor,
      particles := if f == Particles then v.particles else s.particles,
      subscribedText := if f == SubscribedText then v.text else s.subscribedText,
      subscribedTextSize := if f == SubscribedTextSize then v.number else s.subscribedTextSize,
      resolution := if f == Resolution then v.resolution else s.resolution,
      superSampling := if f == SuperSampling then v.sampling else s.superSampling,
      exportFormat := if f == ExportFormat then v.container else s.exportFormat)
  }

  /** Field `h` after writing `v` to field `f`. */
  lemma PutGet(s: CTAState, f: Field, v: Value, h: Field)
    requires Fits(f, v)
    ensures Get(Put(s, f, v), h) == if h == f then v else Get(s, h)
  {
    assert OnlyChanged(s, Put(s, f, v), f);
  }

  lemma GetFits(s: CTAState, f: Field)
    ensures Fits(f, Get(s, f))
  {
  }

  lemma {:induction false} PutOwnValue(s: CTAState, f: Field)
    ensures Put(s, f, Get(s, f)) == s
  {
    GetFits(s, f);
    var r := Put(s, f, Get(s, f));
    forall h ensures Get(r, h) == Get(s, h) {
      PutGet(s, f, Get(s, f), h);
    }
    FieldsDetermineState(r, s);
  }

  lemma {:induction false} PutLastWins(s: CTAState, f: Field, a: Value, b: Value)
    requires Fits(f, a) && Fits(f, b)
    ensures Put(Put(s, f, a), f, b) == Put(s, f, b)
  {
    var twice, once := Put(Put(s, f, a), f, b), Put(s, f, b);
    forall h ensures Get(twice, h) == Get(once, h) {
      PutGet(Put(s, f, a), f, b, h);
      PutGet(s, f, a, h);
      PutGet(s, f, b, h);
    }
    FieldsDetermineState(twice, once);
  }

  lemma {:induction false} PutCommutesAt(s: CTAState, f: Field, g: Field, a: Value, c: Value, h: Field)
    requires Fits(f, a) && Fits(g, c) && f != g
    ensures Get(Put(Put(s, f, a), g, c), h) == Get(Put(Put(s, g, c), f, a), h)
  {
    PutGet(Put(s, f, a), g, c, h);
    PutGet(s, f, a, h);
    PutGet(Put(s, g, c), f, a, h);
    PutGet(s, g, c, h);
  }

  lemma {:induction false} PutCommutes(s: CTAState, f: Field, g: Field, a: Value, c: Value)
    requires Fits(f, a) && Fits(g, c) && f != g
    ensures Put(Put(s, f, a), g, c) == Put(Put(s, g, c), f, a)
  {
    var fg, gf := Put(Put(s, f, a), g, c), Put(Put(s, g, c), f, a);
    forall h ensures Get(fg, h) == Get(gf, h) {
      PutCommutesAt(s, f, g, a, c, h);
    }
    FieldsDetermineState(fg, gf);
  }

  /** The laws of writing a field, for every field and so for every setter: writing a field's
      own value back is the identity, of two writes to one field the last wins, and writes to
      two different fields commute. */
  lemma {:induction false} WholeFieldSetterLaws(s: CTAState, f: Field, g: Field, a: Value, b: Value, c: Value)
    requires Fits(f, a) && Fits(f, b) && Fits(g, c)
    ensures Put(s, f, Get(s, f)) == s
    ensures Put(Put(s, f, a), f, b) == Put(s, f, b)
    ensures f != g ==> Put(Put(s, f, a), g, c) == Put(Put(s, g, c), f, a)
  {
    PutOwnValue(s, f);
    PutLastWins(s, f, a, b);
    if f != g {
      PutCommutes(s, f, g, a, c);
    }
  }

  // ---------------------------------------------------------------------------------------
  // Whole-field setters.

  function SetPrimaryText(s: CTAState, text: string): (r: CTAState)
    ensures r.primaryText == text && OnlyChanged(s, r, PrimaryText)
    ensures r == Put(s, PrimaryText, TextValue(text))
  {
    s.(primaryText := text)
  }

  function SetPrimaryTextSize(s: CTAState, size: real): (r: CTAState)
    ensures r.primaryTextSize == size && OnlyChanged(s, r, PrimaryTextSize)
    ensures r == Put(s, PrimaryTextSize, NumberValue(size))
  {
    s.(primaryTextSize := size)
  }

  function SetUnderText(s: CTAState, text: string): (r: CTAState)
    ensures r.underText == text && OnlyChanged(s, r, UnderText)
    ensures r == Put(s, UnderText, TextValue(text))
  {
    s.(underText := text)
  }

  function SetUnderTextSize(s: CTAState, size: real): (r: CTAState)
    ensures r.underTextSize == size && OnlyChanged(s, r, UnderTextSize)
    ensures r == Put(s, UnderTextSize, NumberValue(size))
  {
    s.(underTextSize := size)
  }

  function SetSubscribedText(s: CTAState, text: string): (r: CTAState)
    ensures r.subscribedText == text && OnlyChanged(s, r, SubscribedText)
    ensures r == Put(s, SubscribedText, TextValue(text))
  {
    s.(subscribedText := text)
  }

  function SetSubscribedTextSize(s: CTAState, size: real): (r: CTAState)
    ensures r.subscribedTextSize == size && OnlyChanged(s, r, SubscribedTextSize)
    ensures r == Put(s, SubscribedTextSize, NumberValue(size))
  {
    s.(subscribedTextSize := size)
  }

  function SetImageUrl(s: CTAState, url: Option<string>): (r: CTAState)
    ensures r.imageUrl == url && OnlyChanged(s, r, ImageUrl)
    ensures r == Put(s, ImageUrl, UrlValue(url))
  {
    s.(imageUrl := url)
  }

  function SetRoundness(s: CTAState, roundness: real): (r: CTAState)
    ensures r.roundness == roundness && OnlyChanged(s, r, Roundness)
    ensures r == Put(s, Roundness, NumberValue(roundness))
  {
    s.(roundness := roundness)
  }

  function SetFormat(s: CTAState, format: LayoutFormat): (r: CTAState)
    ensures r.format == format && OnlyChanged(s, r, Format)
    ensures r == Put(s, Format, FormatValue(format))
  {
    s.(format := format)
  }

  function SetResolution(s: CTAState, res: ResolutionTier): (r: CTAState)
    ensures r.resolution == res && OnlyChanged(s, r, Resolution)
    ensures r == Put(s, Resolution, ResolutionValue(res))
  {
    s.(resolution := res)
  }

  function SetSuperSampling(s: CTAState, ss: SamplingFactor): (r: CTAState)
    ensures r.superSampling == ss && OnlyChanged(s, r, SuperSampling)
    ensures r == Put(s, SuperSampling, SamplingValue(ss))
  {
    s.(superSampling := ss)
  }

  function SetExportFormat(s: CTAState, format: ContainerFormat): (r: CTAState)
    ensures r.exportFormat == format && OnlyChanged(s, r, ExportFormat)
    ensures r == Put(s, ExportFormat, ContainerValue(format))
  {
    s.(exportFormat := format)
  }

  // ---------------------------------------------------------------------------------------
  // Partial objects and the shallow merge `{ ...current, ...partial }`.

  /** One key of a partial object: `Some(v)` when the key is given, `None` when it is absent. */
  function Override<T>(current: T, given: Option<T>): (r: T)
    ensures given.Some? ==> r == given.value
    ensures given.None? ==> r == current
  {
    match given
    case Some(v) => v
    case None => current
  }

  /** The partial object that gives `later`'s keys and, where `later` is silent, `earlier`'s. */
  function Then<T>(earlier: Option<T>, later: Option<T>): (r: Option<T>)
    ensures r.None? <==> earlier.None? && later.None?
  {
    if later.Some? then later else earlier
  }

  lemma OverrideLaws<T>(c: T, p: Option<T>, q: Option<T>)
    ensures Override(c, None) == c
    ensures Override(Override(c, p), p) == Override(c, p)
    ensures Override(Override(c, p), q) == Override(c, Then(p, q))
  {
  }

  datatype PartialTransform = PartialTransform(scale: Option<real>, x: Option<real>, y: Option<real>)

  datatype PartialColors = PartialColors(
    background: Option<string>, text: Option<string>, underText: Option<string>)

  datatype PartialAnimation = PartialAnimation(
    curve: Option<Curve>, duration: Option<real>,
    position: Option<bool>, scale: Option<bool>, opacity: Option<bool>)

  datatype PartialCursor = PartialCursor(visible: Option<bool>, animationType: Option<Curve>)

  datatype PartialParticles = PartialParticles(
    enabled: Option<bool>,
    count: Option<real>,
    speed: Option<real>,
    minSize: Option<real>,
    maxSize: Option<real>,
    gravity: Option<real>,
    rotationSpeed: Option<real>,
    lifeMin: Option<real>,
    lifeMax: Option<real>,
    fadeMode: Option<FadeMode>,
    noiseStrength: Option<real>,
    noiseScale: Option<real>,
    shape: Option<ParticleShape>,
    image: Option<Option<string>>,
    colors: Option<seq<string>>)

  const NoTransform := PartialTransform(None, None, None)
  const NoColors := PartialColors(None, None, None)
  const NoAnimation := PartialAnimation(None, None, None, None, None)
  const NoCursor := PartialCursor(None, None)
  const NoParticles := PartialParticles(
    None, None, None, None, None, None, None, None, None, None, None, None, None, None, None)

  function MergeTransform(t: Transform, p: PartialTransform): (r: Transform)
    ensures r.scale == (if p.scale.Some? then p.scale.value else t.scale)
    ensures r.x == (if p.x.Some? then p.x.value else t.x)
    ensures r.y == (if p.y.Some? then p.y.value else t.y)
  {
    Transform(Override(t.scale, p.scale), Override(t.x, p.x), Override(t.y, p.y))
  }

  function ThenTransform(p: PartialTransform, q: PartialTransform): PartialTransform {
    PartialTransform(Then(p.scale, q.scale), Then(p.x, q.x), Then(p.y, q.y))
  }

  lemma TransformMergeLaws(t: Transform, p: PartialTransform, q: PartialTransform)
    ensures MergeTransform(t, NoTransform) == t
    ensures MergeTransform(MergeTransform(t, p), p) == MergeTransform(t, p)
    ensures MergeTransform(MergeTransform(t, p), q) == MergeTransform(t, ThenTransform(p, q))
  {
  }

  function MergeColors(c: Colors, p: PartialColors): (r: Colors)
    ensures r.background == (if p.background.Some? then p.background.value else c.background)
    ensures r.text == (if p.text.Some? then p.text.value else c.text)
    ensures r.underText == (if p.underText.Some? then p.underText.value else c.underText)
  {
    Colors(Override(c.background, p.background), Override(c.text, p.text),
           Override(c.underText, p.underText))
  }

  function ThenColors(p: PartialColors, q: PartialColors): PartialColors {
    PartialColors(Then(p.background, q.background), Then(p.text, q.text),
                  Then(p.underText, q.underText))
  }

  lemma ColorsMergeLaws(c: Colors, p: PartialColors, q: PartialColors)
    ensures MergeColors(c, NoColors) == c
    ensures MergeColors(MergeColors(c, p), p) == MergeColors(c, p)
    ensures MergeColors(MergeColors(c, p), q) == MergeColors(c, ThenColors(p, q))
  {
  }

  function MergeAnimation(a: AnimationSettings, p: PartialAnimation): (r: AnimationSettings)
    ensures r.curve == (if p.curve.Some? then p.curve.value else a.curve)
    ensures r.duration == (if p.duration.Some? then p.duration.value else a.duration)
    ensures r.position == (if p.position.Some? then p.position.value else a.position)
    ensures r.scale == (if p.scale.Some? then p.scale.value else a.scale)
    ensures r.opacity == (if p.opacity.Some? then p.opacity.value else a.opacity)
  {
    AnimationSettings(Override(a.curve, p.curve), Override(a.duration, p.duration),
                      Override(a.position, p.position), Override(a.scale, p.scale),
                      Override(a.opacity, p.opacity))
  }

  function ThenAnimation(p: PartialAnimation, q: PartialAnimation): PartialAnimation {
    PartialAnimation(Then(p.curve, q.curve), Then(p.duration, q.duration),
                     Then(p.position, q.position), Then(p.scale, q.scale),
                     Then(p.opacity, q.opacity))
  }

  lemma AnimationMergeLaws(a: AnimationSettings, p: PartialAnimation, q: PartialAnimation)
    ensures MergeAnimation(a, NoAnimation) == a
    ensures MergeAnimation(MergeAnimation(a, p), p) == MergeAnimation(a, p)
    ensures MergeAnimation(MergeAnimation(a, p), q) == MergeAnimation(a, ThenAnimation(p, q))
  {
  }

  function MergeCursor(c: CursorSettings, p: PartialCursor): (r: CursorSettings)
    ensures r.visible == (if p.visible.Some? then p.visible.value else c.visible)
    ensures r.animationType ==
            (if p.animationType.Some? then p.animationType.value else c.animationType)
  {
    CursorSettings(Override(c.visible, p.visible), Override(c.animationType, p.animationType))
  }

  function ThenCursor(p: PartialCursor, q: PartialCursor): PartialCursor {
    PartialCursor(Then(p.visible, q.visible), Then(p.animationType, q.animationType))
  }

  lemma CursorMergeLaws(c: CursorSettings, p: PartialCursor, q: PartialCursor)
    ensures MergeCursor(c, NoCursor) == c
    ensures MergeCursor(MergeCursor(c, p), p) == MergeCursor(c, p)
    ensures MergeCursor(MergeCursor(c, p), q) == MergeCursor(c, ThenCursor(p, q))
  {
  }

  function MergeParticles(c: ParticleSettings, p: PartialParticles): (r: ParticleSettings)
    ensures r.enabled == (if p.enabled.Some? then p.enabled.value else c.enabled)
    ensures r.count == (if p.count.Some? then p.count.value else c.count)
    ensures r.speed == (if p.speed.Some? then p.speed.value else c.speed)
    ensures r.minSize == (if p.minSize.Some? then p.minSize.value else c.minSize)
    ensures r.maxSize == (if p.maxSize.Some? then p.maxSize.value else c.maxSize)
    ensures r.gravity == (if p.gravity.Some? then p.gravity.value else c.gravity)
    ensures r.rotationSpeed ==
            (if p.rotationSpeed.Some? then p.rotationSpeed.value else c.rotationSpeed)
    ensures r.lifeMin == (if p.lifeMin.Some? then p.lifeMin.value else c.lifeMin)
    ensures r.lifeMax == (if p.lifeMax.Some? then p.lifeMax.value else c.lifeMax)
    ensures r.fadeMode == (if p.fadeMode.Some? then p.fadeMode.value else c.fadeMode)
    ensures r.noiseStrength ==
            (if p.noiseStrength.Some? then p.noiseStrength.value else c.noiseStrength)
    ensures r.noiseScale == (if p.noiseScale.Some? then p.noiseScale.value else c.noiseScale)
    ensures r.shape == (if p.shape.Some? then p.shape.value else c.shape)
    ensures r.image == (if p.image.Some? then p.image.value else c.image)
    ensures r.colors == (if p.colors.Some? then p.colors.value else c.colors)
  {
    ParticleSettings(
      Override(c.enabled, p.enabled), Override(c.count, p.count), Override(c.speed, p.speed),
      Override(c.minSize, p.minSize), Override(c.maxSize, p.maxSize),
      Override(c.gravity, p.gravity), Override(c.rotationSpeed, p.rotationSpeed),
      Override(c.lifeMin, p.lifeMin), Override(c.lifeMax, p.lifeMax),
      Override(c.fadeMode, p.fadeMode), Override(c.noiseStrength, p.noiseStrength),
      Override(c.noiseScale, p.noiseScale), Override(c.shape, p.shape),
      Override(c.image, p.image), Override(c.colors, p.colors))
  }

  function ThenParticles(p: PartialParticles, q: PartialParticles): PartialParticles {
    PartialParticles(
      Then(p.enabled, q.enabled), Then(p.count, q.count), Then(p.speed, q.speed),
      Then(p.minSize, q.minSize), Then(p.maxSize, q.maxSize), Then(p.gravity, q.gravity),
      Then(p.rotationSpeed, q.rotationSpeed), Then(p.lifeMin, q.lifeMin),
      Then(p.lifeMax, q.lifeMax), Then(p.fadeMode, q.fadeMode),
      Then(p.noiseStrength, q.noiseStrength), Then(p.noiseScale, q.noiseScale),
      Then(p.shape, q.shape), Then(p.image, q.image), Then(p.colors, q.colors))
  }

  lemma ParticlesMergeLaws(c: ParticleSettings, p: PartialParticles, q: PartialParticles)
    ensures MergeParticles(c, NoParticles) == c
    ensures MergeParticles(MergeParticles(c, p), p) == MergeParticles(c, p)
    ensures MergeParticles(MergeParticles(c, p), q) == MergeParticles(c, ThenParticles(p, q))
  {
  }

  // ---------------------------------------------------------------------------------------
  // Partial setters: each merges into its own group and leaves every other field alone.

  function SetImageTransform(s: CTAState, p: PartialTransform): (r: CTAState)
    ensures r.imageTransform == MergeTransform(s.imageTransform, p)
    ensures OnlyChanged(s, r, ImageTransform)
    ensures r == Put(s, ImageTransform, TransformValue(MergeTransform(s.imageTransform, p)))
  {
    s.(imageTransform := MergeTransform(s.imageTransform, p))
  }

  function SetCtaColors(s: CTAState, p: PartialColors): (r: CTAState)
    ensures r.ctaColors == MergeColors(s.ctaColors, p)
    ensures OnlyChanged(s, r, CtaColors)
    ensures r == Put(s, CtaColors, ColorsValue(MergeColors(s.ctaColors, p)))
  {
    s.(ctaColors := MergeColors(s.ctaColors, p))
  }

  function SetSubscribedColors(s: CTAState, p: PartialColors): (r: CTAState)
    ensures r.subscribedColors == MergeColors(s.subscribedColors, p)
    ensures OnlyChanged(s, r, SubscribedColors)
    ensures r == Put(s, SubscribedColors, ColorsValue(MergeColors(s.subscribedColors, p)))
  {
    s.(subscribedColors := MergeColors(s.subscribedColors, p))
  }

  function SetAnimation(s: CTAState, p: PartialAnimation): (r: CTAState)
    ensures r.animation == MergeAnimation(s.animation, p)
    ensures OnlyChanged(s, r, Animation)
    ensures r == Put(s, Animation, AnimationValue(MergeAnimation(s.animation, p)))
  {
    s.(animation := MergeAnimation(s.animation, p))
  }

  function SetCursor(s: CTAState, p: PartialCursor): (r: CTAState)
    ensures r.cursor == MergeCursor(s.cursor, p)
    ensures OnlyChanged(s, r, Cursor)
    ensures r == Put(s, Cursor, CursorValue(MergeCursor(s.cursor, p)))
  {
    s.(cursor := MergeCursor(s.cursor, p))
  }

  function SetParticles(s: CTAState, p: PartialParticles): (r: CTAState)
    ensures r.particles == MergeParticles(s.particles, p)
    ensures OnlyChanged(s, r, Particles)
    ensures r == Put(s, Particles, ParticlesValue(MergeParticles(s.particles, p)))
  {
    s.(particles := MergeParticles(s.particles, p))
  }

  /** For every partial setter: an empty partial leaves the whole state as it was, and the same
      partial twice is the same as once. */
  lemma {:induction false} PartialSetterLaws(s: CTAState, t: PartialTransform, c: PartialColors,
                                             a: PartialAnimation, k: PartialCursor, p: PartialParticles)
    ensures SetImageTransform(s, NoTransform) == s
    ensures SetCtaColors(s, NoColors) == s
    ensures SetSubscribedColors(s, NoColors) == s
    ensures SetAnimation(s, NoAnimation) == s
    ensures SetCursor(s, NoCursor) == s
    ensures SetParticles(s, NoParticles) == s
    ensures SetImageTransform(SetImageTransform(s, t), t) == SetImageTransform(s, t)
    ensures SetCtaColors(SetCtaColors(s, c), c) == SetCtaColors(s, c)
    ensures SetSubscribedColors(SetSubscribedColors(s, c), c) == SetSubscribedColors(s, c)
    ensures SetAnimation(SetAnimation(s, a), a) == SetAnimation(s, a)
    ensures SetCursor(SetCursor(s, k), k) == SetCursor(s, k)
    ensures SetParticles(SetParticles(s, p), p) == SetParticles(s, p)
  {
    TransformMergeLaws(s.imageTransform, t, t);
    ColorsMergeLaws(s.ctaColors, c, c);
    ColorsMergeLaws(s.subscribedColors, c, c);
    AnimationMergeLaws(s.animation, a, a);
    CursorMergeLaws(s.cursor, k, k);
    ParticlesMergeLaws(s.particles, p, p);
  }

  /** For every partial setter: two calls in a row are one call with the later partial laid
      over the earlier. */
  lemma {:induction false} PartialSettersCompose(
    s: CTAState, t: PartialTransform, t2: PartialTransform, c: PartialColors, c2: PartialColors,
    a: PartialAnimation, a2: PartialAnimation, k: PartialCursor, k2: PartialCursor,
    p: PartialParticles, p2: PartialParticles)
    ensures SetImageTransform(SetImageTransform(s, t), t2) == SetImageTransform(s, ThenTransform(t, t2))
    ensures SetCtaColors(SetCtaColors(s, c), c2) == SetCtaColors(s, ThenColors(c, c2))
    ensures SetSubscribedColors(SetSubscribedColors(s, c), c2) == SetSubscribedColors(s, ThenColors(c, c2))
    ensures SetAnimation(SetAnimation(s, a), a2) == SetAnimation(s, ThenAnimation(a, a2))
    ensures SetCursor(SetCursor(s, k), k2) == SetCursor(s, ThenCursor(k, k2))
    ensures SetParticles(SetParticles(s, p), p2) == SetParticles(s, ThenParticles(p, p2))
  {
    TransformMergeLaws(s.imageTransform, t, t2);
    ColorsMergeLaws(s.ctaColors, c, c2);
    ColorsMergeLaws(s.subscribedColors, c, c2);
    AnimationMergeLaws(s.animation, a, a2);
    CursorMergeLaws(s.cursor, k, k2);
    ParticlesMergeLaws(s.particles, p, p2);
  }

  /** The two colour groups are independent: changing the pre-click palette never touches the post-click one. */
  lemma ColorGroupsIndependent(s: CTAState, p: PartialColors)
    ensures SetCtaColors(s, p).subscribedColors == s.subscribedColors
    ensures SetSubscribedColors(s, p).ctaColors == s.ctaColors
  {
  }
}
