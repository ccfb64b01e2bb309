/**
 * One frame of the call-to-action animation, as src/features/generator/renderLoop.ts
 * computes it: the position of the frame on the 6 D second timeline, the envelope of the
 * card (offset, opacity, scale), the card's layout and colours, the confetti, and the cursor.
 *
 * Canvas calls are not modelled; a `Frame` records the numbers and strings that the frame
 * hands to the canvas. Coordinates are logical (the canvas is scaled by `scale` first).
 * The particle list `particlesRef.current` is the one piece of state that survives from one
 * frame to the next; `RenderFrame` changes it through a `ParticleSystem`, and `RenderResult`
 * and `RenderPool` state the frame and the list it leaves as functions of the list before it.
 */
module RenderLoop {
  import opened Wrappers
  import opened MathModel
  import opened Store
  import opened Easings
  import opened Confetti

  // ---------------------------------------------------------------------------------------
  // Timeline

  /** `tMs = time % (6000 D)`: the time within the current cycle. */
  function CycleTime(time: real, d: real): (t: real)
    requires d != 0.0
    ensures d > 0.0 && time >= 0.0 ==> 0.0 <= t < 6000.0 * d
    ensures 0.0 <= time < 6000.0 * d ==> t == time
  {
    JsRem(time, 6000.0 * d)
  }

  /** The animation loops: a frame one full cycle later sees the same cycle time. */
  lemma CycleRepeats(time: real, d: real)
    requires d > 0.0 && time >= 0.0
    ensures CycleTime(time + 6000.0 * d, d) == CycleTime(time, d)
  {
    RemainderRepeats(time, 6000.0 * d);
  }

  /** Why a frame could not be finished: the easing table has no such member (a `TypeError`). */
  datatype RenderError = MissingEasing(member: Member)

  /** The eased value of a `smooth | elastic | bounce` curve, as `getEase` and the cursor's
      override chain read it from the easing table. */
  function CurveEase(m: MathLib, curve: Curve, t: real): (r: Option<real>)
    ensures r.None? <==> curve == Bounce
    ensures curve == Smooth ==> r == Some(EaseOutExpo(m, t))
    ensures curve == Elastic ==> r == Some(EaseOutElastic(m, t))
  {
    match curve
    case Elastic => Lookup(m, EaseOutElasticMember, t)
    case Bounce => Lookup(m, EaseOutBounceMember, t)
    case Smooth => Lookup(m, EaseOutExpoMember, t)
  }

  // ---------------------------------------------------------------------------------------
  // The card's envelope

  /** The vertical offset, opacity and scale of the card. */
  datatype Envelope = Envelope(yOffset: real, opacity: real, scale: real)

  /** Between the entrance and the exit the card sits still, fully visible, at full size. */
  const Rest: Envelope := Envelope(0.0, 1.0, 1.0)

  /** The entrance (`tMs < 1000 D`, eased by the chosen curve), the exit (`tMs > 5000 D`,
      eased by `easeOutExpo`), and the rest in between. Each toggle switched off leaves its
      channel at rest. */
  function BoxEnvelope(m: MathLib, anim: AnimationSettings, tMs: real): (r: Result<Envelope, RenderError>)
    requires anim.duration != 0.0
    ensures r.Failure? <==> tMs < 1000.0 * anim.duration && anim.curve == Bounce
    ensures r.Failure? ==> r.error == MissingEasing(EaseOutBounceMember)
    ensures 1000.0 * anim.duration <= tMs <= 5000.0 * anim.duration ==> r == Success(Rest)
    ensures r.Success? && !anim.position ==> r.value.yOffset == 0.0
    ensures r.Success? && !anim.opacity ==> r.value.opacity == 1.0
    ensures r.Success? && !anim.scale ==> r.value.scale == 1.0
  {
    var d := anim.duration;
    if tMs < 1000.0 * d then
      match CurveEase(m, anim.curve, Div(tMs, 1000.0 * d))
      case None => Failure(MissingEasing(EaseOutBounceMember))
      case Some(e) =>
        Success(Envelope(
          if anim.position then 100.0 * (1.0 - e) else 0.0,
          if anim.opacity then e else 1.0,
          if anim.scale then 0.8 + 0.2 * e else 1.0))
    else if tMs > 5000.0 * d then
      var e := EaseOutExpo(m, Div(tMs - 5000.0 * d, 1000.0 * d));
      Success(Envelope(
        if anim.position then 50.0 * e else 0.0,
        if anim.opacity then 1.0 - e else 1.0,
        if anim.scale then 1.0 - 0.1 * e else 1.0))
    else
      Success(Rest)
  }

  /** The entrance follows the configured curve: with `e` its eased value at `tMs / (1000 D)`,
      the card is `100 (1 - e)` below its place, at opacity `e` and at scale `0.8 + 0.2 e`
      (for the channels switched on). */
  lemma BoxEntranceFollowsCurve(m: MathLib, anim: AnimationSettings, tMs: real)
    requires anim.duration != 0.0 && tMs < 1000.0 * anim.duration
    ensures var c := CurveEase(m, anim.curve, Div(tMs, 1000.0 * anim.duration));
      c.Some? ==> BoxEnvelope(m, anim, tMs) == Success(Envelope(
        if anim.position then 100.0 * (1.0 - c.value) else 0.0,
        if anim.opacity then c.value else 1.0,
        if anim.scale then 0.8 + 0.2 * c.value else 1.0))
  {
  }

  /** The exit always uses `easeOutExpo`, whatever curve is configured: with `e` its value at
      `(tMs - 5000 D) / (1000 D)`, the card drops by `50 e`, fades to `1 - e` and shrinks to
      `1 - 0.1 e`. From the end of the entrance on, the curve does not matter at all. */
  lemma BoxExitIgnoresCurve(m: MathLib, anim: AnimationSettings, tMs: real, c: Curve)
    requires anim.duration != 0.0 && tMs >= 1000.0 * anim.duration
    ensures BoxEnvelope(m, anim, tMs) == BoxEnvelope(m, anim.(curve := c), tMs)
    ensures var d := anim.duration;
      var e := EaseOutExpo(m, Div(tMs - 5000.0 * d, 1000.0 * d));
      tMs > 5000.0 * d ==> BoxEnvelope(m, anim, tMs) == Success(Envelope(
        if anim.position then 50.0 * e else 0.0,
        if anim.opacity then 1.0 - e else 1.0,
        if anim.scale then 1.0 - 0.1 * e else 1.0))
  {
  }

  /** The exit fades the card out, shrinks it by at most a tenth and drops it by at most 50. */
  lemma BoxExitBounds(m: MathLib, anim: AnimationSettings, tMs: real)
    requires Sound(m) && anim.duration > 0.0 && tMs > 5000.0 * anim.duration
    ensures var r := BoxEnvelope(m, anim, tMs);
      && r.Success?
      && 0.0 <= r.value.opacity <= 1.0
      && 0.9 <= r.value.scale <= 1.0
      && 0.0 <= r.value.yOffset <= 50.0
  {
    var d := anim.duration;
    DivNonNegative(tMs - 5000.0 * d, 1000.0 * d);
  }

  /** With the smooth curve the entrance rises from below: offset at most 100, opacity and
      scale growing from 0 and 0.8 towards 1. */
  lemma BoxEnterBounds(m: MathLib, anim: AnimationSettings, tMs: real)
    requires Sound(m) && anim.duration > 0.0 && anim.curve == Smooth
    requires 0.0 <= tMs < 1000.0 * anim.duration
    ensures var r := BoxEnvelope(m, anim, tMs);
      && r.Success?
      && 0.0 <= r.value.opacity <= 1.0
      && 0.8 <= r.value.scale <= 1.0
      && 0.0 <= r.value.yOffset <= 100.0
  {
    var d := anim.duration;
    DivNonNegative(tMs, 1000.0 * d);
  }

  /** At the start of a cycle a defined curve puts the card 100 below its place, transparent
      and at 80% size (for the channels switched on). */
  lemma BoxStartsHidden(m: MathLib, anim: AnimationSettings)
    requires Sound(m) && anim.duration > 0.0 && anim.curve != Bounce
    ensures BoxEnvelope(m, anim, 0.0) == Success(Envelope(
      if anim.position then 100.0 else 0.0,
      if anim.opacity then 0.0 else 1.0,
      if anim.scale then 0.8 else 1.0))
  {
    assert Div(0.0, 1000.0 * anim.duration) == 0.0;
  }

  // ---------------------------------------------------------------------------------------
  // The click

  /** After `2500 D` the card shows its subscribed look: not at the start of a cycle, and
      throughout the exit, which begins at `5000 D`. */
  predicate IsClicked(tMs: real, d: real)
    ensures d > 0.0 && tMs <= 0.0 ==> !IsClicked(tMs, d)
    ensures d > 0.0 && tMs >= 5000.0 * d ==> IsClicked(tMs, d)
  {
    tMs > 2500.0 * d
  }

  /** The bump: for 200 ms after the click (not scaled by D) the card swells by up to 5%
      along a sine arc. */
  function BumpScale(m: MathLib, tMs: real, d: real): (s: real)
    ensures !(2500.0 * d < tMs < 2500.0 * d + 200.0) ==> s == 1.0
    ensures s != 1.0 ==> IsClicked(tMs, d)
    ensures Sound(m) ==> 0.95 <= s <= 1.05
  {
    if 2500.0 * d < tMs < 2500.0 * d + 200.0 then
      1.0 + m.sin(Mul((tMs - 2500.0 * d) / 200.0, m.pi)) * 0.05
    else 1.0
  }

  // ---------------------------------------------------------------------------------------
  // Layout

  const BoxHeight: real := 200.0

  function BoxWidth(format: LayoutFormat): real {
    if format == Landscape then 800.0 else 700.0
  }

  /** The card's centre and its top-left corner. */
  datatype BoxGeometry = BoxGeometry(cx: real, cy: real, x: real, y: real, width: real, height: real)

  /** The card is centred on the logical canvas (`width / scale` by `height / scale`), moved
      down by the envelope's offset. */
  function BoxLayout(format: LayoutFormat, width: real, height: real, scale: real, yOffset: real)
    : (g: BoxGeometry)
    requires scale != 0.0
    ensures g.width == BoxWidth(format) && g.height == BoxHeight
    ensures g.x + g.width / 2.0 == g.cx && g.y + g.height / 2.0 == g.cy
    ensures 2.0 * g.cx == Div(width, scale)
    ensures 2.0 * (g.cy - yOffset) == Div(height, scale)
  {
    var cx := Div(width, scale) / 2.0;
    var cy := Div(height, scale) / 2.0 + yOffset;
    BoxGeometry(cx, cy, cx - BoxWidth(format) / 2.0, cy - BoxHeight / 2.0, BoxWidth(format), BoxHeight)
  }

  const AvatarSize: real := 140.0

  /** The avatar's top-left corner: 30 in from the card's left edge, centred vertically. */
  function AvatarCorner(g: BoxGeometry): (r: (real, real))
    requires g.height == BoxHeight && g.width >= 700.0
    ensures g.x <= r.0 && r.0 + AvatarSize <= g.x + g.width
    ensures r.1 + AvatarSize / 2.0 == g.y + g.height / 2.0
  {
    (g.x + 30.0, g.y + (BoxHeight - AvatarSize) / 2.0)
  }

  /** How an image of the given size is drawn to cover the 140 by 140 avatar disc. */
  datatype Cover = Cover(drawW: real, drawH: real, offsetX: real, offsetY: real)

  function CoverFit(imgW: real, imgH: real): (c: Cover)
    requires imgW > 0.0 && imgH > 0.0
    ensures imgW > imgH ==> c.drawH == AvatarSize && c.drawW > AvatarSize
    ensures imgW <= imgH ==> c.drawW == AvatarSize && c.drawH >= AvatarSize
    ensures c.offsetX == (AvatarSize - c.drawW) / 2.0 && c.offsetY == (AvatarSize - c.drawH) / 2.0
  {
    var ratio := Div(imgW, imgH);
    RatioFacts(imgW, imgH);
    if ratio > 1.0 then
      var drawW := AvatarSize * ratio;
      Cover(drawW, AvatarSize, -(drawW - AvatarSize) / 2.0, 0.0)
    else
      var drawH := Div(AvatarSize, ratio);
      ReciprocalAtLeast(AvatarSize, ratio);
      Cover(AvatarSize, drawH, 0.0, -(drawH - AvatarSize) / 2.0)
  }

  lemma {:induction false} RatioFacts(w: real, h: real)
    requires w > 0.0 && h > 0.0
    ensures Div(w, h) > 0.0
    ensures Div(w, h) > 1.0 <==> w > h
    ensures Mul(Div(w, h), h) == w
  {
    var q := w / h;
    assert Mul(q, h) == w;
    PositiveFactor(q, h);
    assert Mul(q - 1.0, h) == w - h;
    if w > h {
      PositiveFactor(q - 1.0, h);
    }
    if q > 1.0 {
      MulPositive(q - 1.0, h);
    }
  }

  lemma {:induction false} ReciprocalAtLeast(a: real, r: real)
    requires a > 0.0 && 0.0 < r <= 1.0
    ensures Div(a, r) >= a
  {
    var q := a / r;
    assert Mul(q, r) == a;
    PositiveFactor(q, r);
    assert Mul(q, 1.0 - r) == q - a;
    MulNonNegative(q, 1.0 - r);
  }

  /** The cover keeps the image's aspect ratio. */
  lemma CoverKeepsAspect(imgW: real, imgH: real)
    requires imgW > 0.0 && imgH > 0.0
    ensures Mul(CoverFit(imgW, imgH).drawW, imgH) == Mul(CoverFit(imgW, imgH).drawH, imgW)
  {
    var ratio := Div(imgW, imgH);
    RatioFacts(imgW, imgH);
    if ratio <= 1.0 {
      var q := AvatarSize / ratio;
      assert Mul(q, ratio) == AvatarSize;
      assert Mul(q, imgW) == Mul(Mul(q, ratio), imgH);
    }
  }

  /** The text block: its left edge, its two baselines (`textBaseline = 'top'`), its strings
      and colours. */
  datatype TextPaint = TextPaint(
    x: real, primaryY: real, underY: real,
    primary: string, primaryColor: string,
    under: string, underColor: string)

  /** The measured heights of the two lines (72 and 36 px fonts, times 0.72) and the gap. */
  const PrimaryHeight: real := 72.0 * 0.72
  const UnderHeight: real := 36.0 * 0.72
  const TextGap: real := 15.0

  /** The text block starts 200 into the card (10 more once clicked) and is centred
      vertically on the card; the click swaps the primary line and both colours. */
  function TextLayout(s: CTAState, g: BoxGeometry, clicked: bool): (t: TextPaint)
    requires g.height == BoxHeight
    ensures t.x == g.x + 200.0 + (if clicked then 10.0 else 0.0)
    ensures t.primaryY + PrimaryHeight + TextGap == t.underY
    ensures (t.primaryY + t.underY + UnderHeight) / 2.0 == g.y + BoxHeight / 2.0
    ensures t.primary == (if clicked then s.subscribedText else s.primaryText)
    ensures t.under == s.underText
    ensures t.primaryColor == (if clicked then s.subscribedColors else s.ctaColors).text
    ensures t.underColor == (if clicked then s.subscribedColors else s.ctaColors).underText
  {
    var textCenterY := g.y + BoxHeight / 2.0;
    var blockTopY := textCenterY - (PrimaryHeight + TextGap + UnderHeight) / 2.0;
    var colors := if clicked then s.subscribedColors else s.ctaColors;
    TextPaint(
      g.x + 200.0 + (if clicked then 10.0 else 0.0),
      blockTopY, blockTopY + PrimaryHeight + TextGap,
      if clicked then s.subscribedText else s.primaryText, colors.text,
      s.underText, colors.underText)
  }

  /** The text starts to the right of the avatar and stays inside the card vertically. */
  lemma TextBesideAvatar(s: CTAState, g: BoxGeometry, clicked: bool)
    requires g.height == BoxHeight && g.width >= 700.0
    ensures var t := TextLayout(s, g, clicked);
      && AvatarCorner(g).0 + AvatarSize < t.x
      && g.y < t.primaryY && t.underY + UnderHeight < g.y + g.height
  {
  }

  // ---------------------------------------------------------------------------------------
  // The cursor

  /** Where the cursor image is drawn and how much it is pressed. */
  datatype CursorPose = CursorPose(x: real, y: real, scale: real)

  /** The cursor's pose while its block runs (`tMs < 5000 D`): it flies in from the bottom-right
      corner of the logical canvas `(w, h)` between `1000 D` and `2500 D`, rests on the target
      `(tx, ty)`, and from `3000 D` drifts left by 100 and down by half the physical height,
      eased by `easeInQuad`. Around the click it is pressed to 80%. */
  function CursorPosition(m: MathLib, kind: Curve, tMs: real, d: real,
                          w: real, h: real, height: real, tx: real, ty: real)
    : (r: Result<CursorPose, RenderError>)
    requires d != 0.0
    ensures r.Failure? <==> 1000.0 * d <= tMs < 2500.0 * d && kind == Bounce
    ensures r.Failure? ==> r.error == MissingEasing(EaseOutBounceMember)
    ensures r.Success? ==> r.value.scale == (if 2500.0 * d - 100.0 < tMs < 2500.0 * d + 100.0 then 0.8 else 1.0)
    ensures r.Success? && 2500.0 * d <= tMs <= 3000.0 * d ==> r.value.x == tx && r.value.y == ty
  {
    var pressed := if 2500.0 * d - 100.0 < tMs < 2500.0 * d + 100.0 then 0.8 else 1.0;
    if 1000.0 * d <= tMs < 2500.0 * d then
      match CurveEase(m, kind, Div(tMs - 1000.0 * d, 1500.0 * d))
      case None => Failure(MissingEasing(EaseOutBounceMember))
      case Some(e) => Success(CursorPose(Mul(w, 1.0 - e) + Mul(tx, e), Mul(h, 1.0 - e) + Mul(ty, e), pressed))
    else if tMs >= 2500.0 * d then
      if tMs > 3000.0 * d then
        var e := EaseInQuad(Div(tMs - 3000.0 * d, 1000.0 * d));
        Success(CursorPose(tx - 100.0 * e, ty + Mul(height / 2.0, e), pressed))
      else Success(CursorPose(tx, ty, pressed))
    else
      Success(CursorPose(w + 50.0, h + 100.0, pressed))
  }

  /** The fly-in starts from the logical corner `(w, h)` itself, not from the point
      `(w + 50, h + 100)` the pose is first set to; that point is never painted. */
  lemma CursorFlyInStartsAtCorner(m: MathLib, kind: Curve, d: real,
                                  w: real, h: real, height: real, tx: real, ty: real)
    requires Sound(m) && d > 0.0 && kind != Bounce
    ensures var r := CursorPosition(m, kind, 1000.0 * d, d, w, h, height, tx, ty);
      r.Success? && r.value.x == w && r.value.y == h
  {
    assert Div(0.0, 1500.0 * d) == 0.0;
    assert Mul(w, 1.0) == w && Mul(h, 1.0) == h;
  }

  /** After `3000 D` the cursor moves away from the target: left, and down when the canvas has
      a non-negative height. */
  lemma CursorExitMovesAway(m: MathLib, kind: Curve, tMs: real, d: real,
                            w: real, h: real, height: real, tx: real, ty: real)
    requires d > 0.0 && height >= 0.0 && tMs > 3000.0 * d
    ensures var r := CursorPosition(m, kind, tMs, d, w, h, height, tx, ty);
      r.Success? && r.value.x <= tx && r.value.y >= ty
  {
    var t := Div(tMs - 3000.0 * d, 1000.0 * d);
    DivNonNegative(tMs - 3000.0 * d, 1000.0 * d);
    MulNonNegative(t, t);
    MulNonNegative(height / 2.0, EaseInQuad(t));
  }

  /** The cursor block: it runs when the cursor is visible, its image is loaded and
      `tMs < 5000 D`, and paints only after `1000 D`. */
  function CursorFrame(m: MathLib, cur: CursorSettings, hasImage: bool, tMs: real, d: real,
                       w: real, h: real, height: real, tx: real, ty: real)
    : (r: Result<Option<CursorPose>, RenderError>)
    requires d != 0.0
    ensures r.Failure? <==>
      cur.visible && hasImage && tMs < 5000.0 * d && 1000.0 * d <= tMs < 2500.0 * d
      && cur.animationType == Bounce
    ensures r.Failure? ==> r.error == MissingEasing(EaseOutBounceMember)
    ensures r.Success? && r.value.Some? ==> cur.visible && hasImage && 1000.0 * d < tMs < 5000.0 * d
    ensures r.Success? && r.value.None? ==> !(cur.visible && hasImage && 1000.0 * d < tMs < 5000.0 * d)
  {
    if cur.visible && hasImage && tMs < 5000.0 * d then
      match CursorPosition(m, cur.animationType, tMs, d, w, h, height, tx, ty)
      case Failure(e) => Failure(e)
      case Success(p) => Success(if tMs > 1000.0 * d then Some(p) else None)
    else Success(None)
  }

  // ---------------------------------------------------------------------------------------
  // The whole frame

  /** The card's rectangle with its fill, the envelope's opacity and scale, and the click bump;
      avatar and text are painted under the same opacity and scaling about `(cx, cy)`. */
  datatype BoxPaint = BoxPaint(
    opacity: real, scale: real, bump: real, geometry: BoxGeometry,
    background: string, roundness: real)

  /** The image drawn into the avatar disc: its corner, its cover size, and the user's
      transform about the disc's centre. */
  datatype ImagePaint = ImagePaint(x: real, y: real, cover: Cover, transform: Transform)

  /** The avatar disc; with no image it is filled with the placeholder grey. */
  datatype AvatarPaint = AvatarPaint(x: real, y: real, image: Option<ImagePaint>)

  const PlaceholderFill: string := "#ccc"

  /** Everything one call paints, in painting order. */
  datatype Frame = Frame(
    box: BoxPaint, avatar: AvatarPaint, text: TextPaint,
    particles: seq<ParticlePaint>, cursor: Option<CursorPose>)

  /** The pixel size of a loaded image. */
  datatype ImageSize = ImageSize(width: real, height: real)

  /** `RenderAssets`: the avatar image, whether the cursor image is loaded, and the particle
      sprite with its tinting canvas. */
  datatype Assets = Assets(image: Option<ImageSize>, cursor: bool, sprites: SpriteAssets)

  /** The arithmetic of a frame is defined: no division by a zero duration, scale, noise scale
      or image side. */
  predicate FrameDefined(s: CTAState, assets: Assets, scale: real) {
    && s.animation.duration != 0.0
    && scale != 0.0
    && NoiseDefined(s.particles)
    && (assets.image.Some? ==> assets.image.value.width > 0.0 && assets.image.value.height > 0.0)
  }

  /** The avatar: the image covers the disc, centred on it, under the user's transform. */
  function AvatarFor(s: CTAState, assets: Assets, g: BoxGeometry): (a: AvatarPaint)
    requires g.height == BoxHeight && g.width >= 700.0
    requires assets.image.Some? ==> assets.image.value.width > 0.0 && assets.image.value.height > 0.0
    ensures (a.x, a.y) == AvatarCorner(g)
    ensures a.image.Some? <==> assets.image.Some?
    ensures a.image.Some? ==>
      && a.image.value.transform == s.imageTransform
      && a.image.value.x + a.image.value.cover.drawW / 2.0 == a.x + AvatarSize / 2.0
      && a.image.value.y + a.image.value.cover.drawH / 2.0 == a.y + AvatarSize / 2.0
  {
    var corner := AvatarCorner(g);
    match assets.image
    case None => AvatarPaint(corner.0, corner.1, None)
    case Some(img) =>
      var c := CoverFit(img.width, img.height);
      AvatarPaint(corner.0, corner.1,
        Some(ImagePaint(corner.0 + c.offsetX, corner.1 + c.offsetY, c, s.imageTransform)))
  }

  /** The card: box, avatar and text, for a given envelope. */
  function CardFor(m: MathLib, s: CTAState, assets: Assets, env: Envelope, g: BoxGeometry, tMs: real)
    : (c: (BoxPaint, AvatarPaint, TextPaint))
    requires g.height == BoxHeight && g.width >= 700.0
    requires assets.image.Some? ==> assets.image.value.width > 0.0 && assets.image.value.height > 0.0
    ensures c.0.geometry == g
    ensures c.0.opacity == env.opacity && c.0.scale == env.scale
    ensures c.0.bump == BumpScale(m, tMs, s.animation.duration)
    ensures c.0.background == (if IsClicked(tMs, s.animation.duration) then s.subscribedColors else s.ctaColors).background
    ensures c.1 == AvatarFor(s, assets, g)
    ensures c.2 == TextLayout(s, g, IsClicked(tMs, s.animation.duration))
  {
    var d := s.animation.duration;
    var clicked := IsClicked(tMs, d);
    (BoxPaint(env.opacity, env.scale, BumpScale(m, tMs, d), g,
              (if clicked then s.subscribedColors else s.ctaColors).background, s.roundness),
     AvatarFor(s, assets, g),
     TextLayout(s, g, clicked))
  }

  /** The particle list a frame leaves behind: spawned and reset, then advanced one step. */
  function PoolAfter(m: MathLib, cfg: ParticleSettings, tMs: real, d: real, cx: real, cy: real,
                     rng: Stream, pool: Pool)
    : (r: Pool)
    requires NoiseDefined(cfg) && AllValid(pool.particles)
    ensures AllValid(r.particles) && AllLive(r.particles)
  {
    var spawned := SpawnAndReset(m, cfg, tMs, d, cx, cy, rng, pool);
    StepKeepsValid(m, cfg, spawned.particles);
    Pool(Advance(m, cfg, spawned.particles), spawned.drawn)
  }

  /** The frame once the card's envelope is known: the card, the confetti left by `PoolAfter`,
      then the cursor. */
  function FrameAfterBox(m: MathLib, width: real, height: real, tMs: real, s: CTAState,
                         assets: Assets, scale: real, rng: Stream, pool: Pool, env: Envelope)
    : (r: Result<Frame, RenderError>)
    requires FrameDefined(s, assets, scale) && AllValid(pool.particles)
    ensures r.Failure? ==> r.error == MissingEasing(EaseOutBounceMember)
    ensures r.Success? ==>
      var g := BoxLayout(s.format, width, height, scale, env.yOffset);
      |r.value.particles|
        == |PoolAfter(m, s.particles, tMs, s.animation.duration, g.cx, g.cy, rng, pool).particles|
  {
    var d := s.animation.duration;
    var g := BoxLayout(s.format, width, height, scale, env.yOffset);
    var card := CardFor(m, s, assets, env, g, tMs);
    var after := PoolAfter(m, s.particles, tMs, d, g.cx, g.cy, rng, pool);
    match CursorFrame(m, s.cursor, assets.cursor, tMs, d, Div(width, scale), Div(height, scale),
                      height, g.cx + 200.0, g.cy + 50.0)
    case Failure(e) => Failure(e)
    case Success(cursor) =>
      Success(Frame(card.0, card.1, card.2, PaintAll(m, s.particles, assets.sprites, after.particles), cursor))
  }

  /** What `renderFrame` paints at `time`, or the error it throws. */
  function RenderResult(m: MathLib, width: real, height: real, time: real, s: CTAState,
                        assets: Assets, scale: real, rng: Stream, pool: Pool)
    : (r: Result<Frame, RenderError>)
    requires FrameDefined(s, assets, scale) && AllValid(pool.particles)
    ensures r.Failure? ==> r.error == MissingEasing(EaseOutBounceMember)
  {
    var tMs := CycleTime(time, s.animation.duration);
    match BoxEnvelope(m, s.animation, tMs)
    case Failure(e) => Failure(e)
    case Success(env) => FrameAfterBox(m, width, height, tMs, s, assets, scale, rng, pool, env)
  }

  /** The particle list `renderFrame` leaves behind: untouched when the card fails, otherwise
      spawned at the card's centre, reset and advanced, whether or not the cursor then fails. */
  function RenderPool(m: MathLib, width: real, height: real, time: real, s: CTAState,
                      scale: real, rng: Stream, pool: Pool)
    : (r: Pool)
    requires s.animation.duration != 0.0 && scale != 0.0 && NoiseDefined(s.particles)
    requires AllValid(pool.particles)
    ensures AllValid(r.particles)
  {
    var tMs := CycleTime(time, s.animation.duration);
    match BoxEnvelope(m, s.animation, tMs)
    case Failure(_) => pool
    case Success(env) =>
      var g := BoxLayout(s.format, width, height, scale, env.yOffset);
      PoolAfter(m, s.particles, tMs, s.animation.duration, g.cx, g.cy, rng, pool)
  }

  /** `renderFrame` on the particle list held by `ps`. */
  method RenderFrame(m: MathLib, width: real, height: real, time: real, s: CTAState,
                     assets: Assets, scale: real, ps: ParticleSystem)
    returns (r: Result<Frame, RenderError>)
    requires FrameDefined(s, assets, scale) && ps.Valid()
    modifies ps
    ensures ps.Valid()
    ensures r == RenderResult(m, width, height, time, s, assets, scale, ps.rng, old(ps.State()))
    ensures ps.State() == RenderPool(m, width, height, time, s, scale, ps.rng, old(ps.State()))
  {
    var d := s.animation.duration;
    var tMs := CycleTime(time, d);
    var envelope := BoxEnvelope(m, s.animation, tMs);
    if envelope.Failure? {
      return Failure(envelope.error);
    }
    r := RenderAfterBox(m, width, height, tMs, s, assets, scale, ps, envelope.value);
  }

  /** The rest of `renderFrame` once the card's envelope is known. */
  method RenderAfterBox(m: MathLib, width: real, height: real, tMs: real, s: CTAState,
                        assets: Assets, scale: real, ps: ParticleSystem, env: Envelope)
    returns (r: Result<Frame, RenderError>)
    requires FrameDefined(s, assets, scale) && ps.Valid()
    modifies ps
    ensures ps.Valid()
    ensures r == FrameAfterBox(m, width, height, tMs, s, assets, scale, ps.rng, old(ps.State()), env)
    ensures var g := BoxLayout(s.format, width, height, scale, env.yOffset);
      ps.State() == PoolAfter(m, s.particles, tMs, s.animation.duration, g.cx, g.cy, ps.rng, old(ps.State()))
  {
    var d := s.animation.duration;
    var g := BoxLayout(s.format, width, height, scale, env.yOffset);
    var card := CardFor(m, s, assets, env, g, tMs);
    ghost var before := ps.State();
    var paints := ParticlesFrame(m, s.particles, assets.sprites, tMs, d, g.cx, g.cy, ps);
    ghost var after := PoolAfter(m, s.particles, tMs, d, g.cx, g.cy, ps.rng, before);
    assert paints == PaintAll(m, s.particles, assets.sprites, after.particles);
    var cursor := CursorFrame(m, s.cursor, assets.cursor, tMs, d, Div(width, scale), Div(height, scale),
                              height, g.cx + 200.0, g.cy + 50.0);
    if cursor.Failure? {
      return Failure(cursor.error);
    }
    r := Success(Frame(card.0, card.1, card.2, paints, cursor.value));
  }

  /** The confetti part of a frame: the spawn-once burst at `(cx, cy)` in the spawn window,
      the reset before `100` ms, then the update and paint of a nonempty list. */
  method ParticlesFrame(m: MathLib, cfg: ParticleSettings, sprites: SpriteAssets, tMs: real, d: real,
                        cx: real, cy: real, ps: ParticleSystem)
    returns (paints: seq<ParticlePaint>)
    requires NoiseDefined(cfg) && ps.Valid()
    modifies ps
    ensures ps.Valid()
    ensures ps.State() == PoolAfter(m, cfg, tMs, d, cx, cy, ps.rng, old(ps.State()))
    ensures paints == PaintAll(m, cfg, sprites, ps.particles)
  {
    ghost var before := ps.State();
    if SpawnWindowOpen(cfg, tMs, d) {
      if |ps.particles| == 0 {
        ps.Spawn(m, cfg, cx, cy);
      }
    }
    if tMs < 100.0 {
      ps.Clear();
    }
    ghost var spawned := ps.State();
    assert spawned == SpawnAndReset(m, cfg, tMs, d, cx, cy, ps.rng, before);
    paints := [];
    if |ps.particles| > 0 {
      paints := ps.Update(m, cfg, sprites);
    } else {
      AdvanceEmpty(m, cfg, sprites);
    }
  }

  lemma AdvanceEmpty(m: MathLib, cfg: ParticleSettings, sprites: SpriteAssets)
    requires NoiseDefined(cfg)
    ensures Advance(m, cfg, []) == [] && PaintAll(m, cfg, sprites, []) == []
  {
    assert StepAll(m, cfg, []) == [];
    assert Survivors([]) == [];
  }

  // ---------------------------------------------------------------------------------------
  // Properties of whole frames

  /** The frames that ask the easing table for `easeOutBounce`: the card's entrance with the
      bounce curve, and the visible cursor's fly-in with the bounce curve. */
  predicate NeedsBounce(s: CTAState, assets: Assets, tMs: real) {
    var d := s.animation.duration;
    || (tMs < 1000.0 * d && s.animation.curve == Bounce)
    || (s.cursor.visible && assets.cursor && tMs < 5000.0 * d && 1000.0 * d <= tMs < 2500.0 * d
        && s.cursor.animationType == Bounce)
  }

  /** A frame fails exactly when it needs the missing `easeOutBounce`, and then with that error. */
  lemma RenderFailsExactlyWithoutBounce(m: MathLib, width: real, height: real, time: real, s: CTAState,
                                        assets: Assets, scale: real, rng: Stream, pool: Pool)
    requires FrameDefined(s, assets, scale) && AllValid(pool.particles)
    ensures var r := RenderResult(m, width, height, time, s, assets, scale, rng, pool);
      && (r.Failure? <==> NeedsBounce(s, assets, CycleTime(time, s.animation.duration)))
      && (r.Failure? ==> r.error == MissingEasing(EaseOutBounceMember))
  {
  }

  /** A card that cannot enter stops the frame before the confetti: the list is untouched. */
  lemma CardFailureKeepsParticles(m: MathLib, width: real, height: real, time: real, s: CTAState,
                                  scale: real, rng: Stream, pool: Pool)
    requires s.animation.duration != 0.0 && scale != 0.0 && NoiseDefined(s.particles)
    requires AllValid(pool.particles)
    requires CycleTime(time, s.animation.duration) < 1000.0 * s.animation.duration
    requires s.animation.curve == Bounce
    ensures RenderPool(m, width, height, time, s, scale, rng, pool) == pool
  {
  }

  /** Before `100` ms into a cycle a frame whose card renders leaves the list empty and paints
      no confetti. */
  lemma EarlyFramesClearParticles(m: MathLib, width: real, height: real, time: real, s: CTAState,
                                  assets: Assets, scale: real, rng: Stream, pool: Pool)
    requires FrameDefined(s, assets, scale) && AllValid(pool.particles)
    requires CycleTime(time, s.animation.duration) < 100.0
    requires BoxEnvelope(m, s.animation, CycleTime(time, s.animation.duration)).Success?
    ensures RenderPool(m, width, height, time, s, scale, rng, pool).particles == []
    ensures var r := RenderResult(m, width, height, time, s, assets, scale, rng, pool);
      r.Success? ==> r.value.particles == []
  {
    AdvanceEmpty(m, s.particles, assets.sprites);
  }

  /** A fresh burst after its first step. */
  function FirstStep(m: MathLib, cfg: ParticleSettings, cx: real, cy: real, rng: Stream, base: nat, n: nat)
    : (r: seq<Particle>)
    requires NoiseDefined(cfg)
    ensures |r| <= n
  {
    BurstValid(m, cfg, cx, cy, rng, base, n);
    Advance(m, cfg, Burst(m, cfg, cx, cy, rng, base, n))
  }

  /** The burst: a frame in the spawn window on an empty list (with `D >= 0.04`, so the card is
      at rest and the reset period is over) spawns `count` particles at the centre of the
      logical canvas, draws seven random values per particle, and advances them once. */
  lemma BurstFromCanvasCentre(m: MathLib, width: real, height: real, time: real, s: CTAState,
                              scale: real, rng: Stream, pool: Pool)
    requires scale != 0.0 && NoiseDefined(s.particles) && pool.particles == []
    requires s.animation.duration >= 0.04 && time >= 0.0
    requires SpawnWindowOpen(s.particles, CycleTime(time, s.animation.duration), s.animation.duration)
    ensures var r := RenderPool(m, width, height, time, s, scale, rng, pool);
      var n := SpawnCount(s.particles.count);
      && r.particles == FirstStep(m, s.particles, Div(width, scale) / 2.0, Div(height, scale) / 2.0, rng, pool.drawn, n)
      && r.drawn == pool.drawn + 7 * n
  {
    var d := s.animation.duration;
    var tMs := CycleTime(time, d);
    var cx, cy := Div(width, scale) / 2.0, Div(height, scale) / 2.0;
    assert BoxEnvelope(m, s.animation, tMs) == Success(Rest);
    assert RenderPool(m, width, height, time, s, scale, rng, pool)
        == PoolAfter(m, s.particles, tMs, d, cx, cy, rng, pool);
    BurstThenStep(m, s.particles, tMs, d, cx, cy, rng, pool);
  }

  lemma BurstThenStep(m: MathLib, cfg: ParticleSettings, tMs: real, d: real, cx: real, cy: real,
                      rng: Stream, pool: Pool)
    requires NoiseDefined(cfg) && pool.particles == [] && tMs >= 100.0 && SpawnWindowOpen(cfg, tMs, d)
    ensures PoolAfter(m, cfg, tMs, d, cx, cy, rng, pool)
         == Pool(FirstStep(m, cfg, cx, cy, rng, pool.drawn, SpawnCount(cfg.count)),
                 pool.drawn + 7 * SpawnCount(cfg.count))
  {
    SpawnExactlyWhenDue(m, cfg, tMs, d, cx, cy, rng, pool);
  }

  /** Two frames in the spawn window, the first on an empty list: the first bursts, and the
      second bursts again exactly when no particle of the first burst outlived its first step
      (every one had at most `LifeDecrement` of life). Otherwise the second frame draws
      nothing and only advances the list. */
  lemma {:induction false} SecondBurstExactlyWhenFirstDied(
    m: MathLib, cfg: ParticleSettings, t1: real, t2: real, d: real,
    cx: real, cy: real, cx2: real, cy2: real, rng: Stream, pool: Pool)
    requires NoiseDefined(cfg) && pool.particles == [] && SpawnCount(cfg.count) > 0
    requires t1 >= 100.0 && t2 >= 100.0 && SpawnWindowOpen(cfg, t1, d) && SpawnWindowOpen(cfg, t2, d)
    ensures var n := SpawnCount(cfg.count);
      var burst := Burst(m, cfg, cx, cy, rng, pool.drawn, n);
      var first := PoolAfter(m, cfg, t1, d, cx, cy, rng, pool);
      var second := PoolAfter(m, cfg, t2, d, cx2, cy2, rng, first);
      && first.drawn == pool.drawn + 7 * n
      && (second.drawn == first.drawn <==> exists i :: 0 <= i < n && burst[i].life > LifeDecrement)
      && (second.drawn == first.drawn ==> second.particles == Advance(m, cfg, first.particles))
      && (second.drawn != first.drawn ==> second.drawn == first.drawn + 7 * n)
  {
    var n := SpawnCount(cfg.count);
    var burst := Burst(m, cfg, cx, cy, rng, pool.drawn, n);
    BurstValid(m, cfg, cx, cy, rng, pool.drawn, n);
    SpawnExactlyWhenDue(m, cfg, t1, d, cx, cy, rng, pool);
    var first := PoolAfter(m, cfg, t1, d, cx, cy, rng, pool);
    assert first.particles == Advance(m, cfg, burst);
    AdvanceEmptyExactlyWhenAllExpire(m, cfg, burst);
    SpawnExactlyWhenDue(m, cfg, t2, d, cx2, cy2, rng, first);
  }

  /** The list can burst twice in one window, although the card's design calls for one burst
      per cycle: with one particle of life 0.01, the burst at 2.5 s dies in its first step, and
      the next frame, `1000 / 60` ms later and still in the window, bursts again. */
  lemma BurstRepeatsWhenItDiesAtOnce(m: MathLib, rng: Stream, cx: real, cy: real)
    ensures var cfg := Defaults.particles.(count := 1.0, lifeMin := 0.01, lifeMax := 0.01);
      var first := PoolAfter(m, cfg, 2500.0, 1.0, cx, cy, rng, Pool([], 0));
      var second := PoolAfter(m, cfg, 2500.0 + 1000.0 / 60.0, 1.0, cx, cy, rng, first);
      first.particles == [] && first.drawn == 7 && second.drawn == 14
  {
    var cfg := Defaults.particles.(count := 1.0, lifeMin := 0.01, lifeMax := 0.01);
    SpawnCountOfWhole(1);
    var burst := Burst(m, cfg, cx, cy, rng, 0, 1);
    BurstAt(m, cfg, cx, cy, rng, 0, 1, 0);
    assert burst[0].life == 0.01;
    SecondBurstExactlyWhenFirstDied(m, cfg, 2500.0, 2500.0 + 1000.0 / 60.0, 1.0, cx, cy, cx, cy, rng, Pool([], 0));
    BurstValid(m, cfg, cx, cy, rng, 0, 1);
    AdvanceEmptyExactlyWhenAllExpire(m, cfg, burst);
  }

  /** The repeat is visible too: with one particle of life 0.03, the burst at 2.5 s is
      painted once, dies in the second frame's step, and the third frame, `2000 / 60` ms after
      the first and still in the window, bursts again and paints the new particle. */
  lemma BurstRepeatsAfterItWasPainted(m: MathLib, sprites: SpriteAssets, rng: Stream, cx: real, cy: real)
    ensures var cfg := Defaults.particles.(count := 1.0, lifeMin := 0.03, lifeMax := 0.03);
      var first := PoolAfter(m, cfg, 2500.0, 1.0, cx, cy, rng, Pool([], 0));
      var second := PoolAfter(m, cfg, 2500.0 + 1000.0 / 60.0, 1.0, cx, cy, rng, first);
      var third := PoolAfter(m, cfg, 2500.0 + 2000.0 / 60.0, 1.0, cx, cy, rng, second);
      && |PaintAll(m, cfg, sprites, first.particles)| == 1 && first.drawn == 7
      && second.particles == [] && second.drawn == 7
      && |PaintAll(m, cfg, sprites, third.particles)| == 1 && third.drawn == 14
  {
    var cfg := Defaults.particles.(count := 1.0, lifeMin := 0.03, lifeMax := 0.03);
    SpawnCountOfWhole(1);
    BurstThenStep(m, cfg, 2500.0, 1.0, cx, cy, rng, Pool([], 0));
    SingleBurstFirstStep(m, cfg, cx, cy, rng, 0);
    var first := PoolAfter(m, cfg, 2500.0, 1.0, cx, cy, rng, Pool([], 0));
    SpawnExactlyWhenDue(m, cfg, 2500.0 + 1000.0 / 60.0, 1.0, cx, cy, rng, first);
    AdvanceEmptyExactlyWhenAllExpire(m, cfg, first.particles);
    var second := PoolAfter(m, cfg, 2500.0 + 1000.0 / 60.0, 1.0, cx, cy, rng, first);
    BurstThenStep(m, cfg, 2500.0 + 2000.0 / 60.0, 1.0, cx, cy, rng, second);
    SingleBurstFirstStep(m, cfg, cx, cy, rng, 7);
  }

  /** A burst of one particle whose life is fixed above one step's decrement survives its
      first step with one step's life less. */
  lemma SingleBurstFirstStep(m: MathLib, cfg: ParticleSettings, cx: real, cy: real, rng: Stream, base: nat)
    requires NoiseDefined(cfg) && cfg.lifeMin == cfg.lifeMax && cfg.lifeMin > LifeDecrement
    ensures var r := FirstStep(m, cfg, cx, cy, rng, base, 1);
      |r| == 1 && r[0].life == cfg.lifeMin - LifeDecrement
  {
    var burst := Burst(m, cfg, cx, cy, rng, base, 1);
    BurstAt(m, cfg, cx, cy, rng, base, 1, 0);
    BurstValid(m, cfg, cx, cy, rng, base, 1);
    StepAllAt(m, cfg, burst);
    NothingDiesEarly(m, cfg, burst);
  }

  /** The animation loops with period `6000 D`: frames and particle lists repeat. */
  lemma RenderRepeatsEveryCycle(m: MathLib, width: real, height: real, time: real, s: CTAState,
                                assets: Assets, scale: real, rng: Stream, pool: Pool)
    requires FrameDefined(s, assets, scale) && AllValid(pool.particles)
    requires s.animation.duration > 0.0 && time >= 0.0
    ensures RenderResult(m, width, height, time + 6000.0 * s.animation.duration, s, assets, scale, rng, pool)
         == RenderResult(m, width, height, time, s, assets, scale, rng, pool)
    ensures RenderPool(m, width, height, time + 6000.0 * s.animation.duration, s, scale, rng, pool)
         == RenderPool(m, width, height, time, s, scale, rng, pool)
  {
    CycleRepeats(time, s.animation.duration);
  }

  /** After the click the card shows the subscribed text and colours; before it, the call to
      action. The under line always reads `underText`. */
  lemma ClickSwapsLook(m: MathLib, width: real, height: real, time: real, s: CTAState,
                       assets: Assets, scale: real, rng: Stream, pool: Pool)
    requires FrameDefined(s, assets, scale) && AllValid(pool.particles)
    ensures var r := RenderResult(m, width, height, time, s, assets, scale, rng, pool);
      var clicked := CycleTime(time, s.animation.duration) > 2500.0 * s.animation.duration;
      var colors := if clicked then s.subscribedColors else s.ctaColors;
      r.Success? ==>
        && r.value.text.primary == (if clicked then s.subscribedText else s.primaryText)
        && r.value.text.under == s.underText
        && r.value.box.background == colors.background
        && r.value.text.primaryColor == colors.text
        && r.value.text.underColor == colors.underText
  {
  }

  /** The fields of the state a frame reads; the font sizes, the image URL and the export
      settings are not among them. */
  predicate SameFrameSettings(s: CTAState, t: CTAState) {
    && s.primaryText == t.primaryText && s.underText == t.underText
    && s.subscribedText == t.subscribedText && s.format == t.format
    && s.imageTransform == t.imageTransform && s.ctaColors == t.ctaColors
    && s.subscribedColors == t.subscribedColors && s.roundness == t.roundness
    && s.animation == t.animation && s.cursor == t.cursor && s.particles == t.particles
  }

  lemma CardReadsOnlyFrameSettings(m: MathLib, s: CTAState, t: CTAState, assets: Assets,
                                   env: Envelope, g: BoxGeometry, tMs: real)
    requires g.height == BoxHeight && g.width >= 700.0
    requires assets.image.Some? ==> assets.image.value.width > 0.0 && assets.image.value.height > 0.0
    requires SameFrameSettings(s, t)
    ensures CardFor(m, t, assets, env, g, tMs) == CardFor(m, s, assets, env, g, tMs)
  {
    assert AvatarFor(t, assets, g) == AvatarFor(s, assets, g);
    assert TextLayout(t, g, IsClicked(tMs, s.animation.duration))
        == TextLayout(s, g, IsClicked(tMs, s.animation.duration));
  }

  /** A frame depends on the state only through `SameFrameSettings`: changing a font size, the
      image URL, the resolution, the supersampling factor or the container format changes
      neither the picture nor the particle list. */
  lemma RenderReadsOnlyFrameSettings(m: MathLib, width: real, height: real, time: real, s: CTAState,
                                     t: CTAState, assets: Assets, scale: real, rng: Stream, pool: Pool)
    requires FrameDefined(s, assets, scale) && AllValid(pool.particles)
    requires SameFrameSettings(s, t)
    ensures FrameDefined(t, assets, scale)
    ensures RenderResult(m, width, height, time, t, assets, scale, rng, pool)
         == RenderResult(m, width, height, time, s, assets, scale, rng, pool)
    ensures RenderPool(m, width, height, time, t, scale, rng, pool)
         == RenderPool(m, width, height, time, s, scale, rng, pool)
  {
    var tMs := CycleTime(time, s.animation.duration);
    match BoxEnvelope(m, s.animation, tMs)
    case Failure(_) =>
    case Success(env) =>
      var g := BoxLayout(s.format, width, height, scale, env.yOffset);
      CardReadsOnlyFrameSettings(m, s, t, assets, env, g, tMs);
      assert FrameAfterBox(m, width, height, tMs, t, assets, scale, rng, pool, env)
          == FrameAfterBox(m, width, height, tMs, s, assets, scale, rng, pool, env);
  }

  /** With the store's defaults on a 1920 by 1080 canvas, the frame at 2.5 s bursts all 50
      particles from the centre, and every one of them survives its first step and is painted. */
  lemma DefaultsBurstFiftyAtClick(m: MathLib, assets: Assets, rng: Stream)
    requires DrawsInRange(rng, 0, 350)
    requires assets.image.Some? ==> assets.image.value.width > 0.0 && assets.image.value.height > 0.0
    ensures var r := RenderPool(m, 1920.0, 1080.0, 2500.0, Defaults, 1.0, rng, Pool([], 0));
      |r.particles| == 50 && r.drawn == 350
    ensures var r := RenderResult(m, 1920.0, 1080.0, 2500.0, Defaults, assets, 1.0, rng, Pool([], 0));
      r.Success? && |r.value.particles| == 50
  {
    SpawnCountOfWhole(50);
    assert CycleTime(2500.0, 1.0) == 2500.0;
    assert Div(1920.0, 1.0) / 2.0 == 960.0 && Div(1080.0, 1.0) / 2.0 == 540.0;
    BurstFromCanvasCentre(m, 1920.0, 1080.0, 2500.0, Defaults, 1.0, rng, Pool([], 0));
    DefaultBurstSurvives(m, rng);
  }

  /** Every particle of a default burst starts with at least half a unit of life, so all 50
      survive their first step. */
  lemma DefaultBurstSurvives(m: MathLib, rng: Stream)
    requires DrawsInRange(rng, 0, 350)
    ensures |FirstStep(m, Defaults.particles, 960.0, 540.0, rng, 0, 50)| == 50
  {
    var cfg := Defaults.particles;
    assert cfg.lifeMin == 0.5 && cfg.lifeMax == 1.5;
    var burst := Burst(m, cfg, 960.0, 540.0, rng, 0, 50);
    assert |burst| == 50;
    forall i | 0 <= i < |burst| ensures burst[i].life > LifeDecrement {
      BurstAt(m, cfg, 960.0, 540.0, rng, 0, 50, i);
      assert 0.0 <= rng[7 * i + 2] < 1.0;
    }
    NothingDiesEarly(m, cfg, burst);
    BurstValid(m, cfg, 960.0, 540.0, rng, 0, 50);
  }
}
