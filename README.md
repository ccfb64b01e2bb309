# CallToActionVideo, frame evaluator and offline exporter, in Dafny

This project models the deterministic core of the CallToActionVideo generator, which renders a
"subscribe" call-to-action card as a transparent video. The model covers:

- **`Easings`** (`easings.dfy`): the easing table of `src/utils/easings.ts`. This includes the
  fact that the table has no `easeOutBounce` member, although the frame evaluator asks for one.
- **`Store`** (`store.dfy`): the `CTAState` configuration record of `src/store/useStore.ts`, its
  defaults, and all its setters. Each setter is a function from the old state to the new one.
  The partial setters are shallow merges of a partial record into one nested group.
- **`Confetti`** (`confetti.dfy`): the particle list that `renderFrame` keeps across frames,
  modelled as the class `ParticleSystem`. Its methods are:
  - `Spawn`: the burst loop;
  - `Clear`: the reset;
  - `Update`: the `forEach` that moves and paints every particle, followed by the `filter` cull.

  Each method is proved against pure functions (`Burst`, `Advance`, `PaintAll`), and the
  properties are proved about those functions.
- **`RenderLoop`** (`render.dfy`): one call of `renderFrame`. This covers:
  - the `6000 D` cycle and the card's entrance, rest and exit envelope;
  - the click switch and the click bump;
  - the layout of card, avatar and text, and the cover fit of the avatar image;
  - the confetti;
  - the cursor's own timeline.

  The method `RenderFrame` changes the particle list through a `ParticleSystem`. Its result and
  the new list are stated by the functions `RenderResult` and `RenderPool`.
- **`OfflineExporter`** (`exporter.dfy`): `exportVideoOffline`. This covers:
  - the resolution-tier table, the supersampling and the global scale;
  - the frame count and the frame times at 60 fps;
  - the progress values and the file name;
  - the frame loop. It carries one particle system, fresh and empty, through every frame and
    stops at the first error.

  The callbacks `onProgress`, `onComplete` and `onError` are the `Event`s the export emits, in
  order. `ExportVideoOffline` is proved equal to the function `ExportSpec`. The shape of every
  export, its callbacks in order and its single terminal event, is proved for any renderer
  (`ExportOutcome`), and `onComplete` comes exactly when nothing fails
  (`ExportSucceedsExactlyWhenClean`). The video downloaded before `onComplete` is the
  writer's: its options and exactly the frames reported, in order.

How the host is modelled:

- **Numbers** are exact reals.
- **Host maths.** `Math.pow(2, x)`, `Math.sin`, `Math.cos`, `Math.PI` and `noise2D` are
  uninterpreted fields of a `MathLib` value. `Sound` lists the only facts about them that proofs
  use: `2^0 = 1`, `2^x` is positive and at most 1 for `x <= 0`, `pi > 0`, and `|sin| <= 1`.
  The launch speed of a particle is stated under `UnitCircle`, `sin^2 + cos^2 = 1`.
- **`Math.random`** is a `Stream` of values read in call order. Each particle takes seven
  draws, in the order the source makes them: angle, speed, life, colour, size, rotation, spin.
- **JavaScript's `%`** (the remainder takes the sign of the dividend) and **`Math.ceil`** are
  written out.
- **The canvas** is not modelled. A `Frame` records the numbers and strings a frame hands to
  it.

Behaviour the model keeps exactly as the code has it:

- **Missing `easeOutBounce`.** A frame that needs it fails with
  `MissingEasing(EaseOutBounceMember)`, which stands for the `TypeError` JavaScript throws.
  This happens for the card's entrance with the `bounce` curve, and for the visible cursor's
  fly-in with the `bounce` curve. The exporter reports it through `onError`.
- **The cursor's exit** moves down by half the *physical* canvas height (`height / 2`). Its
  other coordinates are logical.
- **The cursor's start point** `(w + 50, h + 100)` is never painted. The fly-in starts from the
  logical corner `(w, h)` (`CursorFlyInStartsAtCorner`).
- **At 480p** the canvas of 854 by 480 is not 16:9, so the logical canvas is not 1080 tall
  (`LogicalCanvasAt480p`).
- **The file name** always ends in `.webm`, whatever container format the store holds.
- **One burst per cycle is not guaranteed.** The spawn guard tests only that the list is empty.
  So whenever every particle of a burst has died while the 50 ms window is still open, the
  next frame in the window bursts again. This happens whether or not the first burst was
  painted. A burst whose particles all have at most 0.02 of life is culled in its own frame,
  and the next frame bursts again (`SecondBurstExactlyWhenFirstDied`, and the instance
  `BurstRepeatsWhenItDiesAtOnce`). At 60 frames per second the window holds three frames. So
  with life 0.03 the burst is painted once, dies in the second frame, and the third frame
  bursts and paints again (`BurstRepeatsAfterItWasPainted`). A repeat needs every life to be
  at most 0.04: the burst comes in the first of the three frames and only the second or third
  can burst again, and a life of 0.06 is culled only in the third. The store's defaults are 0.5
  to 1.5, so only a `setParticles` call that lowers them gives a repeat. Nothing in the store bounds `lifeMin` from below.

## Model

| member | source | states |
|---|---|---|
| MathModel.JsRem | src/features/generator/renderLoop.ts:55 | JavaScript's `%`: for a non-negative dividend and positive divisor the remainder is in `[0, b)`, and a dividend below the divisor is its own remainder |
| MathModel.RemainderRepeats | src/features/generator/renderLoop.ts:55 | adding one divisor to a non-negative dividend leaves the remainder unchanged |
| MathModel.Ceil | src/features/generator/offlineExporter.ts:63 | `Math.ceil`: the least integer not below `x` |
| MathModel.Floor | src/features/generator/renderLoop.ts:223 | `Math.floor`: the greatest integer not above `x` |
| Easings.Linear | src/utils/easings.ts:3 | `linear` keeps 0 and 1 fixed and maps `[0, 1]` into itself |
| Easings.LinearEndpoints | src/utils/easings.ts:3 | `linear(t) = t` for every `t`, so it maps 0 to 0 and 1 to 1 |
| Easings.EaseOutExpo | src/utils/easings.ts:6-8 | exactly 1 at `t = 1` by the guard; 0 at `t = 0` given `2^0 = 1`; in `[0, 1]` for `t >= 0` and never above 1 |
| Easings.EaseOutElastic | src/utils/easings.ts:11-18 | 0 at `t = 0` and 1 at `t = 1`, by the two guards |
| Easings.EaseInOutCubic | src/utils/easings.ts:21-23 | 0 at 0, 1 at 1, one half at one half |
| Easings.CubicBranchesMeet | src/utils/easings.ts:22 | both branches of `easeInOutCubic` give 0.5 at `t = 0.5` |
| Easings.EaseOutBack | src/utils/easings.ts:26-30 | exactly 0 at 0 (since `1 - c3 + c1 = 0`) and exactly 1 at 1 |
| Easings.EaseOutBackOvershoots | src/utils/easings.ts:25-30 | the announced overshoot: `easeOutBack(0.5) > 1` |
| Easings.EaseInQuad | src/utils/easings.ts:33-35 | 0 at 0, 1 at 1, and `0 <= t^2 <= t` on `[0, 1]` |
| Easings.EaseInQuadMonotone | src/utils/easings.ts:33-35 | `easeInQuad` is non-decreasing on `[0, 1]` |
| Easings.Lookup | src/utils/easings.ts:1-36 | reading a member of the table: undefined exactly for `easeOutBounce`, the expo and elastic members as defined |
| Easings.DefinedMembersPinEndpoints | src/utils/easings.ts:1-36 | every defined member maps 0 to 0 and 1 to 1 |
| Store.DefaultsAreConsistent | src/store/useStore.ts:94-145 | the initial state `Defaults` has `lifeMin <= lifeMax`, `minSize <= maxSize`, a non-empty palette, duration 1 > 0 and a non-zero noise scale, and neither the card nor the cursor uses the missing `bounce` curve |
| Store.FieldsDetermineState | src/store/useStore.ts:3-92 | the eighteen fields are the whole state: states that agree on every field are equal |
| Store.SetPrimaryText | src/store/useStore.ts:147 | sets `primaryText` and leaves every other field unchanged; it is `Put` of that field |
| Store.SetPrimaryTextSize | src/store/useStore.ts:148 | sets `primaryTextSize`, nothing else changes; it is `Put` of that field |
| Store.SetUnderText | src/store/useStore.ts:149 | sets `underText`, nothing else changes; it is `Put` of that field |
| Store.SetUnderTextSize | src/store/useStore.ts:150 | sets `underTextSize`, nothing else changes; it is `Put` of that field |
| Store.SetSubscribedText | src/store/useStore.ts:151 | sets `subscribedText`, nothing else changes; it is `Put` of that field |
| Store.SetSubscribedTextSize | src/store/useStore.ts:152 | sets `subscribedTextSize`, nothing else changes; it is `Put` of that field |
| Store.SetImageUrl | src/store/useStore.ts:153 | sets `imageUrl` (a URL or null), nothing else changes; it is `Put` of that field |
| Store.SetRoundness | src/store/useStore.ts:155 | sets `roundness`, nothing else changes; it is `Put` of that field |
| Store.SetFormat | src/store/useStore.ts:158 | sets `format`, nothing else changes; it is `Put` of that field |
| Store.SetResolution | src/store/useStore.ts:162 | sets `resolution`, nothing else changes; it is `Put` of that field |
| Store.SetSuperSampling | src/store/useStore.ts:163 | sets `superSampling` (1 or 2), nothing else changes; it is `Put` of that field |
| Store.SetExportFormat | src/store/useStore.ts:164 | sets `exportFormat`, nothing else changes; it is `Put` of that field |
| Store.Put | src/store/useStore.ts:147-164 | `set({ [f]: v })` for any field `f`: afterwards `f` holds `v` and every other field is unchanged |
| Store.WholeFieldSetterLaws | src/store/useStore.ts:147-164 | for every field, and so for every setter: writing back a field's own value is the identity, of two writes to one field the last wins, and writes to different fields commute |
| Store.Override | src/store/useStore.ts:154-161 | one key of `{ ...current, ...partial }`: the partial's value when given, the current one otherwise |
| Store.Then | src/store/useStore.ts:154-161 | the composition of two partials gives a key exactly when either gives it |
| Store.OverrideLaws | src/store/useStore.ts:154-161 | an absent key is the identity, a merge is idempotent, and two merges are one merge of the composed partial |
| Store.MergeTransform | src/store/useStore.ts:154 | each of `scale`, `x`, `y` is the given value or the current one |
| Store.TransformMergeLaws | src/store/useStore.ts:154 | empty partial is the identity; merging twice equals once; two merges compose |
| Store.MergeColors | src/store/useStore.ts:156-157 | each of `background`, `text`, `underText` is the given value or the current one |
| Store.ColorsMergeLaws | src/store/useStore.ts:156-157 | empty partial is the identity; merging twice equals once; two merges compose |
| Store.MergeAnimation | src/store/useStore.ts:159 | each of `type`, `duration`, `position`, `scale`, `opacity` is the given value or the current one |
| Store.AnimationMergeLaws | src/store/useStore.ts:159 | empty partial is the identity; merging twice equals once; two merges compose |
| Store.MergeCursor | src/store/useStore.ts:160 | each of `visible`, `animationType` is the given value or the current one |
| Store.CursorMergeLaws | src/store/useStore.ts:160 | empty partial is the identity; merging twice equals once; two merges compose |
| Store.MergeParticles | src/store/useStore.ts:161 | each of the fifteen modelled particle keys is the given value or the current one |
| Store.ParticlesMergeLaws | src/store/useStore.ts:161 | empty partial is the identity; merging twice equals once; two merges compose |
| Store.SetImageTransform | src/store/useStore.ts:154 | merges the partial into `imageTransform` and changes no other field; it is `Put` of that group with the merged value |
| Store.SetCtaColors | src/store/useStore.ts:156 | merges the partial into `ctaColors` and changes no other field; it is `Put` of that group with the merged value |
| Store.SetSubscribedColors | src/store/useStore.ts:157 | merges the partial into `subscribedColors` and changes no other field; it is `Put` of that group with the merged value |
| Store.SetAnimation | src/store/useStore.ts:159 | merges the partial into `animation` and changes no other field; it is `Put` of that group with the merged value |
| Store.SetCursor | src/store/useStore.ts:160 | merges the partial into `cursor` and changes no other field; it is `Put` of that group with the merged value |
| Store.SetParticles | src/store/useStore.ts:161 | merges the partial into `particles` and changes no other field; it is `Put` of that group with the merged value |
| Store.PartialSetterLaws | src/store/useStore.ts:154-161 | for each of the six partial setters: an empty partial leaves the whole state unchanged, and the same partial twice equals once |
| Store.PartialSettersCompose | src/store/useStore.ts:154-161 | for each of the six partial setters: two calls in a row equal one call with the later partial laid over the earlier |
| Store.ColorGroupsIndependent | src/store/useStore.ts:156-157 | setting one colour group never alters the other |
| Confetti.SpawnCount | src/features/generator/renderLoop.ts:211 | the number of turns of `for (i = 0; i < count; i++)`: the least natural not below `count` |
| Confetti.SpawnCountOfWhole | src/features/generator/renderLoop.ts:211 | a whole `count` gives exactly `count` turns |
| Confetti.Between | src/features/generator/renderLoop.ts:214-224 | `lo + r (hi - lo)` lies in `[lo, hi)` for a draw in `[0, 1)` and is `lo` for an empty range |
| Confetti.SpawnSpeed | src/features/generator/renderLoop.ts:213 | the speed lies in `[0.5 speed, 1.5 speed)` for a draw in `[0, 1)` |
| Confetti.SpawnLife | src/features/generator/renderLoop.ts:214 | the life lies in `[lifeMin, lifeMax)`, or is `lifeMin` when they are equal |
| Confetti.SpawnSize | src/features/generator/renderLoop.ts:224 | the size lies in `[minSize, maxSize)`, or is `minSize` when they are equal |
| Confetti.PickColor | src/features/generator/renderLoop.ts:223 | a defined colour is in the palette; with a non-empty palette and a draw in `[0, 1)` the index is in bounds |
| Confetti.ParticleFromDraws | src/features/generator/renderLoop.ts:212-226 | the pushed particle starts at `(cx, cy)` with `maxLife = life`; its velocity is `(cos a, sin a)` times `SpawnSpeed` for the angle `a = 2 pi r`; its spin is `(r - 0.5) rotationSpeed`; life, colour, size and rotation are what their draws give |
| Confetti.SpawnWindowOpen | src/features/generator/renderLoop.ts:209 | the window is shut when particles are off; for `D >= 0.04` it lies inside the cycle and after the 100 ms reset |
| Confetti.Burst | src/features/generator/renderLoop.ts:211-228 | a burst of `n` has `n` particles |
| Confetti.BurstAt | src/features/generator/renderLoop.ts:211-228 | particle `i` of a burst is made from the seven draws starting at `base + 7 i` |
| Confetti.NewParticle | src/features/generator/renderLoop.ts:212-226 | the particle made from the draws at `k`: it reads them in the literal's order, angle, speed, life, colour, size, rotation and spin |
| Confetti.NewParticleDependsOnlyOnItsDraws | src/features/generator/renderLoop.ts:212-226 | two streams that agree on a particle's seven draws give the same particle |
| Confetti.BurstDependsOnlyOnItsDraws | src/features/generator/renderLoop.ts:211-228 | two streams that agree on the `7 n` draws of a burst give the same burst |
| Confetti.NewParticleInRange | src/features/generator/renderLoop.ts:212-226 | with its seven draws in `[0, 1)` a particle is `InSpawnRange`: at the centre with full life; life, size and colour in their ranges; rotation in `[0, 360)`; spin within half the rotation speed either way; and, given `UnitCircle`, squared speed in `[(0.5 speed)^2, (1.5 speed)^2)` |
| Confetti.BurstInRange | src/features/generator/renderLoop.ts:211-228 | with draws in `[0, 1)` every particle of a burst is `InSpawnRange` |
| Confetti.BurstValid | src/features/generator/renderLoop.ts:221-222 | a fresh burst keeps the life invariant (`life <= maxLife`) |
| Confetti.SpawnAndReset | src/features/generator/renderLoop.ts:209-231 | the spawn-once guard and the reset keep the life invariant, and before 100 ms the list is empty |
| Confetti.SpawnExactlyWhenDue | src/features/generator/renderLoop.ts:209-230 | outside the reset, a frame bursts exactly `count` particles drawn in order iff particles are on, `2500 D <= tMs < 2500 D + 50` and the list is empty; otherwise the list and the draws are unchanged |
| Confetti.Step | src/features/generator/renderLoop.ts:238-249 | life falls by exactly 0.02; position advances by the (noised) velocity before gravity is added to `vy`; rotation advances by `vRotation`; without noise the velocity only gains gravity |
| Confetti.StepAll | src/features/generator/renderLoop.ts:236-249 | the `forEach` keeps the length of the list |
| Confetti.StepAllAt | src/features/generator/renderLoop.ts:236-249 | every particle is stepped on its own and in its own place |
| Confetti.Survivors | src/features/generator/renderLoop.ts:319 | the filter never grows the list and keeps only particles with `life > 0` |
| Confetti.SurvivorsMembers | src/features/generator/renderLoop.ts:319 | a particle survives iff it was in the list and has `life > 0` |
| Confetti.SurvivorsOfLive | src/features/generator/renderLoop.ts:319 | a list of live particles passes the filter unchanged |
| Confetti.StepKeepsValid | src/features/generator/renderLoop.ts:236-319 | a step keeps the life invariant and leaves every particle strictly below its starting life |
| Confetti.NothingDiesEarly | src/features/generator/renderLoop.ts:249-319 | particles with more than 0.02 of life all survive the step |
| Confetti.AdvanceEmptyExactlyWhenAllExpire | src/features/generator/renderLoop.ts:236-319 | the update leaves an empty list exactly when no particle had more than `0.02` of life |
| Confetti.FadeFor | src/features/generator/renderLoop.ts:252-261 | opacity is `lifeProgress` for `opacity` and `both`, scale is `lifeProgress` for `scale` and `both`, and each is 1 otherwise |
| Confetti.PaintOf | src/features/generator/renderLoop.ts:251-316 | a live particle is painted where it is, in its colour, with opacity and scale `life / maxLife` as the fade mode says, both in `(0, 1]` |
| Confetti.PaintAll | src/features/generator/renderLoop.ts:236-318 | one paint per live particle |
| Confetti.PaintAllAt | src/features/generator/renderLoop.ts:236-318 | paint `i` is the paint of particle `i`, in list order |
| Confetti.Advance | src/features/generator/renderLoop.ts:236-319 | after a step and the cull every particle is live and the list has not grown |
| Confetti.UpdateOne | src/features/generator/renderLoop.ts:236-318 | one turn of the `forEach` steps particle `i` in place and paints it when it is still alive |
| Confetti.ParticleSystem.constructor | src/features/generator/offlineExporter.ts:64 | `{ current: [] }`: an empty list on a given stream |
| Confetti.ParticleSystem.DrawParticle | src/features/generator/renderLoop.ts:212-227 | the seven `Math.random()` calls of one push read the next seven values of the stream |
| Confetti.ParticleSystem.Spawn | src/features/generator/renderLoop.ts:211-228 | the burst loop appends exactly `Burst(count)` to the list and draws `7 count` values, keeping the life invariant |
| Confetti.ParticleSystem.Clear | src/features/generator/renderLoop.ts:231 | the list becomes empty and no draws are made |
| Confetti.ParticleSystem.Update | src/features/generator/renderLoop.ts:236-319 | the list becomes `Advance` of the old list and the paints are `PaintAll` of the new one |
| RenderLoop.CycleTime | src/features/generator/renderLoop.ts:49-55 | for `time >= 0` and `D > 0` the cycle time is in `[0, 6000 D)`, and it is the time itself within the first cycle |
| RenderLoop.CycleRepeats | src/features/generator/renderLoop.ts:55 | a frame one cycle later has the same cycle time |
| RenderLoop.CurveEase | src/features/generator/renderLoop.ts:63-67 | `getEase`: elastic for `elastic`, expo for `smooth`, and undefined exactly for `bounce` |
| RenderLoop.BoxEnvelope | src/features/generator/renderLoop.ts:58-85 | fails exactly on an entrance with `bounce`; at rest for `1000 D <= tMs <= 5000 D`; every switched-off channel stays at rest in every phase |
| RenderLoop.BoxEntranceFollowsCurve | src/features/generator/renderLoop.ts:63-76 | with `e` the configured curve's value at `tMs / (1000 D)`, the entrance has offset `100 (1 - e)`, opacity `e` and scale `0.8 + 0.2 e`, each only when its toggle is on |
| RenderLoop.BoxExitIgnoresCurve | src/features/generator/renderLoop.ts:69-85 | from `1000 D` on the envelope does not depend on the curve; the exit has offset `50 e`, opacity `1 - e` and scale `1 - 0.1 e` for `e = easeOutExpo((tMs - 5000 D) / (1000 D))` |
| RenderLoop.BoxExitBounds | src/features/generator/renderLoop.ts:78-85 | during the exit the opacity is in `[0, 1]`, the scale in `[0.9, 1]` and the offset in `[0, 50]` |
| RenderLoop.BoxEnterBounds | src/features/generator/renderLoop.ts:69-76 | a smooth entrance has opacity in `[0, 1]`, scale in `[0.8, 1]` and offset in `[0, 100]` |
| RenderLoop.BoxStartsHidden | src/features/generator/renderLoop.ts:69-76 | at the start of a cycle the card is 100 below, transparent and at 80% (for the channels switched on) |
| RenderLoop.BumpScale | src/features/generator/renderLoop.ts:107-113 | the bump applies only for `2500 D < tMs < 2500 D + 200` (200 ms unscaled), so only once clicked, and stays within 5% |
| RenderLoop.BoxLayout | src/features/generator/renderLoop.ts:91-97 | the card is 800 (landscape) or 700 wide and 200 tall, centred on the logical canvas and moved down by the offset |
| RenderLoop.AvatarCorner | src/features/generator/renderLoop.ts:129-131 | the avatar lies inside the card, 30 in from its left edge and centred vertically |
| RenderLoop.CoverFit | src/features/generator/renderLoop.ts:144-158 | the smaller drawn side is exactly 140 and the other at least 140; both offsets centre the image on the disc |
| RenderLoop.CoverKeepsAspect | src/features/generator/renderLoop.ts:144-158 | the drawn size keeps the image's aspect ratio |
| RenderLoop.TextLayout | src/features/generator/renderLoop.ts:179-203 | the text starts 200 into the card (+10 once clicked), is centred vertically, and the click swaps the primary line and both colours |
| RenderLoop.TextBesideAvatar | src/features/generator/renderLoop.ts:129-185 | the text starts right of the avatar and stays inside the card vertically |
| RenderLoop.CursorPosition | src/features/generator/renderLoop.ts:324-358 | fails exactly on a `bounce` fly-in; pressed to 0.8 exactly within 100 ms of the click; exactly on the target for `2500 D <= tMs <= 3000 D` |
| RenderLoop.CursorFlyInStartsAtCorner | src/features/generator/renderLoop.ts:335-344 | the fly-in starts at the logical corner, not at the point first assigned |
| RenderLoop.CursorExitMovesAway | src/features/generator/renderLoop.ts:349-354 | after `3000 D` the cursor is left of and below the target |
| RenderLoop.CursorFrame | src/features/generator/renderLoop.ts:323-370 | the cursor is painted iff visible, loaded and `1000 D < tMs < 5000 D`, and fails exactly for a `bounce` fly-in |
| RenderLoop.AvatarFor | src/features/generator/renderLoop.ts:129-175 | an image is drawn iff one is loaded, centred on the disc under the user's transform |
| RenderLoop.CardFor | src/features/generator/renderLoop.ts:88-203 | the card's geometry, envelope, bump, background and avatar and text paints |
| RenderLoop.PoolAfter | src/features/generator/renderLoop.ts:209-320 | the list a frame leaves keeps the invariant and holds only live particles |
| RenderLoop.RenderPool | src/features/generator/renderLoop.ts:209-320 | the list `renderFrame` leaves keeps the life invariant |
| RenderLoop.RenderResult | src/features/generator/renderLoop.ts:25-374 | what `renderFrame` paints at `time`; its only error is the missing `easeOutBounce` (when it fails: `RenderFailsExactlyWithoutBounce`) |
| RenderLoop.FrameAfterBox | src/features/generator/renderLoop.ts:88-370 | the frame once the envelope is known: one confetti paint per particle of the list `PoolAfter` leaves, and no error but the missing `easeOutBounce` |
| RenderLoop.RenderFrame | src/features/generator/renderLoop.ts:25-374 | `renderFrame` on a `ParticleSystem`: the result is `RenderResult` and the new list `RenderPool` of the old list |
| RenderLoop.RenderAfterBox | src/features/generator/renderLoop.ts:88-370 | the rest of the frame once the envelope is known, against `FrameAfterBox` and `PoolAfter` |
| RenderLoop.ParticlesFrame | src/features/generator/renderLoop.ts:209-320 | the spawn guard, the reset and the update: the new list is `PoolAfter` of the old one, and the paints are those of the new list |
| RenderLoop.AdvanceEmpty | src/features/generator/renderLoop.ts:234 | an empty list stays empty and paints nothing |
| RenderLoop.RenderFailsExactlyWithoutBounce | src/features/generator/renderLoop.ts:63-341 | a frame fails iff it needs `easeOutBounce`, and then with that error |
| RenderLoop.CardFailureKeepsParticles | src/features/generator/renderLoop.ts:65-320 | a card that cannot enter leaves the particle list untouched |
| RenderLoop.EarlyFramesClearParticles | src/features/generator/renderLoop.ts:63-234 | before 100 ms, when the card renders, the list is left empty and no confetti is painted (when it does not, `CardFailureKeepsParticles`) |
| RenderLoop.FirstStep | src/features/generator/renderLoop.ts:211-319 | a fresh burst after one step has not grown |
| RenderLoop.BurstFromCanvasCentre | src/features/generator/renderLoop.ts:93-231 | in the spawn window on an empty list a frame bursts `count` particles from the logical canvas centre, draws seven values each, and steps them once |
| RenderLoop.BurstThenStep | src/features/generator/renderLoop.ts:209-320 | in the window on an empty list the frame's list is the stepped burst |
| RenderLoop.SecondBurstExactlyWhenFirstDied | src/features/generator/renderLoop.ts:209-319 | of two frames in the spawn window, the first on an empty list bursts `count` particles; the second bursts another `count` exactly when no particle of the first burst had more than `0.02` of life, and otherwise draws nothing and only advances the list |
| RenderLoop.BurstRepeatsWhenItDiesAtOnce | src/features/generator/renderLoop.ts:209-319 | with one particle of life 0.01, the frames at 2500 ms and 1000/60 ms later both burst: 7 and then 14 draws |
| RenderLoop.BurstRepeatsAfterItWasPainted | src/features/generator/renderLoop.ts:209-320 | with one particle of life 0.03, the frame at 2500 ms paints it, the next culls it, and the third, still in the window, bursts and paints again: 7, 7 and 14 draws |
| RenderLoop.SingleBurstFirstStep | src/features/generator/renderLoop.ts:211-251 | one particle of fixed life above 0.02 survives its first step with 0.02 less life |
| RenderLoop.RenderRepeatsEveryCycle | src/features/generator/renderLoop.ts:55 | frames and particle lists repeat with period `6000 D` |
| RenderLoop.IsClicked | src/features/generator/renderLoop.ts:105 | the click is off at the start of a cycle and on through the exit from `5000 D` |
| RenderLoop.ClickSwapsLook | src/features/generator/renderLoop.ts:105-203 | after `2500 D` the card shows the subscribed text and colours, before it the call to action; the under line is always `underText` |
| RenderLoop.CardReadsOnlyFrameSettings | src/features/generator/renderLoop.ts:35-40 | the card depends on the state only through the fields a frame reads |
| RenderLoop.RenderReadsOnlyFrameSettings | src/features/generator/renderLoop.ts:35-40 | font sizes, image URL, resolution, supersampling and container format change neither the frame nor the list |
| RenderLoop.DefaultsBurstFiftyAtClick | src/features/generator/renderLoop.ts:209-320 | with the defaults on 1920 by 1080 the frame at 2.5 s bursts 50 particles, draws 350 values and paints all 50 |
| RenderLoop.DefaultBurstSurvives | src/features/generator/renderLoop.ts:214-251 | every particle of a default burst survives its first step |
| OfflineExporter.BaseDimensions | src/features/generator/offlineExporter.ts:17-27 | each tier gets its own size from the if-chain, and portrait swaps width and height |
| OfflineExporter.TierSize | src/features/generator/offlineExporter.ts:18-24 | every tier is wider than tall, and 16:9 exactly when it is not 480p |
| OfflineExporter.PhysicalDimensions | src/features/generator/offlineExporter.ts:17-31 | the canvas is the tier's size (sides swapped in portrait) times the supersampling factor, and positive |
| OfflineExporter.GlobalScale | src/features/generator/offlineExporter.ts:38-39 | `physicalW / (1920 or 1080)` is positive |
| OfflineExporter.ScaleAt1080p | src/features/generator/offlineExporter.ts:22-39 | at 1080p the global scale is the supersampling factor; factor 2 gives 3840 by 2160 (portrait 2160 by 3840) |
| OfflineExporter.LogicalCanvasIsReference | src/features/generator/offlineExporter.ts:17-39 | every tier but 480p lays the frame out on exactly 1920 by 1080 (1080 by 1920 in portrait) |
| OfflineExporter.LogicalCanvasAt480p | src/features/generator/offlineExporter.ts:20-39 | at 480p the logical canvas is `1920 x 480*1920/854`, shorter than 1080 |
| OfflineExporter.FrameCount | src/features/generator/offlineExporter.ts:62-63 | `ceil(6 D 60)` loop turns: frames exist only for `D > 0`, and `n - 1 < 360 D <= n` |
| OfflineExporter.WriterKeepsFrameClock | src/features/generator/offlineExporter.ts:32-123 | the video `onComplete` downloads has frame rate 60, keeps alpha at quality 0.9, and holds the `n` reported frames, frame `j` rendered for `j * 1000 / frameRate` ms |
| OfflineExporter.FrameCountOfDefaults | src/features/generator/offlineExporter.ts:62-63 | `D = 1` gives 360 frames and `D = 2` gives 720 |
| OfflineExporter.FrameTime | src/features/generator/offlineExporter.ts:33-69 | frame `i` is at `i / 60` seconds: non-negative, with `60 t = 1000 i` |
| OfflineExporter.FrameTimesCoverOneCycle | src/features/generator/offlineExporter.ts:33-69 | frame times start at 0, are `1000/60` ms apart, and stay inside the first cycle |
| OfflineExporter.Progress | src/features/generator/offlineExporter.ts:99 | a percentage in `[0, 100]` for `i <= n`, and 0 for the first frame |
| OfflineExporter.ProgressBounds | src/features/generator/offlineExporter.ts:99 | progress starts at 0, strictly increases and stays below 100 |
| OfflineExporter.Decimal | src/features/generator/offlineExporter.ts:112 | `Date.now()` printed as a non-empty string of decimal digits |
| OfflineExporter.DecimalRoundTrip | src/features/generator/offlineExporter.ts:112 | reading the printed clock back gives the clock |
| OfflineExporter.FileName | src/features/generator/offlineExporter.ts:112 | the name starts with `cta-` and ends in `.webm` |
| OfflineExporter.FileNameShape | src/features/generator/offlineExporter.ts:112 | the name is `cta-`, the tier, and ends in `.webm`, whatever the container format |
| OfflineExporter.FrameEvents | src/features/generator/offlineExporter.ts:68-128 | the frame loop and finalisation emit at least one event |
| OfflineExporter.ExportRenderer | src/features/generator/offlineExporter.ts:69-82 | `renderFrame` as the loop calls it can be asked for every frame of the export |
| OfflineExporter.ExportEvents | src/features/generator/offlineExporter.ts:47-128 | an export emits at least one event |
| OfflineExporter.ExportSpec | src/features/generator/offlineExporter.ts:6-129 | the events of a whole export, at least one |
| OfflineExporter.ExportRendererRenders | src/features/generator/offlineExporter.ts:68-82 | the export's renderer answers frame `i` as `renderFrame` at `i * msPerFrame` on the physical canvas at the global scale |
| OfflineExporter.ExportVideoOffline | src/features/generator/offlineExporter.ts:6-129 | the export method emits exactly the events of `ExportSpec` |
| OfflineExporter.ExportFrames | src/features/generator/offlineExporter.ts:64-123 | the loop over one particle system emits exactly `FrameEvents` from frame 0 and the list it started with |
| OfflineExporter.FrameEventsStep | src/features/generator/offlineExporter.ts:72-99 | the unfolding of `FrameEvents` at one frame, the step the loop proof of `ExportFrames` uses |
| OfflineExporter.RenderExportFrame | src/features/generator/offlineExporter.ts:69-82 | one `renderFrame` call of the loop answers as the export's renderer says |
| OfflineExporter.Finish | src/features/generator/offlineExporter.ts:105-127 | one terminal event: `onComplete` with the file name and the writer's video iff `complete()` and the download succeed, otherwise `onError` |
| OfflineExporter.FrameEventsShape | src/features/generator/offlineExporter.ts:68-128 | one progress report per written frame, in frame order, then one terminal event; completion only after every remaining frame, with the writer's earlier frames followed by the reported ones |
| OfflineExporter.ExportOutcome | src/features/generator/offlineExporter.ts:51-128 | `onError` and `onComplete` are exclusive and last; without a context only `onError`; `onComplete` only after all `n` frames rendered and written, and its video is made with the writer options from exactly those frames, in order |
| OfflineExporter.FrameEventsComplete | src/features/generator/offlineExporter.ts:68-123 | from frame `i` on, the loop ends in `onComplete` exactly when every remaining frame renders and is written along the lists the frames hand on and `complete()` and the download succeed, and then after all remaining reports |
| OfflineExporter.FrameEventsFirstFailure | src/features/generator/offlineExporter.ts:72-95 | if the frames before `k` all render and are written, a render or write error at frame `k` is the last event, after the `k - i` reports |
| OfflineExporter.ExportSucceedsExactlyWhenClean | src/features/generator/offlineExporter.ts:47-123 | a whole export calls `onComplete` iff there is a context, every frame renders and is written, and finalisation succeeds; it comes once, after all `n` reports |
| OfflineExporter.ExportFailsAtFirstError | src/features/generator/offlineExporter.ts:51-127 | with a context, the first failing frame `k` ends the export with its render or write error, after `k` reports |
| OfflineExporter.NeverFailingRunsClean | src/features/generator/offlineExporter.ts:68-103 | a renderer that never fails with a writer that never throws runs every frame clean |
| OfflineExporter.ExportCompletesWhenNothingFails | src/features/generator/offlineExporter.ts:47-123 | with a context, a renderer that never fails, a writer that never throws and a successful finalisation, all `n` frames are reported and then `onComplete` comes once with the file name |
| OfflineExporter.FrameEventsOfAgreeingRenderers | src/features/generator/offlineExporter.ts:68-103 | renderers that agree frame by frame give the same events |
| OfflineExporter.RendererReadsOnlyExportSettings | src/features/generator/offlineExporter.ts:14-82 | two states that agree on what the export reads render every frame alike |
| OfflineExporter.ExportIgnoresContainerFormat | src/features/generator/offlineExporter.ts:55-112 | the export does not depend on the container format, the font sizes or the image URL |

## Left out

- Canvas painting (clearing, transforms, rounded rectangles, shadows, filters, fonts, image drawing) is not modelled. A `Frame` records only the numbers and strings the frame computes for it.
- Confetti.PaintOf: the multiply and destination-in tinting on the scratch canvas is recorded only as a `tinted` flag on the sprite, because it is canvas compositing.
- `Math.pow(2, x)`, `Math.sin`, `Math.cos`, `Math.PI` and `noise2D` are uninterpreted. Only the facts in `MathModel.Sound` are assumed of them. `src/utils/noise` is not part of this model.
- `Math.random` is a stream of given values, not an entropy source. Facts about ranges assume the draws are in `[0, 1)` (`DrawsInRange`).
- IEEE double rounding, `NaN` and `Infinity` are not modelled. Numbers are exact reals.
- RenderLoop.RenderFrame requires that no division is by zero: `D != 0`, `scale != 0`, `noiseScale != 0` when noise is on, and a loaded image with positive sides. JavaScript would carry on with `Infinity` or `NaN` there.
- OfflineExporter.ExportVideoOffline requires only `noiseScale != 0` when noise is on, and a loaded image with positive sides. Its scale is always positive (`GlobalScale`), and with `D <= 0` it renders no frame and completes, as the source does.
- `easeOutBounce` is not defined, because the table has none. A frame that reads it fails instead; no formula is invented.
- The `seed` and `damping` particle fields are not modelled, because nothing reads them.
- Store.Override: a key given explicitly as `undefined` (`setParticles({ count: undefined })`) overwrites the field with `undefined` in JavaScript. An `Option` cannot say this, so the model treats such a key as absent.
- The `WebMWriter` encoding, the `Blob`, the object URL and the download link are collapsed into `Host.finalizes`, which says whether `complete()` and the download succeed. `addFrame` failing is `Host.writeFailsAt`, the first frame it throws on. The writer is a `Video` value: the options it is created with, the constant `Options`, and the frames handed to `addFrame`. `complete()` is taken to encode exactly that, and the encoding itself is not modelled.
- `Date.now()` is the parameter `Host.now`, and the 2D context's availability is `Host.contextAvailable`.
- The `setTimeout` yield every five frames and the `async`/`await` scheduling are left out, because they only interleave other work. So are the console logs.
- The callbacks are assumed not to throw and not to change the state.
- `src/hooks/useCanvasRender.ts`, `useVideoExport.ts`, `useOfflineExport.ts`, the Electron files and the UI components are not part of this model.
- OfflineExporter.ExportFrames is stated over an abstract renderer, a function from frame index and particle list to the frame's result and the next list. `ExportRendererRenders` ties that renderer to `RenderResult` and `RenderPool`.
