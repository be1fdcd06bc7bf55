# Valentine card: particle system and heart game, in Dafny

This project models the two logic files of the valentine-card web page.

- `js/particles.js` holds `ParticleSystem`. It keeps five flat particle buffers: position, target, colour, size and phase. It also keeps a four-value animation state (CARD, OPENING, FLOATING, ROSE) and the mouse fields. It builds the card layout, scans a rendered text image into a background watermark, bends the card open around its hinge, scatters the particles, and requests the rose shape and colours.
- `js/interaction.js` holds `InteractionManager`. This is the three-click heart game: the start button, the heart spawns, the click counter and the easter egg that morphs the particles into a rose.

Both files work by changing state step by step, so the model is imperative.

- **Classes.** `Particles.ParticleSystem` owns its buffers as `array<real>` and its other fields as `var`s. `Interaction.InteractionManager` holds a possibly-null reference to the particle system, like the source's `window.particleSystem`. Every method states its whole new state against `old` state, including the fields of the particle system that a manager method leaves alone.
- **Pure functions.** The formulas behind the methods are pure functions in their own modules: `CardLayout`, `HingeBend`, `RoseShape`, `Watermark`, `MouseInput` and `Tweens`. Lemmas state the properties the code promises, and each method is proved equal to its function.

How the model stands in for what the browser provides:

- **Doubles** are mathematical reals.
- **`Math.sin`, `Math.cos` and `Math.pow(_, 0.5)`** are the fields of a `MathLib` value passed as a parameter. The only laws assumed about them are those in `MathModel.Sound`: the bounds, sin² + cos² = 1, sin ≥ 0 on [0, π], and sqrt being a non-negative square root.
- **`Math.random()`** becomes per-particle draw records in [0, 1): `CardDraw`, `RoseDraw`, `DisperseDraw`, and `rx`/`ry` for the heart.
- **`performance.now()`** becomes a parameter. The bend reads it afresh for each left-half particle, so the bend takes one reading per particle.
- **A `gsap.to` call** is recorded as a `Tween` request holding the attribute, particle, end values, duration, ease and delay. Power1Out stands for GSAP's default ease.
- **A `setTimeout` callback** is a pending timer, and a method fires it when the environment calls that method. `ParticleSystem` counts its pending callbacks in `pendingFloat`. `InteractionManager` keeps a multiset of `Timer`s.
- **DOM, CSS and audio calls** are appended to a list of `Effect`s, in the order they are made.

State changes are not guarded in the code. `openCard`, its 2500 ms callback and `morphToRose` assign the state whatever it was before, and `handleHeartClick` has no `isGameActive` check. One might expect an out-of-order trigger to be ignored; the code does not do that, and the model follows the code:

- `OnOpenTimeout` sets FLOATING even after the rose.
- `MorphToRose` sets ROSE even from CARD.
- Every click from the third on triggers the egg again. `Interaction.EggsAfterClicks` proves it.

## Model

| member | source | states |
|---|---|---|
| Particles.ParticleCountFor | js/particles.js:6 | 4000 particles exactly when the viewport is narrower than 768, else 7000 |
| CardLayout.CardPosition | js/particles.js:36-38 | a card point lies in x ∈ [-30,30), y ∈ [-40,40), z ∈ [-2.5,2.5) |
| CardLayout.LerpColor | js/particles.js:48 | `Color.lerp`: each channel moves the fraction alpha of the way from one colour to the other; CardColor states what this gives for the card's draws |
| CardLayout.CardColor | js/particles.js:32-50 | gold lerped toward orange by less than 30%: each channel lies between gold and 30% of the way to orange, inside [0,1] |
| CardLayout.CardSize | js/particles.js:53 | size ∈ [1,3) |
| CardLayout.CardPhase | js/particles.js:54 | phase ∈ [0,2π) |
| CardLayout.BuffersSnoc | js/particles.js:35-55 | one loop iteration extends the flat position and colour buffers by the particle's three components, and the size and phase buffers by one entry |
| CardLayout.CardBuffersInRange | js/particles.js:25-55 | vector buffers hold 3n values and scalar buffers n; each particle's stored x, y, z, size and phase lie in their ranges |
| Particles.SetSlot | js/particles.js:40-42 | writing slots 3i, 3i+1, 3i+2 extends the filled prefix by the vector's components, leaves the earlier prefix alone and keeps every slot from 3i+3 on |
| Particles.WriteParticle | js/particles.js:35-55 | one iteration extends the filled prefix of all five arrays by particle i's entries and keeps every later slot; position and target get the same point |
| Particles.InitBuffers | js/particles.js:23-55 | five fresh, pairwise distinct arrays of lengths 3n, 3n, 3n, n, n: position is the flattened card points, target equals position, colour, size and phase are as drawn |
| Particles.ParticleSystem.constructor | js/particles.js:4-21 | the particle count, the buffers as above, the watermark scan, state CARD, both mouse vectors at (-100,-100), no tweens and no pending callback |
| Watermark.RedIndex | js/particles.js:150 | the red byte (y·1000+x)·4 of cell k's pixel, with cell k in column k mod 125 and row k div 125; RedIndexInBounds and ScanStep state where it lies and which pixel it is |
| Watermark.CellPoint | js/particles.js:151-155 | the point of cell k: centred on (500, 100), scaled by 0.3, at z = -150; CellBefore and ScanMember state its order and depth |
| Watermark.Bright | js/particles.js:150 | the test on cell k: its red byte is above 128; ScanStep, ScanMember and ScanComplete tie the scan's points to exactly the bright cells |
| Watermark.Scan | js/particles.js:148-158 | the points after the first k cells in row-major order, one for each cell whose red byte is above 128; ScanLength, ScanMember, ScanComplete and ScanOrdered state its properties |
| Watermark.RedIndexInBounds | js/particles.js:139-150 | every red byte index (y·1000+x)·4 the scan reads, and its whole pixel, lies inside the 1000×200 RGBA array |
| Watermark.CreateWatermark | js/particles.js:147-158 | the nested stride-8 loops push exactly the points of Scan over all 125×25 cells, in row-major order |
| Watermark.ScanStep | js/particles.js:149-156 | visiting cell (8·col, 8·row) appends its point exactly when its red byte is above 128 |
| Watermark.ScanLength | js/particles.js:148-158 | at most one point per cell, so at most 125×25 points |
| Watermark.ScanMember | js/particles.js:150-155 | each point comes from a visited cell whose red byte is above 128, is that cell's scaled position, and has z = -150 |
| Watermark.ScanComplete | js/particles.js:150-156 | every visited bright cell contributes its point |
| Watermark.DarkImageEmpty | js/particles.js:150 | an image with no red byte above 128 gives no points, whatever its green, blue and alpha bytes hold |
| Watermark.CellBefore | js/particles.js:148-149 | a later cell lies lower, or on the same row further right |
| Watermark.ScanOrdered | js/particles.js:148-158 | the points come out in row-major order |
| MouseInput.ToNdc | js/particles.js:180-181 | the screen point in device coordinates, x to the right and y upward; NdcRoundTrip and NdcOnScreen state that it is invertible and maps the screen onto [-1,1]² |
| MouseInput.NdcRoundTrip | js/particles.js:179-182 | the screen-to-device mapping is invertible: mapping back gives the screen point |
| MouseInput.NdcOnScreen | js/particles.js:180-181 | an on-screen point maps into [-1,1]², with the left edge at x = -1 and the top edge at y = 1 |
| MouseInput.Lerp | js/particles.js:196 | `Vector2.lerp`: each component moves the fraction alpha toward the target; SmoothingContracts states the 5% step |
| MouseInput.SmoothingContracts | js/particles.js:196 | each frame the smoothed mouse closes exactly 5% of its distance to the raw sample and never overshoots |
| Particles.ParticleSystem.OnMouseMove | js/particles.js:179-182 | targetMouse becomes the device coordinates of the mouse |
| Particles.ParticleSystem.OnTouchMove | js/particles.js:184-189 | the first touch is mapped; an event with no touches leaves targetMouse unchanged |
| Particles.ParticleSystem.Update | js/particles.js:191-209 | the time uniform is now·0.001 and the mouse is smoothed; the position buffer is bent only in OPENING and is otherwise unchanged; the target buffer is never changed |
| Particles.ParticleSystem.OpenCard | js/particles.js:212-219 | the state becomes OPENING from any state, and one 2500 ms callback is scheduled |
| Particles.ParticleSystem.OnOpenTimeout | js/particles.js:216-219 | the callback sets FLOATING from any state and appends one dispersal request per particle |
| HingeBend.BendAngle | js/particles.js:230 | the angle is exactly (now − startTime)·0.0015 while that is below π and π from then on, so it is at most π and not negative once the clock has passed startTime |
| HingeBend.GoalX | js/particles.js:234 | the goal x, tx·cos a; GoalOnHingeCircle states that (GoalX, GoalZ) lies on the hinge circle |
| HingeBend.GoalZ | js/particles.js:235 | the goal z, tx·sin a |
| HingeBend.Approach | js/particles.js:237-238 | `p += (goal - p) * 0.1`; BendSlot and BendContracts state that 0.9 of the distance remains |
| HingeBend.BendComponent | js/particles.js:227-239 | flat component k after one pass: a left-half particle's x and z approach the goal at that particle's clock reading, everything else is kept |
| HingeBend.Bend | js/particles.js:226-240 | the whole position buffer after one pass, of the same length; BendFrame, BendContracts and BendStep state what it changes and how it is built particle by particle |
| HingeBend.BendSlot | js/particles.js:227-239 | bending particle i changes only slots 3i and 3i+2, and only when its target x is negative; each of those then keeps exactly 0.9 of its distance to the goal |
| HingeBend.BendStep | js/particles.js:226-240 | one loop iteration turns the buffer bent up to particle i into the buffer bent up to particle i+1 |
| HingeBend.BendFrame | js/particles.js:226-240 | no particle's y changes, and a particle whose target x is not negative keeps all three components |
| HingeBend.BendContracts | js/particles.js:230-238 | for a left-half particle the angle is at most π, and its x and z are each left at exactly 0.9 of their distance to the goal (tx·cos a, tx·sin a) |
| HingeBend.GoalOnHingeCircle | js/particles.js:234-235 | the goal lies on the circle of radius \|tx\| about the hinge |
| Particles.ParticleSystem.ApplyBendEffect | js/particles.js:222-242 | the position buffer becomes Bend of the old buffer, the target buffer is unchanged, and the buffer is flagged for upload |
| Particles.ParticleSystem.BendParticle | js/particles.js:227-239 | the loop body moves only particle i's x and z, 10% toward the goal, and only when its target x is negative |
| Tweens.DisperseTarget | js/particles.js:248-250 | a dispersal target lies in x, y ∈ [-100,100) and z ∈ [-50,50) |
| Tweens.DisperseTween | js/particles.js:247-256 | the request of iteration i: particle i's position toward its dispersal target over 2.5 s with power2.out and no delay; DisperseTweensAt states it for every index |
| Tweens.DisperseTweens | js/particles.js:246-257 | one request per iteration |
| Tweens.DisperseTweensAt | js/particles.js:247-256 | request i moves particle i's position over 2.5 s with power2.out to a target inside the dispersal box |
| Particles.ParticleSystem.DisperseParticles | js/particles.js:244-258 | appends exactly the dispersal requests of the draws, one per particle, in index order |
| RoseShape.PetalRadius | js/particles.js:274 | the petal radius 50·√(sin p)·(1 + 0.2·sin 8t); PetalRadiusBounds bounds it by [0,60] |
| RoseShape.PointOnPetal | js/particles.js:275-277 | the petal point for a given radius r; PointOnPetalSphere places it on the radius-r sphere about (0, 30·cos p, 0) |
| RoseShape.PetalPoint | js/particles.js:274-277 | a petal point at its own radius; PetalOnSphere places it on that sphere |
| RoseShape.StemPoint | js/particles.js:279-281 | a stem point; StemBounds bounds it |
| RoseShape.LeafPoint | js/particles.js:284-289 | a leaf point on the side the draw picks; LeafBounds bounds it |
| RoseShape.RosePoint | js/particles.js:267-290 | particle i's target: a petal point below 0.7·count, a stem point below 0.9·count, a leaf point above; PetalOnSurface, StemBounds and LeafBounds state where each cohort lands |
| RoseShape.IsPetal | js/particles.js:272 | the test i < count·0.7, also used for the colour at line 317; CohortBoundaries gives its exact integer form |
| RoseShape.IsStem | js/particles.js:278 | i < count·0.9 once the petal test has failed; CohortBoundaries gives its exact integer form |
| RoseShape.IsLeaf | js/particles.js:283 | the remaining indices, from count·0.9 on; CohortBoundaries shows the three cohorts cover every index |
| RoseShape.CohortBoundaries | js/particles.js:272-278 | the 0.7 and 0.9 thresholds are exact (10i < 7n, 7n ≤ 10i < 9n, 9n ≤ 10i), and the three cohorts cover every index |
| RoseShape.PetalRadiusBounds | js/particles.js:274 | the petal radius lies in [0,60] |
| RoseShape.SphereIdentity | js/particles.js:275-277 | spherical coordinates of radius r have length r |
| RoseShape.PointOnPetalSphere | js/particles.js:275-277 | for any radius r, the petal formula lies on the sphere of radius r about (0, 30·cos p, 0) |
| RoseShape.PetalOnSphere | js/particles.js:274-277 | a petal point lies on the sphere whose radius is its own petal radius |
| RoseShape.PetalOnSurface | js/particles.js:266-277 | every petal-cohort target lies on that sphere, with radius in [0,60] |
| RoseShape.StemBounds | js/particles.js:278-282 | stem targets have x, z ∈ [-1,1) and y ∈ (-25π-20, -20] |
| RoseShape.LeafBounds | js/particles.js:283-290 | leaf targets have y ∈ [-40,-30], z ∈ [-5,5] and \|x\| < 10π, on the side the draw picks |
| RoseShape.RoseColor | js/particles.js:298-317 | petals get the deep red, stem and leaves get gold |
| RoseShape.RoseTargets | js/particles.js:263-293 | exactly count targets, one per particle |
| RoseShape.GenerateRose | js/particles.js:263-293 | the first loop pushes exactly RoseTargets, one per index in order |
| RoseShape.RosePair | js/particles.js:304-326 | the two requests for particle i: its position toward its target over 3 s with power3.inOut after a delay in [0, 0.5), then its colour toward the cohort colour over 2 s; RoseTweensAt states them for every index |
| RoseShape.RoseTweens | js/particles.js:301-327 | two requests per iteration |
| RoseShape.RoseTweensAt | js/particles.js:301-327 | request 2i sends particle i's position to its rose target over 3 s after a delay in [0,0.5); request 2i+1 sends its colour to red (petal) or gold |
| Particles.ParticleSystem.RequestRose | js/particles.js:301-327 | appends exactly the position and colour requests for every particle, in index order |
| Particles.ParticleSystem.MorphToRose | js/particles.js:260-330 | the state becomes ROSE from any state; every particle gets its rose target and cohort colour requests; the colour buffer is flagged |
| Interaction.InteractionManager.constructor | js/interaction.js:4-6 | clickCount 0 and the game inactive, with no effects and no timers |
| Interaction.InteractionManager.StartExperience | js/interaction.js:32-53 | fades the lobby, schedules its removal, plays the music, stamps startTime and opens the card, and schedules activation; isGameActive is left as it was, since only the 4000 ms callback sets it; the particle system's mouse, time, tweens and upload flags are unchanged |
| Interaction.InteractionManager.OnHideLobbyTimeout | js/interaction.js:37 | the 1000 ms callback removes the lobby card |
| Interaction.InteractionManager.OnActivateGameTimeout | js/interaction.js:49-52 | the 4000 ms callback activates the game and shows the first heart |
| Interaction.HeartCoord | js/interaction.js:61-62 | one heart coordinate, 100 + r·(extent - 200); HeartInMargin and HeartLeavesMargin state when it keeps the 100 px margin |
| Interaction.HeartInMargin | js/interaction.js:61-62 | on a viewport at least 200 wide, the heart coordinate lies in [100, W-100), or is exactly 100 when W is 200 |
| Interaction.HeartLeavesMargin | js/interaction.js:61-62 | below 200 px the heart can land left of 100 |
| Interaction.InteractionManager.SpawnHeart | js/interaction.js:55-66 | changes nothing when the game is inactive; otherwise shows the heart at the drawn position |
| Interaction.ClickAction | js/interaction.js:72-76 | the new count decides: respawn exactly below 3, the egg exactly from 3 on |
| Interaction.EggsAfterClicks | js/interaction.js:68-77 | k clicks from a fresh start trigger the egg max(0, k-2) times |
| Interaction.EggsAfterThird | js/interaction.js:68-77 | once the count is at least 2, every further click triggers the egg |
| Interaction.InteractionManager.HandleHeartClick | js/interaction.js:68-77 | a water drop and clickCount+1 on every call; below 3, another spawn; from 3 on, the egg with its rose request, whatever isGameActive is; the particle system's startTime, pending callback count, mouse, time and position flag are unchanged |
| Interaction.InteractionManager.TriggerEgg | js/interaction.js:98-129 | the game stops, the heart hides, a dim overlay is appended and scheduled, the particles morph to the rose with a stronger bloom if present, and the message is scheduled; the particle system's startTime, pending callback count, mouse, time and position flag are unchanged |
| Interaction.InteractionManager.OnDimTimeout | js/interaction.js:116 | the 100 ms callback fades that overlay to 0.8 |
| Interaction.InteractionManager.OnMessageTimeout | js/interaction.js:125-128 | the 3500 ms callback shows the message |

## Left out

- js/engine.js is not part of this model. It covers the renderer, the camera, the bloom composer, resizing and the frame loop. Only the `setBloom(2.5, 0.6, 0.1)` call is recorded, as an effect.
- The GLSL shaders (js/particles.js:69-119) and the Three.js geometry, material and scene calls are left out. They have no host-side logic.
- The mouse raycast in `update` (js/particles.js:198-205) is left out, because it depends on camera matrices.
- The loop that copies the watermark points into a Float32Array (js/particles.js:160-176) is left out. The model keeps the point list itself.
- Canvas text rendering and font loading in `createWatermark` (js/particles.js:137-146) are left out. The model takes the ImageData bytes as its input.
- GSAP interpolation, easing curves and the `onUpdate` callbacks that flag a buffer for upload are left out. Only the request is recorded.
- The Web Audio water drop, the AudioContext resume, music playback, CSS classes and styles, and the empty global click listener (js/interaction.js:25-29) are left out. They appear only as `Effect` records.
- setTimeout timing is left out. A pending callback can be fired by the environment in any order.
- Float32 rounding, NaN and infinities are left out, because doubles and typed-array stores are modelled as reals.
- The model assumes `startTime` is set when the bend runs, as `startExperience` ensures. Bending with `startTime` still undefined, which gives NaN in the source, is not modelled.
- The unused `radius` constant (js/particles.js:231) and the unused `time` argument of `applyBendEffect` do not appear in the model.
- Colours are the hex bytes over 255. The source does not say which Three.js version it loads, so the model assumes no colour-management conversion from sRGB to linear.
- Each draw record fixes which random value feeds which field. The interleaving of `Math.random()` calls across particles is not modelled.
- Interaction.InteractionManager.HandleHeartClick: it takes one rose draw record per particle, the values that `morphToRose` would consume. This holds whether the click ends in a respawn or in the egg.
