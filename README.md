# Lift-off state machine of the Stanford Bubble

This project models, in Dafny, the animation controller of the landing-page
bubble: the `ProductionBubble` class of
`frontend/src/components/BubbleAnimation.tsx`. Once per display frame the
render loop calls `animate(t)` with a timestamp in milliseconds. The class
turns these timestamps into an accumulated animation time in seconds. It
bobs the bubble sideways, spins it slowly and pushes the time into the film
shader. When a click calls `startLift(cb)`, the bubble "lifts off": over
2.5 s it climbs 15 world units, shrinks from scale 1 to 0.1 and fades both
of its materials out, all driven by the cubic ease-out `1 - (1 - p)^3`.
When the 2.5 s have run out, it pins the final pose and invokes the
completion callback once.

Files and modules:

- `easing.dfy`, module `Easing`: the ease-out curve and the pose it drives
  (group height, uniform scale, carrier and film opacity), as pure
  functions, with lemmas on range, end points and monotonicity.
- `frame_clock.dfy`, module `FrameClock`: how one timestamp advances the
  accumulated time, including the "previous timestamp is 0" sentinel, and
  the fold of many ticks, with lemmas on monotonicity and telescoping.
- `bubble.dfy`, module `Bubble`: the class `ProductionBubble`. Its fields are
  the source's fields and the scene-graph values it writes: group position
  x/y, scale, rotation, the two opacities and the shader's time uniform.
  The methods `StartLift` and `Animate` update them in place. The file also
  has a client method replaying the double click of the landing page.

Modelling decisions:

- Timestamps, times, positions, scales and opacities are exact `real`s.
- `Math.sin` is a callee whose code is not part of this model. The bubble
  takes the sine as a constructor parameter (`sin: real -> real`), so the
  bob is stated as `x == 0.2 * sin(0.4 * time)`. Periodicity of the bob is
  proved for any sine that has a period.
- The optional completion callback is a token (`Option<Callback>`).
  "Invoking" it is `Animate` returning that token. A ghost log `fired`
  records every invocation, and a ghost counter `starts` counts the lift-offs
  begun. The object invariant `Valid()` states two things. A callback is
  pending only during a lift-off. Invocations plus pending callbacks never
  outnumber the lift-offs, so each lift-off notifies at most once.
- The shader's time uniform is `Option<real>`. It is `None` until three.js
  compiles the film material, which runs the `onBeforeCompile` hook
  (`CompileShader`). Until then a tick pushes nothing.
- The constructor's pose is the one `createBubble` sets up: height 0
  (`startY = 0`), film opacity 1 and carrier opacity 0.03. The scale 1 and
  rotation 0 it starts with are three.js defaults for a new group; they are
  not written in the source file.
- The per-tick body of `animate` is split into three framed steps, each
  with its own contract: `AdvanceClock` (lines 169-174), `StepLift`
  (176-213) and `IdleMotion` (215-222). `Animate` runs them in the source's
  order. The eased pose is computed by `Easing.LiftPose`, which holds the
  arithmetic of lines 179-198.
- The first frames: the render loop's first call is `animate(0)`
  (line 428). It leaves the "no previous frame" sentinel (0) in place, so
  the first real frame is treated as a first frame too and adds no time. For
  frames at 0, 16, 33 and 50 ms the time is therefore 0.034 s, not 0.050 s
  (`FrameClock.RunAfterZeroCall`).
- A `startLift` after a completed lift-off begins a new one, as the code
  allows. Its first tick shows the eased pose again, which starts at full
  size. The landing page navigates away on completion, so this does not arise
  there; the model keeps the code's behaviour.

## Model

| member | source | states |
|---|---|---|
| `Easing.EaseOut` | frontend/src/components/BubbleAnimation.tsx:179-181 | the cubic ease-out maps progress 0 to 0 and 1 to 1, stays in [0,1] on [0,1], stays below 1 for progress below 1 and is positive for positive progress |
| `Easing.EaseOutMonotone` | frontend/src/components/BubbleAnimation.tsx:181 | the ease-out never decreases as progress grows |
| `Easing.LiftPose` | frontend/src/components/BubbleAnimation.tsx:176-198 | while 0 <= elapsed < 2.5 the height is in [startY, startY+15), the scale in (0.1, 1], the film opacity in (0, 1] and the carrier opacity in (0, 0.03]; at elapsed 0 the pose is the bubble's resting pose |
| `Easing.Cube` | frontend/src/components/BubbleAnimation.tsx:181 | `Math.pow(x, 3)`; the cube keeps the sign of its argument (range and monotonicity in `CubeUnit` and `CubeMonotone`) |
| `Easing.Max` | frontend/src/components/BubbleAnimation.tsx:194-198 | `Math.max`: the result is at least both arguments and is one of them |
| `Easing.EasedPose` | frontend/src/components/BubbleAnimation.tsx:183-198 | for an eased value in [0,1] the height is in [startY, startY+15], the scale in [0.1, 1], the film opacity in [0, 1] and the carrier opacity in [0, 0.03] |
| `Easing.FinalPose` | frontend/src/components/BubbleAnimation.tsx:202-206 | the pinned pose is the eased pose at eased value 1 (startY+15, scale 0.1, both opacities 0) |
| `Easing.PoseAt` | frontend/src/components/BubbleAnimation.tsx:177-206 | for any non-negative elapsed time the pose stays within [startY, startY+15], scale [0.1, 1] and the opacity ranges, and from 2.5 s on it is the pinned final pose |
| `Easing.FinalPoseEndsCurve` | frontend/src/components/BubbleAnimation.tsx:199-206 | the pinned final pose (startY+15, scale 0.1, opacities 0) is exactly the curve's pose at full progress, so completion causes no jump |
| `Easing.PoseAtMonotone` | frontend/src/components/BubbleAnimation.tsx:176-206 | for a fixed lift start, as elapsed time grows the bubble only rises, only shrinks and only fades, through to the pinned final pose |
| `FrameClock.FrameDelta` | frontend/src/components/BubbleAnimation.tsx:169-172 | a tick after the 0 sentinel adds no time; otherwise it adds the gap since the previous timestamp in seconds, which is never negative for timestamps in order |
| `FrameClock.Tick` | frontend/src/components/BubbleAnimation.tsx:168-174 | a tick records its timestamp as the previous one, never decreases the time for timestamps in order, and leaves the time alone after the sentinel |
| `FrameClock.Run` | frontend/src/components/BubbleAnimation.tsx:416-424 | successive `animate` calls from the render loop: no frames leave the clock unchanged, and otherwise the last timestamp is the one recorded |
| `FrameClock.RunMonotone` | frontend/src/components/BubbleAnimation.tsx:168-174 | any run of ticks with non-decreasing timestamps never decreases the accumulated time and ends with the last timestamp recorded |
| `FrameClock.RunTelescopes` | frontend/src/components/BubbleAnimation.tsx:172-174 | once a previous frame exists, a run of ticks adds exactly (last timestamp - previous timestamp) / 1000 seconds, whatever the cadence |
| `FrameClock.RunFromSentinel` | frontend/src/components/BubbleAnimation.tsx:169-174 | from the sentinel, ticks at positive non-decreasing timestamps measure time from the first of them |
| `FrameClock.RunAfterZeroCall` | frontend/src/components/BubbleAnimation.tsx:424-428 | the render loop's initial call at timestamp 0 keeps the sentinel, so time is measured from the first positive frame |
| `Bubble.Bob` | frontend/src/components/BubbleAnimation.tsx:219-221 | the sideways bob `sin(0.4*time)*0.2` stays within [-0.2, 0.2] whenever the sine is within [-1, 1] (periodicity in `BobPeriodic`) |
| `Bubble.BobPeriodic` | frontend/src/components/BubbleAnimation.tsx:219-221 | the sideways bob repeats with the sine's period divided by 0.4 |
| `Bubble.ProductionBubble.constructor` | frontend/src/components/BubbleAnimation.tsx:225-238 | time and the previous timestamp start at 0, not lifting, no callback, the group at rest at startY 0 with film opacity 1 and carrier opacity 0.03, no shader yet |
| `Bubble.ProductionBubble.CompileShader` | frontend/src/components/BubbleAnimation.tsx:307-325 | compiling the film shader creates its time uniform at 0 and changes nothing else |
| `Bubble.ProductionBubble.StartLift` | frontend/src/components/BubbleAnimation.tsx:160-166 | while lifting, a request changes nothing at all; otherwise it starts lifting with liftStart equal to the current time and stores exactly the given callback, keeping the invariant |
| `Bubble.ProductionBubble.Animate` | frontend/src/components/BubbleAnimation.tsx:168-223 | the clock advances as `Tick`; not lifting leaves the pose and callback alone; lifting within 2.5 s sets the eased pose; lifting past 2.5 s pins the final pose, stops lifting, returns the stored callback and clears it; the callback log grows by exactly what is returned; every tick sets x to 0.2*sin(0.4*time), adds 0.003 to the rotation and pushes time into the shader only if it exists |
| `Bubble.ProductionBubble.AdvanceClock` | frontend/src/components/BubbleAnimation.tsx:169-174 | the time fields change exactly as `Tick` says and nothing else changes |
| `Bubble.ProductionBubble.StepLift` | frontend/src/components/BubbleAnimation.tsx:176-213 | the lift-off step at the advanced time: eased pose, or pinned pose with the single invocation and clearing of the callback, keeping the invariant |
| `Bubble.ProductionBubble.IdleMotion` | frontend/src/components/BubbleAnimation.tsx:215-222 | the shader uniform becomes the time if the shader exists, x becomes the bob and the rotation grows by 0.003 |
| `Bubble.DoubleClickLift` | frontend/src/components/BubbleAnimation.tsx:446-450 | a click followed by the page's second `startLift` with another callback: a mid-lift tick fires nothing and shows a pose within bounds (height in [0, 15), scale in (0.1, 1], film opacity in (0, 1], carrier opacity in (0, 0.03]), the first tick at least 2.5 s after the click fires the first callback only, a later tick fires nothing, and the final pose is pinned |

## Left out

- The GLSL vertex and fragment shaders and the simplex noise (BubbleAnimation.tsx lines 22-143): GPU floating-point code outside the TypeScript program. Only the time uniform they read is modelled.
- The environment cubemap and lighting setup (`setupEnvironment`, `setupOptimizedLighting`): canvas drawing and three.js calls with no state the animation reads.
- The material and mesh configuration in `createBubble` (transmission, iridescence, geometry and so on): static three.js configuration. Only the initial opacities and startY are modelled.
- The `scene`, `renderer` and `camera` fields: they are only handed to three.js.
- The React component: the render loop, the resize listener, teardown and the UI wobble signal `sin(t*0.001)*0.5`, `cos(t*0.0008)*0.5` (lines 365-457). This is DOM and `requestAnimationFrame` plumbing. Its first call `animateLoop(0)` is modelled through `FrameClock.RunAfterZeroCall`.
- What the completion callback does (navigation to the main page): it is code outside the class. The model records only which callback a tick invokes, as the value `Animate` returns once the whole tick is done.
- Bubble.ProductionBubble.Animate: does not model the callback running in the middle of the tick. The source calls it after `lifting` is cleared and the final pose is pinned, but before the callback is cleared and before the shader, bob and spin updates (BubbleAnimation.tsx lines 200-222). Two consequences are not captured. First, a callback that itself calls `startLift(cb2)` starts a new lift and stores `cb2`, but line 210 then clears `cb2`, so that lift runs with no callback and never notifies; in the model, a caller reacting to the returned token gets `cb2` stored. Second, a callback that throws leaves itself stored while `lifting` is false, which breaks `Valid()`, and skips the shader, bob and spin updates of that tick. Neither arises with the navigation callback the landing page passes.
- `ThinFilmBubble.tsx`, the pages, routing and styling are not part of this model.
- Floating point: exact reals do not capture rounding in the time accumulation or in the `elapsed < 2.5` comparison.
- Math.sin: taken as a parameter; no property of the sine is assumed except in `Bubble.BobPeriodic`, which takes periodicity as a hypothesis.
