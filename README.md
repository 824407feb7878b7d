# Scroll, scene and particle logic of a portfolio site

This project models the three pieces of logic in the portfolio site's decorative layer:

- **The 3D receipt-scanning scene** (`ThreeBackground`, in `three_background.dfy`). A scroll handler maps the scroll offset, the viewport height and four section anchors (story, featured, projects, experience) to one of six ordered scene states: hero < story < featured1 < featured2 < projects < final. The probe is `scrollY + 0.3 * viewportHeight`. The handler compares it, in order, with `storyTop + 0.5 * vh`, `featuredTop`, `featuredTop + vh`, `projectsTop` and `experienceTop`, and takes the first one the probe is below. Each scene object (receipt, scanner, data card, reimbursed card) eases its stored values toward per-state targets once per frame with `lerp(current, target, delta * rate)`.
- **The scroll progress rail** (`ScrollProgressRail`, in `scroll_progress_rail.dfy`). It computes a progress fraction. It then scans the six section ids from last to first and marks the first one whose element exists and whose top is at or above `scrollY + innerHeight / 3`. If none qualifies, it keeps the section it had marked before.
- **The particle field** (`ParticlesBackground`, in `particles_background.dfy`). It holds `floor(w * h / 15000)` particles whose size, opacity and speed derive from a random depth. Each frame advances every particle in place, pushes near particles away from the pointer, and wraps them around the canvas with a 10-pixel margin. A resize rebuilds the field.

The progress fraction `min(scrollY / docHeight, 1)` is shared by the scene and the rail. It lives in `scroll_metrics.dfy` (`ScrollMetrics`). `wrappers.dfy` holds the `Option` type used for element lookups that can find nothing.

How the code is modelled:

- Numbers are Dafny `real`s.
- A missing section element is `None`. For the cascade it becomes `Offset.Infinite`, because `?? Infinity` is what the code uses. A missing story element becomes 0 instead, as the code has it.
- `THREE.MathUtils.lerp(a, b, t)` is taken to be `a + (b - a) * t`.
- `Math.random()` values are inputs. Each new particle takes one `Draw` record holding its five values, in the order the code draws them.
- `Math.sqrt` is a function parameter. Lemmas that need it to be a true square root say so with `IsSqrt`.
- `Math.sin` values that feed stored state are parameters: the scan-line sweep and the reimbursed card's hover.

A few details of the code that the model keeps as written:

- The progress is clamped only from above. The code does not guard a zero scrollable height, so `Progress` requires `docHeight != 0`.
- With the probe offset, scrollY = 900 on a page with featured at 1000 and an 800-pixel viewport already reads as featured1 (`CascadeExample`).
- The reimbursed card adds its hover offset to its stored y, so the next frame eases from the hovered position.
- The wrap is two sequential `if`s per axis. On a canvas of non-negative size they act as one three-way choice (`WrapProperties`).

## Model

| member | source | states |
|---|---|---|
| ThreeBackground.Rank | src/components/ThreeBackground.tsx:15 | the six scene states in page order, ranked 0 to 5 |
| ThreeBackground.FirstNotPassed | src/components/ThreeBackground.tsx:49-63 | reference cascade: the result is the index of the first threshold the probe is below (every earlier one is passed), or the number of thresholds |
| ThreeBackground.FirstNotPassedMonotone | src/components/ThreeBackground.tsx:49-63 | a larger probe never stops at an earlier threshold, whatever the order of the thresholds |
| ThreeBackground.SceneStateAt | src/components/ThreeBackground.tsx:44-63 | the handler's if/else chain picks the state whose rank is the first of the five thresholds (story+0.5vh, featured, featured+vh, projects, experience) that scrollY+0.3vh falls below |
| ThreeBackground.SceneStateMonotone | src/components/ThreeBackground.tsx:49-63 | with anchors and viewport fixed, scrolling further never moves the state earlier in page order, even for unordered anchors |
| ThreeBackground.MissingAnchorsCapState | src/components/ThreeBackground.tsx:45-47 | a missing featured anchor caps the state at story, a missing projects anchor at featured2, a missing experience anchor at projects |
| ThreeBackground.MissingStoryIsZero | src/components/ThreeBackground.tsx:44 | a missing story anchor behaves as offset 0 (not Infinity), so the very top of the page is hero |
| ThreeBackground.CascadeExample | src/components/ThreeBackground.tsx:49-63 | story 0, featured 1000, projects 3000, experience 5000, vh 800: scrollY 0 hero, 700 story, 900 and 1000 featured1, 2000 featured2, 2900 and 3000 projects, 5000 final |
| ThreeBackground.ScrollTracker.constructor | src/components/ThreeBackground.tsx:24-25 | before the handler's first run (made by the mount effect) the state is hero and the progress 0 |
| ThreeBackground.ScrollTracker.HandleScroll | src/components/ThreeBackground.tsx:28-63 | the new progress is min(scrollY/(scrollHeight-innerHeight), 1) and the new state is the cascade's, both recomputed from scratch |
| ScrollMetrics.Progress | src/components/ThreeBackground.tsx:30-31 | progress never exceeds 1; below 1 it is exactly scrollY/docHeight and at 1 the quotient is at least 1; for docHeight > 0 it is 1 iff scrollY >= docHeight and it is >= 0 when scrollY >= 0 |
| ScrollMetrics.ProgressMonotone | src/components/ThreeBackground.tsx:31 | for a fixed positive scrollable height, progress is non-decreasing in the scroll offset |
| ScrollMetrics.ProgressSamples | src/components/ScrollProgressRail.tsx:29 | offsets 0, docHeight/2 and 2·docHeight give progress 0, 0.5 and 1 |
| ThreeBackground.ReceiptTextTarget | src/components/ThreeBackground.tsx:123-126 | receipt text target is 0.3 from featured1 onward and 1 before |
| ThreeBackground.GlowTarget | src/components/ThreeBackground.tsx:164-165 | scanner glow target is 0 exactly in hero, 1 exactly in story and featured1, 0.3 exactly from featured2 on |
| ThreeBackground.ScanLineShownExactly | src/components/ThreeBackground.tsx:169-175 | the scan line is visible exactly in story and featured1, i.e. exactly when the glow target is full |
| ThreeBackground.RowsTarget | src/components/ThreeBackground.tsx:251-252 | row target is one of 0, 3, 6: 0 before featured1, 3 in featured1, 6 from featured2 on |
| ThreeBackground.CheckTarget | src/components/ThreeBackground.tsx:256 | checkmark target is 0 or 1, and 1 exactly from featured2 on, i.e. exactly when all six rows are due |
| ThreeBackground.CardXTarget | src/components/ThreeBackground.tsx:260 | card x target is 3 exactly in hero and story, 1.5 otherwise |
| ThreeBackground.ReimbursedOpacityTarget | src/components/ThreeBackground.tsx:363 | reimbursed opacity target is 1 exactly in projects and final, 0 otherwise |
| ThreeBackground.ReimbursedYTarget | src/components/ThreeBackground.tsx:366 | reimbursed y target is -1.8 exactly in projects and final, -3 otherwise |
| ThreeBackground.TargetsMonotone | src/components/ThreeBackground.tsx:251-260 | along the page order the row, checkmark and reimbursed targets never decrease and the card x and receipt text targets never increase |
| ThreeBackground.Lerp | src/components/ThreeBackground.tsx:253 | the distance left to the target is the old distance times (1 - t); a value at its target stays; for t in [0,1] the result lies between old value and target and is no farther from the target |
| ThreeBackground.SettleNeverOvershoots | src/components/ThreeBackground.tsx:245-261 | over any number of frames with a fixed state and factors in [0,1], an eased value stays between its start and the target and never moves away from the target |
| ThreeBackground.SettleAtTarget | src/components/ThreeBackground.tsx:124 | a value already at its target stays there over any frames |
| ThreeBackground.VisibleRowsArePrefix | src/components/ThreeBackground.tsx:304-308 | the row-visibility predicate `rowsVisible > i` of line 308, taken of a given rowsVisible value, holds for a prefix of the rows: if row i passes, so does every earlier row |
| ThreeBackground.SettledVisibility | src/components/ThreeBackground.tsx:304-408 | the visibility predicates of lines 308, 335 and 398/408, taken of each state's target values: the row predicate holds for rows 0-2 in featured1 and for all six from featured2 on, the checkmark predicate (opacity > 0.1) from featured2 on, the REIMBURSED-text predicate (opacity > 0.5) from projects on |
| ThreeBackground.Receipt.constructor | src/components/ThreeBackground.tsx:77 | text opacity starts at 1 |
| ThreeBackground.Receipt.Frame | src/components/ThreeBackground.tsx:122-127 | text opacity eases toward the state's target at rate 2; it stays in [0.3, 1] when delta <= 0.5 |
| ThreeBackground.Scanner.constructor | src/components/ThreeBackground.tsx:156-223 | glow starts at 0 and the scan line hidden at y 0 |
| ThreeBackground.Scanner.Frame | src/components/ThreeBackground.tsx:163-175 | glow eases toward its target at rate 3; the scan line is shown iff story or featured1, sweeps at 1.1·sin in featured1 and rests at -1.2 otherwise; glow stays in [0,1] when delta <= 1/3 |
| ThreeBackground.DataCard.constructor | src/components/ThreeBackground.tsx:242-276 | no rows, no checkmark, card at x 2.5 |
| ThreeBackground.DataCard.Frame | src/components/ThreeBackground.tsx:251-261 | rows (rate 2), checkmark (rate 3) and x (rate 2) ease toward their targets; rows stay in [0,6], checkmark in [0,1], x in [1.5,3] when delta <= 1/3 |
| ThreeBackground.ReimbursedCard.constructor | src/components/ThreeBackground.tsx:355-374 | opacity 0 and y -3 at mount |
| ThreeBackground.ReimbursedCard.Frame | src/components/ThreeBackground.tsx:363-370 | opacity and y ease toward their targets at rate 2, then the hover offset is added to the stored y; opacity stays in [0,1] when delta <= 0.5 |
| ScrollProgressRail.ActiveIndex | src/components/ScrollProgressRail.tsx:35-40 | the greatest section index whose element exists and whose top is <= the probe, or none exactly when no section qualifies |
| ScrollProgressRail.ScanFromEnd | src/components/ScrollProgressRail.tsx:35-41 | the reverse loop with break returns the greatest qualifying index (none iff no section qualifies) |
| ScrollProgressRail.ActiveIndexMonotone | src/components/ScrollProgressRail.tsx:35-41 | with the tops fixed, a larger probe never marks an earlier section once some section qualifies |
| ScrollProgressRail.InclusiveTieBreak | src/components/ScrollProgressRail.tsx:37 | with tops 100 and 500, probe 500 marks the section at 500, probe 499 the one at 100, probe 99 none |
| ScrollProgressRail.Rail.constructor | src/components/ScrollProgressRail.tsx:21-22 | the rail starts on "story" with progress 0 |
| ScrollProgressRail.Rail.HandleScroll | src/components/ScrollProgressRail.tsx:25-42 | the progress is recomputed; the marked section becomes the last qualifying id or stays unchanged if none qualifies, and is always one of the six listed ids |
| ParticlesBackground.Count | src/components/ParticlesBackground.tsx:23 | the count is floor(w·h/15000): count·15000 <= w·h < (count+1)·15000, and 0 iff w·h < 15000 |
| ParticlesBackground.CreateParticles | src/components/ParticlesBackground.tsx:21-38 | exactly floor(w·h/15000) particles, the i-th built from the i-th draw of random values |
| ParticlesBackground.NewParticleOnCanvas | src/components/ParticlesBackground.tsx:28-29 | a new particle has x in [0,w) and y in [0,h) |
| ParticlesBackground.NewParticleRanges | src/components/ParticlesBackground.tsx:26-34 | size 1+2·depth in [1,3), opacity 0.15+0.2·depth in [0.15,0.35), abs(speedX) < 0.15, abs(speedY) < 0.1, depth kept |
| ParticlesBackground.SpeedBound | src/components/ParticlesBackground.tsx:31-32 | a speed (r-0.5)·scale·(0.5+0.5·depth) lies strictly within scale/2 of zero |
| ParticlesBackground.Force | src/components/ParticlesBackground.tsx:80 | within 150 pixels the push (150-d)/150·0.02 lies in (0, 0.02] |
| ParticlesBackground.WrapProperties | src/components/ParticlesBackground.tsx:87-90 | below -10 goes to extent+10, above extent+10 goes to -10, otherwise unchanged; the result is in [-10, extent+10]; wrapping twice equals wrapping once |
| ParticlesBackground.WrapExample | src/components/ParticlesBackground.tsx:87-88 | x = -15 wraps to width+10 and x = width+11 wraps to -10 |
| ParticlesBackground.StepParticle | src/components/ParticlesBackground.tsx:69-91 | the statement-by-statement frame body (advance, repulsion, four wrap tests) computes the particle step: drift, then repulsion, then wrap |
| ParticlesBackground.StepKeepsAttributes | src/components/ParticlesBackground.tsx:69-91 | a frame never changes size, speedX, speedY, opacity or depth |
| ParticlesBackground.StepWithoutRepulsion | src/components/ParticlesBackground.tsx:71-84 | a particle the pointer does not push moves by exactly its velocity before wrapping |
| ParticlesBackground.WithinReach | src/components/ParticlesBackground.tsx:78-79 | for a true square root, distance < 150 iff squared distance < 22500 |
| ParticlesBackground.RepulsionPushesAway | src/components/ParticlesBackground.tsx:75-84 | repulsion applies iff depth > 0.5 and dx²+dy² < 22500; then the force lies in (0,0.02] and the pointer-to-particle vector is scaled by 1+force |
| ParticlesBackground.ParticleField.constructor | src/components/ParticlesBackground.tsx:47-62 | mount: canvas is innerWidth by scrollHeight, pointer at the origin, field built as by createParticles, so the field is valid (floor(w·h/15000) particles) |
| ParticlesBackground.ParticleField.Resize | src/components/ParticlesBackground.tsx:50-56 | the canvas takes the new size and a fresh array of floor(w·h/15000) new particles replaces the old one; the pointer is kept |
| ParticlesBackground.ParticleField.MouseMove | src/components/ParticlesBackground.tsx:58-60 | the pointer is stored in document coordinates (clientY plus scrollY); the canvas and the particles are untouched, so the field stays valid |
| ParticlesBackground.ParticleField.Animate | src/components/ParticlesBackground.tsx:66-91 | every particle is replaced in place by its frame step; the field stays valid (one particle per 15000 square pixels), and on a valid field every particle afterwards lies in [-10, w+10] × [-10, h+10] |

## Left out

- Rendering: JSX, three.js meshes, materials and lights, the random receipt texture, and the canvas `clearRect`/`arc`/`fill` drawing. These are foreign libraries with no behaviour the model can state.
- `Math.sin` decoration that only feeds rendering: the receipt's float and tilt, the scanner group's hover, the data card's y bob and rotation, and the camera sway. The scan-line sweep and the reimbursed card's hover do feed stored values, so the model takes them as parameters.
- The mouse-following light's normalisation into viewport units. It is a linear map into three.js units.
- Listener registration and removal, `requestAnimationFrame`/`cancelAnimationFrame`, the mounted flag, and the reduced-motion query. With reduced motion the scene renders nothing and the particle field is drawn once without stepping. Neither case changes modelled state.
- The rail's `handleSectionClick`. It only calls `scrollIntoView`, a browser call.
- The unused `sections` array inside the scene's scroll handler.
- Floating point: reals are exact, so rounding is not modelled. The division in progress is modelled only for a non-zero scrollable height. In the code a zero height gives NaN (scrollY = 0), 1 (positive offset) or -Infinity (negative offset); the model does not represent that case.
- ScrollMetrics.Progress: requires `docHeight != 0` because the code has no guard and real division by zero has no value here.
- ThreeBackground.ScrollTracker.HandleScroll, ScrollProgressRail.Rail.HandleScroll: inherit that requirement, so on a page that does not scroll (scrollable height 0) the model says nothing about the new scene state or marked section. The code still runs the cascade and the reverse scan there, next to a progress of NaN at scrollY = 0, of 1 for a positive offset (`Math.min` caps +Infinity), and of -Infinity only for a negative offset.
- ThreeBackground.VisibleRowsArePrefix, ThreeBackground.SettledVisibility: the visibility predicates are JSX props. React evaluates them only when the scene re-renders, which happens on a change of the scroll state or progress, not on each frame. `rowsVisible`, `checkmarkOpacity` and the reimbursed `opacity` are refs that the frame callback changes without a re-render. So what is on screen after scrolling stops reflects the eased values of the last render, which can still lag behind the targets. The lemmas state the predicates of given values, not what is displayed at a given time.
- The particle effect returns early, with no particles, no listeners and no animation, when the canvas element or its 2D context is missing. The model's ParticleField always has a canvas and builds the field.
- ParticlesBackground.ParticleField.Animate: particles are value records that the loop replaces in place in the array. The code mutates shared JS objects. Nothing else holds references to them, so aliasing is not modelled.
- ParticlesBackground.RepulsionPushesAway: assumes the square root passed in is exact (`IsSqrt`). `Math.sqrt` rounds.
- ThreeBackground.Receipt.Frame, ThreeBackground.Scanner.Frame, ThreeBackground.DataCard.Frame, ThreeBackground.ReimbursedCard.Frame: the range invariants are promised only when `delta * rate <= 1`. The code does not clamp the lerp factor, so a long frame overshoots.
- The tilt and parallax cards, the project modal, the page sections and the layout are static content or thin wrappers over an animation library. They are not part of this model.
