# Solar-system demo: a verified model of its interaction and animation logic

The repository is a browser demo of the solar system built on Three.js. It
comes in three variants of the scene script (`js/main.js`, `js/main-improved.js`,
`js/minimal.js`), a pointer-interaction manager (`js/interactions.js`), a table
of body records with an info-panel writer (`js/celestialBodies.js`), and a small
tween engine plus the table logic of a simplex noise (`js/utils.js`). This
project models the sequential logic of those files in Dafny and proves what
each piece promises:

- **Hover and selection** (`Interactions`): the `InteractionManager` class with
  its `hoveredObject`, `selectedObject`, `isHovering`, cursor and info panel; the
  highlight cache in each object's `userData`; and a per-object event model
  (enter, exit, pick, drop) that exposes what the single shared
  `_originalEmissive` slot does.
- **Pick resolution**: the nearest-named-ancestor walk of `js/main-improved.js`
  (`MainImproved.NamedAncestor`, `FirstPick`), the first-hit rule of `js/main.js`
  (`Main.ClickTarget`), and the sun / parent / self / "…Moon" cascade of
  `js/minimal.js` (`Minimal.ClickName`), all over a parent forest
  (`SceneGraph`) whose nodes carry their depth so upward walks terminate.
- **Per-frame updaters**: `updateScene` of `js/main.js` and of
  `js/main-improved.js` (with its pause gate and `timeScale`), and `animate`
  of all three. Planets orbit by a rotation of (x, z), asteroids by an
  accumulated angle, and the sun and moon groups spin. In `js/minimal.js` the
  planets follow a tilted orbit that depends only on absolute time.
- **Registry maintenance**: `createAsteroidBelt` and `createBlackHole` in
  `js/main.js` replace earlier objects rather than adding to them.
- **Info formatting**: `getCelestialInfo` / `updateInfoPanel` and the
  `showPlanetInfo` functions of `js/main.js` and `js/minimal.js`. Each is a
  table lookup followed by conditional, ordered emission of HTML lines.
- **Tweens and noise** (`Tweens`, `Noise`): the `Tween` life cycle (`to`,
  `start`, `update`), the static active list pruned by a backward splice, the
  easing polynomials, and the simplex corner choice and table indexing.

Modelling choices:

- **`Math.sin` and `Math.cos`** are a pair of functions passed in a `Trig`
  record. The proofs assume only `Trig.Lawful` about them: sin 0 = 0,
  cos 0 = 1, sin² + cos² = 1, and the angle-addition laws.
- **Numbers** are reals, so floating-point rounding is not modelled.
- **JavaScript truthiness** of an optional number is `Base.Truthy`: defined
  and non-zero.
- **Values outside the model** are parameters: the clock reading `now`, the
  `Math.random` draws, the raycaster's ordered hit list and the number-to-text
  conversions (`toLocaleString`, `toFixed`).
- **State.** Module globals and objects the source mutates are classes with
  `modifies` frames. Scene entries they hold are value records. Each method is
  proved equal to a specification function, and the lemmas state the
  properties of those functions.
- **Picking.** `js/main.js` raycasts against the top-level entries of
  `planets`, and the model takes that hit list as non-recursive. The same
  holds for `js/interactions.js`: `Interactions.IntersectObjects` and
  `Interactions.CollectInteractables` take `intersectObjects` to test only the
  listed objects, not their descendants. That holds for the Three.js
  versions whose `recursive` flag defaults to false; where it defaults to
  true, the hit list may also hold unnamed descendants of a listed mesh. In
  `js/main-improved.js` the sun mesh carries no `userData.name`, so the walk
  skips it. In `js/minimal.js` the sun has no name either; it is recognised by
  identity.

## Model

| member | source | states |
|---|---|---|
| Clocks.GetDelta | js/main.js:550 | a reading leaves the clock running at `now`; a clock not yet started yields 0, a running one the seconds since its previous reading |
| Clocks.FrameDeltaMeasuresTime | js/main.js:550 | with a running clock, 100 × a frame's delta equals the milliseconds since the previous frame, so two consecutive frames' deltas add up to the time across both |
| Clocks.FrameDeltaWithoutRunningClock | js/main.js:550 | with no clock every frame advances by 0.1; the first reading of a fresh clock advances by 0 |
| Trig.AngleAdds | js/main-improved.js:451 | the orbit angles of two frames at one speed add up to the angle of a single frame lasting both |
| Trig.RotateKeepsNorm | js/main-improved.js:451-456 | the orbit step keeps x² + z², so a planet stays at its distance from the sun |
| Trig.RotateCompose | js/main-improved.js:451-456 | rotating (x, z) by a and then by b is rotating once by a + b |
| Trig.SinBounded | js/minimal.js:546 | the sine lies in [-1, 1], which bounds every pulse factor built from it |
| Trig.RotateZero | js/main.js:487-494 | an orbit step through angle 0 leaves the position unchanged |
| Trig.AccumulateIsLinear | js/main.js:514 | an accumulator `angle += speed * delta` ends at start + speed × total time, however the time is cut into frames |
| SceneGraph.AncestorIsInForest | js/main-improved.js:594-597 | every node reached by following `parent` links is in the scene and no deeper than the start |
| SceneGraph.AncestorTransitive | js/main-improved.js:594-597 | an ancestor of an ancestor of a node is an ancestor of that node |
| SceneGraph.StrictAncestorIsShallower | js/minimal.js:689-696 | a proper ancestor is strictly closer to the root, so every upward walk ends |
| SceneGraph.AddNodeWellFormed | js/minimal.js:375-380 | adding a new node under a node already in the scene, one level deeper, keeps the scene a well-formed forest |
| CelestialBodies.GetCelestialInfo | js/celestialBodies.js:95-97 | a record comes back exactly when the name is a key of the `celestialData` table (passed in as `data`), and it is that key's record; otherwise null |
| CelestialBodies.CelestialData | js/celestialBodies.js:4-90 | (definition, no contract) the record table: one entry per body with its Chinese name, description, numeric fields and info text |
| CelestialBodies.InfoLines | js/celestialBodies.js:102-138 | (definition, no contract) the panel lines of a record: heading, description, each truthy field in template order, then the info paragraph |
| CelestialBodies.InfoPanel.constructor | js/celestialBodies.js:104 | the `planet-info` element starts holding the given HTML |
| CelestialBodies.UpdateInfoPanel | js/celestialBodies.js:102-139 | the panel ends holding the placeholder for a name that is not in the table, and otherwise the HTML of the record's lines in order |
| CelestialBodies.WriteRecord | js/celestialBodies.js:111-138 | the HTML built by successive `+=` equals the rendering of the record's line list |
| CelestialBodies.HtmlConcat | js/celestialBodies.js:111-136 | the HTML of two line lists joined is the two HTMLs joined |
| CelestialBodies.InfoLinesHtml | js/celestialBodies.js:111-136 | the panel is heading, description, then the diameter, distance, orbital-period, rotation and temperature lines, then the info paragraph |
| CelestialBodies.InfoLinesOrdered | js/celestialBodies.js:111-136 | the kinds of the emitted lines strictly increase in that order, so none repeats or comes out of place |
| CelestialBodies.InfoLinesFrame | js/celestialBodies.js:111-136 | there are at least three lines: the heading first, the description second, the info paragraph last |
| CelestialBodies.FieldLinesPresence | js/celestialBodies.js:114-134 | a diameter, distance, orbital-period or temperature line appears if and only if that field is truthy, and it shows that field's value |
| CelestialBodies.RotationLine | js/celestialBodies.js:126-130 | a rotation line appears iff `rotationPeriod` is truthy; it shows the period's absolute value and is marked retrograde iff the period is negative |
| CelestialBodies.OnlyVenusAndUranusRetrograde | js/celestialBodies.js:4-90 | venus and uranus are the only records with a negative `rotationPeriod` |
| CelestialBodies.BlackholeShowsThreeLines | js/celestialBodies.js:85-89 | the blackhole record yields exactly its heading, description and info lines |
| CelestialBodies.SunHasNoOrbitLines | js/celestialBodies.js:5-12 | the sun's panel has no distance line and no orbital-period line |
| CelestialBodies.UnknownNameShowsPlaceholder | js/celestialBodies.js:103-109 | an unknown name writes the placeholder text and nothing else |
| Interactions.FromHex | js/interactions.js:188-196 | a 24-bit hex colour gives red, green and blue channels in [0, 1] |
| Interactions.HoverLook | js/interactions.js:185-197 | (definition, no contract) cache the emissive and set 0x555555, or else cache the colour and lerp it 20% toward white, or else nothing |
| Interactions.LeaveLook | js/interactions.js:206-218 | (definition, no contract) restore from the emissive cache if present, or else from the colour cache, deleting the entry used |
| Interactions.DisplayName | js/interactions.js:253-267 | a known key shows its Chinese name; any other name is shown unchanged |
| Interactions.SceneObject.constructor | js/interactions.js:100 | an object records whether it is a mesh, its `userData.name` and its material look |
| Interactions.IntersectObjects | js/interactions.js:106 | the raycast result holds only crossed objects that are among the tested objects |
| Interactions.CollectInteractables | js/interactions.js:98-103 | the traversal collects exactly the named meshes of the scene, in scene order |
| Interactions.Ndc | js/interactions.js:48-49 | a pointer inside the window maps into [-1, 1] on both axes; the left edge maps to x = -1 and the top edge to y = +1 |
| Interactions.InteractionManager.constructor | js/interactions.js:5-30 | a new manager has nothing hovered or selected, is not hovering, listens to events, and reads the `celestialData` table it imports |
| Interactions.InteractionManager.OnObjectHover | js/interactions.js:185-203 | the object is highlighted (emissive cached and set to 0x555555, or else colour cached and lightened) unless it is the selection; the panel shows its tooltip |
| Interactions.InteractionManager.HideTooltip | js/interactions.js:274-279 | the panel is reset only when nothing is selected, and kept otherwise |
| Interactions.InteractionManager.OnObjectLeave | js/interactions.js:206-218 | the cached emissive, or else the cached colour, is restored and its cache entry deleted; the panel is treated as by `hideTooltip` |
| Interactions.InteractionManager.OnObjectSelect | js/interactions.js:221-235 | the emissive is cached (overwriting the slot) and set to 0x777777; the panel shows the object's record |
| Interactions.InteractionManager.OnObjectUnselect | js/interactions.js:238-247 | only the emissive cache is restored; the panel is reset |
| Interactions.InteractionManager.CheckIntersection | js/interactions.js:93-142 | a new first hit leaves the old hover, hovers the new one, sets `isHovering` and the pointer cursor; an empty hit list while hovering fires one leave, clears the hover and resets the cursor; the same hit, or no hit while not hovering, changes nothing; the selection is never touched |
| Interactions.InteractionManager.HandleClick | js/interactions.js:145-182 | a new first hit unselects the old selection and selects the hit; re-clicking the selection does nothing; an empty click clears the selection; hover state is never touched |
| Interactions.InteractionManager.OnMouseMove | js/interactions.js:46-52 | the pointer is converted to device coordinates and the hover follows the first hit, or clears when hovering over nothing |
| Interactions.InteractionManager.OnMouseClick | js/interactions.js:55-62 | the pointer is converted to device coordinates and the selection becomes the first hit, or null |
| Interactions.InteractionManager.OnTouchStart | js/interactions.js:65-80 | a touch acts as a click at the first touch point; an empty touch list changes nothing |
| Interactions.InteractionManager.Destroy | js/interactions.js:352-356 | the listeners are removed and both `hoveredObject` and `selectedObject` become null |
| Interactions.InteractableInIsFilter | js/interactions.js:98-103 | an object is collected if and only if it is in the scene and is a mesh with a name |
| Interactions.InteractableInIsInteractable | js/interactions.js:100 | every collected object is a named mesh of the scene |
| Interactions.TargetIsFirstInteractable | js/interactions.js:106-110 | the target is a named mesh of the scene and the first such object in the hit list; with no target, no hit is a named mesh |
| Interactions.HoverHighlights | js/interactions.js:188-196 | a hover sets the emissive to 0x555555 and caches the old one; without an emissive it lightens the colour 20% toward white and caches the old colour |
| Interactions.HoverThenLeaveRestores | js/interactions.js:188-214 | hover then leave on an uncached object restores its exact look and removes the cache entry |
| Interactions.SelectThenUnselectRestores | js/interactions.js:222-245 | select then unselect on an uncached object restores its exact look |
| Interactions.LerpTowardWhite | js/interactions.js:195 | lightening moves every channel up toward 1 and never past it |
| Interactions.SharedCacheLeavesHighlight | js/interactions.js:188-245 | as written, hover, click, move off and click empty leaves the object neither hovered nor selected but still lit at 0x555555 |
| Interactions.StepFixedShows | js/interactions.js:185-247 | with a select that keeps a hover's cache and a leave that spares the selection, each event keeps the object's look consistent with its hovered/selected state |
| Interactions.FixedRunRestores | js/interactions.js:185-247 | in the corrected manager, any event sequence that ends neither hovered nor selected restores the original look |
| Interactions.Step | js/interactions.js:108-226 | (definition, no contract) one object's reaction to entering, leaving, a click on it and a click elsewhere, as the manager is written |
| Interactions.Run | js/interactions.js:108-226 | (definition, no contract) the object after a sequence of those events, one `Step` each |
| Interactions.StepFixed | js/interactions.js:185-226 | (definition, no contract) the corrected reaction: select keeps an emissive a hover cached, leave spares the emissive of a selected object |
| Interactions.RunFixed | js/interactions.js:185-226 | (definition, no contract) the corrected object after a sequence of events |
| Interactions.LeaveDropsSelectHighlight | js/interactions.js:185-218 | as written, click, enter and leave leave the object selected but showing its original emissive instead of 0x777777 |
| Interactions.LeaveSparesSelectHighlight | js/interactions.js:185-218 | with the corrected leave, the same events keep the selected object lit at 0x777777 |
| Tweens.QuotientByPositive | js/utils.js:44-45 | the elapsed fraction exceeds 1 (or equals 1) exactly when the elapsed time exceeds (or equals) the duration |
| Tweens.Progress | js/utils.js:44-45 | progress is clamped to at most 1, and is NaN exactly for a zero duration at the start instant |
| Tweens.ProgressOfPositiveDuration | js/utils.js:44-45 | with a positive duration, progress lies in [0, 1] and reaches 1 exactly at start + duration |
| Tweens.Applied | js/utils.js:49-53 | every property of `valuesEnd` is written with start + (end - start) × value, and every other property keeps its value |
| Tweens.Captured | js/utils.js:29-34 | `start` records the current value of each `valuesEnd` property the object defines and keeps the other start values |
| Tweens.Ease | js/utils.js:115-150 | (definition, no contract) the seven curves of `Tween.Easing`: linear, quadratic in/out/in-out, cubic in/out/in-out |
| Tweens.Pending | js/utils.js:89-101 | (definition, no contract) the active list after the static update: the tweens whose update returns true, in order |
| Tweens.Target.constructor | js/utils.js:5-6 | the tween's object holds the given properties |
| Tweens.CallbackLog.constructor | js/utils.js:13-14 | no callback has been called yet |
| Tweens.Tween.constructor | js/utils.js:5-15 | a new tween has empty start and end values, duration 1000, delay 0, no start time, linear easing and no callbacks |
| Tweens.Tween.To | js/utils.js:17-23 | `to` replaces `valuesEnd`, changes the duration only when one is given, and leaves the rest |
| Tweens.Tween.Delay | js/utils.js:79-82 | `delay` sets the delay and leaves the rest |
| Tweens.Tween.SetEasing | js/utils.js:84-87 | `easing` sets the easing function and leaves the rest |
| Tweens.Tween.SetCallbacks | js/utils.js:69-77 | `onUpdate` / `onComplete` set the callbacks and leave the rest |
| Tweens.Tween.Update | js/utils.js:39-67 | before the start time, nothing changes and the result is true; from then on the object gets the eased interpolation, `onUpdate` and, at progress 1, `onComplete` are called, and the result is false exactly when progress reached 1 |
| Tweens.Tween.Interpolated | js/utils.js:49-53 | the property loop writes exactly the interpolated value of each `valuesEnd` property |
| Tweens.Tween.UpdateCalls | js/utils.js:55-62 | (definition, no contract) the callback calls one `update` makes: none before the start, `onUpdate` when set, and `onComplete` when set and progress reached 1 |
| Tweens.Tween.Start | js/utils.js:25-37 | as written: the tween is added, which updates it at once when the list was empty, before the start time is set to now + delay and the start values are captured; that immediate update's callback calls are logged, and the callback flags are kept |
| Tweens.Tween.StartFixed | js/utils.js:25-37 | with the start time and start values set before the add, the immediate update starts from the recorded values and logs its callback calls; the callback flags are kept |
| Tweens.Registry.constructor | js/utils.js:112 | the active list starts empty |
| Tweens.Registry.UpdateAll | js/utils.js:89-101 | afterwards the active list holds exactly the tweens whose update returned true, in their original order; a tween that alone animates its object has that object updated once, and a tween that alone uses its callback log has that update's calls appended to it once |
| Tweens.Registry.Visit | js/utils.js:94-97 | one turn of the backward loop updates tween i and splices it out iff its update returned false, keeping the loop invariant on the objects and the callback logs |
| Tweens.Registry.Add | js/utils.js:103-108 | `add` appends the tween; when the list was empty it updates at once (object and callback calls) and drops the tween if it finished |
| Tweens.EaseEnds | js/utils.js:115-150 | every easing curve maps 0 to 0 and 1 to 1 |
| Tweens.EaseInUnitRange | js/utils.js:115-150 | every easing curve maps [0, 1] into [0, 1] |
| Tweens.FinishedExactlyAtEnd | js/utils.js:44-64 | with a positive duration, `update` reports completion exactly from start + duration on |
| Tweens.FinishingUpdateReachesEnd | js/utils.js:44-53 | the completing update sets each recorded property to its end value |
| Tweens.CapturedOnlyDefined | js/utils.js:29-34 | a start value is recorded only for a property that is both in `valuesEnd` and defined on the object, and earlier start values stay recorded |
| Tweens.PendingIsFilter | js/utils.js:93-98 | a tween survives the static update if and only if it was active and its update returned true |
| Tweens.PendingConcat | js/utils.js:93-98 | pruning a list in two parts is pruning it whole, so the backward splice keeps the relative order |
| Tweens.KeptIsPending | js/utils.js:93-98 | dropping exactly the tweens whose update finished yields the pending list |
| Tweens.StartBeforeStartTimeCorrupts | js/utils.js:25-27 | on an empty list, `start` runs `update` with a null start time: the tween counts as finished at once and every target property becomes NaN |
| Tweens.StartFixedThenFinish | js/utils.js:25-53 | with the start time set first, the immediate update leaves the object unchanged and a later update at start + duration sets every property to its end value |
| Tweens.ZeroStepKeeps | js/utils.js:44-53 | an update at progress 0 from freshly captured start values writes back each property's current value |
| Noise.Grad3 | js/utils.js:161-165 | there are twelve gradient directions |
| Noise.Simplex3 | js/utils.js:182-273 | (definition, no contract) `simplex3` over the permutation and gradient tables, in real arithmetic |
| Noise.Seed | js/utils.js:167-179 | `perm[i]` is floor(256 × draw i mod 256) for all 512 entries, and the tables are consistent |
| Noise.BuildTables | js/utils.js:173-179 | `perm[i] = p[i & 255]` and `gradP[i] = grad3[perm[i] % 12]` for all 512 entries |
| Noise.Corners | js/utils.js:200-216 | the second corner has exactly one component 1, the third exactly two, and the second is componentwise at most the third |
| Noise.CornersFollowOrder | js/utils.js:200-216 | the components set to 1 follow the order of x0, y0 and z0: the largest first, the smallest last |
| Noise.GradientIndices | js/utils.js:230-236 | all four `gradP` indices lie in [0, 512) |
| Noise.InnerIndicesInRange | js/utils.js:233-236 | every inner `perm` index lies in [0, 512) |
| Noise.TablesDrawFromGrad3 | js/utils.js:176-179 | every `gradP` entry is one of the twelve `grad3` vectors and the tables repeat with period 256 |
| MainImproved.OrbitWhenMoving | js/main-improved.js:450-457 | a planet with a truthy `orbitalSpeed` has (x, z) rotated by `orbitalSpeed` × scaled delta |
| MainImproved.StepAll | js/main-improved.js:437-474 | (definition, no contract) one frame of every entry of `planets` at scaled time: the sun spins, every other body orbits and spins its children |
| MainImproved.Frame | js/main-improved.js:434-474 | (definition, no contract) `updateScene`: nothing while paused, otherwise `StepAll` at delta × timeScale |
| MainImproved.SolarSystem.constructor | js/main-improved.js:3-16 | the scene starts unpaused at time scale 1 with a fresh clock, and reads the `celestialData` table it imports |
| MainImproved.SolarSystem.UpdateScene | js/main-improved.js:434-474 | paused, nothing moves; otherwise every body advances by delta × `timeScale`; the pause flag, scale and clock are unchanged |
| MainImproved.SolarSystem.AdvancePlanet | js/main-improved.js:447-471 | one planet's loop body computes exactly the planet step |
| MainImproved.SolarSystem.Animate | js/main-improved.js:477-489 | a frame reads the clock (delta ×10, or 0.1 without a clock) and runs `updateScene` with that delta |
| MainImproved.SolarSystem.SetTimeScale | js/main-improved.js:533-534 | the slider sets `timeScale` and nothing else |
| MainImproved.SolarSystem.TogglePause | js/main-improved.js:543-549 | the button flips `isPaused`; on resume it reads the clock and discards the reading |
| MainImproved.SolarSystem.OnClick | js/main-improved.js:586-607 | the panel shows the body of the first hit with a named ancestor, or stays as it was |
| MainImproved.StepPlanetKeepsOrbit | js/main-improved.js:450-457 | a frame keeps each planet's x² + z² and its height |
| MainImproved.StationaryWithoutSpeed | js/main-improved.js:450 | a planet whose `orbitalSpeed` is absent or 0 keeps its position, and the group itself does not spin |
| MainImproved.SunNeverOrbits | js/main-improved.js:440-446 | the sun keeps its position and spins by 0.003 × scaled delta |
| MainImproved.ChildrenSpinRates | js/main-improved.js:460-471 | mesh children spin by 0.01 × scaled delta, group children by 0.02 ×, and other children do not change |
| MainImproved.StepPlanetChunks | js/main-improved.js:445-473 | a planet step over d1 followed by one over d2 is one step over d1 + d2 |
| MainImproved.OrbitChunks | js/main-improved.js:451-456 | orbiting for d1 and then for d2 gives the same (x, z) as orbiting for d1 + d2 |
| MainImproved.StepAllChunks | js/main-improved.js:437-473 | updating every body for d1 and then for d2 equals updating for d1 + d2 |
| MainImproved.FramesChunk | js/main-improved.js:434-437 | two unpaused frames at one time scale equal a single frame covering both deltas |
| MainImproved.ResumeDiscardsPausedTime | js/main-improved.js:547-549 | after a resume, the next frame's delta measures only the time since the resume |
| MainImproved.NamedAncestor | js/main-improved.js:594-597 | the walk ends, when it finds one, on a named node of the scene |
| MainImproved.FirstPick | js/main-improved.js:590-603 | the chosen body is a named node of the scene |
| MainImproved.ResolvePick | js/main-improved.js:588-603 | the nested scan loop picks exactly what `FirstPick` specifies |
| MainImproved.NamedAncestorIsNearest | js/main-improved.js:594-600 | the walk finds the nearest named ancestor-or-self; when it finds none, no ancestor-or-self is named |
| MainImproved.FirstPickIsFirst | js/main-improved.js:590-603 | the pick comes from the first hit that has a named ancestor, and earlier hits have none; there is no pick iff no hit has one |
| MainImproved.ImprovedSceneWellFormed | js/main-improved.js:171-177 | the concrete scene (sun, planet groups with atmosphere, ring and moon system) is a well-formed forest |
| MainImproved.EarthPicks | js/main-improved.js:224-225 | the earth mesh and its atmosphere resolve to the earth group; the moon resolves to itself (`earth-moon`) |
| MainImproved.OtherPicks | js/main-improved.js:594-602 | the ring resolves to saturn's group; the unnamed sun mesh and an orbit line resolve to nothing |
| MainImproved.SunIsSkipped | js/main-improved.js:590-603 | a click crossing the sun, an orbit line and then saturn selects saturn |
| Main.OrbitWhenMoving | js/main.js:487-494 | a planet with a truthy `orbitalSpeed` has (x, z) rotated by `orbitalSpeed` × delta |
| Main.StepPlanets | js/main.js:459-508 | (definition, no contract) one frame of `planets`: the sun's glow and spin step, every other entry's planet step |
| Main.StepAsteroid | js/main.js:512-518 | (definition, no contract) an asteroid with a truthy speed advances its angle, is placed on its circle and tumbles; others stay |
| Main.PlanetInfoHtml | js/main.js:605-648 | (definition, no contract) the panel HTML for a named body: its display name, then the sun text, the blackhole text, or distance and both speeds |
| Main.StepAsteroids | js/main.js:511-525 | the asteroid step yields one asteroid per asteroid |
| Main.AddMeshes | js/main.js:281 | the new asteroid meshes join the scene under fresh ids, carrying no point-cloud data, and other entries are unchanged |
| Main.ClickTarget | js/main.js:590-596 | the clicked object is a top-level entry of `planets` that the ray crossed |
| Main.View.constructor | js/main.js:26-45 | the camera holds the given position and the controls, when created, the given target |
| Main.Universe.constructor | js/main.js:2-5 | the globals start with no planets, no asteroids and an empty scene, and hold the given camera and controls |
| Main.Universe.UpdateScene | js/main.js:459-543 | a frame steps the sun glow and spin, the planets, the asteroids and the point clouds, each by its own specification |
| Main.Universe.SunThenPlanets | js/main.js:459-508 | the sun block followed by the planet loop over every other name is the frame step of `planets` |
| Main.Universe.PulseGlow | js/main.js:461-476 | the glow block computes exactly the glow step |
| Main.Universe.UpdatePlanets | js/main.js:482-508 | every entry except the sun takes one planet step; the sun and the other globals are untouched |
| Main.Universe.AdvancePlanet | js/main.js:484-506 | one planet's loop body computes exactly the planet step |
| Main.Universe.UpdateAsteroids | js/main.js:511-525 | every asteroid takes one asteroid step, in order |
| Main.Universe.AdvanceAsteroid | js/main.js:512-523 | one asteroid's loop body computes exactly the asteroid step, which AsteroidStaysOnCircle characterises |
| Main.Universe.UpdateClouds | js/main.js:528-542 | every point cloud with a rotation speed spins, and pulses when it has a pulse speed |
| Main.Universe.Animate | js/main.js:546-558 | a frame reads the clock (delta ×10, or 0.1 without a clock) and runs `updateScene` with that delta; no identity is handed out |
| Main.Universe.CreateAsteroidBelt | js/main.js:221-284 | the earlier asteroids leave the scene; afterwards the list holds exactly one new asteroid per drawn placement, each in the radius range with a truthy orbit speed, and planets are untouched |
| Main.Universe.CreateBlackHole | js/main.js:651-707 | any earlier blackhole leaves the scene; afterwards `planets` holds exactly one `blackhole`, the new one |
| Main.Universe.PresetBlackhole | js/main.js:776-799 | the preset button creates a blackhole only when none exists, adding its mesh to the scene under the next identity; then the camera sits 5 above and 30 in front of the blackhole, and the controls, when present, aim at it |
| Main.Universe.ShowPlanetInfo | js/main.js:605-648 | an object without `userData.name` leaves the panel unchanged; otherwise the panel shows the name-specific HTML |
| Main.Universe.OnClick | js/main.js:581-598 | the first crossed top-level entry is shown; a click crossing none changes nothing |
| Main.SunOnlySpins | js/main.js:461-483 | the sun never orbits; with a glow it spins by 0.003 × delta and its pulse factor advances by pulse speed × delta |
| Main.PlanetStep | js/main.js:486-506 | a planet keeps x² + z² and its height, stays put without an orbital speed, spins by rotation speed × delta when that is truthy, and its group children spin by 0.02 × delta |
| Main.StepPlanetsByName | js/main.js:482-508 | the frame keeps the set of names, and each entry other than the sun takes one planet step |
| Main.AsteroidStaysOnCircle | js/main.js:512-518 | an asteroid stays on its orbit circle at its height; its angle advances by orbit speed × delta when that is truthy |
| Main.PlacedOnCircle | js/main.js:256-279 | a new asteroid starts on its orbit circle at its drawn height |
| Main.DrawnMoves | js/main.js:256-279 | a drawn asteroid starts within the radius range, at a height in [-1, 1], with rotation speed in [0.01, 0.06] and a positive orbit speed 0.02 / √radius, so it moves every frame |
| Main.AsteroidAngleAccumulates | js/main.js:514 | over many frames an asteroid's angle is its start plus orbit speed × total time |
| Main.GlowBounds | js/main.js:465-475 | the outer glow scale stays in [0.4, 1] and the inner is 0.95 × it; the opacities stay in [0.12, 0.3] and [0.2, 0.5] |
| Main.CloudScaleBounds | js/main.js:529-540 | a pulsing cloud's scale stays in [0.6, 1] and it spins by rotation speed × delta |
| Main.ClickTargetIsFirst | js/main.js:590-596 | the clicked object is the first crossed object that is a top-level entry; with none, no crossed object is one |
| Main.PlanetInfoByName | js/main.js:610-647 | the sun and the blackhole get their fixed texts; an unlisted name is shown raw with its distance, orbital speed and rotation speed |
| Minimal.TiltedOrbitKeepsDistance | js/minimal.js:574-580 | the tilted-orbit position is always at distance d from the group origin |
| Minimal.TiltedOrbit | js/minimal.js:574-580 | (definition, no contract) the point at `angle` on the circle of radius d in the xz plane turned by `tilt` about x |
| Minimal.TiltedOrbitInPlane | js/minimal.js:578-580 | the position lies in the orbit plane tilted by `tilt` about the x axis |
| Minimal.UntiltedOrbitIsFlat | js/minimal.js:578-580 | with no tilt the orbit lies in the y = 0 plane |
| Minimal.OrbitStartsOnXAxis | js/minimal.js:574-580 | at angle 0 a planet sits at (d, 0, 0) |
| Minimal.SunTurnsPerFrame | js/minimal.js:537-541 | the sun's `currentRotation` starts at 0 and after n frames is 0.005 × n, written to `rotation.y` |
| Minimal.GlowBounds | js/minimal.js:544-562 | the glow phase advances by 0.01; the pulse stays in [0.8, 1]; the middle and inner layers are 0.95 × and 0.9 × the outer; the opacities stay within their bounds |
| Minimal.PlanetRunPosition | js/minimal.js:565-580 | after any frames a planet's position depends only on the last absolute time |
| Minimal.PlanetRunTurns | js/minimal.js:583-589 | a planet's `currentRotation` starts at 0 and after n frames is rotation speed × 0.1 × n, written to `rotation.y` |
| Minimal.PlanetRunSpinsGroups | js/minimal.js:592-597 | after n frames every child flagged `isOrbit` has spun by n × its own rotation speed, and every other child is unchanged |
| Minimal.ScanSkipsNonAsteroids | js/minimal.js:603-605 | the asteroid branch leaves objects without `orbitRadius` untouched, so the scan of `scene` changes nothing there |
| Minimal.StepThing | js/minimal.js:603-623 | (definition, no contract) one frame of a scanned object: an asteroid tumbles, advances its angle, draws its height once and sits on its circle; others stay |
| Minimal.StepThings | js/minimal.js:603-624 | (definition, no contract) one frame of every object of the scanned child list |
| Minimal.AsteroidStepOnCircle | js/minimal.js:605-623 | an asteroid's angle advances by its speed; it stays on its orbit circle at a height fixed on its first frame |
| Minimal.HtmlAppend | js/minimal.js:792-807 | appending a line appends its HTML |
| Minimal.InfoLinesShape | js/minimal.js:792-807 | the panel has three lines plus one per present field: the heading first, the description second, the info paragraph last |
| Minimal.InfoLinesOrdered | js/minimal.js:792-807 | the lines come in the order heading, description, distance, diameter, rotation, info |
| Minimal.FieldLinesPresence | js/minimal.js:795-805 | the distance, diameter and rotation lines each appear iff that field is present, and show it |
| Minimal.TableLineKinds | js/minimal.js:710-781 | every entry has a diameter; only the sun has a rotation line and only the sun lacks a distance line |
| Minimal.FocusPoint | js/minimal.js:820-830 | the sun is focused at the origin; any other name except `earthMoon` has a target iff it is in `planets` |
| Minimal.MoonFocusesOnEarth | js/minimal.js:823-825 | `earthMoon` focuses on earth |
| Minimal.EveryEntryHasFocus | js/minimal.js:817-830 | when all eight planets exist, every entry of the info table has a focus target |
| Minimal.MoonNameIsNearest | js/minimal.js:688-696 | the moon fallback names the planet above the nearest ancestor whose parent is a planet; it gives '' iff there is none |
| Minimal.MoonName | js/minimal.js:688-696 | (definition, no contract) the upward walk: the first node whose parent carries a planet name gives that name + 'Moon'; none gives '' |
| Minimal.ClickName | js/minimal.js:681-697 | (definition, no contract) the click cascade: the sun, a planet's child, a planet, or the moon walk |
| Minimal.ClickNameCases | js/minimal.js:681-697 | a click resolves to 'sun', a planet's name, a planet's name + 'Moon', or '' when no ancestor lies under a planet |
| Minimal.MinimalSceneWellFormed | js/minimal.js:370-444 | the concrete scene (group, sun with glow, earth with atmosphere, moon orbit group and its orbit line, saturn with rings, a planet's orbit line, an asteroid) is a well-formed forest |
| Minimal.MinimalPicks | js/minimal.js:681-697 | the moon and the moon's orbit line resolve to `earthMoon`, earth and its atmosphere to `earth`, the rings to `saturn`, the sun to `sun`; the sun's glow, an asteroid and a planet's orbit line to '' |
| Minimal.GroupPicks | js/minimal.js:681-697 | a click on the scene root or the system group resolves to '', on the moon orbit group to `earth`, on saturn to `saturn` |
| Minimal.MinimalPicksHaveInfo | js/minimal.js:700-785 | every click in the concrete scene resolves to '' or to a name with an info entry |
| Minimal.SolarSystem.constructor | js/minimal.js:48 | the controls start aimed at (0, 20, 0) |
| Minimal.SolarSystem.Animate | js/minimal.js:528-624 | as written: the sun and planets step, and the asteroid step runs over the direct children of `scene`, leaving the asteroids in the group untouched |
| Minimal.SolarSystem.AnimateFixed | js/minimal.js:528-624 | with the asteroid step run over the group's children, the asteroids move |
| Minimal.SolarSystem.StepBodies | js/minimal.js:537-600 | the sun and every planet take one frame step at the given time |
| Minimal.SolarSystem.AdvancePlanet | js/minimal.js:569-599 | one planet's loop body computes exactly the planet step |
| Minimal.SolarSystem.StepAll | js/minimal.js:603-624 | the scan loop computes exactly the asteroid step of each object |
| Minimal.SolarSystem.ResolveName | js/minimal.js:678-697 | the cascade with its upward loop computes exactly `ClickName` |
| Minimal.SolarSystem.OnClick | js/minimal.js:676-702 | only the first hit counts; a non-empty name with an info entry is shown and focused, and anything else changes nothing |
| Minimal.SolarSystem.ShowPlanetInfo | js/minimal.js:708-814 | an unknown name changes nothing; a known one writes its lines and focuses the camera |
| Minimal.SolarSystem.FocusCameraOnPlanet | js/minimal.js:817-841 | with controls and a target, the controls aim at the target's position; otherwise nothing changes |
| Minimal.WriteInfo | js/minimal.js:792-810 | the HTML built by successive `+=` equals the rendering of the entry's line list |

## Left out

- Rendering, the DOM beyond the text of the `planet-info` panel and the cursor, `requestAnimationFrame`, `setTimeout`, resize handling, `OrbitControls.update` and the construction of the scenes (geometries, materials, lights, stars, nebulae, bloom) are not modelled. Scene construction enters only as the starting state and as the concrete forests of the pick lemmas.
- Raycasting is not modelled: each handler receives the ordered hit list (nearest first) as a parameter.
- `Math.random`, `Date.now` and `THREE.Clock` readings are parameters (`draws`, `placements`, `random`, `now`).
- Floating point is not modelled: numbers are reals, and `toLocaleString` / `toFixed` are opaque number-to-text functions.
- The `Tween` in `utils.js` reads `Date.now()` once in `add`'s update and again for `startTime`. The model uses a single `now` for both.
- `InteractionManager.focusCameraOnObject` is not modelled. It animates the camera with `new TWEEN.Tween`, and `window.TWEEN` is the `Tween` class itself, which has no `Tween` member.
- `showObjectInfo`'s fallback is not modelled: it is used only when `updateInfoPanel` is not loaded, and the model always has it. The same goes for `showCelestialInfo`'s fallback in `js/main-improved.js`.
- Interactions.InteractionManager.OnObjectHover: requires a named mesh, because the manager only calls it with hits from its named-mesh list; the unnamed branch of `showTooltip` is not modelled. The same holds for OnObjectSelect.
- Interactions.Ndc: requires a window of positive width and height; a zero-sized window would divide by zero in the source.
- Tweens.Tween.Update / Tweens.Registry.UpdateAll: `onUpdate` and `onComplete` are arbitrary functions in the source, called inside the backward splice loop; the model only records that they were called, in order. Their effects are not modelled, so the contracts hold only for callbacks that neither write a tweened object nor add or start a tween.
- Tweens.Registry.UpdateAll: states each tween's effect on its object only when no other active tween animates the same object, and on its callback log only when no other active tween shares that log. Where tweens share an object or a log, the model makes no claim about its final value.
- Main.Universe.PresetBlackhole: `controls.update()` is not modelled; it recomputes the OrbitControls' internal state, which no modelled state depends on.
- Custom easing functions passed to `easing()` are not modelled: the model covers the seven curves of `Tween.Easing`.
- The `for…in` loops over `valuesEnd` and the lookups in the name tables ignore inherited prototype keys. A name such as `"constructor"` is treated as absent.
- Noise.Simplex3: only its table indexing is specified, through its precondition and `GradientIndices`; the numeric value of the noise is not.
- `js/minimal.js:550-561` guards each glow layer with `if (glow.outer)` and so on. The model always has all three layers, as `createSunGlow` builds them.
- Main.StepAsteroids: its own contract states only the length; the per-asteroid effect is stated by AsteroidStaysOnCircle and AsteroidAngleAccumulates.
- Point clouds, asteroid meshes and other top-level objects of `js/main.js` are one map from object id to optional cloud data. The order of `scene.children` is not modelled because no update depends on it.
- The `if (!infoPanel) return` guards are not modelled: the panel element always exists in the model.
- The star-count and light-intensity controls of `js/main.js` (lines 801-835) are not modelled: they rebuild the decorative stars and set light intensities, and no modelled state depends on either.
- The asteroid height drawn on the first frame in `js/minimal.js` comes from `draws`, indexed by the asteroid's position in the scanned list.

## Findings

| source | as written | input that shows it | evidently intended | confidence | as-written member | corrected member |
|---|---|---|---|---|---|---|
| js/interactions.js:188-226 | hover and select share one `_originalEmissive` slot, so a select on a hovered object caches the hover colour 0x555555 | hover X, click X, move off X, click empty space | the object returns to its original emissive once neither hovered nor selected | not executed | Interactions.SharedCacheLeavesHighlight | Interactions.FixedRunRestores |
| js/interactions.js:185-218 | `onObjectLeave` restores the emissive cache without checking whether the object is selected, and the hover it undoes was skipped for the selected object | click X, move onto X, move off X | X stays lit at 0x777777 while it is selected | not executed | Interactions.LeaveDropsSelectHighlight | Interactions.LeaveSparesSelectHighlight |
| js/utils.js:25-27 | `start` calls `Tween.add` before setting `startTime`, and `add` runs `update` at once on an empty list | the first tween started with an empty active list, at any time after the epoch | the first update sees the real start time and start values | not executed | Tweens.StartBeforeStartTimeCorrupts | Tweens.StartFixedThenFinish |
| js/minimal.js:603-605 | the asteroid step scans `scene.children`, but `createAsteroidBelt` adds the asteroids to `solarSystemGroup` (line 341) | any frame after the belt is created | the asteroids orbit | not executed | Minimal.ScanSkipsNonAsteroids | Minimal.AsteroidStepOnCircle |
