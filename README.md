# Scroll-triggered background selector

A model of the scroll effect of a small personal web site. As the reader scrolls, the page
body's background image, blend mode and colour change according to which "target" section
currently holds the trigger line, a horizontal line a fixed offset below the top of the
viewport. The site has three versions of the effect, and all three are modelled:

- the Vue composable `useScrollBackground` (offset 300, padding 100, one target). It scans
  with a loop that stops at the first match. It writes all three style fields on both branches.
  It runs at most once per animation frame behind a `ticking` gate.
- the legacy desktop script (offset 300, padding 100, two targets). It scans every target and
  keeps the first match through a guard. Its reset leaves the blend mode alone.
- the legacy mobile script (offset 400, padding 400, the same two targets). It returns at once
  on screens wider than 900 pixels.

The page is abstracted to a map `Dom` from element id to the element's bounding rectangle
`(top, height)`, with `top` relative to the viewport as the browser reports it; an id that is
not a key is an element the page does not have. `Body` is the page body's inline style: a class
with three string fields written in place. The throttle is a pure state machine `Throttle`
(gate closed or open, number of queued frame callbacks) together with the `Effect` class, whose
fields hold that state and whose methods are tied to the pure transitions. A frame is an
explicit `FireFrame` call, not real scheduling.

Module layout: `Background` (shared geometry, selection, style and `Body`), `ScrollBackground`
(the composable), `Legacy` (what the two scripts share), `LegacyDesktop`, `LegacyMobile`.

Derived facts worth knowing:

- The activation test `top + scrollY <= scrollY + offset <= top + scrollY + height + padding`
  does not depend on `scrollY`. Activation depends only on the viewport-relative top and the height.
- Take an element whose top is at page position 500 and whose height is 200. The composable
  shows its background exactly for `scrollY` in [200, 500]
  (`ScrollBackground.ComposableWindow` with `docTop = 500`).
- The legacy scripts never clear the blend mode. After leaving every zone the body keeps
  `multiply` over black (`Legacy.LegacyKeepsMultiply`). The composable resets it to `''`.

## Model

| member | source | states |
|---|---|---|
| `Background.Activates` | src/composables/useScrollBackground.ts:46-50 | A target is active iff `top + scrollY <= scrollY + offset <= top + scrollY + height + padding`, both ends inclusive; this holds exactly when `top <= offset <= top + height + padding`, so `scrollY` cancels out |
| `Background.FirstMatch` | src/composables/useScrollBackground.ts:42-54 | The result is the index of a matching target (element present and zone active) with no matching target before it; it is None exactly when no target in the list matches |
| `Background.FirstMatchUnique` | src/composables/useScrollBackground.ts:42-54 | Any index that matches and has no match before it is the index FirstMatch returns: the first-match rule determines the selection |
| `Background.MissingNeverSelected` | src/composables/useScrollBackground.ts:43-44 | A target whose element is absent is never the selected one |
| `Background.MissingShiftsMatch` | src/composables/useScrollBackground.ts:43-44 | Inserting a target whose element is absent moves the first-match index past it and changes it in no other way |
| `Background.MissingIsSkipped` | js/backgrounds.js:15-16 | Inserting a target whose element is absent anywhere in the list leaves the selected target unchanged: missing elements are skipped, not an error |
| `Background.FirstMatchAppendFound` | src/composables/useScrollBackground.ts:50-53 | Once a prefix of the list holds a match, appending targets does not change the selection: no later target counts |
| `Background.FirstMatchAppendNone` | src/composables/useScrollBackground.ts:42-54 | When a prefix of the list has no match, the selection is the first match of the appended part, shifted by the prefix length |
| `Background.FirstMatchIgnoresScroll` | src/composables/useScrollBackground.ts:39-50 | With the viewport-relative rectangles fixed, the selection is the same for any two scroll positions |
| `Background.ActivationWindow` | js/backgrounds.js:8-22 | In page coordinates an element at `docTop` with height `h` is active exactly for `scrollY` in [docTop - offset, docTop + h + padding - offset] |
| `Background.CssUrl` | src/composables/useScrollBackground.ts:57 | The image value is the path wrapped in `url('` and `')`, seven characters longer than the path |
| `Background.CssUrlInjective` | js/backgrounds.js:30 | Two paths that give the same `url('…')` value are the same path |
| `Background.Applied` | src/composables/useScrollBackground.ts:56-59 | On a selection the style is `url('<image>')`, blend mode `multiply` and the target's colour |
| `Background.Body.constructor` | src/composables/useScrollBackground.ts:57-63 | A body style starts with the three given field values |
| `ScrollBackground.ComposableStyle` | src/composables/useScrollBackground.ts:56-64 | A selection gives that target's applied style; no selection gives `('', '', '#000000')`, whatever the previous style was (the previous style is not an input) |
| `ScrollBackground.FindVisibleTarget` | src/composables/useScrollBackground.ts:39-54 | The `for`/`continue`/`break` scan returns exactly the first target in list order whose element exists and whose zone contains the trigger line, or None |
| `ScrollBackground.Scrolled` | src/composables/useScrollBackground.ts:70-75 | From a state where a frame is queued exactly while `ticking` holds, a scroll event leaves `ticking` true with exactly one frame queued; when `ticking` already holds it changes nothing |
| `ScrollBackground.Fired` | src/composables/useScrollBackground.ts:66 | From such a state, running the queued frame leaves `ticking` false with no frame queued; with no frame queued nothing happens |
| `ScrollBackground.RunKeepsThrottle` | src/composables/useScrollBackground.ts:36 | For any sequence of scroll events and frames, the gate keeps its invariant and at most one frame callback is ever queued |
| `ScrollBackground.ScrollBurst` | src/composables/useScrollBackground.ts:70-75 | Any positive number of scroll events leaves exactly one frame queued and runs no update |
| `ScrollBackground.IdleFrames` | src/composables/useScrollBackground.ts:70-75 | Frames with nothing queued run no update and leave the gate open |
| `ScrollBackground.OneUpdatePerBurst` | src/composables/useScrollBackground.ts:36-75 | A burst of scroll events followed by any number of frames runs the update exactly once, or not at all when no frame follows, and reopens the gate |
| `ScrollBackground.Effect.constructor` | src/composables/useScrollBackground.ts:36 | A new effect has `ticking` false, no frame queued and no listener registered |
| `ScrollBackground.Effect.Mount` | src/composables/useScrollBackground.ts:77-79 | After mounting, the scroll listener is registered |
| `ScrollBackground.Effect.Unmount` | src/composables/useScrollBackground.ts:81-83 | After unmounting, the scroll listener is removed |
| `ScrollBackground.Effect.HandleScroll` | src/composables/useScrollBackground.ts:70-75 | The gate makes the `Scrolled` transition: a frame is requested only when `ticking` was false; afterwards `ticking` holds with one frame queued |
| `ScrollBackground.Effect.OnScrollEvent` | src/composables/useScrollBackground.ts:77-83 | A scroll event reaches the gate only while the listener is registered; otherwise the gate is unchanged |
| `ScrollBackground.Effect.UpdateBackground` | src/composables/useScrollBackground.ts:38-67 | The body's style becomes the composable style of the first-match selection for the page as it is when the frame runs, and `ticking` is false on both branches |
| `ScrollBackground.Effect.FireFrame` | src/composables/useScrollBackground.ts:66-72 | Running the queued frame makes the `Fired` transition and writes the selected style; with no frame queued the body is unchanged |
| `ScrollBackground.ComposableWindow` | src/composables/useScrollBackground.ts:20-32 | With the one configured target at page position `docTop`, height 200, the style is `url('/wave.gif')`, `multiply`, `#003366` exactly for `scrollY` in [docTop - 300, docTop], and the reset style otherwise |
| `Legacy.ScanTargets` | js/backgrounds.js:11-26 | The `forEach` scan with the `!visibleTarget` guard visits every target yet returns exactly the first match in list order, the same selection as the composable's stopping loop |
| `Legacy.LegacyStyle` | js/backgrounds.js:29-37 | A selection gives that target's applied style; no selection gives image `''` and colour `#000000` with the previous blend mode kept |
| `Legacy.LegacyStyleIdempotent` | js/backgrounds_mobile.js:37-45 | Applying the same selection twice gives the same style as applying it once |
| `Legacy.LegacyKeepsMultiply` | js/backgrounds.js:31-36 | A match followed by a reset leaves `multiply` blending over no image and black |
| `Legacy.ApplyLegacy` | js/backgrounds.js:29-37 | The body's new style is the legacy style of the selection and its old style |
| `LegacyDesktop.HandleScroll` | js/backgrounds.js:1-38 | The body style becomes the legacy style for the first match with offset 300 and padding 100; `innerHeight` is a parameter that does not appear in the result |
| `LegacyDesktop.CreedBeforeLog` | js/backgrounds.js:2-5 | When both elements exist and the first-listed zone is active, the first-listed target is selected, whatever the second one does |
| `LegacyDesktop.MissingCreedFallsThrough` | js/backgrounds.js:15-23 | With the first-listed element missing and the second zone active, the second target is selected |
| `LegacyDesktop.DesktopAgreesWithComposable` | js/backgrounds.js:29-37 | On a selection the legacy and composable styles are equal; on no selection they differ only in the blend mode, which the legacy rule keeps |
| `LegacyMobile.HandleScroll` | js/backgrounds_mobile.js:1-46 | On a screen wider than 900 nothing changes; at 900 or below (900 included) the body style becomes the legacy style for the first match with offset 400 and padding 400 |
| `LegacyMobile.MobileWindow` | js/backgrounds_mobile.js:16-30 | An element at page position `docTop` with height `h` is active for the mobile script exactly for `scrollY` in [docTop - 400, docTop + h] |

## Left out

- Browser event dispatch and `requestAnimationFrame` timing: a frame is an explicit `FireFrame` call, and the page's geometry and scroll position at that moment are its parameters.
- DOM access (`getElementById`, `getBoundingClientRect`, `document.body.style`): replaced by the `Dom` map and the `Body` class.
- Floating-point pixel coordinates: coordinates are unbounded integers, since only `+` and `<=` are involved.
- The Vue lifecycle is reduced to a `listening` flag, set by `Mount` and cleared by `Unmount`; framework registration itself is not modelled.
- CSS rendering and the meaning of `url('…')` beyond building the string.
- `src/main.ts` (application bootstrap) and `src/__tests__/App.spec.ts` (a rendering test of a component that is not part of this model) contain no selector logic.
- The `windowBottom` the legacy scripts compute from `innerHeight` is computed and discarded; it appears in the handlers only as an unused local.
