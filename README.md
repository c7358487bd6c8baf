# Live2D chat stage: rail visibility, face guard and listener lifecycle

This project models the controller class `Live2DChatStage` of
`vercel-deploy-live2d/stage.js` and proves properties of the model. The
controller owns the conversation rail laid over the Live2D canvas. It does
four things:

- a three-state visibility machine (hidden, peek, show) driven by
  interaction signals and two idle timeouts;
- the face guard, which computes the rail's top offset from the canvas
  geometry;
- a registry of every DOM listener it attaches, so that `destroy` can
  detach them all;
- a viewport adapter that measures how far an on-screen keyboard pushes
  the visual viewport.

Modules, in dependency order:

| module | file | what it holds |
|---|---|---|
| `Wrappers` | wrappers.dfy | `Option`, `Result` |
| `Helpers` | helpers.dfy | `clamp`, `copyFor` and the `DEFAULT_COPY` table |
| `StageConfig` | config.dfy | the merged configuration, the fallbacks for zero settings, the idle delay, what `_applyConfig` writes |
| `RailVisibility` | rail_visibility.dfy | `this.state` as a value, one function per operation on it, the machine's invariant and its lemmas, traces of events |
| `FaceGuard` | face_guard.dfy | the arithmetic of `_applyFaceGuard` |
| `Keyboard` | keyboard.dfy | the keyboard offset of `updateKeyboardOffset` |
| `Listeners` | listeners.dfy | elements, targets, handlers, registry entries, and the exact list `_initializeVisibilitySystem` registers |
| `Stage` | stage.dfy | class `ChatStage`, whose fields are the ones stage.js updates in place and whose methods are proved against the functions above |

The browser is represented inside the model:

- `attached` is the set of (target, type, handler) bindings the DOM holds for the listeners registered through `_addListener`;
- `viewportAttached` is the set of event types bound on `window.visualViewport`;
- `Handle(live)` stands for the resize observer and the animation-frame request;
- `layout` is the geometry the DOM reports;
- `now` is the clock the timeouts are measured on.

A browser capability (`CSS.supports`, `ResizeObserver`, `visualViewport`,
`innerHeight`) is a parameter, collected in `Platform`. A timeout is a
deadline plus a flag saying that it has not fired yet. `AdvanceClock` fires
the timeouts that are due, the peek timeout first.

`ChatStage.Valid()` is the object invariant that every state-changing
method keeps. It states:

- the machine's invariant `RailVisibility.Inv`: a hidden rail has no timers, no timers are set outside auto mode, the two handles are set together `idleMs` apart, and no pending timeout is overdue;
- `data-rail-visibility` names the current state;
- the DOM holds exactly the bindings `_globalListeners` lists;
- `visualViewport` holds exactly the types `_viewportListeners` lists.

The face guard should keep the rail's bottom above the face band
`canvasTop + canvasHeight × FACE_GUARD_PCT` whenever the geometry allows
it. The least top the layout permits is `max(safeTop + 12, 0)`. Line 552
raises the result of the `Math.min` steps back to `safeTop + 12`, so the
top written is always exactly that least top. The band is therefore kept
whenever any permitted top could keep it, and the rail overlaps the band
only when `max(safeTop + 12, 0)` exceeds the bound `permittedBottom -
railHeight` of lines 530-534. The model follows the code:

- `FaceGuard.RailTop` proves the closed form;
- `FaceGuard.FaceBandKeptIff` proves that the band is kept exactly when the least permitted top is at most the bound;
- `FaceGuard.FaceBandNotKept` gives concrete geometry in which the bound (-50) lies below that least top, so the rail overlaps the band.

## Model

| member | source | states |
|---|---|---|
| `Helpers.Clamp` | vercel-deploy-live2d/stage.js:2 | the result lies in [lo, hi] when lo <= hi, equals the value when it is already inside, and is the nearer bound otherwise; with lo > hi it is hi, as `Math.min` applied last gives |
| `Helpers.CopyFor` | vercel-deploy-live2d/stage.js:55-57 | a non-empty entry for the locale wins; otherwise the non-empty en-US entry; the result is empty exactly when both are missing or empty, and is otherwise one of the dictionary's texts |
| `Helpers.DefaultCopyNeverBlank` | vercel-deploy-live2d/stage.js:4-53 | every label of `DEFAULT_COPY` looked up with `copyFor` is non-empty for every locale |
| `Helpers.UnknownLocaleFallsBack` | vercel-deploy-live2d/stage.js:4-57 | a locale other than en-US and zh-HK gets the en-US text of every label |
| `StageConfig.Merge` | vercel-deploy-live2d/stage.js:66-78 | every key the caller passed wins and every other key keeps its default; with no options the merged configuration is exactly the defaults |
| `StageConfig.OrDefault` | vercel-deploy-live2d/stage.js:137-140 | the logical-or fallback on numbers: a non-zero value is kept, zero gives the fallback, and the result is never zero |
| `StageConfig.IdleMs` | vercel-deploy-live2d/stage.js:456 | the idle delay is at least 1000 ms; it is `IDLE_DIM_SECONDS × 1000` from one second up, 2000 when the setting is zero, and 1000 for a setting below one second |
| `StageConfig.ApplyConfig` | vercel-deploy-live2d/stage.js:131-158 | the rail height lies in [30, 50] vh and equals the setting when it is inside that range; width and transition are never zero and equal a non-zero setting; chromeless follows its flag; blur is on exactly when it is enabled and supported |
| `StageConfig.DefaultsApplied` | vercel-deploy-live2d/stage.js:66-78 | the defaults give auto mode, an idle delay of 2000 ms, a face-guard fraction of 0.25 and a 38 vh, 880 px, 180 ms rail |
| `FaceGuard.CandidateTop` | vercel-deploy-live2d/stage.js:526-546 | `topRelative` after the `Math.min` steps is at most `safeTop + 12`, equals it when either rectangle has zero height, is at most each finite candidate bound otherwise, and is one of these values |
| `FaceGuard.RailTop` | vercel-deploy-live2d/stage.js:513-558 | the top written is at least 0 and at least `safeTop + 12`, and it equals `max(safeTop + 12, 0)` |
| `FaceGuard.RailTopIgnoresCanvas` | vercel-deploy-live2d/stage.js:548-557 | two layouts with the same safe-top inset give the same top, whatever the canvas, the rail height or the fraction |
| `FaceGuard.MaxTop` | vercel-deploy-live2d/stage.js:529-534 | a bound exists exactly when the fraction is a finite number, and a rail whose top is that bound ends exactly at the band's end, the canvas top plus the fraction of its height |
| `FaceGuard.MinWith` | vercel-deploy-live2d/stage.js:535-544 | a `Math.min` step with a finite bound gives at most the current top and at most the bound, and is one of the two; a missing bound leaves the top |
| `FaceGuard.WorkedExample` | vercel-deploy-live2d/stage.js:526-557 | a canvas 400 high at 100 with fraction 0.25 and a rail 150 high gives bounds 50 and 70, and 12 is written |
| `FaceGuard.FaceBandKeptIff` | vercel-deploy-live2d/stage.js:526-557 | the written rail ends at or above the face band exactly when `max(safeTop + 12, 0)` is at most the finite bound `permittedBottom - railHeight`, so the band is kept whenever any permitted top keeps it |
| `FaceGuard.FaceBandNotKept` | vercel-deploy-live2d/stage.js:552-557 | a concrete layout whose finite bound (-50) lies below the least permitted top 12, so the rail is written at 12 and its bottom lies below the face band; no permitted top could keep the band there |
| `Keyboard.KeyboardOffset` | vercel-deploy-live2d/stage.js:569-570 | the offset is non-negative and at least `innerHeight - (height + offsetTop)`, and is either 0 or exactly that difference |
| `Keyboard.RaisedIff` | vercel-deploy-live2d/stage.js:569-576 | the keyboard counts as raised exactly when the visual bottom is more than 20 px above `innerHeight` |
| `Keyboard.NoKeyboard` | vercel-deploy-live2d/stage.js:569-576 | a visual viewport that reaches the window's bottom gives offset 0, which is not raised |
| `RailVisibility.TargetMode` | vercel-deploy-live2d/stage.js:420-421 | "hidden" and "peek" name their states, and every other string is coerced to show |
| `RailVisibility.TargetModeOfName` | vercel-deploy-live2d/stage.js:420-421 | coercing a state's own name gives that state back |
| `RailVisibility.ClearTimers` | vercel-deploy-live2d/stage.js:440-449 | both handles are null afterwards and the visibility is unchanged |
| `RailVisibility.Inv` | vercel-deploy-live2d/stage.js:419-494 | the machine's invariant (a hidden rail has no timers, none outside auto mode, the two deadlines `idleMs` apart and none overdue); `InitialInv`, `StepInv` and `RunInv` prove that every event keeps it |
| `RailVisibility.FirePeek` | vercel-deploy-live2d/stage.js:457-461 | after the peek timeout the peek handle is clear and the hide timer is untouched; `PeekTimerRule` states the visibility |
| `RailVisibility.FireHide` | vercel-deploy-live2d/stage.js:462-466 | after the hide timeout the hide handle is clear, and a pending hide leaves the rail hidden; `HideTimerRule` states that no timer is left |
| `RailVisibility.Advance` | vercel-deploy-live2d/stage.js:457-466 | after time passes to `t`, no timeout due at `t` is still pending; `AdvanceInv` and `AdvanceComposes` relate it to the invariant and to waiting in steps |
| `RailVisibility.StartIdleCountdown` | vercel-deploy-live2d/stage.js:474-482 | the idle countdown never changes the visibility; `IdleCountdownRearms` states the fresh deadlines and `IdleDecay` what they do |
| `RailVisibility.FlashRail` | vercel-deploy-live2d/stage.js:484-494 | the visibility afterwards is the one the mode names, and every mode other than hidden and peek shows the rail; `FlashHidden`, `FlashPeek` and `FlashShowIsInteraction` state the timers |
| `RailVisibility.ScheduleTimers` | vercel-deploy-live2d/stage.js:451-467 | outside auto mode nothing changes; in auto mode a pending peek at `now + idleMs` and a pending hide at `now + 2·idleMs` replace the old timers; the visibility is untouched |
| `RailVisibility.SetVisibility` | vercel-deploy-live2d/stage.js:419-438 | the coerced mode is the new visibility; without a change and without `force` nothing changes; a committed hide leaves no timer; a shown or peeking rail keeps its timers unless `resetTimers` is set, and with it commits and then schedules fresh timers |
| `RailVisibility.HandleInteraction` | vercel-deploy-live2d/stage.js:469-472 | an interaction leaves the rail shown |
| `RailVisibility.InitialInv` | vercel-deploy-live2d/stage.js:83-87 | the constructor's state (hidden, no timers) satisfies the invariant |
| `RailVisibility.SetVisibilityInv` | vercel-deploy-live2d/stage.js:419-438 | `_setRailVisibility` preserves the invariant for every mode and options |
| `RailVisibility.HandleInteractionInv` | vercel-deploy-live2d/stage.js:469-472 | an interaction preserves the invariant |
| `RailVisibility.StartIdleCountdownInv` | vercel-deploy-live2d/stage.js:474-482 | the idle countdown preserves the invariant |
| `RailVisibility.FlashRailInv` | vercel-deploy-live2d/stage.js:484-494 | `flashRail` preserves the invariant for every mode |
| `RailVisibility.AdvanceInv` | vercel-deploy-live2d/stage.js:457-466 | time passing, with the due timeouts firing, preserves the invariant at the new time |
| `RailVisibility.InteractionShows` | vercel-deploy-live2d/stage.js:469-472 | after an interaction the rail is shown; in auto mode exactly a fresh peek timer at `idleMs` and hide timer at `2·idleMs` are pending; outside auto mode the timers are untouched |
| `RailVisibility.InteractionSupersedes` | vercel-deploy-live2d/stage.js:455-466 | in auto mode the state after an interaction does not depend on the timers before it, so no stale timeout survives |
| `RailVisibility.SetSameModeIsNoOp` | vercel-deploy-live2d/stage.js:422-424 | setting the current state again without `force` returns the state unchanged |
| `RailVisibility.UnknownModeShows` | vercel-deploy-live2d/stage.js:420-421 | an unrecognised mode behaves exactly like "show" in `_setRailVisibility` and in `flashRail` |
| `RailVisibility.PeekTimerRule` | vercel-deploy-live2d/stage.js:457-461 | the peek timeout turns show into peek, leaves peek and hidden alone, and does not touch the hide timer |
| `RailVisibility.HideTimerRule` | vercel-deploy-live2d/stage.js:462-466 | the hide timeout leaves the rail hidden with no timer |
| `RailVisibility.IdleCountdownRearms` | vercel-deploy-live2d/stage.js:474-482 | in auto mode a shown or peeking rail keeps its visibility and gets fresh deadlines at `now + idleMs` and `now + 2·idleMs`, whatever timers it had |
| `RailVisibility.FlashShowIsInteraction` | vercel-deploy-live2d/stage.js:484-494 | `flashRail` with any mode other than hidden and peek, its default "show" among them, is exactly an interaction and shows the rail |
| `RailVisibility.InteractionIdempotent` | vercel-deploy-live2d/stage.js:469-472 | a second interaction at the same instant changes nothing |
| `RailVisibility.IdleCountdownIdempotent` | vercel-deploy-live2d/stage.js:474-482 | a second idle countdown at the same instant changes nothing |
| `RailVisibility.NonAutoSchedulesNothing` | vercel-deploy-live2d/stage.js:451-454 | outside auto mode both scheduling and the idle countdown change nothing |
| `RailVisibility.FlashHidden` | vercel-deploy-live2d/stage.js:485-487 | `flashRail('hidden')` hides the rail with no timer from any state |
| `RailVisibility.FlashPeek` | vercel-deploy-live2d/stage.js:489-491 | `flashRail('peek')` only changes the visibility to peek, so the deadlines stay as they were; for any state; from a hidden rail satisfying the invariant no timer is set |
| `RailVisibility.HiddenIsQuiescent` | vercel-deploy-live2d/stage.js:474-482 | a hidden rail is unchanged by time passing and by the idle countdown |
| `RailVisibility.IdleDecay` | vercel-deploy-live2d/stage.js:451-472 | in auto mode, after an interaction the rail is shown before `idleMs`, peeks until `2·idleMs` and is then hidden with no timer |
| `RailVisibility.AdvanceComposes` | vercel-deploy-live2d/stage.js:457-466 | running the clock to t1 and then to t2 equals running it to t2 at once |
| `RailVisibility.StepInv` | vercel-deploy-live2d/stage.js:419-494 | every event (an interaction, the idle countdown, a flash, a set, a wait) preserves the invariant |
| `RailVisibility.RunInv` | vercel-deploy-live2d/stage.js:419-494 | along any trace the invariant holds; a hidden rail has no timers, and outside auto mode no timer is ever set |
| `RailVisibility.HiddenExits` | vercel-deploy-live2d/stage.js:419-494 | a hidden rail leaves hidden exactly on an interaction, a flash other than "hidden" or a set to a mode other than "hidden" |
| `RailVisibility.HiddenFastForward` | vercel-deploy-live2d/stage.js:457-466 | once the rail is hidden, any sequence of waits leaves it unchanged |
| `RailVisibility.NonAutoStaysShown` | vercel-deploy-live2d/stage.js:366-369 | outside auto mode a shown rail stays shown with no timer through interactions, idle countdowns, waits and showing flashes |
| `Listeners.PresentMembers` | vercel-deploy-live2d/stage.js:371-381 | `.filter(Boolean)` keeps exactly the listed targets that exist |
| `Listeners.Present` | vercel-deploy-live2d/stage.js:381 | `.filter(Boolean)` keeps the existing targets in their order; `PresentMembers` states which ones |
| `Listeners.VisibilityListeners` | vercel-deploy-live2d/stage.js:371-416 | the full list `_initializeVisibilitySystem` registers, pointer groups first and then the conditional groups and the root listener; `VisibilityListenersRoute` and `OneHandlerPerSignal` state its routing |
| `Listeners.TargetListeners` | vercel-deploy-live2d/stage.js:383-387 | the `forEach` registers each target's three pointer listeners in target order; `TargetListenersSnoc` states the step of the loop and `TargetListenersRoute` the routing |
| `Listeners.TargetListenersSnoc` | vercel-deploy-live2d/stage.js:383-387 | one more target adds exactly its three pointer listeners at the end |
| `Listeners.TargetListenersRoute` | vercel-deploy-live2d/stage.js:383-387 | the pointer listeners of existing targets are passive interaction listeners on those targets |
| `Listeners.GroupsRoute` | vercel-deploy-live2d/stage.js:389-416 | each conditional group and the root listener is routed: focus-out, blur and pointer-leave re-arm the idle countdown, every other signal is an interaction, every pointer-leave is passive |
| `Listeners.VisibilityListenersRoute` | vercel-deploy-live2d/stage.js:371-416 | every listener `_initializeVisibilitySystem` registers is routed in that way and sits on the root or on an element that exists |
| `Listeners.OneHandlerPerSignal` | vercel-deploy-live2d/stage.js:383-416 | two visibility listeners for the same event type run the same handler, so no signal reaches both the interaction and the idle-countdown handler |
| `Stage.DispatchEffect` | vercel-deploy-live2d/stage.js:90-91 | an event with neither an interaction nor an idle-countdown binding on its target leaves the rail's state unchanged |
| `Stage.ChatStage.constructor` | vercel-deploy-live2d/stage.js:60-93 | defaults merged under the options; hidden with no timers; empty registries; no observer, no frame |
| `Stage.Mount` | vercel-deploy-live2d/stage.js:60-63 | construction fails with `RootRequired` exactly when there is no root; otherwise the new stage is valid, hidden and unregistered |
| `Stage.ChatStage.ClearVisibilityTimers` | vercel-deploy-live2d/stage.js:440-449 | the new state is `ClearTimers` of the old |
| `Stage.ChatStage.ScheduleVisibilityTimers` | vercel-deploy-live2d/stage.js:451-467 | the new state is `ScheduleTimers` of the old at the current time |
| `Stage.ChatStage.GuardedTop` | vercel-deploy-live2d/stage.js:513-557 | a top is computed exactly when the rail and the canvas host exist, and it is at least 0 and at least `safeTop + 12` |
| `Stage.ChatStage.ApplyFaceGuard` | vercel-deploy-live2d/stage.js:513-558 | with rail and canvas host present the rail's top becomes `RailTop` of the current layout; otherwise it is untouched |
| `Stage.ChatStage.SetRailVisibility` | vercel-deploy-live2d/stage.js:419-438 | the new state is `SetVisibility` of the old; a committed change writes the attribute, and re-applies the face guard unless `immediate` |
| `Stage.ChatStage.HandleInteraction` | vercel-deploy-live2d/stage.js:469-472 | keeps `Valid`; the new state is `HandleInteraction` of the old; the attribute becomes show; the top is untouched |
| `Stage.ChatStage.StartIdleCountdown` | vercel-deploy-live2d/stage.js:474-482 | keeps `Valid`; the new state is `StartIdleCountdown` of the old, which re-arms a shown or peeking rail in auto mode as `IdleCountdownRearms` states |
| `Stage.ChatStage.FlashRail` | vercel-deploy-live2d/stage.js:484-494 | keeps `Valid`; the new state is `FlashRail` of the old; the attribute names it; only hidden and peek re-apply the face guard |
| `Stage.ChatStage.PeekTimerFires` | vercel-deploy-live2d/stage.js:457-461 | the new state is `FirePeek` of the old; the attribute is written only on a change; the top is untouched |
| `Stage.ChatStage.HideTimerFires` | vercel-deploy-live2d/stage.js:462-466 | the new state is `FireHide` of the old; the attribute is written only on a change; the top is untouched |
| `Stage.ChatStage.AdvanceClock` | vercel-deploy-live2d/stage.js:457-466 | keeps `Valid`; the clock is at t and the state is `Advance` of the old |
| `Stage.ChatStage.AddListener` | vercel-deploy-live2d/stage.js:351-357 | a missing target or listener changes nothing; otherwise exactly one entry is appended and its binding is added to the DOM |
| `Stage.ChatStage.RegisterInteractiveTargets` | vercel-deploy-live2d/stage.js:383-387 | the registry grows by exactly `TargetListeners` of the targets, in order, and the DOM holds what it lists |
| `Stage.ChatStage.RegisterScrollListeners` | vercel-deploy-live2d/stage.js:389-392 | the registry grows by the message list's group, when that element exists |
| `Stage.ChatStage.RegisterComposerListeners` | vercel-deploy-live2d/stage.js:394-398 | the registry grows by the composer's group, when that element exists |
| `Stage.ChatStage.RegisterRailListeners` | vercel-deploy-live2d/stage.js:400-403 | the registry grows by the rail's group, when that element exists |
| `Stage.ChatStage.RegisterTextareaListeners` | vercel-deploy-live2d/stage.js:405-408 | the registry grows by the textarea's group, when that element exists |
| `Stage.ChatStage.RegisterCanvasListeners` | vercel-deploy-live2d/stage.js:410-414 | the registry grows by the canvas host's group, when that element exists |
| `Stage.ChatStage.RegisterRootListeners` | vercel-deploy-live2d/stage.js:416 | the registry grows by the root's pointer-leave listener |
| `Stage.ChatStage.RegisterVisibilityListeners` | vercel-deploy-live2d/stage.js:371-416 | the registry grows by exactly `VisibilityListeners(elements)` |
| `Stage.ChatStage.InitializeVisibilitySystem` | vercel-deploy-live2d/stage.js:359-417 | without a rail nothing changes; otherwise the rail is hidden with no timers in auto mode, or shown with no timers and no listener added otherwise; in auto mode exactly the visibility listeners are registered |
| `Stage.ChatStage.AddFaceGuardListeners` | vercel-deploy-live2d/stage.js:509-510 | the window resize and orientation-change listeners are appended |
| `Stage.ChatStage.BindFaceGuardObservers` | vercel-deploy-live2d/stage.js:500-511 | the face guard is applied, a frame is requested, the observer is connected when `ResizeObserver` exists and the rail does, and the two window listeners are registered |
| `Stage.ChatStage.AnimationFrame` | vercel-deploy-live2d/stage.js:502 | a requested frame runs once, applying the face guard; afterwards its handle stays set but is no longer live |
| `Stage.ChatStage.RailResized` | vercel-deploy-live2d/stage.js:505 | a connected observer re-applies the face guard; otherwise nothing changes |
| `Stage.ChatStage.Dispatch` | vercel-deploy-live2d/stage.js:90-92 | an event on a target runs exactly the handlers the DOM holds for that target and type: the state follows `DispatchEffect`, an interaction binding sets the rail's attribute to show and otherwise the attribute is untouched, and the top changes only under a face-guard binding |
| `Stage.ChatStage.UpdateKeyboardOffset` | vercel-deploy-live2d/stage.js:565-577 | without a visual viewport nothing is written; otherwise the offset and the raised flag follow `KeyboardOffset` and `Raised` |
| `Stage.ChatStage.ViewportEvent` | vercel-deploy-live2d/stage.js:565-587 | a visual-viewport event whose type is registered recomputes the offset and the raised flag exactly as `KeyboardOffset` and `Raised` say; an event with no registered listener, or with no visual viewport, changes nothing |
| `Stage.ChatStage.AttachViewportListeners` | vercel-deploy-live2d/stage.js:560-590 | without a visual viewport nothing changes; otherwise its resize and scroll listeners are registered in order and the offset is computed once |
| `Stage.ChatStage.CreateElements` | vercel-deploy-live2d/stage.js:313-331 | every element exists afterwards, among them the rail and the canvas host |
| `Stage.ChatStage.WireRail` | vercel-deploy-live2d/stage.js:335-336 | the visibility system and then the face-guard observers run, with the combined effect on state, attribute, top, handles and registry |
| `Stage.ChatStage.BuildDom` | vercel-deploy-live2d/stage.js:160-337 | all elements exist; the rail is hidden (auto) or shown with no timers; the top is `RailTop`; the frame is requested; the registry is the visibility listeners (auto mode only) followed by the face-guard listeners |
| `Stage.ChatStage.Init` | vercel-deploy-live2d/stage.js:95-101 | the root style is `ApplyConfig`, the DOM is built as `BuildDom` states, the viewport listeners are attached and the keyboard offset computed; the elements are returned |
| `Stage.ChatStage.RemoveViewportListeners` | vercel-deploy-live2d/stage.js:104-107 | every viewport binding is removed and the registry is empty |
| `Stage.ChatStage.RemoveGlobalListeners` | vercel-deploy-live2d/stage.js:109-112 | every binding registered through `_addListener` is removed and the registry is empty |
| `Stage.ChatStage.Destroy` | vercel-deploy-live2d/stage.js:103-129 | both registries and the bindings registered through them are empty; both timers are null; the observer and the frame are null; the subtree is gone; the invariant still holds |
| `Stage.ChatStage.QuietAfterDestroy` | vercel-deploy-live2d/stage.js:103-129 | after `destroy` the timers are cleared and every registry, the frame request, the observer and the built subtree are gone; later time passing, any event, a late frame and a visual-viewport event leave the rail's state, attribute and top, and the keyboard offset and flag, as `destroy` left them |

## Left out

- `vercel-deploy-live2d/auth-integration.js` is not part of this model. It is the chat and session client that uses the stage's elements.
- The construction of the DOM subtree in `_buildDOM` (ids, classes, ARIA attributes, text content) and `_createIconButton` are left out. The model records only which entries of `this.elements` exist.
- The closures `elements.flashRail` and `elements.applyFaceGuard` are left out. They only forward to `flashRail` and `applyFaceGuard`, which are modelled.
- Numbers are mathematical reals, not IEEE doubles: rounding is not modelled. Every DOM reading is finite. `parseFloat(...) || 0` is taken as an already-parsed finite `safeTop`. The only non-finite value is `FACE_GUARD_PCT` (`JsNumber.NonFinite`). So the `Number.isFinite(topRelative)` fallback cannot be reached in the model.
- Options are typed per key (a string mode, numeric sizes, boolean flags), and a key is either passed or not. An option explicitly set to `undefined` or to a value of the wrong type is not modelled, except for `FACE_GUARD_PCT`, whose type test is modelled.
- `HISTORY_LIMIT` and `RECENT_VISIBLE` are defaults that nothing in the stage reads. They are left out.
- CSS strings (`${x}px`, `min(...px, 96vw)`, `${ms}ms`) are modelled as the numbers they carry. `classList.add` and `console.log` are left out.
- The browser's `setTimeout` limits (delays clamped to 32-bit milliseconds, timer coalescing) are left out. Timeouts fire exactly at their deadlines, the peek timeout first.
- Each `init` creates a fresh keyboard-update closure. Viewport listeners are identified by event type only, so calling `init` twice is not modelled faithfully.
- Stage.ChatStage.BindFaceGuardObservers: a second call overwrites the frame and observer handles, as the source does. The model does not keep the overwritten frame callback or observer running.
- Stage.ChatStage.Dispatch: runs the interaction handler before the idle-countdown handler, not in registration order. `Listeners.OneHandlerPerSignal` proves that no event type carries both handlers, so the order cannot be observed.
- Stage.ChatStage.Dispatch: delivers an event to its target alone. In the DOM a bubbling event also runs the listeners of the target's ancestors, for example a pointerdown on the textarea also reaches the composer. Such an event runs the same handler several times at one instant. `RailVisibility.InteractionIdempotent` and `RailVisibility.IdleCountdownIdempotent` prove that a repeat changes nothing, so a bubbled event has the effect of one dispatch per handler.
- Stage.ChatStage.Destroy: the composer's `submit` listener and the send button's `click` listener (stage.js lines 235-240 and 292-296) are added directly, not through `_addListener`. They are not in `_globalListeners` and are not in the model, and `destroy` does not remove them; they go away only with the detached subtree.
- Helpers.CopyFor: models the dictionary as a map of its own keys. A JavaScript object lookup also finds names inherited from `Object.prototype`, so a locale such as `constructor` or `__proto__` returns that inherited value in the source. The prototype chain is not modelled.
- Helpers.UnknownLocaleFallsBack: holds for locales that are not names of `Object.prototype` properties. For `constructor`, `__proto__` and the like the source returns the inherited value, not the en-US text, since the prototype chain is not modelled.
- Stage.ChatStage.Destroy: `root.innerHTML = ''` is modelled as the subtree flag dropping. `this.elements` keeps its entries, as in the source.
