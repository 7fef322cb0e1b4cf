# Keyboard visibility emulator

A Dafny model of the browser-side keyboard emulator of the Expensify app
(`src/libs/NativeWebKeyboard/index.ts`). A web page has no native "the
on-screen keyboard opened" event. The emulator infers one from two signals:
the visual viewport's height and the kind of element that has focus. It
notifies `keyboardDidShow` and `keyboardDidHide` subscribers.

What the model covers:

- The classifier `isInputKeyboardType` and the query `isVisible`. These are
  predicates over the focused element. A text area always solicits a
  keyboard. An `INPUT` solicits one when its type is in the configured set
  `INPUT_TYPES_WITH_KEYBOARD`. Nothing else does, and neither does "no
  element".
- The module state: the two ordered registries, the "service running" flag,
  the attachment of the resize handler to the viewport, and the snapshot
  (the last recorded height and the last focused element). The state is a
  `State` record (`NativeWebKeyboard.State`). The class
  `NativeWebKeyboard.Detector` holds the same fields and updates them in
  place through its methods.
- `addListener`, `startKeboardListeningService`, `handleViewportResize` and
  its `forEach` loops, and the unsubscribe closure. Each is a `Detector`
  method. Each method is proved against a pure step function (`AfterAdd`,
  `StartService`, `Fired`/`AfterResize`, `AfterUnsubscribe`), and the
  properties are proved about those functions.
- The browser's delivery of resize events. The handler runs only while it
  is attached (`Dispatch`, `Detector.ViewportResized`).
- Runs (module `KeyboardTraces`): any sequence of subscriptions, unsubscribe
  calls and resize events. Lemmas prove what holds along every run.
- Two usage examples of the class, `TextareaClient` (the code as written)
  and `CorrectedUnsubscribeClient` (the corrected closure), show what a
  caller can conclude from the method contracts alone.

The invariant `Consistent` states two things. The handler is attached
exactly once while the service runs, and never otherwise. The service runs
exactly when some subscriber is registered. Every operation keeps it.

The unsubscribe closure computes `filter` and discards the result, so as
written it removes nothing. The model keeps that behaviour. It follows
that, once one `addListener` has succeeded, the teardown guard at
index.ts:81 can never hold again, and the service runs for ever. The
"evidently intended" closure, which assigns the filtered registry back, is
modelled beside it (`AfterUnsubscribeFixed`, `Detector.UnsubscribeFixed`);
see "## Findings". The run semantics in `KeyboardTraces` follows the code as
written.

## Model

| member | source | states |
|---|---|---|
| `NativeWebKeyboard.KeyboardTypeClassification` | src/libs/NativeWebKeyboard/index.ts:7-12 | no element is never keyboard-type; a `TEXTAREA` always is; an `INPUT` is exactly when its type is in the configured set; every other tag never is |
| `NativeWebKeyboard.Detector.IsKeyboardVisible` | src/libs/NativeWebKeyboard/index.ts:14-17 | visible iff the focused element exists and is a `TEXTAREA`, or an `INPUT` whose type is in the configured set |
| `NativeWebKeyboard.InitialStateConsistent` | src/libs/NativeWebKeyboard/index.ts:21-31 | at module load nothing is registered, the service is not running, the handler is not attached, and the invariant holds |
| `NativeWebKeyboard.Detector.constructor` | src/libs/NativeWebKeyboard/index.ts:21-31 | a new detector has empty registries, no attachment, the initial height and no recorded element, and satisfies the invariant |
| `NativeWebKeyboard.AddRejectsInvalidArguments` | src/libs/NativeWebKeyboard/index.ts:55-58 | `addListener` fails with the invalid-argument error exactly when the event name is neither `keyboardDidShow` nor `keyboardDidHide` or the callback is missing; a failed call leaves the whole state unchanged |
| `NativeWebKeyboard.AddShowAppends` | src/libs/NativeWebKeyboard/index.ts:60-62 | a successful `keyboardDidShow` subscription appends the callback at the end of the show registry, leaves the hide registry and the snapshot alone, and leaves the service running |
| `NativeWebKeyboard.AddHideAppends` | src/libs/NativeWebKeyboard/index.ts:64-66 | the same for `keyboardDidHide`, with the roles of the registries swapped |
| `NativeWebKeyboard.AddAttachesOnlyOnStart` | src/libs/NativeWebKeyboard/index.ts:68-70 | after a successful subscription the handler is attached exactly once; it is attached anew only on the transition from not running to running, never while running; the invariant is kept |
| `NativeWebKeyboard.Detector.StartListeningService` | src/libs/NativeWebKeyboard/index.ts:50-53 | sets the running flag and adds one attachment of the handler; nothing else changes |
| `NativeWebKeyboard.Detector.AddListener` | src/libs/NativeWebKeyboard/index.ts:55-86 | returns the error or the unsubscribe handle exactly as `AddOutcome` decides; the new state is `AfterAdd` of the old one; the invariant is kept |
| `NativeWebKeyboard.InvokeAll` | src/libs/NativeWebKeyboard/index.ts:36 | `forEach` invokes every listener of the registry exactly once, in registration order |
| `NativeWebKeyboard.ShrinkFiresShowListeners` | src/libs/NativeWebKeyboard/index.ts:34-38 | when the viewport shrank, the handler invokes exactly the show registry, in order, if the focused element is keyboard-type and is a different node (`SameNode`, by `id`) from the recorded one, and nothing otherwise |
| `NativeWebKeyboard.GrowFiresHideListeners` | src/libs/NativeWebKeyboard/index.ts:40-44 | when the viewport grew, the handler invokes exactly the hide registry, in order, if no keyboard-type element has focus, and nothing otherwise |
| `NativeWebKeyboard.EqualHeightFiresNothing` | src/libs/NativeWebKeyboard/index.ts:33-48 | a resize to the recorded height invokes no callback |
| `NativeWebKeyboard.AtMostOneRegistryFires` | src/libs/NativeWebKeyboard/index.ts:33-48 | one resize invokes nothing, the whole show registry, or the whole hide registry, never a mixture |
| `NativeWebKeyboard.ResizeRefreshesSnapshot` | src/libs/NativeWebKeyboard/index.ts:46-47 | after the handler, the recorded height is the new height and the recorded element is the focused one; registries, flag and attachment are unchanged; the invariant is kept |
| `NativeWebKeyboard.RepeatedResizeFiresNothing` | src/libs/NativeWebKeyboard/index.ts:33-48 | a second resize to the same height with the same focus invokes nothing |
| `NativeWebKeyboard.SameNodeNeverShows` | src/libs/NativeWebKeyboard/index.ts:34-43 | while focus stays on the recorded node, whatever its tag or `type` now is, the handler never invokes the show registry; it invokes the hide registry exactly when the viewport grew and the node is not keyboard-type |
| `NativeWebKeyboard.Detector.HandleViewportResize` | src/libs/NativeWebKeyboard/index.ts:33-48 | returns the callbacks invoked, equal to `Fired` of the old state; the new state is the old one with the snapshot refreshed; the invariant is kept |
| `NativeWebKeyboard.Detector.ViewportResized` | src/libs/NativeWebKeyboard/index.ts:50-53 | a resize event runs the handler only while it is attached; otherwise it invokes nothing and changes nothing |
| `NativeWebKeyboard.DetachedDispatchIsInert` | src/libs/NativeWebKeyboard/index.ts:81-84 | once the service is stopped and detached, a resize event invokes nothing and leaves the state unchanged |
| `NativeWebKeyboard.Without` | src/libs/NativeWebKeyboard/index.ts:74 | the filtered registry holds no occurrence of the callback, holds every other callback as many times as before, and is no longer than the registry; the order of what remains is stated by `WithoutDistributes` |
| `NativeWebKeyboard.WithoutSingleton` | src/libs/NativeWebKeyboard/index.ts:74 | a one-entry registry loses its entry exactly when it is the callback being filtered out |
| `NativeWebKeyboard.WithoutDistributes` | src/libs/NativeWebKeyboard/index.ts:74 | filtering a registry split in two equals filtering each part and joining them in the same order; with the singleton case this fixes the result completely, so the remaining callbacks keep their subscription order |
| `NativeWebKeyboard.WithoutAbsentIsIdentity` | src/libs/NativeWebKeyboard/index.ts:78 | filtering out a callback that is not registered returns the registry unchanged |
| `NativeWebKeyboard.UnsubscribeKeepsRegistries` | src/libs/NativeWebKeyboard/index.ts:72-79 | as written, the unsubscribe closure leaves both registries and the snapshot unchanged |
| `NativeWebKeyboard.UnsubscribeNeverTearsDown` | src/libs/NativeWebKeyboard/index.ts:81-84 | as written, whenever the invariant holds the teardown guard is false and the closure changes nothing at all |
| `NativeWebKeyboard.UnsubscribeKeepsCallback` | src/libs/NativeWebKeyboard/index.ts:72-85 | as written, from any consistent state, a callback that subscribed to `keyboardDidShow` and then called its unsubscribe handle is still among the callbacks a qualifying shrink event delivers; the service still runs with the handler attached once |
| `NativeWebKeyboard.Detector.Unsubscribe` | src/libs/NativeWebKeyboard/index.ts:72-85 | the closure as written: computes and drops the filtered registry, then applies the teardown guard; the new state is `AfterUnsubscribe` of the old one |
| `NativeWebKeyboard.UnsubscribeFixedRemovesCallback` | src/libs/NativeWebKeyboard/index.ts:72-79 | the corrected closure removes every occurrence of the callback from its registry, keeps every other callback with its multiplicity, and leaves the other registry and the snapshot alone |
| `NativeWebKeyboard.UnsubscribeFixedKeepsOrder` | src/libs/NativeWebKeyboard/index.ts:72-79 | with the corrected closure, unsubscribing a callback registered once deletes exactly that entry: the callbacks before and after it remain, in subscription order |
| `NativeWebKeyboard.UnsubscribeFixedKeepsConsistent` | src/libs/NativeWebKeyboard/index.ts:81-84 | the corrected closure keeps the invariant; when both registries end up empty the service stops and the handler is detached |
| `NativeWebKeyboard.UnsubscribeFixedAbsentIsNoOp` | src/libs/NativeWebKeyboard/index.ts:72-85 | with the corrected closure, unsubscribing a callback that is not registered changes nothing |
| `NativeWebKeyboard.UnsubscribeFixedLastDetaches` | src/libs/NativeWebKeyboard/index.ts:81-84 | with the corrected closure, unsubscribing the only subscriber detaches the handler, and a later resize invokes nothing |
| `NativeWebKeyboard.Detector.UnsubscribeFixed` | src/libs/NativeWebKeyboard/index.ts:72-85 | the corrected closure on the object: the new state is `AfterUnsubscribeFixed` of the old one, and the invariant is kept |
| `KeyboardTraces.StepKeepsConsistent` | src/libs/NativeWebKeyboard/index.ts:33-85 | every single operation (subscription, unsubscribe call, resize event) keeps the invariant |
| `KeyboardTraces.RunKeepsConsistent` | src/libs/NativeWebKeyboard/index.ts:33-85 | the invariant holds at the end of every run that starts in a state where it holds |
| `KeyboardTraces.RegistriesOnlyGrow` | src/libs/NativeWebKeyboard/index.ts:60-79 | along any run each registry only gains entries at its end: the registry before is a prefix of the registry after |
| `KeyboardTraces.RunningPersists` | src/libs/NativeWebKeyboard/index.ts:81-84 | once the service runs, it still runs with one attachment at the end of every run |
| `KeyboardTraces.SubscribedRunsForever` | src/libs/NativeWebKeyboard/index.ts:68-84 | after any successful `addListener` in a run, the service runs at the end of the run |
| `KeyboardTraces.NoSubscriptionNoCalls` | src/libs/NativeWebKeyboard/index.ts:21-53 | a run without a successful subscription, from a state with nothing registered, keeps nothing registered, never starts the service and invokes no callback |
| `KeyboardTraces.RunningIffSubscribed` | src/libs/NativeWebKeyboard/index.ts:21-85 | from module load, the service runs at the end of a run exactly when some `addListener` of the run succeeded |
| `KeyboardTraces.ResizeOnlyKeepsRegistries` | src/libs/NativeWebKeyboard/index.ts:33-48 | a run made only of resize events leaves both registries, the flag and the attachment unchanged |
| `KeyboardTraces.ResizeOnlyFiresWholeRegistry` | src/libs/NativeWebKeyboard/index.ts:33-48 | along a run of resize events from any consistent detector, started or not, every event that shrinks the viewport onto a keyboard element that is a different node from the recorded one invokes exactly the whole show registry in order, and every event that grows it with no keyboard element focused invokes exactly the whole hide registry |
| `KeyboardTraces.TextareaScenario` | src/libs/NativeWebKeyboard/index.ts:33-48 | focus a text area and shrink the viewport from 800 to 500: the show subscriber runs once; clear the focus and grow back to 800: the hide subscriber runs once |

## Left out

- `Keyboard.dismiss` (index.ts:90) is a call into react-native, whose code is not part of this model.
- `scheduleLayoutAnimation` and `metrics` (index.ts:19, 92-93) always return `null` and have nothing to state.
- The `window.visualViewport` fallback object (index.ts:25-30) and `document.activeElement` are not modelled. The viewport height and the focused element are plain inputs of each resize.
- Real `addEventListener`/`removeEventListener` dispatch is a counter of attachments (`attachCount`). A resize event reaches the handler only while that counter is positive. The browser ignores a second registration of the same listener; under the invariant the counter never exceeds one, so the two agree.
- The contents of `CONST.INPUT_TYPES_WITH_KEYBOARD` are not part of this model. The set is the parameter `keyboardTypes`.
- Viewport heights are JavaScript numbers, which are floating point. The model uses integers; only their order matters.
- Callbacks are opaque ids. Invoking one is recorded in the returned call log. Its effects are not modelled: the model assumes a callback does not move focus, resize the viewport, subscribe, unsubscribe or throw while the handler runs. A callback that threw would stop the `forEach` and skip the snapshot refresh.
- Element identity (`!==` on DOM nodes) is equality of the `id` field (`SameNode`); an element's tag and `type` are what they are when it is observed, so a node whose `type` changed is still the same node. The DOM itself is not modelled: the focused element is a parameter of each resize event.
- The TypeScript type of `eventName` is not enforced at run time, so the model takes any string and keeps the run-time check.
- `src/components/EmojiPicker/EmojiPickerMenuItem/index.native.js` is a React list item, bound to the rendering framework. It is not part of this model.
- `src/libs/Notification/LocalNotification/types.ts` holds type declarations only and is not part of this model.
- The intent of the unsubscribe handle (remove the callback, then detach the handler once both registries are empty) is read from the shape of its code: a `filter` over the captured registry at index.ts:74 and index.ts:78, followed by the empty-registries guard at index.ts:81. The code as written does neither, because the filtered copy is discarded. The model follows the code and models the intended closure separately (see "## Findings").

## Findings

| source | as written | input that shows it | evidently intended | confidence | as-written member | corrected member |
|---|---|---|---|---|---|---|
| src/libs/NativeWebKeyboard/index.ts:72-85 | the unsubscribe closure calls `filter` and drops the result, so the callback stays registered, and the teardown guard never holds after a subscription | `addListener('keyboardDidShow', f)`, call the returned handle, then focus a text area and shrink the viewport: `f` is still invoked | assign the filtered array back to the registry, then detach when both registries are empty | high, not executed | `NativeWebKeyboard.UnsubscribeKeepsCallback` | `NativeWebKeyboard.UnsubscribeFixedRemovesCallback` |
