# Formation & focus coordinator

A Dafny model of the state machine behind an interactive 3D holiday scene.
The scene's decorative elements are either scattered or assembled into a
tree (`TreeState`). At most one "locket" can be focused at a time
(`activeLocketId`). The model covers:

- the zustand store that holds these two fields, with its mutators
  `setTreeState`, `toggleTreeState` and `setActiveLocketId`
  (`Store.AppStore`, specified by the pure `Store.Step`);
- the scene's target resolver: the spotlight, ambient, environment and rim
  light intensities aimed for while focused or unfocused (`Scene.Targets`);
- the orbit-control gate: zoom and auto-rotation only while unfocused,
  panning never (`Scene.Controls`);
- the overlay of the application: `isTree`, the formation button's
  enablement, text, fill and text colour, and the focus message
  (`App.View`). It also covers the button's click, which is swallowed
  while the button is disabled (`App.Click`, `App.ClickButton`).

"Focused" is JavaScript truthiness of `activeLocketId`
(`Types.Focused`): `null` and `""` both count as unfocused, and every
truthiness test in the scene and the overlay goes through that one
predicate. `null` is `Types.Option.None`.

The store's toggle itself has no focus guard. The model keeps it that way
(`Store.ToggleIgnoresFocus`). The guarantee that the formation does not
change while a locket is focused holds only through the button
(`App.ClicksWhileFocused`). Every enablement test uses truthiness, so an
empty identifier re-enables the button and the camera, just like `null`.

Light intensities are `real` constants. They are only compared, never
computed with.

## Model

| member | source | states |
|---|---|---|
| Types.Flip | store.ts:16-20 | the toggle's new formation always differs from the old one (`TREE_SHAPE` goes to `SCATTERED`, anything else to `TREE_SHAPE`) |
| Types.FlipInvolutive | store.ts:16-20 | flipping the formation twice gives it back |
| Types.NullAndEmptyAreUnfocused | Scene.tsx:25-26 | `null` and `""` are both falsy, so neither counts as a focus |
| Types.NonEmptyIsFocused | App.tsx:46 | a present identifier counts as a focus exactly when it is non-empty |
| Store.Initial | store.ts:14-22 | the store starts scattered with `activeLocketId = null`, so nothing is focused |
| Store.Step | store.ts:15-23 | each mutator changes only the field it names (shallow merge of `set`); `setTreeState` and `setActiveLocketId` store their argument; the toggle always changes the formation |
| Store.Toggles | store.ts:16-20 | after n toggles the focus is unchanged and the formation is flipped exactly when n is odd |
| Store.ToggleTwice | store.ts:16-20 | toggling twice is the identity on the whole state |
| Store.ToggleParity | store.ts:14-20 | from the initial state, the tree is assembled after n toggles exactly when n is odd, and the focus is still `null` |
| Store.ToggleIgnoresFocus | store.ts:16-20 | the toggle flips the formation even while a locket is focused, and keeps that focus; `Store.UnguardedToggleScenario` replays this on the store object |
| Store.SetTreeStateIdempotent | store.ts:15 | `setTreeState(s)` leaves the formation at s, and repeating it changes nothing |
| Store.FocusLastWriteWins | store.ts:23 | two focus writes leave exactly the second identifier and the formation unchanged |
| Store.RunFrames | store.ts:13-23 | any run of mutator calls without a focus write keeps the focus; any run of focus writes only keeps the formation |
| Store.RunLastFocusWins | store.ts:23 | whatever came before, a run ending with `setActiveLocketId(id)` leaves the focus at id |
| Store.AppStore.constructor | store.ts:13-24 | the store object is created scattered and unfocused |
| Store.AppStore.SetTreeState | store.ts:15 | overwrites the formation with its argument and leaves the focus alone |
| Store.AppStore.ToggleTreeState | store.ts:16-20 | overwrites the formation with the other one, with no focus guard, and leaves the focus alone |
| Store.AppStore.SetActiveLocketId | store.ts:23 | overwrites the focus with its argument (last write wins) and leaves the formation alone |
| Scene.Targets | Scene.tsx:25-50 | spotlight 140, ambient 0.3, environment 0.7 and rim 30 while focused; 200, 0.5, 1 and 50 otherwise |
| Scene.Controls | Scene.tsx:94-96 | pan is always off; zoom and auto-rotation are on exactly when nothing is focused |
| Scene.FocusDims | Scene.tsx:25-50 | every focused target is strictly below its unfocused counterpart |
| Scene.OnlyTruthinessMatters | Scene.tsx:25-96 | two identifiers with the same truthiness give the same targets and the same camera flags |
| Scene.InitialIntensitiesAtRest | Scene.tsx:25-45 | the ambient (0.5) and spotlight (200) intensities the lights are created with equal the targets for the store's initial (unfocused) state |
| App.View | App.tsx:8-60 | `isTree` holds exactly when the formation is `TREE_SHAPE`; the button is disabled and the message shown exactly while focused; "Disperse Elements", the full fill and the black text exactly when `isTree`, "Assemble Tree" otherwise |
| App.Click | App.tsx:45-46 | a click keeps the focus; while focused it changes nothing, while unfocused it flips the formation |
| App.ClickButton | App.tsx:45-46 | a click on the store object has exactly the effect of `App.Click` |
| App.ButtonDependsOnlyOn | App.tsx:46-60 | the button's text, fill and text colour depend only on the formation; its enablement only on the focus |
| App.ClicksWhileFocused | App.tsx:45-46 | while a locket is focused, any number of clicks leaves the state unchanged |
| App.ClicksWhileUnfocused | App.tsx:45-46 | while nothing is focused, n clicks act as n toggles, so the formation alternates |
| App.FocusScenario | App.tsx:33-46 | focusing "locket-3" from the initial state disables the button, shows the message, lowers the spotlight target and makes a click a no-op |

## Left out

- The damping of the spot and ambient lights (`easing.damp` from the maath library, Scene.tsx:29, 32): a foreign floating-point smoothing call whose code is not part of this model. The model records only its smoothing time, `Scene.SmoothTime` = 0.5, and the targets it is handed.
- The per-frame `useFrame` scheduling and the null checks on the light refs (Scene.tsx:22-34): render-loop plumbing.
- Canvas, camera, contact shadows, sparkles and the bloom, noise and vignette post-processing (Scene.tsx:59-124): rendering configuration that reads no state.
- `generateLocketData`, `InstancedTree` and `MemoryLocket`: their files are not part of this model, so which component calls `setActiveLocketId` is not modelled; the model allows any caller.
- zustand's subscription and notification and React re-rendering: the store is modelled as a plain object.
- The three.js position and rotation fields of `DualPosition` and the `active` flag of `LocketData` (types.ts:8-18): geometry data, and nothing modelled computes `active`.
- CSS classes and layout of the overlay other than the fill, the text colour and the text, among them the opacity class of the disabled button (App.tsx:52).
