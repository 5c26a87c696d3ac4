# Toggle state machine with control props, prop getters and compound children

A Dafny model of the stateful logic under a set of React pattern exercises:

- the toggle reducer (`toggle` flips `on`, `reset` returns the state captured at
  mount, any other action type throws);
- the control-props toggle (`useToggle` plus the `Toggle` component): a toggle is
  *controlled* when its `on` prop is neither `null` nor `undefined`; then it never
  dispatches and only reports the would-be next state through `onChange`;
  otherwise it owns `on` in its reducer state;
- the three warnings of `Toggle` (switching uncontrolled → controlled, controlled →
  uncontrolled, and a controlled field with neither `onChange` nor `readOnly`),
  with the production-mode suppression of `06.extra-4.js` as an explicit flag
  (`06.extra-2.js`, which never suppresses, is the flag set to false);
- the demo `App` where two controlled toggles share `bothOn` and a click counter
  that stops counting toggles past five;
- prop getters: caller props merged with the manager's `aria-pressed` and a
  composed `onClick`, with `callAll` (caller first, then `toggle`/`reset`) and the
  prop-getters exercise's toggle-first handler;
- the compound-components `Toggle` that injects `on`/`toggle` into function-component
  children and passes host elements through, and `ToggleOn`/`ToggleOff`.

Props are a `map<string, PropValue>`; a function in a prop is a tag
(`CallerFn(id)` for code the caller wrote, `ToggleFn`, `ResetFn`), and a composed
handler is the ordered list of optional functions it calls. A click runs that list
as `forEach` does and yields a trace of the calls into outside code (the caller's
handlers and `onChange`). Each render and each click is one step; within a click
every closure sees the `on` of the render it came from, while dispatches apply to
the latest reducer state, as React's `useReducer` does.

Files: `wrappers.dfy` (Option, Result), `toggle_reducer.dfy`, `control_warnings.dfy`,
`prop_getters.dfy`, `control_props.dfy` (class `ControlledToggle`),
`control_props_app.dfy` (class `SharedToggleApp` and a scenario of five counted
clicks, an ignored sixth and a reset), `prop_getters_toggle.dfy` (class
`PropGetterToggle` and the scenario of the exercise's tests),
`compound_toggle.dfy`.

## Model

| member | source | states |
|---|---|---|
| `ToggleReducer.TypeOf` | src/exercise/06.extra-4.js:41-44 | the type is `toggle` iff the action is a toggle, `reset` iff a reset; any other action carries its own type, which is neither |
| `ToggleReducer.Reduce` | src/exercise/06.extra-4.js:46-58 | a state comes out iff the type is toggle or reset; toggle negates `on`; reset yields the carried initial state; any other type fails with `Unsupported type: <type>` |
| `ToggleReducer.ToggleIsSelfInverse` | src/exercise/06.extra-2.js:26-30 | toggling twice returns the original state |
| `ToggleReducer.ResetForgetsState` | src/exercise/06.extra-4.js:51-53 | a reset yields the carried state whatever the current state |
| `ToggleReducer.TogglesAlternate` | src/exercise/06.extra-4.js:46-50 | after n toggles `on` is flipped iff n is odd, so from off the states alternate off, on, off, ... |
| `ToggleReducer.UnsupportedAborts` | src/exercise/06.extra-2.js:34-36 | an unsupported action after supported ones makes the whole sequence an error |
| `ToggleReducer.ResetLastWins` | src/exercise/06.extra-2.js:31-33 | after any supported actions, a final reset leaves exactly the mount-time state |
| `ControlWarnings.Warn` | src/exercise/06.extra-4.js:11-14 | a warning is reported iff not in production and its condition is false |
| `ControlWarnings.RenderWarnings` | src/exercise/06.extra-2.js:102-115 | uncontrolled→controlled iff previous flag is false and now controlled; controlled→uncontrolled iff previous is true and now uncontrolled; read-only iff controlled without `onChange` and `readOnly`; none on the first render's switch checks; nothing in production |
| `ControlWarnings.SwitchWarnings` | src/exercise/06.extra-4.js:26-38 | the switch warnings are the render's warnings minus the read-only one, whatever `onChange`/`readOnly` are |
| `ControlWarnings.SwitchWarningCount` | src/exercise/06.extra-4.js:29-37 | outside production a render reports one switch warning when the mode changed and none otherwise, none on first render |
| `ControlWarnings.PrevMode` | src/exercise/06.extra-4.js:16-24 | the value `usePrevious` gives is absent exactly on the first render, otherwise the previous render's flag |
| `ControlWarnings.OneWarningPerSwitch` | src/exercise/06.extra-2.js:96-115 | over any sequence of renders the number of switch warnings equals the number of mode changes |
| `PropGetters.CallerOnClick` | src/exercise/06.extra-4.js:84 | the destructured `onClick` is present iff the caller gave a function under `onClick` |
| `PropGetters.Present` | src/exercise/06.extra-4.js:9 | the functions a composed handler calls are exactly its present entries, never more than the entries |
| `PropGetters.CallAll` | src/exercise/06.extra-4.js:9 | `callAll` builds a handler calling the present functions in the given order |
| `PropGetters.TogglerProps` | src/exercise/06.extra-4.js:84-90 | output keys are the caller's plus `onClick` and `aria-pressed`; `onClick` calls the caller's handler (if any) then `toggle`; `aria-pressed` is `on` unless the caller supplies it; every other caller prop passes through |
| `PropGetters.ResetterProps` | src/exercise/06.extra-2.js:72-77 | output keys are the caller's plus `onClick`; `onClick` calls the caller's handler (if any) then `reset`; other caller props pass through |
| `PropGetters.ToggleFirstTogglerProps` | src/exercise/04.extra-1.js:14-22 | same merge, but `onClick` calls `toggle` first and then the caller's handler, skipping it when absent; the caller's `onClick` can never replace it |
| `PropGetters.TogglerGettersDifferOnlyInOrder` | src/exercise/04.extra-1.js:16-20 | the two toggler getters yield the same keys and pass-through props and call the same functions in reverse order |
| `ControlProps.NextInternal` | src/exercise/06.extra-4.js:69-73 | a controlled toggle never changes its reducer state; an uncontrolled one flips on toggle and takes the initial state on reset |
| `ControlProps.Notify` | src/exercise/06.extra-4.js:72-75 | `onChange` is called iff given, with the action and the reducer applied to the shown `on` |
| `ControlProps.DispatchStep` | src/exercise/06.extra-2.js:52-55 | one `dispatchWithOnChange` within a click: the reducer state follows `NextInternal`, the earlier trace is kept, and exactly one `onChange` call (with the action and the reducer applied to the shown `on`) is appended iff `onChange` is given |
| `ControlProps.ControlledClickKeepsState` | src/exercise/06.extra-2.js:49-53 | no click of any handler changes a controlled toggle's reducer state |
| `ControlProps.UncontrolledNotifiesNewState` | src/exercise/06.extra-4.js:72-75 | uncontrolled, the state passed to `onChange` is the reducer's new state |
| `ControlProps.OnChangeOncePerDispatch` | src/exercise/06.extra-4.js:72-75 | a click makes one `onChange` call per `toggle`/`reset` it reaches when `onChange` is given, none otherwise |
| `ControlProps.TogglerClick` | src/exercise/06.extra-4.js:84-90 | clicking the toggler's `onClick` calls the caller's handler first, then toggles (unless controlled) and notifies with the flipped shown `on` |
| `ControlProps.ResetterClick` | src/exercise/06.extra-2.js:60-77 | clicking the resetter's `onClick` calls the caller's handler first, then restores the mount-time state (unless controlled) and notifies with it |
| `ControlProps.ControlledToggle.constructor` | src/exercise/06.extra-4.js:60-67 | the mount-time state is `{on: initialOn}`, the reducer starts there, and there is no previous render |
| `ControlProps.ControlledToggle.On` | src/exercise/06.extra-4.js:69-70 | the shown `on` is the controlled value when there is one, else the reducer's |
| `ControlProps.ControlledToggle.GetTogglerProps` | src/exercise/06.extra-4.js:84-90 | this render's toggler props: `aria-pressed` is the shown `on` unless the caller supplies it |
| `ControlProps.ControlledToggle.GetResetterProps` | src/exercise/06.extra-4.js:92-97 | this render's resetter props: the caller's keys plus `onClick`, which calls the caller's handler (if any) and then `reset`; other caller props pass through |
| `ControlProps.ControlledToggle.SwitchProps` | src/exercise/06.extra-4.js:114 | the switch gets `on` and `aria-pressed` equal to the shown `on` and an `onClick` that calls only `toggle` |
| `ControlProps.ControlledToggle.Render` | src/exercise/06.extra-2.js:88-115 | a re-render takes the new props, keeps the reducer and mount-time state (a new `initialOn` is ignored), reports the render's warnings and records the controlled flag for the next render |
| `ControlProps.ControlledToggle.DispatchWithOnChange` | src/exercise/06.extra-2.js:52-55 | dispatches unless controlled; the `onChange` call uses the render's shown `on` |
| `ControlProps.ControlledToggle.Toggle` | src/exercise/06.extra-4.js:77-79 | flips the reducer state unless controlled (then the shown `on` stays the controlled value); `onChange`, when given, gets the flipped shown `on` and the toggle action |
| `ControlProps.ControlledToggle.Reset` | src/exercise/06.extra-4.js:80-82 | restores the mount-time state unless controlled; `onChange`, when given, gets that state and the reset action |
| `ControlProps.ControlledToggle.Click` | src/exercise/06.extra-4.js:9 | running a composed handler calls its present functions in order; trace and state are those of `RunClick` from this render |
| `ControlPropsApp.DisplayFor` | src/exercise/06.extra-2.js:143-150 | the notice shows iff more than four clicks were counted, otherwise the count |
| `ControlPropsApp.CountCappedAtFive` | src/exercise/06.extra-2.js:124-130 | from at most five, any number of toggle notifications leaves the counter at min(start + n, 5) |
| `ControlPropsApp.SharedToggleApp.constructor` | src/exercise/06.extra-2.js:121-122 | `bothOn` starts false and the counter at zero |
| `ControlPropsApp.SharedToggleApp.Shown` | src/exercise/06.extra-4.js:153-160 | the notice shows iff the counter is above four; otherwise the count shown is the counter |
| `ControlPropsApp.SharedToggleApp.HandleToggleChange` | src/exercise/06.extra-4.js:134-140 | a toggle notification past four counted clicks changes nothing; any other sets `bothOn` to the reported `on` and counts one click |
| `ControlPropsApp.SharedToggleApp.HandleResetClick` | src/exercise/06.extra-2.js:132-135 | Reset sets `bothOn` false and the counter to zero, so the count shows again |
| `ControlPropsApp.ClickSharedToggle` | src/exercise/06.extra-2.js:124-141 | a click on a shared controlled toggle leaves its own state and reports no warning; `bothOn` flips and the count rises only while the counter is at most four; the counter never passes five |
| `PropGettersToggle.PropGetterToggle.constructor` | src/exercise/04.extra-1.js:11 | `on` starts false |
| `PropGettersToggle.PropGetterToggle.Toggle` | src/exercise/04.extra-1.js:12 | `toggle` flips `on` |
| `PropGettersToggle.PropGetterToggle.GetTogglerProps` | src/exercise/04.extra-1.js:14-22 | this render's props; `aria-pressed` is `on` unless the caller supplies it |
| `PropGettersToggle.PropGetterToggle.ClickToggler` | src/exercise/04.extra-1.js:16-20 | a click flips `on` and calls `toggle` first, then the caller's `onClick` only when present |
| `CompoundToggle.CloneWithToggle` | src/exercise/02.extra-1.js:16 | the clone keeps the component and its other props and has `on` set to the current value and `toggle` to the parent's toggle |
| `CompoundToggle.MapChildren` | src/exercise/02.extra-1.js:14-18 | same number and order of children; function-component children get `on`/`toggle`; host children come back unchanged |
| `CompoundToggle.RenderToggleOn` | src/exercise/02.extra-1.js:21 | renders its children iff `on` is truthy |
| `CompoundToggle.RenderToggleOff` | src/exercise/02.extra-1.js:23 | renders its children iff `on` is not truthy |
| `CompoundToggle.OnOffExclusive` | src/exercise/02.extra-1.js:21-23 | exactly one of `ToggleOn`/`ToggleOff` renders |
| `CompoundToggle.CompoundToggleState.constructor` | src/exercise/02.extra-1.js:11 | `on` starts false |
| `CompoundToggle.CompoundToggleState.Toggle` | src/exercise/02.extra-1.js:12 | `toggle` flips `on` |
| `CompoundToggle.CompoundToggleState.Render` | src/exercise/02.extra-1.js:14-18 | `Toggle` renders as many children as it has, in order, each mapped with its current `on`; host children unchanged |
| `CompoundToggle.AppChildrenRender` | src/exercise/02.extra-1.js:27-38 | in the exercise's tree the "on" message shows iff `on`, the "off" message iff not, the `<span>` is untouched and the button receives `on` and `toggle` |

## Left out

- The pluggable `reducer` argument of `useToggle`: only the default toggle reducer is modelled.
- JSX rendering, the `Switch` component (not part of this model), `ToggleButton`'s output, DOM/ARIA output, and the uncontrolled demo toggle whose `onChange` only logs with `console.info`.
- React's scheduling: `useReducer`, `useRef` and `useEffect` internals. Each render and each click is one step; `usePrevious` is the previous render's value.
- ControlledToggle.Render: reports the read-only warning on every render where its condition holds; React re-runs that effect only when its dependencies change: `onIsControlled`, `onChange` or `readOnly` in `06.extra-4.js`, and additionally `prevOnIsControlled` in `06.extra-2.js`. (The switch warnings are unaffected: whenever one fires, its dependencies changed.)
- The text of the warning messages and the `warning` package itself; `process.env.NODE_ENV` is the `production` flag.
- Exceptions inside `callAll`: `forEach` stops at the first throw, so later handlers do not run, and the model does not claim they do.
- Caller-written handlers are opaque: a caller-written function of any kind is represented as a `CallerFn` tag, so a composed `Handler` value is not accepted as the caller's `onClick`, and a caller `onClick` that is neither a function nor `null`/`undefined` is excluded by `CallerOnClickOk`.
- ControlledToggle.DispatchWithOnChange: requires a toggle or reset action; the hook only ever builds those two, so the reducer's error path is never reached from it.
- `React.Children.map`'s handling of `null`, boolean and nested-array children and of element keys; children are a flat list of elements.
- The allow-list of component kinds suggested in a comment of `02.extra-1.js`: the code tests `typeof child.type === 'function'`, and so does the model.
- The test utilities (`renderToggle`, `userEvent`); the scenario `PropGettersToggle.PropGettersScenario` restates their two tests as assertions.
