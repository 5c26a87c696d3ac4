/** The control-props toggle: the `useToggle` hook together with the
    `Toggle` component that uses it. One object is one mounted `Toggle`;
    each render and each click is one step. */
module ControlProps {
  import opened Wrappers
  import opened ToggleReducer
  import opened ControlWarnings
  import PropGetters

  /** What `onChange` receives: the would-be next state and the action. */
  datatype Notification = Notification(state: ToggleState, action: Action)

  /** The props of one render of `Toggle`; `on` is absent when it is `null`
      or `undefined`, and `hasOnChange` says whether an `onChange` is given. */
  datatype ToggleProps = ToggleProps(on: Option<bool>, initialOn: bool, hasOnChange: bool, readOnly: bool)

  /** A call a click makes into code outside the toggle. */
  datatype Event = CallerCalled(id: string) | OnChangeCalled(notification: Notification)

  /** What the closures of one render see: whether `on` is controlled, the
      `on` shown, whether `onChange` is given, and the mount-time state. */
  datatype Snapshot = Snapshot(controlled: bool, renderOn: bool, hasOnChange: bool, initialState: ToggleState)

  /** The reducer's `on` after `dispatchWithOnChange(action)`: a controlled
      toggle never dispatches. */
  function NextInternal(controlled: bool, internalOn: bool, action: Action): (on: bool)
    requires Supported(action)
    ensures controlled ==> on == internalOn
    ensures !controlled && action.ToggleAction? ==> on == !internalOn
    ensures !controlled && action.ResetAction? ==> on == action.initialState.on
  {
    if controlled then internalOn else Next(ToggleState(internalOn), action).on
  }

  /** The `onChange` call of `dispatchWithOnChange(action)`: made only when
      `onChange` is given, with the reducer applied to the state whose `on`
      is the one shown, and the action. */
  function Notify(hasOnChange: bool, renderOn: bool, action: Action): (n: Option<Notification>)
    requires Supported(action)
    ensures n.Some? <==> hasOnChange
    ensures n.Some? ==> n.value.action == action && Reduce(ToggleState(renderOn), action) == Success(n.value.state)
  {
    if hasOnChange then Some(Notification(Next(ToggleState(renderOn), action), action)) else None
  }

  /** The trace so far and the reducer's `on`, while a click runs. */
  datatype ClickOutcome = ClickOutcome(trace: seq<Event>, internalOn: bool)

  function NotifyEvents(n: Option<Notification>): seq<Event> {
    match n
    case Some(v) => [OnChangeCalled(v)]
    case None => []
  }

  /** `dispatchWithOnChange(action)` within a click. */
  function DispatchStep(action: Action, snap: Snapshot, o: ClickOutcome): (r: ClickOutcome)
    requires Supported(action)
    ensures r.internalOn == NextInternal(snap.controlled, o.internalOn, action)
    ensures |r.trace| == |o.trace| + (if snap.hasOnChange then 1 else 0)
    ensures r.trace[..|o.trace|] == o.trace
    ensures snap.hasOnChange ==>
      r.trace[|o.trace|].OnChangeCalled? && r.trace[|o.trace|].notification.action == action
      && Reduce(ToggleState(snap.renderOn), action) == Success(r.trace[|o.trace|].notification.state)
  {
    ClickOutcome(o.trace + NotifyEvents(Notify(snap.hasOnChange, snap.renderOn, action)),
                 NextInternal(snap.controlled, o.internalOn, action))
  }

  /** Calling one function of a click handler. */
  function CallStep(cb: PropGetters.Callback, snap: Snapshot, o: ClickOutcome): ClickOutcome {
    match cb
    case CallerFn(id) => ClickOutcome(o.trace + [CallerCalled(id)], o.internalOn)
    case ToggleFn => DispatchStep(ToggleAction, snap, o)
    case ResetFn => DispatchStep(ResetAction(snap.initialState), snap, o)
  }

  /** A click on a composed handler `fns`: each present function is called
      in order, absent ones are skipped. */
  function RunClick(fns: seq<Option<PropGetters.Callback>>, snap: Snapshot, internalOn: bool): (o: ClickOutcome)
    decreases |fns|
  {
    if fns == [] then ClickOutcome([], internalOn)
    else
      var before := RunClick(fns[..|fns| - 1], snap, internalOn);
      match fns[|fns| - 1]
      case None => before
      case Some(cb) => CallStep(cb, snap, before)
  }

  /** A controlled toggle's own state survives any click: whatever the
      handler calls, `toggle` and `reset` do not dispatch. */
  lemma {:induction false} ControlledClickKeepsState(fns: seq<Option<PropGetters.Callback>>, snap: Snapshot, internalOn: bool)
    requires snap.controlled
    ensures RunClick(fns, snap, internalOn).internalOn == internalOn
    decreases |fns|
  {
    if fns != [] {
      ControlledClickKeepsState(fns[..|fns| - 1], snap, internalOn);
    }
  }

  /** In uncontrolled mode, the state passed to `onChange` is the reducer's
      new state. */
  lemma UncontrolledNotifiesNewState(internalOn: bool, action: Action)
    requires Supported(action)
    ensures var n := Notify(true, internalOn, action);
            n.Some? && n.value.state.on == NextInternal(false, internalOn, action)
  {
  }

  /** How many `onChange` calls a trace holds. */
  function OnChangeCount(trace: seq<Event>): nat
    decreases |trace|
  {
    if trace == [] then 0
    else OnChangeCount(trace[..|trace| - 1]) + if trace[|trace| - 1].OnChangeCalled? then 1 else 0
  }

  /** Counting `onChange` calls distributes over concatenation. */
  lemma {:induction false} OnChangeCountAppend(a: seq<Event>, b: seq<Event>)
    ensures OnChangeCount(a + b) == OnChangeCount(a) + OnChangeCount(b)
    decreases |b|
  {
    if b == [] {
      assert a + b == a;
    } else {
      var b' := b[..|b| - 1];
      assert (a + b)[..|a + b| - 1] == a + b';
      assert (a + b)[|a + b| - 1] == b[|b| - 1];
      OnChangeCountAppend(a, b');
    }
  }

  /** A click makes one `onChange` call per `toggle` or `reset` it reaches
      when `onChange` is given, and none otherwise. */
  lemma {:induction false} OnChangeOncePerDispatch(fns: seq<Option<PropGetters.Callback>>, snap: Snapshot, internalOn: bool)
    ensures OnChangeCount(RunClick(fns, snap, internalOn).trace) ==
            if snap.hasOnChange then ManagerCalls(fns) else 0
    decreases |fns|
  {
    if fns != [] {
      var init := fns[..|fns| - 1];
      OnChangeOncePerDispatch(init, snap, internalOn);
      var before := RunClick(init, snap, internalOn);
      match fns[|fns| - 1]
      case None =>
      case Some(cb) =>
        match cb
        case CallerFn(id) =>
          OnChangeCountAppend(before.trace, [CallerCalled(id)]);
          assert OnChangeCount([CallerCalled(id)]) == 0;
        case ToggleFn =>
          var n := Notify(snap.hasOnChange, snap.renderOn, ToggleAction);
          OnChangeCountAppend(before.trace, NotifyEvents(n));
          assert OnChangeCount(NotifyEvents(n)) == if snap.hasOnChange then 1 else 0;
        case ResetFn =>
          var n := Notify(snap.hasOnChange, snap.renderOn, ResetAction(snap.initialState));
          OnChangeCountAppend(before.trace, NotifyEvents(n));
          assert OnChangeCount(NotifyEvents(n)) == if snap.hasOnChange then 1 else 0;
    }
  }

  /** How many of the manager's own functions (`toggle`, `reset`) are in `fns`. */
  function ManagerCalls(fns: seq<Option<PropGetters.Callback>>): nat
    decreases |fns|
  {
    if fns == [] then 0
    else
      ManagerCalls(fns[..|fns| - 1])
        + if fns[|fns| - 1].Some? && !fns[|fns| - 1].value.CallerFn? then 1 else 0
  }

  /** The caller's `onClick`, as the list of functions it contributes. */
  function CallerFns(props: PropGetters.Props): (fs: seq<PropGetters.Callback>)
    requires PropGetters.CallerOnClickOk(props)
    ensures |fs| <= 1
    ensures fs == [] <==> PropGetters.CallerOnClick(props).None?
  {
    match PropGetters.CallerOnClick(props)
    case Some(cb) => [cb]
    case None => []
  }

  /** The caller's `onClick` as it shows up in a trace. */
  function CallerEvents(props: PropGetters.Props): seq<Event>
    requires PropGetters.CallerOnClickOk(props)
  {
    match PropGetters.CallerOnClick(props)
    case Some(cb) => if cb.CallerFn? then [CallerCalled(cb.id)] else []
    case None => []
  }

  /** Clicking what `getTogglerProps` returns calls the caller's `onClick`
      (when given) before `toggle`, and `toggle` then does what
      `dispatchWithOnChange` does with a toggle action. */
  lemma TogglerClick(props: PropGetters.Props, snap: Snapshot, internalOn: bool)
    requires PropGetters.CallerOnClickOk(props)
    requires PropGetters.CallerOnClick(props).Some? ==> PropGetters.CallerOnClick(props).value.CallerFn?
    ensures var o := RunClick(PropGetters.TogglerProps(snap.renderOn, props)[PropGetters.OnClickKey].fns, snap, internalOn);
            && o.trace == CallerEvents(props) + NotifyEvents(Notify(snap.hasOnChange, snap.renderOn, ToggleAction))
            && o.internalOn == NextInternal(snap.controlled, internalOn, ToggleAction)
  {
    var fns := [PropGetters.CallerOnClick(props), Some(PropGetters.ToggleFn)];
    assert PropGetters.TogglerProps(snap.renderOn, props)[PropGetters.OnClickKey].fns == fns;
    assert fns[..1] == [fns[0]] && fns[..1][..0] == [];
    var first := RunClick(fns[..1], snap, internalOn);
    assert RunClick(fns[..1][..0], snap, internalOn) == ClickOutcome([], internalOn);
    match fns[0] {
      case None =>
      case Some(cb) =>
        assert first == ClickOutcome([] + [CallerCalled(cb.id)], internalOn);
    }
    assert first == ClickOutcome(CallerEvents(props), internalOn);
    assert RunClick(fns, snap, internalOn) == DispatchStep(ToggleAction, snap, first);
  }

  /** Clicking what `getResetterProps` returns calls the caller's `onClick`
      (when given) and then `reset`, which brings the reducer back to the
      mount-time state unless the toggle is controlled. */
  lemma ResetterClick(props: PropGetters.Props, snap: Snapshot, internalOn: bool)
    requires PropGetters.CallerOnClickOk(props)
    requires PropGetters.CallerOnClick(props).Some? ==> PropGetters.CallerOnClick(props).value.CallerFn?
    ensures var o := RunClick(PropGetters.ResetterProps(props)[PropGetters.OnClickKey].fns, snap, internalOn);
            && o.trace == CallerEvents(props) + NotifyEvents(Notify(snap.hasOnChange, snap.renderOn, ResetAction(snap.initialState)))
            && o.internalOn == if snap.controlled then internalOn else snap.initialState.on
  {
    var fns := [PropGetters.CallerOnClick(props), Some(PropGetters.ResetFn)];
    assert PropGetters.ResetterProps(props)[PropGetters.OnClickKey].fns == fns;
    assert fns[..1] == [fns[0]] && fns[..1][..0] == [];
    var first := RunClick(fns[..1], snap, internalOn);
    assert RunClick(fns[..1][..0], snap, internalOn) == ClickOutcome([], internalOn);
    match fns[0] {
      case None =>
      case Some(cb) =>
        assert first == ClickOutcome([] + [CallerCalled(cb.id)], internalOn);
    }
    assert first == ClickOutcome(CallerEvents(props), internalOn);
    assert RunClick(fns, snap, internalOn) == DispatchStep(ResetAction(snap.initialState), snap, first);
  }

  /** A mounted `Toggle`: the reducer's state, the state captured once at
      mount, the latest props, and the previous render's "is controlled"
      flag kept by `usePrevious`. `production` says whether warnings are
      suppressed; the variant without suppression is `production == false`. */
  class ControlledToggle {
    const production: bool
    const initialState: ToggleState
    var internalOn: bool
    var controlledOn: Option<bool>
    var hasOnChange: bool
    var readOnly: bool
    var prevControlled: Option<bool>

    /** Mounting: the initial state is `{on: initialOn}` and is never read
        from the props again; there is no previous render yet. */
    constructor (props: ToggleProps, production: bool)
      ensures this.production == production
      ensures initialState == ToggleState(props.initialOn) && internalOn == props.initialOn
      ensures controlledOn == props.on && hasOnChange == props.hasOnChange && readOnly == props.readOnly
      ensures prevControlled == None
    {
      this.production := production;
      initialState := ToggleState(props.initialOn);
      internalOn := props.initialOn;
      controlledOn := props.on;
      hasOnChange := props.hasOnChange;
      readOnly := props.readOnly;
      prevControlled := None;
    }

    /** `onIsControlled`: `on` is neither `null` nor `undefined`. */
    function IsControlled(): bool
      reads this
    {
      controlledOn.Some?
    }

    /** The `on` the hook returns: the controlled value when there is one,
        else the reducer's. */
    function On(): (on: bool)
      reads this
      ensures IsControlled() ==> on == controlledOn.value
      ensures !IsControlled() ==> on == internalOn
    {
      controlledOn.GetOr(internalOn)
    }

    /** What this render's closures see. */
    function Snap(): (s: Snapshot)
      reads this
      ensures s.controlled == IsControlled() && s.renderOn == On()
      ensures s.hasOnChange == hasOnChange && s.initialState == initialState
    {
      Snapshot(IsControlled(), On(), hasOnChange, initialState)
    }

    /** `getTogglerProps` of this render. */
    function GetTogglerProps(props: PropGetters.Props): (out: PropGetters.Props)
      reads this
      requires PropGetters.CallerOnClickOk(props)
      ensures out == PropGetters.TogglerProps(On(), props)
      ensures PropGetters.AriaPressedKey in out
      ensures PropGetters.AriaPressedKey !in props ==> out[PropGetters.AriaPressedKey] == PropGetters.BoolValue(On())
    {
      PropGetters.TogglerProps(On(), props)
    }

    /** `getResetterProps` of this render. */
    function GetResetterProps(props: PropGetters.Props): (out: PropGetters.Props)
      reads this
      requires PropGetters.CallerOnClickOk(props)
      ensures out.Keys == props.Keys + {PropGetters.OnClickKey}
      ensures out[PropGetters.OnClickKey].Handler?
      ensures PropGetters.Present(out[PropGetters.OnClickKey].fns) == CallerFns(props) + [PropGetters.ResetFn]
      ensures forall k :: k in props && k != PropGetters.OnClickKey ==> out[k] == props[k]
    {
      PropGetters.ResetterProps(props)
    }

    /** The props `Toggle` hands to its `Switch`: `getTogglerProps({on})`. */
    function SwitchProps(): (out: PropGetters.Props)
      reads this
      ensures out.Keys == {"on", PropGetters.AriaPressedKey, PropGetters.OnClickKey}
      ensures out["on"] == out[PropGetters.AriaPressedKey] == PropGetters.BoolValue(On())
      ensures out[PropGetters.OnClickKey] == PropGetters.Handler([None, Some(PropGetters.ToggleFn)])
    {
      GetTogglerProps(map["on" := PropGetters.BoolValue(On())])
    }

    /** A re-render with new props. The reducer's state and the mount-time
        state stay as they are (a new `initialOn` is ignored); the effects
        report this render's warnings and `usePrevious` records whether it
        was controlled. */
    method Render(props: ToggleProps) returns (warnings: set<Warning>)
      modifies this
      ensures internalOn == old(internalOn)
      ensures controlledOn == props.on && hasOnChange == props.hasOnChange && readOnly == props.readOnly
      ensures prevControlled == Some(props.on.Some?)
      ensures warnings == RenderWarnings(production, old(prevControlled), props.on.Some?, props.hasOnChange, props.readOnly)
    {
      controlledOn := props.on;
      hasOnChange := props.hasOnChange;
      readOnly := props.readOnly;
      var controlled := controlledOn.Some?;
      warnings := RenderWarnings(production, prevControlled, controlled, hasOnChange, readOnly);
      prevControlled := Some(controlled);
    }

    /** `dispatchWithOnChange(action)` from a closure of the render `snap`:
        dispatch unless controlled, then the `onChange` call if any. */
    method DispatchWithOnChange(action: Action, snap: Snapshot) returns (n: Option<Notification>)
      requires Supported(action)
      modifies this`internalOn
      ensures internalOn == NextInternal(snap.controlled, old(internalOn), action)
      ensures n == Notify(snap.hasOnChange, snap.renderOn, action)
    {
      if !snap.controlled {
        internalOn := Next(ToggleState(internalOn), action).on;
      }
      if snap.hasOnChange {
        n := Some(Notification(Next(ToggleState(snap.renderOn), action), action));
      } else {
        n := None;
      }
    }

    /** `toggle()`: flips the reducer's `on` unless controlled and returns
        the `onChange` call, which reports the flipped shown `on`. */
    method Toggle() returns (n: Option<Notification>)
      modifies this`internalOn
      ensures internalOn == if IsControlled() then old(internalOn) else !old(internalOn)
      ensures On() == if IsControlled() then controlledOn.value else !old(On())
      ensures n.Some? <==> hasOnChange
      ensures n.Some? ==> n.value == Notification(ToggleState(!old(On())), ToggleAction)
    {
      n := DispatchWithOnChange(ToggleAction, Snap());
    }

    /** `reset()`: restores the mount-time state unless controlled and
        returns the `onChange` call, which reports that state. */
    method Reset() returns (n: Option<Notification>)
      modifies this`internalOn
      ensures internalOn == if IsControlled() then old(internalOn) else initialState.on
      ensures n.Some? <==> hasOnChange
      ensures n.Some? ==> n.value == Notification(initialState, ResetAction(initialState))
    {
      n := DispatchWithOnChange(ResetAction(initialState), Snap());
    }

    /** A click on a composed handler of this render: `callAll`'s `forEach`
        over `fns`. */
    method Click(fns: seq<Option<PropGetters.Callback>>) returns (trace: seq<Event>)
      modifies this`internalOn
      ensures ClickOutcome(trace, internalOn) == RunClick(fns, old(Snap()), old(internalOn))
    {
      var snap := Snap();
      trace := [];
      for i := 0 to |fns|
        invariant ClickOutcome(trace, internalOn) == RunClick(fns[..i], snap, old(internalOn))
      {
        assert fns[..i + 1][..i] == fns[..i];
        match fns[i]
        case None =>
        case Some(cb) =>
          match cb
          case CallerFn(id) =>
            trace := trace + [CallerCalled(id)];
          case ToggleFn =>
            var n := DispatchWithOnChange(ToggleAction, snap);
            trace := trace + NotifyEvents(n);
          case ResetFn =>
            var n := DispatchWithOnChange(ResetAction(snap.initialState), snap);
            trace := trace + NotifyEvents(n);
      }
      assert fns[..|fns|] == fns;
    }
  }
}
