/** Prop getters: a caller's props merged with the props a toggle manager
    owns. Props are a map from prop names to values; a function is a tag,
    and a composed click handler is the ordered list of the functions it
    calls, each of which may be absent. */
module PropGetters {
  import opened Wrappers

  /** A function that can sit in a prop: one the caller wrote (opaque to the
      model, known by a tag) or the manager's own `toggle` or `reset`. */
  datatype Callback = CallerFn(id: string) | ToggleFn | ResetFn

  datatype PropValue =
    | BoolValue(b: bool)
    | StringValue(s: string)
    | NullValue
    | FnValue(fn: Callback)
      /** A click handler built by composition: calls each present entry of
          `fns` in order, skipping absent ones. */
    | Handler(fns: seq<Option<Callback>>)

  type Props = map<string, PropValue>

  const OnClickKey: string := "onClick"
  const AriaPressedKey: string := "aria-pressed"

  /** The caller's `onClick`, when given, is a function, `null` or `undefined`. */
  predicate CallerOnClickOk(props: Props) {
    OnClickKey in props ==> props[OnClickKey].FnValue? || props[OnClickKey].NullValue?
  }

  /** `onClick` destructured from the caller's props. */
  function CallerOnClick(props: Props): (f: Option<Callback>)
    requires CallerOnClickOk(props)
    ensures f.Some? <==> OnClickKey in props && props[OnClickKey].FnValue?
    ensures f.Some? ==> props[OnClickKey] == FnValue(f.value)
  {
    if OnClickKey in props && props[OnClickKey].FnValue? then Some(props[OnClickKey].fn) else None
  }

  /** The present entries of a list of optional functions, in order. */
  function Present(fns: seq<Option<Callback>>): (r: seq<Callback>)
    ensures |r| <= |fns|
    ensures forall f :: f in r <==> Some(f) in fns
    decreases |fns|
  {
    if fns == [] then []
    else
      (match fns[0] case Some(f) => [f] case None => []) + Present(fns[1..])
  }

  /** `callAll(...fns)`: a handler calling each present function in order. */
  function CallAll(fns: seq<Option<Callback>>): (h: PropValue)
    ensures h.Handler? && Present(h.fns) == Present(fns)
  {
    Handler(fns)
  }

  /** `getTogglerProps` of the control-props hook: `aria-pressed` is `on`
      and `onClick` calls the caller's `onClick` and then `toggle`; the rest
      of the caller's props are spread last, so they win over `aria-pressed`
      but can no longer carry an `onClick`. */
  function TogglerProps(on: bool, props: Props): (out: Props)
    requires CallerOnClickOk(props)
    ensures out.Keys == props.Keys + {OnClickKey, AriaPressedKey}
    ensures out[OnClickKey].Handler?
    ensures Present(out[OnClickKey].fns) ==
            (if OnClickKey in props && props[OnClickKey].FnValue? then [props[OnClickKey].fn] else []) + [ToggleFn]
    ensures out[AriaPressedKey] == if AriaPressedKey in props then props[AriaPressedKey] else BoolValue(on)
    ensures forall k :: k in props && k != OnClickKey ==> out[k] == props[k]
  {
    map[AriaPressedKey := BoolValue(on), OnClickKey := CallAll([CallerOnClick(props), Some(ToggleFn)])]
      + (props - {OnClickKey})
  }

  /** `getResetterProps`: `onClick` calls the caller's `onClick` and then
      `reset`; every other caller prop passes through. */
  function ResetterProps(props: Props): (out: Props)
    requires CallerOnClickOk(props)
    ensures out.Keys == props.Keys + {OnClickKey}
    ensures out[OnClickKey].Handler?
    ensures Present(out[OnClickKey].fns) ==
            (if OnClickKey in props && props[OnClickKey].FnValue? then [props[OnClickKey].fn] else []) + [ResetFn]
    ensures forall k :: k in props && k != OnClickKey ==> out[k] == props[k]
  {
    map[OnClickKey := CallAll([CallerOnClick(props), Some(ResetFn)])] + (props - {OnClickKey})
  }

  /** `getTogglerProps` of the prop-getters exercise: the same merge, but its
      handler runs `toggle` first and then the caller's `onClick` if any. */
  function ToggleFirstTogglerProps(on: bool, props: Props): (out: Props)
    requires CallerOnClickOk(props)
    ensures out.Keys == props.Keys + {OnClickKey, AriaPressedKey}
    ensures out[OnClickKey].Handler?
    ensures Present(out[OnClickKey].fns) ==
            [ToggleFn] + (if OnClickKey in props && props[OnClickKey].FnValue? then [props[OnClickKey].fn] else [])
    ensures out[AriaPressedKey] == if AriaPressedKey in props then props[AriaPressedKey] else BoolValue(on)
    ensures forall k :: k in props && k != OnClickKey ==> out[k] == props[k]
  {
    map[AriaPressedKey := BoolValue(on), OnClickKey := Handler([Some(ToggleFn), CallerOnClick(props)])]
      + (props - {OnClickKey})
  }

  /** The two toggler getters agree on every prop and call the same
      functions, in opposite orders. */
  lemma TogglerGettersDifferOnlyInOrder(on: bool, props: Props)
    requires CallerOnClickOk(props)
    ensures TogglerProps(on, props).Keys == ToggleFirstTogglerProps(on, props).Keys
    ensures forall k :: k in props && k != OnClickKey ==>
      TogglerProps(on, props)[k] == ToggleFirstTogglerProps(on, props)[k]
    ensures var a := Present(TogglerProps(on, props)[OnClickKey].fns);
            var b := Present(ToggleFirstTogglerProps(on, props)[OnClickKey].fns);
            |a| == |b| && forall i :: 0 <= i < |a| ==> a[i] == b[|b| - 1 - i]
  {
  }
}
