/** The compound-components exercise: `Toggle` owns `on` and hands `on`
    and `toggle` to those of its direct children whose element type is a
    function component; host elements such as a `<span>` pass through. */
module CompoundToggle {
  import opened Wrappers
  import opened PropGetters

  /** The function components of the exercise, and any other one. */
  datatype ComponentKind = ToggleOn | ToggleOff | ToggleButton | OtherComponent(name: string)

  /** A child element: its type is a function component, or anything else
      (`HostElement` stands for every element whose type is not a function:
      host tags, and also memo/forwardRef objects, fragments and text). */
  datatype Child =
    | FunctionElement(kind: ComponentKind, props: Props)
    | HostElement(tag: string, props: Props)

  const OnKey: string := "on"
  const ToggleKey: string := "toggle"
  const ChildrenKey: string := "children"

  /** JavaScript truthiness of a prop value. */
  predicate Truthy(v: PropValue) {
    match v
    case BoolValue(b) => b
    case StringValue(s) => s != []
    case NullValue => false
    case FnValue(_) => true
    case Handler(_) => true
  }

  /** `React.cloneElement(child, {on, toggle})`: the child's own props with
      `on` and `toggle` set over them. */
  function CloneWithToggle(child: Child, on: bool): (r: Child)
    requires child.FunctionElement?
    ensures r.FunctionElement? && r.kind == child.kind
    ensures r.props.Keys == child.props.Keys + {OnKey, ToggleKey}
    ensures r.props[OnKey] == BoolValue(on) && r.props[ToggleKey] == FnValue(ToggleFn)
    ensures forall k :: k in child.props && k != OnKey && k != ToggleKey ==> r.props[k] == child.props[k]
  {
    FunctionElement(child.kind, child.props[OnKey := BoolValue(on)][ToggleKey := FnValue(ToggleFn)])
  }

  /** What the mapping callback returns for one child. */
  function MapChild(child: Child, on: bool): Child {
    if child.FunctionElement? then CloneWithToggle(child, on) else child
  }

  /** `React.Children.map(children, ...)` in `Toggle`: one level deep, same
      number and order of children, function-component children get the
      current `on` and `toggle`, the others come back unchanged. */
  function MapChildren(children: seq<Child>, on: bool): (r: seq<Child>)
    ensures |r| == |children|
    ensures forall i :: 0 <= i < |r| ==> r[i] == MapChild(children[i], on)
    ensures forall i :: 0 <= i < |r| && children[i].HostElement? ==> r[i] == children[i]
    ensures forall i :: 0 <= i < |r| && children[i].FunctionElement? ==>
      r[i].FunctionElement? && r[i].kind == children[i].kind && OnKey in r[i].props && r[i].props[OnKey] == BoolValue(on)
    decreases |children|
  {
    if children == [] then []
    else [MapChild(children[0], on)] + MapChildren(children[1..], on)
  }

  /** `ToggleOn`: its children when `on`, else nothing. */
  function RenderToggleOn(props: Props): (r: Option<PropValue>)
    ensures r.Some? <==> OnKey in props && Truthy(props[OnKey])
    ensures r.Some? ==> r.value == if ChildrenKey in props then props[ChildrenKey] else NullValue
  {
    if OnKey in props && Truthy(props[OnKey]) then
      Some(if ChildrenKey in props then props[ChildrenKey] else NullValue)
    else None
  }

  /** `ToggleOff`: nothing when `on`, else its children. */
  function RenderToggleOff(props: Props): (r: Option<PropValue>)
    ensures r.Some? <==> !(OnKey in props && Truthy(props[OnKey]))
    ensures r.Some? ==> r.value == if ChildrenKey in props then props[ChildrenKey] else NullValue
  {
    if OnKey in props && Truthy(props[OnKey]) then None
    else Some(if ChildrenKey in props then props[ChildrenKey] else NullValue)
  }

  /** For any props, exactly one of `ToggleOn` and `ToggleOff` renders. */
  lemma OnOffExclusive(props: Props)
    ensures RenderToggleOn(props).Some? != RenderToggleOff(props).Some?
  {
  }

  /** `Toggle`'s state: `on` starts off and `toggle` flips it. */
  class CompoundToggleState {
    var on: bool

    constructor ()
      ensures !on
    {
      on := false;
    }

    /** `toggle()`: `setOn(!on)`. */
    method Toggle()
      modifies this
      ensures on == !old(on)
    {
      on := !on;
    }

    /** What `Toggle` renders: its children, mapped. */
    function Render(children: seq<Child>): (r: seq<Child>)
      reads this
      ensures |r| == |children|
      ensures forall i :: 0 <= i < |r| ==> r[i] == MapChild(children[i], on)
      ensures forall i :: 0 <= i < |r| && children[i].HostElement? ==> r[i] == children[i]
    {
      MapChildren(children, on)
    }
  }

  /** The exercise's children: the two messages, a `<span>` and the button. */
  function AppChildren(): seq<Child> {
    [ FunctionElement(ToggleOn, map[ChildrenKey := StringValue("The button is on")]),
      FunctionElement(ToggleOff, map[ChildrenKey := StringValue("The button is off")]),
      HostElement("span", map[ChildrenKey := StringValue("Hello")]),
      FunctionElement(ToggleButton, map[]) ]
  }

  /** Rendering the exercise's children: the "on" message shows iff `on`,
      the "off" message iff not, the `<span>` is untouched and the button
      receives `on`. */
  lemma AppChildrenRender(on: bool)
    ensures var r := MapChildren(AppChildren(), on);
            && |r| == 4
            && (RenderToggleOn(r[0].props) == if on then Some(StringValue("The button is on")) else None)
            && (RenderToggleOff(r[1].props) == if on then None else Some(StringValue("The button is off")))
            && r[2] == AppChildren()[2]
            && r[3].props[OnKey] == BoolValue(on) && r[3].props[ToggleKey] == FnValue(ToggleFn)
  {
  }
}
