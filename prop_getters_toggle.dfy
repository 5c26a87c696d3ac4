/** The prop-getters exercise: a toggle whose `on` starts off, with a
    `getTogglerProps` whose click handler toggles first and then calls the
    caller's `onClick`. */
module PropGettersToggle {
  import opened Wrappers
  import opened PropGetters

  class PropGetterToggle {
    var on: bool

    /** `useState(false)`. */
    constructor ()
      ensures !on
    {
      on := false;
    }

    /** `toggle()`: `setOn(!on)`. */
    method Toggle()
      modifies this
      ensures on == !old(on)
    {
      on := !on;
    }

    /** `getTogglerProps(props)` of this render. */
    function GetTogglerProps(props: Props): (out: Props)
      reads this
      requires CallerOnClickOk(props)
      ensures out == ToggleFirstTogglerProps(on, props)
      ensures AriaPressedKey !in props ==> out[AriaPressedKey] == BoolValue(on)
    {
      ToggleFirstTogglerProps(on, props)
    }

    /** A click on the `onClick` that `getTogglerProps(props)` returned:
        `toggle()`, then the caller's `onClick` when there is one. Returns
        the functions called, in order. */
    method ClickToggler(props: Props) returns (called: seq<Callback>)
      requires CallerOnClickOk(props)
      modifies this
      ensures on == !old(on)
      ensures called == Present(old(GetTogglerProps(props))[OnClickKey].fns)
      ensures called[0] == ToggleFn
      ensures |called| == 1 <==> CallerOnClick(props).None?
    {
      var onClick := CallerOnClick(props);
      Toggle();
      called := [ToggleFn];
      if onClick.Some? {
        called := called + [onClick.value];
      }
    }
  }

  /** The exercise's page: a `Switch` and a custom button, both wired with
      `getTogglerProps`. Clicking the switch twice turns it on and off
      again; clicking the custom button also toggles, and its own props pass
      through. */
  method PropGettersScenario()
  {
    var t := new PropGetterToggle();
    var switchProps := map["on" := BoolValue(t.on)];
    var buttonProps := map["aria-label" := StringValue("custom-button"),
                           OnClickKey := FnValue(CallerFn("onButtonClick")),
                           "id" := StringValue("custom-button-id")];
    assert !t.on && t.GetTogglerProps(switchProps)[AriaPressedKey] == BoolValue(false);
    var called := t.ClickToggler(switchProps);
    assert t.on && called == [ToggleFn];
    called := t.ClickToggler(switchProps);
    assert !t.on;
    var out := t.GetTogglerProps(buttonProps);
    assert out["aria-label"] == StringValue("custom-button") && out["id"] == StringValue("custom-button-id");
    called := t.ClickToggler(buttonProps);
    assert t.on && called == [ToggleFn, CallerFn("onButtonClick")];
  }
}
