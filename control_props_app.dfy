/** The control-props demo: two controlled toggles share one value
    `bothOn` and one click counter; after five counted clicks further toggle
    requests are ignored and a notice replaces the count. */
module ControlPropsApp {
  import opened Wrappers
  import opened ToggleReducer
  import opened ControlWarnings
  import opened ControlProps

  /** What the demo shows under the toggles. */
  datatype Display = Notice | ClickCount(count: nat)

  /** The notice shows once more than four clicks were counted; otherwise
      the count shows. */
  function DisplayFor(timesClicked: nat): (d: Display)
    ensures d.Notice? <==> timesClicked > 4
    ensures d.ClickCount? ==> d.count == timesClicked
  {
    if timesClicked > 4 then Notice else ClickCount(timesClicked)
  }

  /** The counter after the `onChange` calls `actions` reach
      `handleToggleChange`: a toggle is ignored once the counter is above
      four, anything else counts. */
  function CountAfter(timesClicked: nat, actions: seq<Action>): nat
    decreases |actions|
  {
    if actions == [] then timesClicked
    else
      var c := CountAfter(timesClicked, actions[..|actions| - 1]);
      if actions[|actions| - 1].ToggleAction? && c > 4 then c else c + 1
  }

  /** Toggle requests alone never push the counter past five. */
  lemma {:induction false} CountCappedAtFive(timesClicked: nat, n: nat)
    requires timesClicked <= 5
    ensures CountAfter(timesClicked, Toggles(n)) <= 5
    ensures CountAfter(timesClicked, Toggles(n)) == if timesClicked + n <= 5 then timesClicked + n else 5
    decreases n
  {
    if n > 0 {
      assert Toggles(n)[..n - 1] == Toggles(n - 1);
      CountCappedAtFive(timesClicked, n - 1);
    }
  }

  /** The demo's state: `bothOn` and `timesClicked`. */
  class SharedToggleApp {
    var bothOn: bool
    var timesClicked: nat

    constructor ()
      ensures !bothOn && timesClicked == 0
    {
      bothOn := false;
      timesClicked := 0;
    }

    function Shown(): (d: Display)
      reads this
      ensures d.Notice? <==> timesClicked > 4
      ensures d.ClickCount? ==> d.count == timesClicked
    {
      DisplayFor(timesClicked)
    }

    /** `handleToggleChange(state, action)`: a toggle arriving when more
        than four clicks were counted changes nothing; otherwise `bothOn`
        takes the reported `on` and one more click is counted. */
    method HandleToggleChange(state: ToggleState, action: Action)
      modifies this
      ensures timesClicked == CountAfter(old(timesClicked), [action])
      ensures if TypeOf(action) == ToggleType && old(timesClicked) > 4
              then bothOn == old(bothOn) && timesClicked == old(timesClicked)
              else bothOn == state.on && timesClicked == old(timesClicked) + 1
    {
      if TypeOf(action) == ToggleType && timesClicked > 4 {
        return;
      }
      bothOn := state.on;
      timesClicked := timesClicked + 1;
    }

    /** The Reset button: both toggles off and the count back to zero. */
    method HandleResetClick()
      modifies this
      ensures !bothOn && timesClicked == 0
      ensures Shown() == ClickCount(0)
    {
      bothOn := false;
      timesClicked := 0;
    }
  }

  /** The props the demo renders each shared toggle with. */
  function SharedProps(bothOn: bool): ToggleProps {
    ToggleProps(Some(bothOn), false, true, false)
  }

  /** One click on one of the shared toggles: the toggle (controlled by
      `bothOn`, with `handleToggleChange` as `onChange`) reports the flip,
      the demo handles it, and the toggle re-renders with the new `bothOn`.
      The toggle's own state never moves and no warning is reported; the
      flip and the count happen only while the counter is at most four. */
  method ClickSharedToggle(app: SharedToggleApp, t: ControlledToggle) returns (warnings: set<Warning>)
    requires t.controlledOn == Some(app.bothOn) && t.hasOnChange && t.prevControlled == Some(true)
    modifies app, t
    ensures t.internalOn == old(t.internalOn) && t.controlledOn == Some(app.bothOn)
    ensures t.prevControlled == Some(true) && t.hasOnChange
    ensures warnings == {}
    ensures old(app.timesClicked) > 4 ==> app.bothOn == old(app.bothOn) && app.timesClicked == old(app.timesClicked)
    ensures old(app.timesClicked) <= 4 ==> app.bothOn == !old(app.bothOn) && app.timesClicked == old(app.timesClicked) + 1
    ensures old(app.timesClicked) <= 5 ==> app.timesClicked <= 5
  {
    var n := t.Toggle();
    app.HandleToggleChange(n.value.state, n.value.action);
    warnings := t.Render(SharedProps(app.bothOn));
  }

  /** The demo from its first render: five clicks count and flip the pair,
      the sixth is ignored and the notice shows, Reset brings back the
      count. */
  method SharedPairScenario()
  {
    var app := new SharedToggleApp();
    var t1 := new ControlledToggle(SharedProps(app.bothOn), false);
    var t2 := new ControlledToggle(SharedProps(app.bothOn), false);
    var w1 := t1.Render(SharedProps(app.bothOn));
    var w2 := t2.Render(SharedProps(app.bothOn));
    assert w1 == w2 == {};
    var w := ClickSharedToggle(app, t1);
    assert app.bothOn && app.timesClicked == 1;
    w := t2.Render(SharedProps(app.bothOn));
    assert t2.On();
    w := ClickSharedToggle(app, t2);
    w := t1.Render(SharedProps(app.bothOn));
    w := ClickSharedToggle(app, t1);
    w := t2.Render(SharedProps(app.bothOn));
    w := ClickSharedToggle(app, t2);
    w := t1.Render(SharedProps(app.bothOn));
    w := ClickSharedToggle(app, t1);
    assert app.bothOn && app.timesClicked == 5 && app.Shown() == Notice;
    w := t2.Render(SharedProps(app.bothOn));
    w := ClickSharedToggle(app, t2);
    assert app.bothOn && app.timesClicked == 5;
    app.HandleResetClick();
    assert app.Shown() == ClickCount(0);
  }
}
