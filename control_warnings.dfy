/** The diagnostics of the control-props `Toggle`: two warnings about a
    toggle switching between controlled and uncontrolled, and one about a
    controlled toggle nobody can change. A warning is data here; the
    `warning` package's console output is not modelled. */
module ControlWarnings {
  import opened Wrappers

  datatype Warning = UncontrolledToControlled | ControlledToUncontrolled | ReadOnlyField

  /* `warning(condition, message)` reports `message` when `condition` is
     false. The three conditions below are written as the source writes
     them; `prev` is the previous render's "is controlled" flag, absent on
     the first render. */

  predicate NotBecomingControlled(prev: Option<bool>, controlled: bool) {
    prev.None? || prev.value || !controlled
  }

  predicate NotBecomingUncontrolled(prev: Option<bool>, controlled: bool) {
    prev.None? || !prev.value || controlled
  }

  predicate NotReadOnly(controlled: bool, hasOnChange: bool, readOnly: bool) {
    !controlled || (controlled && (hasOnChange || readOnly))
  }

  /** The `warning` wrapper: nothing in production mode, otherwise `w`
      exactly when its condition fails. */
  function Warn(production: bool, condition: bool, w: Warning): (ws: set<Warning>)
    ensures ws <= {w}
    ensures w in ws <==> !production && !condition
  {
    if production || condition then {} else {w}
  }

  /** The warnings one render reports. With `production` false this is also
      the variant whose warnings are never suppressed. */
  function RenderWarnings(production: bool, prev: Option<bool>, controlled: bool,
                          hasOnChange: bool, readOnly: bool): (ws: set<Warning>)
    ensures UncontrolledToControlled in ws <==> !production && prev == Some(false) && controlled
    ensures ControlledToUncontrolled in ws <==> !production && prev == Some(true) && !controlled
    ensures ReadOnlyField in ws <==> !production && controlled && !hasOnChange && !readOnly
    ensures production ==> ws == {}
  {
    Warn(production, NotReadOnly(controlled, hasOnChange, readOnly), ReadOnlyField)
    + Warn(production, NotBecomingControlled(prev, controlled), UncontrolledToControlled)
    + Warn(production, NotBecomingUncontrolled(prev, controlled), ControlledToUncontrolled)
  }

  /** The switch warnings of one render: the render's warnings without the
      read-only one. */
  function SwitchWarnings(production: bool, prev: Option<bool>, controlled: bool): (ws: set<Warning>)
    ensures ReadOnlyField !in ws
    ensures forall hasOnChange: bool, readOnly: bool ::
      ws == RenderWarnings(production, prev, controlled, hasOnChange, readOnly) - {ReadOnlyField}
  {
    Warn(production, NotBecomingControlled(prev, controlled), UncontrolledToControlled)
    + Warn(production, NotBecomingUncontrolled(prev, controlled), ControlledToUncontrolled)
  }

  /** Outside production, a render reports one switch warning when the mode
      changed since the previous render and none otherwise; the first render
      reports none. */
  lemma SwitchWarningCount(prev: Option<bool>, controlled: bool)
    ensures |SwitchWarnings(false, prev, controlled)| ==
            if prev.Some? && prev.value != controlled then 1 else 0
  {
  }

  /** The "is controlled" flag before render `i` of a sequence of renders. */
  function PrevMode(modes: seq<bool>, i: nat): (p: Option<bool>)
    requires i < |modes|
    ensures p.None? <==> i == 0
    ensures i > 0 ==> p == Some(modes[i - 1])
  {
    if i == 0 then None else Some(modes[i - 1])
  }

  /** How many switch warnings the renders report altogether, outside
      production. */
  function SwitchWarningsOver(modes: seq<bool>): nat
    decreases |modes|
  {
    if modes == [] then 0
    else
      var last := |modes| - 1;
      SwitchWarningsOver(modes[..last]) + |SwitchWarnings(false, PrevMode(modes, last), modes[last])|
  }

  /** How many times the mode changes between consecutive renders. */
  function ModeChanges(modes: seq<bool>): nat
    decreases |modes|
  {
    if |modes| <= 1 then 0
    else
      var last := |modes| - 1;
      ModeChanges(modes[..last]) + if modes[last - 1] != modes[last] then 1 else 0
  }

  /** Switching modes reports exactly one warning per actual switch: never
      on the first render, never twice for one switch, and none while the
      mode stays put. */
  lemma {:induction false} OneWarningPerSwitch(modes: seq<bool>)
    ensures SwitchWarningsOver(modes) == ModeChanges(modes)
    decreases |modes|
  {
    if modes != [] {
      var last := |modes| - 1;
      OneWarningPerSwitch(modes[..last]);
      SwitchWarningCount(PrevMode(modes, last), modes[last]);
      if last > 0 {
        assert modes[..last][last - 1] == modes[last - 1];
      }
    }
  }
}
