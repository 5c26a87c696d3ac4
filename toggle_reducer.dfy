/** The toggle reducer shared by the control-props exercises: a pure
    function from a state and an action to the next state. */
module ToggleReducer {
  import opened Wrappers

  /** The reducer's state, `{on}`. */
  datatype ToggleState = ToggleState(on: bool)

  const ToggleType: string := "toggle"
  const ResetType: string := "reset"

  /** An action `type` the reducer does not know. */
  type OtherType = t: string | t != ToggleType && t != ResetType witness "other"

  /** The action object `{type, initialState}`: `toggle` carries nothing,
      `reset` carries the state captured at mount, and any other `type`
      is a programming error. */
  datatype Action =
    | ToggleAction
    | ResetAction(initialState: ToggleState)
    | UnsupportedAction(typeName: OtherType)

  /** The action's `type` field. */
  function TypeOf(a: Action): (t: string)
    ensures a.ToggleAction? ==> t == ToggleType
    ensures a.ResetAction? ==> t == ResetType
    ensures a.UnsupportedAction? ==> t == a.typeName
    ensures t == ToggleType <==> a.ToggleAction?
    ensures t == ResetType <==> a.ResetAction?
  {
    match a
    case ToggleAction => ToggleType
    case ResetAction(_) => ResetType
    case UnsupportedAction(t) => t
  }

  /** The actions the reducer knows. */
  predicate Supported(a: Action) {
    a.ToggleAction? || a.ResetAction?
  }

  /** `toggleReducer(state, action)`: a toggle flips `on`, a reset returns the
      carried initial state whatever the current state, and any other type
      throws `Unsupported type: <type>`. */
  function Reduce(state: ToggleState, action: Action): (r: Result<ToggleState>)
    ensures r.Success? <==> Supported(action)
    ensures action.ToggleAction? ==> r.Success? && r.value.on == !state.on
    ensures action.ResetAction? ==> r.Success? && r.value == action.initialState
    ensures action.UnsupportedAction? ==> r == Failure("Unsupported type: " + action.typeName)
  {
    match action
    case ToggleAction => Success(ToggleState(!state.on))
    case ResetAction(initialState) => Success(initialState)
    case UnsupportedAction(t) => Failure("Unsupported type: " + t)
  }

  /** The next state for an action the reducer knows. */
  function Next(state: ToggleState, action: Action): (s: ToggleState)
    requires Supported(action)
    ensures Reduce(state, action) == Success(s)
  {
    Reduce(state, action).value
  }

  /** Toggling twice gives back the state toggled from. */
  lemma ToggleIsSelfInverse(s: ToggleState)
    ensures Reduce(s, ToggleAction).Success?
    ensures Reduce(Reduce(s, ToggleAction).value, ToggleAction) == Success(s)
  {
  }

  /** A reset forgets every earlier action: whatever the state, it yields the
      carried initial state. */
  lemma ResetForgetsState(s: ToggleState, t: ToggleState, init: ToggleState)
    ensures Reduce(s, ResetAction(init)) == Reduce(t, ResetAction(init)) == Success(init)
  {
  }

  /** The state after applying `actions` in order, or the first error. */
  function ReduceAll(state: ToggleState, actions: seq<Action>): (r: Result<ToggleState>)
    decreases |actions|
  {
    if actions == [] then Success(state)
    else
      match Reduce(state, actions[0])
      case Failure(e) => Failure(e)
      case Success(s) => ReduceAll(s, actions[1..])
  }

  /** `n` toggle actions in a row. */
  function Toggles(n: nat): (r: seq<Action>)
    ensures |r| == n
    ensures forall i :: 0 <= i < n ==> r[i] == ToggleAction
  {
    if n == 0 then [] else [ToggleAction] + Toggles(n - 1)
  }

  /** After `n` toggles the state is flipped iff `n` is odd; from `off` the
      states alternate off, on, off, on, ... */
  lemma {:induction false} TogglesAlternate(s: ToggleState, n: nat)
    ensures ReduceAll(s, Toggles(n)) == Success(ToggleState(if n % 2 == 1 then !s.on else s.on))
    decreases n
  {
    if n > 0 {
      assert Toggles(n)[1..] == Toggles(n - 1);
      TogglesAlternate(ToggleState(!s.on), n - 1);
    }
  }

  /** An unsupported action anywhere in a sequence of actions is an error:
      no state is produced past it. */
  lemma {:induction false} UnsupportedAborts(s: ToggleState, before: seq<Action>, t: OtherType, after: seq<Action>)
    requires forall i :: 0 <= i < |before| ==> Supported(before[i])
    ensures ReduceAll(s, before + [UnsupportedAction(t)] + after).Failure?
    decreases |before|
  {
    if before == [] {
      assert (before + [UnsupportedAction(t)] + after)[0] == UnsupportedAction(t);
    } else {
      var rest := before[1..] + [UnsupportedAction(t)] + after;
      assert (before + [UnsupportedAction(t)] + after)[1..] == rest;
      UnsupportedAborts(Next(s, before[0]), before[1..], t, after);
    }
  }

  /** After a sequence of supported actions whose last is a reset, the
      state is that reset's initial state. */
  lemma {:induction false} ResetLastWins(s: ToggleState, before: seq<Action>, init: ToggleState)
    requires forall i :: 0 <= i < |before| ==> Supported(before[i])
    ensures ReduceAll(s, before + [ResetAction(init)]) == Success(init)
    decreases |before|
  {
    if before == [] {
      assert before + [ResetAction(init)] == [ResetAction(init)];
    } else {
      assert (before + [ResetAction(init)])[1..] == before[1..] + [ResetAction(init)];
      ResetLastWins(Next(s, before[0]), before[1..], init);
    }
  }
}
