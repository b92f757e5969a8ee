/** `createToggle(initialValue, onChange)` (src/toggle.ts): a boolean signal with a toggling setter. */
module Toggle {
  import opened Wrappers

  /** `value ?? !current`: the state after a call of the setter. */
  function Next(current: bool, value: Option<bool>): (r: bool)
    ensures value.Some? ==> r == value.value
    ensures value.None? ==> r != current
  {
    value.GetOr(!current)
  }

  class ToggleSignal {
    var state: bool

    /** `initialValue` defaults to false. */
    constructor (initialValue: Option<bool>)
      ensures state == initialValue.GetOr(false)
      ensures initialValue.None? ==> !state
    {
      state := initialValue.GetOr(false);
    }

    /** `toggle(value?)`: sets `value` when given, otherwise flips; returns the new state. */
    method Toggle(value: Option<bool>) returns (r: bool)
      modifies this
      ensures r == state
      ensures value.None? ==> state == !old(state)
      ensures value.Some? ==> state == value.value
    {
      state := Next(state, value);
      r := state;
    }
  }

  /** Two argument-less toggles restore the state they started from. */
  method ToggleTwice(t: ToggleSignal) returns (first: bool, second: bool)
    modifies t
    ensures first == !old(t.state) && second == old(t.state) && t.state == old(t.state)
  {
    first := t.Toggle(None);
    second := t.Toggle(None);
  }
}
