/**
 * The current look (Lux/Look/Look+Current.swift): a base look that always
 * exists and an optional active look that overrides it once set.
 */
module LookCurrent {
  import opened Looks

  /** `Look.CurrentState`, the object behind the `Look.state` singleton. */
  class CurrentState {
    var base: Look
    var active: Look?

    /** A fresh state: the base look given, no active look. */
    constructor(base: Look)
      ensures this.base == base && active == null
    {
      this.base := base;
      active := null;
    }

    /** `Look.current`: the active look when there is one, else the base. */
    function Current(): (l: Look)
      reads this
      ensures active != null ==> l == active
      ensures active == null ==> l == base
    {
      if active != null then active else base
    }

    /** `Look.set(active:)`: the given look becomes current; the base stays,
        and the look set before is forgotten. */
    method SetActive(look: Look)
      modifies this
      ensures active == look && base == old(base)
      ensures Current() == look
    {
      active := look;
    }
  }

  /** Two activations in a row: the later one wins and the base is kept. */
  method SetActiveTwice(state: CurrentState, first: Look, second: Look)
    modifies state
    ensures state.Current() == second && state.base == old(state.base)
  {
    state.SetActive(first);
    state.SetActive(second);
  }
}
