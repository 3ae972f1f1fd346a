/**
 * The browser's global store: the signed-in user, the organization and
 * whether the side navigation is collapsed. Each setter replaces exactly one
 * field; the user and organization objects are opaque here.
 */
module AppStore {
  import opened Values

  /** The store's contents as a value. */
  datatype StoreState<U, O> = StoreState(user: Option<U>, organization: Option<O>, isNavCollapsed: bool)

  function InitialState<U, O>(): StoreState<U, O>
  {
    StoreState(None, None, false)
  }

  /** What `set(() => ({ user }))` leaves: `user` replaced, the rest kept. */
  function WithUser<U, O>(s: StoreState<U, O>, user: Option<U>): (r: StoreState<U, O>)
    ensures r.user == user && r.organization == s.organization && r.isNavCollapsed == s.isNavCollapsed
  {
    s.(user := user)
  }

  function WithOrganization<U, O>(s: StoreState<U, O>, organization: Option<O>): (r: StoreState<U, O>)
    ensures r.organization == organization && r.user == s.user && r.isNavCollapsed == s.isNavCollapsed
  {
    s.(organization := organization)
  }

  function WithNavCollapsed<U, O>(s: StoreState<U, O>, collapsed: bool): (r: StoreState<U, O>)
    ensures r.isNavCollapsed == collapsed && r.user == s.user && r.organization == s.organization
  {
    s.(isNavCollapsed := collapsed)
  }

  /** Setting a field twice to the same value is setting it once, and
      setters of different fields commute. */
  lemma SettersIdempotentAndIndependent<U, O>(s: StoreState<U, O>, u: Option<U>, o: Option<O>, c: bool)
    ensures WithUser(WithUser(s, u), u) == WithUser(s, u)
    ensures WithOrganization(WithOrganization(s, o), o) == WithOrganization(s, o)
    ensures WithNavCollapsed(WithNavCollapsed(s, c), c) == WithNavCollapsed(s, c)
    ensures WithUser(WithOrganization(s, o), u) == WithOrganization(WithUser(s, u), o)
    ensures WithUser(WithNavCollapsed(s, c), u) == WithNavCollapsed(WithUser(s, u), c)
    ensures WithOrganization(WithNavCollapsed(s, c), o) == WithNavCollapsed(WithOrganization(s, o), c)
  {
  }

  /** The later of two writes to one field wins. */
  lemma LastWriteWins<U, O>(s: StoreState<U, O>, u1: Option<U>, u2: Option<U>,
                            o1: Option<O>, o2: Option<O>, c1: bool, c2: bool)
    ensures WithUser(WithUser(s, u1), u2) == WithUser(s, u2)
    ensures WithOrganization(WithOrganization(s, o1), o2) == WithOrganization(s, o2)
    ensures WithNavCollapsed(WithNavCollapsed(s, c1), c2) == WithNavCollapsed(s, c2)
  {
  }

  class Store<U, O> {
    var user: Option<U>
    var organization: Option<O>
    var isNavCollapsed: bool

    function State(): StoreState<U, O>
      reads this
    {
      StoreState(user, organization, isNavCollapsed)
    }

    /** The store as created: no user, no organization, navigation expanded. */
    constructor ()
      ensures State() == InitialState()
    {
      user := None;
      organization := None;
      isNavCollapsed := false;
    }

    method SetUser(u: Option<U>)
      modifies this
      ensures State() == WithUser(old(State()), u)
    {
      user := u;
    }

    method SetOrganization(o: Option<O>)
      modifies this
      ensures State() == WithOrganization(old(State()), o)
    {
      organization := o;
    }

    method SetNavCollapsed(c: bool)
      modifies this
      ensures State() == WithNavCollapsed(old(State()), c)
    {
      isNavCollapsed := c;
    }
  }
}
