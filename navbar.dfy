/**
 * The side navigation: which menu entry is highlighted, whether the mobile
 * menu is open, the collapse button and logout. The highlighted entry
 * follows the location; clicking an entry highlights it.
 */
module Nav {
  import opened Values
  import opened AppStore

  datatype MenuEntry = MenuEntry(title: string, to: string)

  const Menu: seq<MenuEntry> := [MenuEntry("Tendances", "/trends"), MenuEntry("Élections", "/elections")]

  /** `s.includes(sub)`: `sub` occurs in `s` at some position. */
  predicate Includes(s: string, sub: string)
    decreases |s|
  {
    if |sub| > |s| then false
    else s[..|sub|] == sub || (|s| > 0 && Includes(s[1..], sub))
  }

  predicate OccursAt(s: string, sub: string, i: int)
  {
    0 <= i && i + |sub| <= |s| && s[i..i + |sub|] == sub
  }

  /** `Includes` agrees with the definition by positions. */
  lemma {:induction false} IncludesIffOccurs(s: string, sub: string)
    ensures Includes(s, sub) <==> exists i :: OccursAt(s, sub, i)
    decreases |s|
  {
    if |sub| > |s| {
      assert forall i :: !OccursAt(s, sub, i);
    } else if s[..|sub|] == sub {
      assert OccursAt(s, sub, 0);
    } else {
      IncludesIffOccurs(s[1..], sub);
      if exists i :: OccursAt(s, sub, i) {
        var i :| OccursAt(s, sub, i);
        assert i != 0;
        assert s[1..][i - 1..i - 1 + |sub|] == s[i..i + |sub|];
        assert OccursAt(s[1..], sub, i - 1);
      }
      if exists i :: OccursAt(s[1..], sub, i) {
        var i :| OccursAt(s[1..], sub, i);
        assert s[1..][i..i + |sub|] == s[i + 1..i + 1 + |sub|];
        assert OccursAt(s, sub, i + 1);
      }
    }
  }

  /** `entries.findIndex((e) => path.includes(e.to))`, searching from `from`. */
  function FindIndex(entries: seq<MenuEntry>, path: string, from: nat): (r: int)
    requires from <= |entries|
    ensures r == -1 || from <= r < |entries|
    ensures r == -1 <==> forall j :: from <= j < |entries| ==> !Includes(path, entries[j].to)
    ensures r != -1 ==> Includes(path, entries[r].to) && forall j :: from <= j < r ==> !Includes(path, entries[j].to)
    decreases |entries| - from
  {
    if from == |entries| then -1
    else if Includes(path, entries[from].to) then from
    else FindIndex(entries, path, from + 1)
  }

  /** `index !== -1 ? index : 0` for the current path. */
  function SelectedFor(path: string): (r: nat)
    ensures r < |Menu|
    ensures (exists j :: 0 <= j < |Menu| && Includes(path, Menu[j].to)) ==>
      Includes(path, Menu[r].to) && forall j :: 0 <= j < r ==> !Includes(path, Menu[j].to)
    ensures (forall j :: 0 <= j < |Menu| ==> !Includes(path, Menu[j].to)) ==> r == 0
  {
    var index := FindIndex(Menu, path, 0);
    if index != -1 then index else 0
  }

  /** The trends page highlights the first entry. */
  lemma TrendsSelectsFirst()
    ensures SelectedFor("/trends") == 0
  {
    assert OccursAt("/trends", "/trends", 0);
    IncludesIffOccurs("/trends", "/trends");
  }

  /** A string without the first character of `sub` does not include it. */
  lemma {:induction false} MissingLeadIsNotIncluded(s: string, sub: string)
    requires |sub| > 0 && sub[0] !in s
    ensures !Includes(s, sub)
    decreases |s|
  {
    if |sub| <= |s| {
      assert s[0] in s;
      assert s[..|sub|][0] == s[0];
      MissingLeadIsNotIncluded(s[1..], sub);
    }
  }

  /** The elections page highlights the second entry. */
  lemma ElectionsSelectsSecond()
    ensures SelectedFor("/elections") == 1
  {
    assert OccursAt("/elections", "/elections", 0);
    IncludesIffOccurs("/elections", "/elections");
    assert "/elections"[..7][1] != "/trends"[1];
    assert "/elections"[1..] == "elections";
    MissingLeadIsNotIncluded("elections", "/trends");
  }

  /** A page outside the menu, such as the sign-in page logout leads to,
      highlights the first entry. */
  lemma UnknownPageSelectsFirst()
    ensures SelectedFor("/auth") == 0
  {
    assert !Includes("uth", "/trends");
    assert !Includes("/auth", "/elections");
  }

  class NavBar<U, O> {
    var selected: int
    var isMobileOpen: bool
    const store: Store<U, O>

    predicate Valid()
      reads this
    {
      0 <= selected < |Menu|
    }

    /** `useState(0)` and `useState(false)`. */
    constructor (store: Store<U, O>)
      ensures this.store == store
      ensures selected == 0 && !isMobileOpen
      ensures Valid()
    {
      this.store := store;
      selected := 0;
      isMobileOpen := false;
    }

    /** Both location effects: highlight the entry for the new path and close
        the mobile menu. */
    method LocationChanged(path: string)
      requires Valid()
      modifies this
      ensures selected == SelectedFor(path) && !isMobileOpen
      ensures Valid()
    {
      var index := FindIndex(Menu, path, 0);
      selected := if index != -1 then index else 0;
      isMobileOpen := false;
    }

    /** The menu button. */
    method ToggleMobile()
      requires Valid()
      modifies this
      ensures isMobileOpen == !old(isMobileOpen) && selected == old(selected)
      ensures Valid()
    {
      isMobileOpen := !isMobileOpen;
    }

    /** The overlay, shown only while the mobile menu is open. */
    method CloseOverlay()
      requires Valid() && isMobileOpen
      modifies this
      ensures !isMobileOpen && selected == old(selected)
      ensures Valid()
    {
      isMobileOpen := false;
    }

    /** The collapse button: `setNavCollapsed(!isNavCollapsed)`. */
    method ToggleCollapse()
      requires Valid()
      modifies store
      ensures store.State() == WithNavCollapsed(old(store.State()), !old(store.isNavCollapsed))
      ensures Valid()
    {
      store.SetNavCollapsed(!store.isNavCollapsed);
    }

    /** Clicking menu link `i`. */
    method ClickMenu(i: int)
      requires Valid() && 0 <= i < |Menu|
      modifies this
      ensures selected == i && isMobileOpen == old(isMobileOpen)
      ensures Valid()
    {
      selected := i;
    }

    /** `handleLogout`: the user becomes null. */
    method Logout()
      requires Valid()
      modifies store
      ensures store.State() == WithUser(old(store.State()), None)
      ensures Valid()
    {
      store.SetUser(None);
    }
  }
}
