/** The dashboard's side menu: the entries a role sees, the highlighted entry
    and the collapse toggle. */
module Sidebar {
  import opened Wrappers
  import AuthProvider

  /** A menu entry: its target and the roles that see it. */
  datatype NavItem = NavItem(href: string, roles: seq<string>)

  const Navigation: seq<NavItem> := [
    NavItem("/dashboard", ["Admin", "Executive"]),
    NavItem("/dashboard/invoices", ["Admin", "Executive"]),
    NavItem("/dashboard/orders", ["Admin", "Executive"]),
    NavItem("/dashboard/cash", ["Admin", "Executive"]),
    NavItem("/dashboard/customers", ["Admin"]),
    NavItem("/dashboard/user-management", ["Admin"]),
    NavItem("/dashboard/expected-payments", ["Admin", "Executive"])
  ]

  /** `user?.role || "Admin"`: with no user, or an empty role, the menu is
      built for an administrator. */
  function MenuRole(user: Option<AuthProvider.User>): (r: string)
    ensures r != ""
    ensures user.Some? && user.value.role != "" ==> r == user.value.role
  {
    if user.Some? && user.value.role != "" then user.value.role else "Admin"
  }

  /** `items.filter(item => item.roles.includes(role))`: an exact,
      case-sensitive match, keeping the menu's order. */
  function Visible(items: seq<NavItem>, role: string): seq<NavItem> {
    if items == [] then []
    else if role in items[0].roles then [items[0]] + Visible(items[1..], role)
    else Visible(items[1..], role)
  }

  /** The filter keeps exactly the entries listing the role, never adding any. */
  lemma {:induction false} VisibleMembers(items: seq<NavItem>, role: string)
    ensures |Visible(items, role)| <= |items|
    ensures forall x :: x in Visible(items, role) <==> x in items && role in x.roles
  {
    if items != [] {
      VisibleMembers(items[1..], role);
      assert items == [items[0]] + items[1..];
    }
  }

  /** The entries shown to `user`. */
  function Menu(user: Option<AuthProvider.User>): seq<NavItem> {
    Visible(Navigation, MenuRole(user))
  }

  /** An administrator, or a session whose user is not known, sees every entry. */
  lemma AdminSeesAll()
    ensures Menu(None) == Navigation
    ensures Visible(Navigation, "Admin") == Navigation
  {
  }

  /** An executive sees every entry except customer and user management. */
  lemma ExecutiveMenu()
    ensures Visible(Navigation, "Executive") ==
              Navigation[..4] + [Navigation[6]]
  {
    var e := "Executive";
    assert Visible(Navigation[7..], e) == [];
    assert Visible(Navigation[6..], e) == [Navigation[6]];
    assert Visible(Navigation[5..], e) == [Navigation[6]];
    assert Visible(Navigation[4..], e) == [Navigation[6]];
    assert Visible(Navigation[3..], e) == [Navigation[3], Navigation[6]];
    assert Visible(Navigation[2..], e) == [Navigation[2], Navigation[3], Navigation[6]];
    assert Visible(Navigation[1..], e) == [Navigation[1], Navigation[2], Navigation[3], Navigation[6]];
  }

  /** Any other role, including "admin" in lower case, sees no entry at all. */
  lemma OtherRolesSeeNothing(role: string)
    requires role != "Admin" && role != "Executive"
    ensures Visible(Navigation, role) == []
  {
    var e := role;
    assert Visible(Navigation[7..], e) == [];
    assert Visible(Navigation[6..], e) == [];
    assert Visible(Navigation[5..], e) == [];
    assert Visible(Navigation[4..], e) == [];
    assert Visible(Navigation[3..], e) == [];
    assert Visible(Navigation[2..], e) == [];
    assert Visible(Navigation[1..], e) == [];
  }

  /** A login whose response carries no role shows the full menu, but after a
      reload the stored placeholder role "--" empties it. */
  lemma MenuLostOnReload(storage: map<string, string>, email: string, resp: AuthProvider.LoginResponse)
    requires AuthProvider.Accepted(resp) && email != ""
    requires AuthProvider.UserRole(resp) == None
    ensures Menu(Some(AuthProvider.LoginUser(email, resp))) == Navigation
    ensures Menu(AuthProvider.RestoredUser(AuthProvider.LoginStorage(storage, email, resp))) == []
  {
    assert MenuRole(Some(AuthProvider.LoginUser(email, resp))) == "Admin";
    AdminSeesAll();
    AuthProvider.LoginSurvivesReload(storage, email, resp);
    var restored := AuthProvider.RestoredUser(AuthProvider.LoginStorage(storage, email, resp));
    assert MenuRole(restored) == "--";
    OtherRolesSeeNothing("--");
  }

  /** An entry is highlighted only on its own path, not below it. */
  predicate IsActive(pathname: string, item: NavItem) {
    pathname == item.href
  }

  class MenuState {
    var collapsed: bool

    constructor()
      ensures !collapsed
    {
      collapsed := false;
    }

    /** The chevron button flips the menu between full and narrow. */
    method Toggle()
      modifies this
      ensures collapsed == !old(collapsed)
    {
      collapsed := !collapsed;
    }
  }
}
