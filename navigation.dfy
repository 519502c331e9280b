/** The application shell's navigation table: each page lists the roles that
    see it in the sidebar, and the sidebar shows, in table order, exactly the
    pages whose list holds the signed-in user's role. */
module Navigation {
  import opened Domain
  import Access

  /** The sidebar pages, one per id of the navigation table. */
  datatype Page =
    | DashboardPage | ProductsPage | RawMaterialsPage | BomPage | ProductionPage
    | InventoryPage | DowntimePage | CostReportsPage | AlertsPage

  datatype NavItem = NavItem(page: Page, roles: seq<Role>)

  const ALL_ROLES: seq<Role> := [OWNER, PLANT_MANAGER, SUPERVISOR, ACCOUNTANT]

  /** The nine pages, in sidebar order. */
  function NavItems(): (r: seq<NavItem>)
    ensures |r| == 9
    ensures forall i, j :: 0 <= i < j < |r| ==> r[i].page != r[j].page
    ensures forall k :: 0 <= k < |r| ==>
      && OWNER in r[k].roles && PLANT_MANAGER in r[k].roles
      && forall role :: role in r[k].roles ==> role in ALL_ROLES
  {
    [ NavItem(DashboardPage, ALL_ROLES),
      NavItem(ProductsPage, [OWNER, PLANT_MANAGER]),
      NavItem(RawMaterialsPage, [OWNER, PLANT_MANAGER]),
      NavItem(BomPage, [OWNER, PLANT_MANAGER]),
      NavItem(ProductionPage, [OWNER, PLANT_MANAGER, SUPERVISOR]),
      NavItem(InventoryPage, ALL_ROLES),
      NavItem(DowntimePage, [OWNER, PLANT_MANAGER, SUPERVISOR]),
      NavItem(CostReportsPage, [OWNER, PLANT_MANAGER, ACCOUNTANT]),
      NavItem(AlertsPage, ALL_ROLES) ]
  }

  /** A page is open to a signed-in user whose role is on its list. */
  predicate CanAccess(user: Option<User>, requiredRoles: seq<Role>)
  {
    user.Some? && user.value.role in requiredRoles
  }

  /** `a` is `b` with some elements left out, the rest in the same order. */
  predicate IsSubsequence<T(==)>(a: seq<T>, b: seq<T>)
    decreases |b|
  {
    if a == [] then true
    else if b == [] then false
    else if a[0] == b[0] then IsSubsequence(a[1..], b[1..])
    else IsSubsequence(a, b[1..])
  }

  /** The items of a table, from position k on, that the user may open,
      in table order. */
  function VisibleFrom(items: seq<NavItem>, user: Option<User>, k: nat): seq<NavItem>
    decreases |items| - k
  {
    if k >= |items| then []
    else (if CanAccess(user, items[k].roles) then [items[k]] else []) + VisibleFrom(items, user, k + 1)
  }

  /** The sidebar is the order-preserving sub-list of the table whose
      entries the user may open. */
  lemma {:induction false} VisibleSpec(items: seq<NavItem>, user: Option<User>, k: nat)
    requires k <= |items|
    ensures forall it :: it in VisibleFrom(items, user, k) <==> it in items[k..] && CanAccess(user, it.roles)
    ensures IsSubsequence(VisibleFrom(items, user, k), items[k..])
    decreases |items| - k
  {
    if k < |items| {
      var rest := VisibleFrom(items, user, k + 1);
      VisibleSpec(items, user, k + 1);
      var tail := items[k..];
      assert tail[0] == items[k] && tail[1..] == items[k + 1..];
      assert tail == [items[k]] + items[k + 1..];
      if CanAccess(user, items[k].roles) {
        assert ([items[k]] + rest)[1..] == rest;
      } else {
        assert [] + rest == rest;
        SubsequenceOfTail(rest, tail);
      }
    }
  }

  /** A subsequence of the tail is a subsequence of the whole. */
  lemma {:induction false} SubsequenceOfTail<T>(a: seq<T>, b: seq<T>)
    requires b != [] && IsSubsequence(a, b[1..])
    ensures IsSubsequence(a, b)
  {
    if a != [] && a[0] == b[0] {
      SubsequenceDropHead(a, b[1..]);
    }
  }

  /** Dropping the head of a subsequence keeps it a subsequence. */
  lemma {:induction false} SubsequenceDropHead<T>(a: seq<T>, b: seq<T>)
    requires a != [] && IsSubsequence(a, b)
    ensures IsSubsequence(a[1..], b)
  {
    if b != [] {
      if a[0] == b[0] {
        if a[1..] != [] {
          SubsequenceOfTail(a[1..], b);
        }
      } else {
        SubsequenceDropHead(a, b[1..]);
        if a[1..] != [] {
          SubsequenceOfTail(a[1..], b);
        }
      }
    }
  }

  function VisibleNavItems(user: Option<User>): seq<NavItem>
  {
    VisibleFrom(NavItems(), user, 0)
  }

  /** The sidebar holds exactly the table rows the user may open, in table
      order. */
  lemma VisibleNavItemsSpec(user: Option<User>)
    ensures forall it :: it in VisibleNavItems(user) <==> it in NavItems() && CanAccess(user, it.roles)
    ensures IsSubsequence(VisibleNavItems(user), NavItems())
  {
    VisibleSpec(NavItems(), user, 0);
    assert NavItems()[0..] == NavItems();
  }

  function UserWithRole(role: Role): Option<User>
  {
    Some(User(role, None))
  }

  /** The four role names are different from each other. */
  lemma RolesDistinct()
    ensures OWNER != PLANT_MANAGER && OWNER != SUPERVISOR && OWNER != ACCOUNTANT
    ensures PLANT_MANAGER != SUPERVISOR && PLANT_MANAGER != ACCOUNTANT
    ensures SUPERVISOR != ACCOUNTANT
  {
    assert OWNER[0] == 'O' && PLANT_MANAGER[0] == 'P';
    assert SUPERVISOR[0] == 'S' && ACCOUNTANT[0] == 'A';
  }

  /** Without a signed-in user nothing is open and the sidebar is empty. */
  lemma NoUserSeesNothing(roles: seq<Role>)
    ensures !CanAccess(None, roles)
    ensures VisibleNavItems(None) == []
  {
    var items := NavItems();
    assert VisibleFrom(items, None, 9) == [];
    assert VisibleFrom(items, None, 8) == [];
    assert VisibleFrom(items, None, 7) == [];
    assert VisibleFrom(items, None, 6) == [];
    assert VisibleFrom(items, None, 5) == [];
    assert VisibleFrom(items, None, 4) == [];
    assert VisibleFrom(items, None, 3) == [];
    assert VisibleFrom(items, None, 2) == [];
    assert VisibleFrom(items, None, 1) == [];
  }

  /** When the user may open every item from position k on, the sidebar
      shows all of them. */
  lemma {:induction false} AllVisible(items: seq<NavItem>, user: Option<User>, k: nat)
    requires k <= |items|
    requires forall j :: k <= j < |items| ==> CanAccess(user, items[j].roles)
    ensures VisibleFrom(items, user, k) == items[k..]
    decreases |items| - k
  {
    if k < |items| {
      AllVisible(items, user, k + 1);
      assert items[k..] == [items[k]] + items[k + 1..];
    }
  }

  /** Owners and Plant Managers see all nine pages. */
  lemma ManagersSeeEverything(role: Role)
    requires role == OWNER || role == PLANT_MANAGER
    ensures VisibleNavItems(UserWithRole(role)) == NavItems()
  {
    var items := NavItems();
    AllVisible(items, UserWithRole(role), 0);
    assert items[0..] == items;
  }

  /** The rows an Accountant's sidebar shows. */
  lemma AccountantSidebar()
    ensures var items := NavItems();
      VisibleNavItems(UserWithRole(ACCOUNTANT)) == [items[0], items[5], items[7], items[8]]
  {
    var items := NavItems();
    var u := UserWithRole(ACCOUNTANT);
    RolesDistinct();
    assert VisibleFrom(items, u, 9) == [];
    assert VisibleFrom(items, u, 8) == [items[8]];
    assert VisibleFrom(items, u, 7) == [items[7], items[8]];
    assert VisibleFrom(items, u, 6) == [items[7], items[8]];
    assert VisibleFrom(items, u, 5) == [items[5], items[7], items[8]];
    assert VisibleFrom(items, u, 4) == [items[5], items[7], items[8]];
    assert VisibleFrom(items, u, 3) == [items[5], items[7], items[8]];
    assert VisibleFrom(items, u, 2) == [items[5], items[7], items[8]];
    assert VisibleFrom(items, u, 1) == [items[5], items[7], items[8]];
  }

  /** An Accountant sees exactly the dashboard, inventory, cost reports and
      alerts, in that order. */
  lemma AccountantPages()
    ensures var v := VisibleNavItems(UserWithRole(ACCOUNTANT));
      && |v| == 4
      && v[0].page == DashboardPage && v[1].page == InventoryPage
      && v[2].page == CostReportsPage && v[3].page == AlertsPage
  {
    AccountantSidebar();
  }

  /** The rows a Supervisor's sidebar shows. */
  lemma SupervisorSidebar()
    ensures var items := NavItems();
      VisibleNavItems(UserWithRole(SUPERVISOR)) == [items[0], items[4], items[5], items[6], items[8]]
  {
    var items := NavItems();
    var u := UserWithRole(SUPERVISOR);
    RolesDistinct();
    assert VisibleFrom(items, u, 9) == [];
    assert VisibleFrom(items, u, 8) == [items[8]];
    assert VisibleFrom(items, u, 7) == [items[8]];
    assert VisibleFrom(items, u, 6) == [items[6], items[8]];
    assert VisibleFrom(items, u, 5) == [items[5], items[6], items[8]];
    assert VisibleFrom(items, u, 4) == [items[4], items[5], items[6], items[8]];
    assert VisibleFrom(items, u, 3) == [items[4], items[5], items[6], items[8]];
    assert VisibleFrom(items, u, 2) == [items[4], items[5], items[6], items[8]];
    assert VisibleFrom(items, u, 1) == [items[4], items[5], items[6], items[8]];
  }

  /** A Supervisor runs the floor pages and never sees master data or cost
      reports. */
  lemma SupervisorPages()
    ensures var v := VisibleNavItems(UserWithRole(SUPERVISOR));
      && |v| == 5
      && v[0].page == DashboardPage && v[1].page == ProductionPage && v[2].page == InventoryPage
      && v[3].page == DowntimePage && v[4].page == AlertsPage
  {
    SupervisorSidebar();
  }

  /** Dashboard, inventory and alerts are open to every role. */
  lemma CommonPages(role: Role)
    requires role in ALL_ROLES
    ensures var items := NavItems();
      && items[0].page == DashboardPage && items[5].page == InventoryPage && items[8].page == AlertsPage
      && var v := VisibleNavItems(UserWithRole(role));
         items[0] in v && items[5] in v && items[8] in v
  {
    VisibleNavItemsSpec(UserWithRole(role));
  }

  /** The sidebar offers a floor page or the cost reports to exactly the
      known roles the server lets call the matching endpoint. */
  lemma NavAgreesWithServer(role: Role)
    requires role in ALL_ROLES
    ensures var u := Some(User(role, Some(0)));
      && (CanAccess(u, NavItems()[4].roles) <==> Access.Authorized(u, Access.OrderStart))
      && (CanAccess(u, NavItems()[6].roles) <==> Access.Authorized(u, Access.DowntimeCreate))
      && (CanAccess(u, NavItems()[7].roles) <==> Access.Authorized(u, Access.CostReportsView))
  {
  }
}
