/** The navigation sidebar (components/Sidebar.tsx): which items a role is
    offered, which item is highlighted for the current page, and the
    callbacks its clicks make. */
module SidebarNav {
  import opened Common
  import opened Types

  /** The six items every role but "admin" is offered, in order. */
  const ContributorItems: seq<PageView> := [Dashboard, Tasks, Earnings, Guidelines, Support, Account]

  /** The four items the "admin" role is offered, in order. */
  const AdminItems: seq<PageView> := [AdminDashboard, AdminCreateTask, Tasks, Account]

  /** `navItems` */
  function NavItems(userRole: Option<string>): seq<PageView>
  {
    if RoleProp(userRole) == "admin" then AdminItems else ContributorItems
  }

  /** An item is highlighted when it is the current page, and the task
      list's item also while a task is being executed. */
  predicate IsActive(item: PageView, currentPage: PageView)
  {
    currentPage == item || (item == Tasks && currentPage == Execution)
  }

  /** The admin role gets the four admin items and every other role, the
      default included, the six contributor items; no list offers an item
      twice, and neither offers the execution page itself. */
  lemma {:induction false} ItemsFollowTheRole(userRole: Option<string>)
    ensures userRole == Some("admin") ==> NavItems(userRole) == AdminItems && |NavItems(userRole)| == 4
    ensures userRole != Some("admin") ==> NavItems(userRole) == ContributorItems && |NavItems(userRole)| == 6
    ensures forall i, j :: 0 <= i < j < |NavItems(userRole)| ==> NavItems(userRole)[i] != NavItems(userRole)[j]
    ensures Execution !in NavItems(userRole)
  {
    var items := NavItems(userRole);
    forall i, j | 0 <= i < j < |items| ensures items[i] != items[j] {
      if items == AdminItems {
        assert i < 4 && j < 4;
      } else {
        assert i < 6 && j < 6;
      }
    }
  }

  /** At most one item is highlighted: for every page there is at most one
      index whose item is active. */
  lemma {:induction false} AtMostOneActive(userRole: Option<string>, currentPage: PageView)
    ensures forall i, j ::
      (0 <= i < |NavItems(userRole)| && 0 <= j < |NavItems(userRole)| &&
       IsActive(NavItems(userRole)[i], currentPage) && IsActive(NavItems(userRole)[j], currentPage)) ==> i == j
  {
    var items := NavItems(userRole);
    ItemsFollowTheRole(userRole);
    forall i, j | 0 <= i < |items| && 0 <= j < |items| && IsActive(items[i], currentPage) && IsActive(items[j], currentPage)
      ensures i == j
    {
      if currentPage == Execution {
        assert items[i] in items && items[j] in items;
        assert items[i] == Tasks && items[j] == Tasks;
      } else {
        assert items[i] == currentPage == items[j];
      }
    }
  }

  /** The callbacks a click on the sidebar makes, in order (the theme,
      sign-out and header clicks hand their one callback on unchanged). */
  datatype Callback = OnNavigate(page: PageView) | SetMobileOpen(open: bool)

  /** A click on a navigation item. */
  function ItemClick(item: PageView): seq<Callback>
  {
    [OnNavigate(item), SetMobileOpen(false)]
  }

  /** A click on the overlay shown over the page while the mobile menu is
      open; without an open menu there is no overlay to click. */
  function OverlayClick(isMobileOpen: bool): seq<Callback>
  {
    if isMobileOpen then [SetMobileOpen(false)] else []
  }

  /** The page and the mobile menu as the shell keeps them, after it has
      run the callbacks of a click. */
  function Run(page: PageView, open: bool, calls: seq<Callback>): (PageView, bool)
    decreases |calls|
  {
    if calls == [] then (page, open)
    else
      match calls[0]
      case OnNavigate(p) => Run(p, open, calls[1..])
      case SetMobileOpen(o) => Run(page, o, calls[1..])
  }

  /** After a click on an offered item that item is the one highlighted and
      the mobile menu is closed; a click on the overlay only closes the
      menu. */
  lemma {:induction false} ClickHighlightsTheItem(userRole: Option<string>, k: nat, page: PageView, open: bool)
    requires k < |NavItems(userRole)|
    ensures var (p, o) := Run(page, open, ItemClick(NavItems(userRole)[k]));
      !o && p == NavItems(userRole)[k] &&
      forall i :: 0 <= i < |NavItems(userRole)| ==> (IsActive(NavItems(userRole)[i], p) <==> i == k)
    ensures Run(page, open, OverlayClick(open)) == (page, false)
  {
    var item := NavItems(userRole)[k];
    var calls := ItemClick(item);
    assert calls[1..][1..] == [];
    var p := Run(page, open, calls).0;
    assert p == item;
    ItemsFollowTheRole(userRole);
    AtMostOneActive(userRole, p);
    if open {
      assert OverlayClick(open)[1..] == [];
    }
  }
}
