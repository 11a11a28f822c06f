/** The sidebar of the dashboard layout: the navigation table and the items
    shown to the signed-in user's role. */
module DashboardLayout {

  import opened Wrappers
  import opened Seqs
  import opened AuthContext

  /** A table row; `roles` lists the roles by their `UserRole` literal,
      written here as `Role` values. */
  datatype NavItem = NavItem(title: string, path: string, roles: seq<Role>)

  const DashboardItem: NavItem := NavItem("Dashboard", "/dashboard", [EndUser, Support, Admin])
  const MyComplaintsItem: NavItem := NavItem("My Complaints", "/complaints", [EndUser, Support, Admin])
  const ManageItem: NavItem := NavItem("Manage Complaints", "/manage-complaints", [Support, Admin])
  const AnalyticsItem: NavItem := NavItem("Analytics", "/analytics", [Admin])
  const ChatItem: NavItem := NavItem("AI Chat", "/chat", [EndUser, Support, Admin])
  const SettingsItem: NavItem := NavItem("Settings", "/settings", [EndUser, Support, Admin])

  /** `navItems`, in table order. */
  const NavItems: seq<NavItem> := [DashboardItem, MyComplaintsItem, ManageItem, AnalyticsItem, ChatItem, SettingsItem]

  /** `item.roles.includes(user?.role || "")`: no role literal is empty, so
      without a user no row is listed. */
  predicate Lists(item: NavItem, user: Option<User>) {
    user.Some? && user.value.role in item.roles
  }

  /** The empty key stands for no role. */
  lemma EmptyKeyNamesNoRole(r: Role)
    ensures RoleName(r) != ""
  {
  }

  /** `filteredNavItems`: exactly the table rows listing the user's role,
      in table order; none without a user. */
  function VisibleNavItems(user: Option<User>): (r: seq<NavItem>)
    ensures forall item :: item in r <==> item in NavItems && Lists(item, user)
    ensures IsSubsequence(r, NavItems)
  {
    Filter(NavItems, (item: NavItem) => Lists(item, user))
  }

  /** Nobody signed in sees no item. */
  lemma NoUserNoItems()
    ensures VisibleNavItems(None) == []
  {
    var lists := (item: NavItem) => Lists(item, None);
    assert forall item :: !lists(item);
    FilterKeepsNone(NavItems, lists);
  }

  /** "Analytics" appears for admins only, and "Manage Complaints" for
      support and admin accounts only. */
  lemma StaffOnlyItems(user: Option<User>)
    ensures AnalyticsItem.title == "Analytics" && ManageItem.title == "Manage Complaints"
    ensures AnalyticsItem in VisibleNavItems(user) <==> user.Some? && user.value.role == Admin
    ensures ManageItem in VisibleNavItems(user) <==> user.Some? && user.value.role != EndUser
  {
    assert AnalyticsItem in NavItems && ManageItem in NavItems;
    assert Lists(AnalyticsItem, user) <==> user.Some? && user.value.role == Admin;
    assert Lists(ManageItem, user) <==> user.Some? && user.value.role != EndUser;
  }

  /** A row listing all three roles is shown to every signed-in user. */
  lemma ListedForAll(item: NavItem, user: User)
    requires item in NavItems && item.roles == [EndUser, Support, Admin]
    ensures item in VisibleNavItems(Some(user))
  {
    assert Lists(item, Some(user)) by {
      assert user.role == EndUser || user.role == Support || user.role == Admin;
    }
  }

  /** Dashboard, My Complaints, AI Chat and Settings appear for every role. */
  lemma CommonItems(user: User)
    ensures var r := VisibleNavItems(Some(user));
            DashboardItem in r && MyComplaintsItem in r && ChatItem in r && SettingsItem in r
  {
    assert DashboardItem in NavItems && MyComplaintsItem in NavItems;
    assert ChatItem in NavItems && SettingsItem in NavItems;
    ListedForAll(DashboardItem, user);
    ListedForAll(MyComplaintsItem, user);
    ListedForAll(ChatItem, user);
    ListedForAll(SettingsItem, user);
  }

  /** An admin sees the whole table in order. */
  lemma AdminSeesEverything(admin: User)
    requires admin.role == Admin
    ensures VisibleNavItems(Some(admin)) == NavItems
  {
    forall item | item in NavItems ensures Lists(item, Some(admin)) {
      var k :| 0 <= k < |NavItems| && NavItems[k] == item;
      assert Admin in NavItems[k].roles;
    }
    FilterKeepsAll(NavItems, (item: NavItem) => Lists(item, Some(admin)));
  }
}
