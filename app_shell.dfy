/**
 * The signed-in shell: the menu chosen by role, the mobile bar holding the
 * first five entries, the active-entry test and the avatar initial.
 */
module AppShell {
  import opened Wrappers
  import opened Text
  import opened AppContext

  datatype NavItem = NavItem(name: string, path: string)

  const FarmerNav: seq<NavItem> := [
    NavItem("Dashboard", "/farmer"),
    NavItem("Products", "/farmer/products"),
    NavItem("Orders", "/farmer/orders"),
    NavItem("Climate", "/farmer/climate"),
    NavItem("Pricing", "/farmer/pricing"),
    NavItem("Chat", "/farmer/chat"),
    NavItem("Quality Scan", "/farmer/scan")
  ]

  const ConsumerNav: seq<NavItem> := [
    NavItem("Home", "/consumer"),
    NavItem("Browse", "/consumer/browse"),
    NavItem("Cart", "/consumer/cart"),
    NavItem("Orders", "/consumer/orders"),
    NavItem("Chat", "/consumer/chat")
  ]

  const AdminNav: seq<NavItem> := [
    NavItem("Overview", "/admin"),
    NavItem("Users", "/admin/users"),
    NavItem("Revenue", "/admin/revenue"),
    NavItem("Disputes", "/admin/disputes"),
    NavItem("Settings", "/admin/settings")
  ]

  /** The path every entry of a role's menu starts with. */
  function RolePrefix(r: Role): string
  {
    "/" + RoleName(r)
  }

  /** `getNavItems`: farmer and admin have their own menus; anything else gets the consumer's. */
  function GetNavItems(role: Option<Role>): (items: seq<NavItem>)
    ensures role == Some(Farmer) ==> items == FarmerNav
    ensures role == Some(Admin) ==> items == AdminNav
    ensures role == Some(Consumer) || role == None ==> items == ConsumerNav
  {
    match role
    case Some(Farmer) => FarmerNav
    case Some(Admin) => AdminNav
    case _ => ConsumerNav
  }

  /** No role at all shows the consumer menu. */
  lemma NoRoleIsConsumer()
    ensures GetNavItems(None) == GetNavItems(Some(Consumer))
  {
  }

  /** Every entry lies under `prefix`, and the first entry is `prefix` itself. */
  predicate UnderPrefix(items: seq<NavItem>, prefix: string)
  {
    && |items| > 0 && items[0].path == prefix
    && forall i :: 0 <= i < |items| ==> StartsWith(items[i].path, prefix)
  }

  lemma FarmerMenuUnderPrefix()
    ensures UnderPrefix(FarmerNav, "/farmer")
  {
  }

  lemma ConsumerMenuUnderPrefix()
    ensures UnderPrefix(ConsumerNav, "/consumer")
  {
  }

  lemma AdminMenuUnderPrefix()
    ensures UnderPrefix(AdminNav, "/admin")
  {
  }

  /** Every entry of a role's menu lies under that role's prefix; the first is the prefix itself. */
  lemma MenusUnderRolePrefix(r: Role)
    ensures UnderPrefix(GetNavItems(Some(r)), RolePrefix(r))
  {
    match r
    case Farmer => FarmerMenuUnderPrefix();
    case Consumer => ConsumerMenuUnderPrefix();
    case Admin => AdminMenuUnderPrefix();
  }

  /** The menus hold 7, 5 and 5 entries. */
  lemma MenuSizes()
    ensures |GetNavItems(Some(Farmer))| == 7
    ensures |GetNavItems(Some(Consumer))| == 5
    ensures |GetNavItems(Some(Admin))| == 5
  {
  }

  /** `items.slice(0, 5)`: the mobile bar. */
  function MobileNav(items: seq<NavItem>): (r: seq<NavItem>)
    ensures |r| == if |items| < 5 then |items| else 5
    ensures forall i :: 0 <= i < |r| ==> r[i] == items[i]
  {
    if |items| < 5 then items else items[..5]
  }

  /** The farmer's Chat and Quality Scan are desktop-only; the other menus fit the bar. */
  lemma MobileBars()
    ensures forall i :: 0 <= i < |MobileNav(FarmerNav)| ==>
              MobileNav(FarmerNav)[i].name != "Chat" && MobileNav(FarmerNav)[i].name != "Quality Scan"
    ensures MobileNav(ConsumerNav) == ConsumerNav
    ensures MobileNav(AdminNav) == AdminNav
  {
    assert MobileNav(FarmerNav) == FarmerNav[..5];
  }

  /** An entry is highlighted when the current path is exactly its path. */
  predicate IsActive(pathname: string, item: NavItem)
  {
    pathname == item.path
  }

  /** The entries of a menu have distinct paths. */
  predicate DistinctPaths(items: seq<NavItem>)
  {
    forall i, j :: 0 <= i < j < |items| ==> items[i].path != items[j].path
  }

  /** In a menu with distinct paths at most one entry is active. */
  lemma AtMostOneActive(items: seq<NavItem>, pathname: string, i: nat, j: nat)
    requires DistinctPaths(items)
    requires i < |items| && j < |items|
    requires IsActive(pathname, items[i]) && IsActive(pathname, items[j])
    ensures i == j
  {
  }

  /** Every role's menu has distinct paths. */
  lemma MenusHaveDistinctPaths(role: Option<Role>)
    ensures DistinctPaths(GetNavItems(role))
  {
  }

  /** `userName.charAt(0).toUpperCase()`. */
  function AvatarInitial(userName: string): (r: string)
    ensures r == "" <==> userName == ""
    ensures r != "" ==> |r| == 1 && r[0] == UpperChar(userName[0])
  {
    if userName == "" then "" else [UpperChar(userName[0])]
  }
}
