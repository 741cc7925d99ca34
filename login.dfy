/**
 * The mock sign-in page: the role comes from the navigation state or the
 * email, the display name from the email's local part, and the user lands on
 * the role's home page. The password is never looked at.
 */
module Login {
  import opened Wrappers
  import opened Text
  import opened AppContext
  import opened AppShell

  /** The role `handleLogin` assigns; `navRole` is `location.state?.role`. */
  function DeriveRole(navRole: Option<string>, email: string): (r: Role)
    ensures navRole == Some("admin") ==> r == Admin
    ensures navRole != Some("admin") ==> (r == Farmer <==> Contains(email, "farmer"))
    ensures navRole != Some("admin") ==> r != Admin
  {
    if navRole == Some("admin") then Admin
    else if Contains(email, "farmer") then Farmer
    else Consumer
  }

  /** `email.split('@')[0] || 'User'`. */
  function UserNameFromEmail(email: string): (name: string)
    ensures name != "" && '@' !in name
    ensures email != [] && email[0] != '@' ==>
              StartsWith(email, name) && (|name| == |email| || email[|name|] == '@')
    ensures email == [] || email[0] == '@' ==> name == "User"
  {
    var local := Before(email, '@');
    if local == "" then "User" else local
  }

  /** Where each role lands after signing in. */
  function LandingRoute(r: Role): string
  {
    match r
    case Farmer => "/farmer"
    case Admin => "/admin"
    case Consumer => "/consumer"
  }

  /** The landing route is the first entry of the role's menu. */
  lemma LandingIsFirstMenuEntry(r: Role)
    ensures LandingRoute(r) == GetNavItems(Some(r))[0].path
    ensures LandingRoute(r) == RolePrefix(r)
  {
    MenusUnderRolePrefix(r);
  }

  /** The fixed name each demo account gets. */
  function DemoUserName(r: Role): string
  {
    match r
    case Farmer => "Rajesh Kumar"
    case Admin => "Admin"
    case Consumer => "Priya Sharma"
  }

  /** `handleLogin`: set the role, sign in, set the name, then navigate. */
  method HandleLogin(app: AppState, navRole: Option<string>, email: string, password: string)
    returns (route: string)
    modifies app
    ensures app.role == Some(DeriveRole(navRole, email))
    ensures app.isAuthenticated
    ensures app.userName == UserNameFromEmail(email)
    ensures route == LandingRoute(DeriveRole(navRole, email))
  {
    var role := DeriveRole(navRole, email);
    app.SetRole(Some(role));
    app.SetIsAuthenticated(true);
    app.SetUserName(UserNameFromEmail(email));
    route := LandingRoute(role);
  }

  /** `handleDemoLogin`: the same steps with a fixed name per role. */
  method HandleDemoLogin(app: AppState, role: Role) returns (route: string)
    modifies app
    ensures app.role == Some(role)
    ensures app.isAuthenticated
    ensures app.userName == DemoUserName(role)
    ensures route == LandingRoute(role)
  {
    app.SetRole(Some(role));
    app.SetIsAuthenticated(true);
    app.SetUserName(DemoUserName(role));
    route := LandingRoute(role);
  }
}
