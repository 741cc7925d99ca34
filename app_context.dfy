/**
 * The application-wide session record: the chosen role, whether the user is
 * signed in, and the name shown in the shell. Each field has its own setter.
 */
module AppContext {
  import opened Wrappers

  /** `UserRole` less `null`; the record holds `Option<Role>`. */
  datatype Role = Farmer | Consumer | Admin

  /** The text the source uses for each role. */
  function RoleName(r: Role): string
  {
    match r
    case Farmer => "farmer"
    case Consumer => "consumer"
    case Admin => "admin"
  }

  /** The role a text names, if it names one. */
  function RoleOfName(name: string): (r: Option<Role>)
    ensures r.Some? ==> RoleName(r.value) == name
    ensures r.None? ==> name != "farmer" && name != "consumer" && name != "admin"
  {
    if name == "farmer" then Some(Farmer)
    else if name == "consumer" then Some(Consumer)
    else if name == "admin" then Some(Admin)
    else None
  }

  /** Each role's name gives the role back, so names are distinct. */
  lemma RoleNameRoundTrip(r: Role)
    ensures RoleOfName(RoleName(r)) == Some(r)
  {
  }

  /** The provider's three state cells. */
  class AppState {
    var role: Option<Role>
    var isAuthenticated: bool
    var userName: string

    /** The state a fresh provider starts in. */
    constructor()
      ensures role == None && !isAuthenticated && userName == ""
    {
      role := None;
      isAuthenticated := false;
      userName := "";
    }

    method SetRole(r: Option<Role>)
      modifies this
      ensures role == r
      ensures isAuthenticated == old(isAuthenticated) && userName == old(userName)
    {
      role := r;
    }

    method SetIsAuthenticated(v: bool)
      modifies this
      ensures isAuthenticated == v
      ensures role == old(role) && userName == old(userName)
    {
      isAuthenticated := v;
    }

    method SetUserName(name: string)
      modifies this
      ensures userName == name
      ensures role == old(role) && isAuthenticated == old(isAuthenticated)
    {
      userName := name;
    }
  }

  const OutsideProvider: string := "useApp must be used within AppProvider"

  /** `useApp`: the provider's state, or the error raised outside any provider. */
  function UseApp(ctx: Option<AppState>): (r: Result<AppState, string>)
    ensures r.Failure? <==> ctx.None?
    ensures r.Failure? ==> r.error == "useApp must be used within AppProvider"
    ensures r.Success? ==> r.value == ctx.value
  {
    match ctx
    case None => Failure(OutsideProvider)
    case Some(state) => Success(state)
  }
}
