/**
 * The admin's user list: profiles merged with their roles, a search over
 * name and role, and per-role counts.
 */
module AdminUsers {
  import opened Wrappers
  import opened Text

  /** A row of the profiles table. */
  datatype Profile = Profile(
    userId: string,
    fullName: string,
    phone: Option<string>,
    farmName: Option<string>,
    createdAt: string)

  /** A row of the roles table; the role may be null. */
  datatype RoleRow = RoleRow(userId: string, role: Option<string>)

  /** A profile with the role it is shown under. */
  datatype UserProfile = UserProfile(
    userId: string,
    fullName: string,
    phone: Option<string>,
    farmName: Option<string>,
    createdAt: string,
    role: string)

  /** Row `i` is the last row for its user id. */
  predicate LastRowFor(roles: seq<RoleRow>, i: int)
    requires 0 <= i < |roles|
  {
    forall j :: i < j < |roles| ==> roles[j].userId != roles[i].userId
  }

  /** The role of the last row for `id`, if there is a row for `id`. */
  function LastRole(roles: seq<RoleRow>, id: string): Option<Option<string>>
  {
    if roles == [] then None
    else if roles[|roles| - 1].userId == id then Some(roles[|roles| - 1].role)
    else LastRole(roles[..|roles| - 1], id)
  }

  /** There is a row for `id` exactly when `LastRole` finds one. */
  lemma {:induction false} LastRoleNone(roles: seq<RoleRow>, id: string)
    ensures LastRole(roles, id).None? <==> forall k :: 0 <= k < |roles| ==> roles[k].userId != id
  {
    if roles != [] {
      var init := roles[..|roles| - 1];
      LastRoleNone(init, id);
      assert forall k :: 0 <= k < |init| ==> init[k] == roles[k];
    }
  }

  /** `LastRole` finds the role of the last row for the id. */
  lemma {:induction false} LastRoleIsLastRow(roles: seq<RoleRow>, i: nat)
    requires i < |roles| && LastRowFor(roles, i)
    ensures LastRole(roles, roles[i].userId) == Some(roles[i].role)
  {
    if i < |roles| - 1 {
      var init := roles[..|roles| - 1];
      assert init[i] == roles[i];
      assert LastRowFor(init, i);
      LastRoleIsLastRow(init, i);
    }
  }

  /**
   * `Object.fromEntries(roles.map(r => [r.user_id, r.role]))`: a later row
   * overwrites an earlier one with the same user id.
   */
  function RoleMap(roles: seq<RoleRow>): (m: map<string, Option<string>>)
    ensures forall id :: id in m <==> LastRole(roles, id).Some?
    ensures forall id :: id in m ==> m[id] == LastRole(roles, id).value
  {
    if roles == [] then map[]
    else
      var last := roles[|roles| - 1];
      RoleMap(roles[..|roles| - 1])[last.userId := last.role]
  }

  /** `roleMap[id] || 'consumer'`: a missing, null or empty role reads as consumer. */
  function RoleOf(m: map<string, Option<string>>, id: string): (role: string)
    ensures role != ""
    ensures id in m && m[id].Some? && m[id].value != "" ==> role == m[id].value
    ensures !(id in m && m[id].Some? && m[id].value != "") ==> role == "consumer"
  {
    if id in m && m[id].Some? && m[id].value != "" then m[id].value else "consumer"
  }

  function WithRole(p: Profile, role: string): UserProfile
  {
    UserProfile(p.userId, p.fullName, p.phone, p.farmName, p.createdAt, role)
  }

  /** The merged list: every profile, in order, with its role looked up by user id. */
  function Merge(profiles: seq<Profile>, roles: seq<RoleRow>): (users: seq<UserProfile>)
    ensures |users| == |profiles|
    ensures forall i :: 0 <= i < |profiles| ==> users[i] == WithRole(profiles[i], RoleOf(RoleMap(roles), profiles[i].userId))
  {
    var m := RoleMap(roles);
    seq(|profiles|, i requires 0 <= i < |profiles| => WithRole(profiles[i], RoleOf(m, profiles[i].userId)))
  }

  /**
   * For a user id with role rows, the merged profile takes the role of the last
   * such row, or consumer when that role is null or empty; with no rows, consumer.
   */
  lemma MergedRoleIsLastRow(profiles: seq<Profile>, roles: seq<RoleRow>, i: nat, j: nat)
    requires i < |profiles| && j < |roles| && roles[j].userId == profiles[i].userId
    requires LastRowFor(roles, j)
    ensures Merge(profiles, roles)[i].role ==
              if roles[j].role.Some? && roles[j].role.value != "" then roles[j].role.value else "consumer"
  {
    LastRoleIsLastRow(roles, j);
  }

  lemma MergedRoleWithoutRow(profiles: seq<Profile>, roles: seq<RoleRow>, i: nat)
    requires i < |profiles|
    requires forall k :: 0 <= k < |roles| ==> roles[k].userId != profiles[i].userId
    ensures Merge(profiles, roles)[i].role == "consumer"
  {
    LastRoleNone(roles, profiles[i].userId);
  }

  /** The search matches the lower-cased name, or the role as stored. */
  predicate Matches(u: UserProfile, search: string)
  {
    Contains(Lower(u.fullName), Lower(search)) || Contains(u.role, Lower(search))
  }

  function MatchesSearch(search: string): UserProfile -> bool
  {
    (u: UserProfile) => Matches(u, search)
  }

  /** `users.filter(...)`: the users the search matches, in their order. */
  function FilterUsers(users: seq<UserProfile>, search: string): (r: seq<UserProfile>)
    ensures SubsequenceOf(r, users)
    ensures forall i :: 0 <= i < |r| ==> Matches(r[i], search)
    ensures forall i :: 0 <= i < |users| && Matches(users[i], search) ==> users[i] in r
  {
    Filter(users, MatchesSearch(search))
  }

  /** An empty search keeps everyone. */
  lemma EmptySearchKeepsAll(users: seq<UserProfile>)
    ensures FilterUsers(users, "") == users
  {
    forall i | 0 <= i < |users| ensures MatchesSearch("")(users[i]) {
      ContainsEmpty(Lower(users[i].fullName));
    }
  }

  function HasRole(role: string): UserProfile -> bool
  {
    (u: UserProfile) => u.role == role
  }

  /** `users.filter(u => u.role === role).length`. */
  function CountRole(users: seq<UserProfile>, role: string): (n: nat)
    ensures n <= |users|
  {
    Count(users, HasRole(role))
  }

  /** The three counts together never exceed the number of users. */
  lemma {:induction false} RoleCountsBounded(users: seq<UserProfile>)
    ensures CountRole(users, "farmer") + CountRole(users, "consumer") + CountRole(users, "admin") <= |users|
  {
    if users != [] {
      var init := users[..|users| - 1];
      var x := users[|users| - 1];
      assert users == init + [x];
      RoleCountsBounded(init);
      CountAppend(init, x, HasRole("farmer"));
      CountAppend(init, x, HasRole("consumer"));
      CountAppend(init, x, HasRole("admin"));
    }
  }

  /** How a role is displayed. */
  datatype RoleConfig = RoleConfig(title: string, color: string)

  const FarmerConfig := RoleConfig("Farmer", "bg-primary/15 text-primary")
  const ConsumerConfig := RoleConfig("Consumer", "bg-farm-gold/15 text-farm-gold")
  const AdminConfig := RoleConfig("Admin", "bg-farm-sky/15 text-farm-sky")

  /** `roleConfig[role] || roleConfig.consumer`. */
  function RoleConfigOf(role: string): (c: RoleConfig)
    ensures role == "farmer" ==> c == FarmerConfig && c.title == "Farmer"
    ensures role == "admin" ==> c == AdminConfig && c.title == "Admin"
    ensures role != "farmer" && role != "admin" ==> c == ConsumerConfig
  {
    if role == "farmer" then FarmerConfig
    else if role == "admin" then AdminConfig
    else ConsumerConfig
  }

  /** The page's state cells. */
  class AdminUsersPage {
    var users: seq<UserProfile>
    var loading: bool
    var search: string

    constructor()
      ensures users == [] && loading && search == ""
    {
      users := [];
      loading := true;
      search := "";
    }

    /**
     * `fetchUsers`, with the two query results as parameters (`None` where the
     * query gave no data): the list is replaced only when both are present.
     */
    method FetchUsers(profiles: Option<seq<Profile>>, roles: Option<seq<RoleRow>>)
      modifies this
      ensures !loading
      ensures profiles.Some? && roles.Some? ==> users == Merge(profiles.value, roles.value)
      ensures profiles.None? || roles.None? ==> users == old(users)
      ensures search == old(search)
    {
      loading := true;
      if profiles.Some? && roles.Some? {
        users := Merge(profiles.value, roles.value);
      }
      loading := false;
    }

    method SetSearch(s: string)
      modifies this
      ensures search == s && users == old(users) && loading == old(loading)
    {
      search := s;
    }

    /** The rows the table shows. */
    function Filtered(): seq<UserProfile>
      reads this
    {
      FilterUsers(users, search)
    }
  }
}
