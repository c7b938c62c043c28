/** The administrator's user list (src/pages/admin/Users.tsx). */
module AdminUsers {
  import opened Wrappers
  import opened Rows
  import Initials

  /** A role row with the profile attached to it; None stands for the empty object `{}`. */
  datatype UserEntry = UserEntry(role: UserRole, profile: Option<Profile>)

  /** `profiles.find(p => p.id === userId)`: the first profile with that id. */
  function FindProfile(profiles: seq<Profile>, userId: UserId): (r: Option<Profile>)
    ensures r.None? <==> forall p :: p in profiles ==> p.id != userId
    ensures r.Some? ==> r.value in profiles && r.value.id == userId
    ensures r.Some? ==> exists k :: 0 <= k < |profiles| && profiles[k] == r.value
                                    && forall j :: 0 <= j < k ==> profiles[j].id != userId
  {
    if profiles == [] then None
    else if profiles[0].id == userId then Some(profiles[0])
    else
      var r := FindProfile(profiles[1..], userId);
      if r.Some? then
        var k :| 0 <= k < |profiles[1..]| && profiles[1..][k] == r.value
                 && forall j :: 0 <= j < k ==> profiles[1..][j].id != userId;
        assert profiles[k + 1] == r.value;
        r
      else r
  }

  /** The profile a role gets when the profiles query may have returned null. */
  function ProfileFor(profiles: Option<seq<Profile>>, userId: UserId): Option<Profile> {
    if profiles.Some? then FindProfile(profiles.value, userId) else None
  }

  /**
   * `userRoles.map(...)`: one entry per role row, in the same order, carrying
   * the first profile whose id is the row's user_id.
   */
  function Join(roles: seq<UserRole>, profiles: Option<seq<Profile>>): (users: seq<UserEntry>)
    ensures |users| == |roles|
    ensures forall k :: 0 <= k < |roles| ==> users[k].role == roles[k]
    ensures forall k :: 0 <= k < |roles| ==> users[k].profile == ProfileFor(profiles, roles[k].user_id)
    ensures profiles.None? ==> forall u :: u in users ==> u.profile.None?
    ensures forall u :: u in users ==> u.profile.Some? ==> u.profile.value.id == u.role.user_id
  {
    seq(|roles|, k requires 0 <= k < |roles| => UserEntry(roles[k], ProfileFor(profiles, roles[k].user_id)))
  }

  /**
   * The list `fetchUsers` leaves on the page: on a roles error the previous
   * list; if the roles data is null, none; otherwise the join.
   */
  function FetchedUsers(previous: seq<UserEntry>, rolesError: bool, roles: Option<seq<UserRole>>,
                        profiles: Option<seq<Profile>>): (users: seq<UserEntry>)
    ensures rolesError ==> users == previous
    ensures !rolesError && roles.None? ==> users == []
    ensures !rolesError && roles.Some? ==> |users| == |roles.value|
    ensures !rolesError && roles.Some? ==> forall k :: 0 <= k < |users| ==> users[k].role == roles.value[k]
  {
    if rolesError then previous
    else if roles.None? then []
    else Join(roles.value, profiles)
  }

  /** Users.tsx's `getInitials`: "U" for an empty name. */
  function UsersInitials(name: string): (r: string)
    ensures name == "" ==> r == "U"
    ensures name != "" ==> r == Initials.GetInitials(name)
    ensures 1 <= |r| || name != ""
    ensures |r| <= 2
  {
    if name == "" then "U" else Initials.GetInitials(name)
  }

  /** A profile field that `||` takes: present, not null and not empty. */
  predicate Truthy(profile: Option<Profile>, field: Profile -> Option<string>) {
    profile.Some? && field(profile.value).Some? && field(profile.value).value != ""
  }

  /** `value || fallback` on a profile field that may be absent, null or empty. */
  function FieldOr(profile: Option<Profile>, field: Profile -> Option<string>, fallback: string): (r: string)
    ensures Truthy(profile, field) ==> r == field(profile.value).value
    ensures !Truthy(profile, field) ==> r == fallback
  {
    if Truthy(profile, field) then field(profile.value).value else fallback
  }

  function FullName(p: Profile): Option<string> { p.full_name }
  function Email(p: Profile): Option<string> { p.email }

  /** The name shown in a row: the profile's full name, else "Unknown User". */
  function DisplayName(u: UserEntry): (r: string)
    ensures r != ""
    ensures Truthy(u.profile, FullName) ==> r == u.profile.value.full_name.value
    ensures !Truthy(u.profile, FullName) ==> r == "Unknown User"
  {
    FieldOr(u.profile, FullName, "Unknown User")
  }

  /** The e-mail shown in a row: the profile's e-mail, else "N/A". */
  function EmailText(u: UserEntry): (r: string)
    ensures r != ""
    ensures Truthy(u.profile, Email) ==> r == u.profile.value.email.value
    ensures !Truthy(u.profile, Email) ==> r == "N/A"
  {
    FieldOr(u.profile, Email, "N/A")
  }

  /**
   * The avatar text of a row: the initials of the profile's full name, or of
   * "User", which are "U". When a name is shown, the avatar carries that name's initials.
   */
  function AvatarText(u: UserEntry): (r: string)
    ensures |r| <= 2
    ensures Truthy(u.profile, FullName) ==> r == Initials.GetInitials(u.profile.value.full_name.value)
    ensures !Truthy(u.profile, FullName) ==> r == "U"
    ensures Truthy(u.profile, FullName) ==> r == Initials.GetInitials(DisplayName(u))
  {
    assert Initials.WordStarts("User") == "U" by {
      assert Initials.WordStarts("User") == ['U'] + Initials.WordStartsFrom("ser", false);
    }
    UsersInitials(FieldOr(u.profile, FullName, "User"))
  }

  /** `getRoleBadge`: destructive for admins, the role upper-cased as its text. */
  function RoleBadge(role: string): (b: Badge)
    ensures b.variant == Destructive <==> role == "admin"
    ensures b.variant == Default <==> role != "admin"
    ensures b.text == Initials.Upper(role)
    ensures |b.text| == |role|
  {
    Badge(if role == "admin" then Destructive else Default, Initials.Upper(role))
  }
}
