/** The signed-in user's profile page (src/pages/Profile.tsx). */
module ProfilePage {
  import opened Wrappers
  import opened Rows
  import opened Query
  import Initials

  /** The metadata keys the page reads and writes; None where a key is absent. */
  datatype Metadata = Metadata(full_name: Option<string>, phone: Option<string>, address: Option<string>)

  /** The authenticated user as the auth service returns it. */
  datatype AuthUser = AuthUser(id: UserId, email: Option<string>, created_at: Time, metadata: Metadata)

  /** The page's `userData`; `created_at` is None while it holds its initial "". */
  datatype UserData = UserData(email: string, full_name: string, phone: string, address: string,
                               created_at: Option<Time>, role: string)

  const InitialUserData := UserData("", "", "", "", None, "citizen")

  /** `value || ""` for an absent or null field. */
  function OrEmpty(o: Option<string>): (r: string)
    ensures o.Some? ==> r == o.value
    ensures o.None? ==> r == ""
  {
    if o.Some? then o.value else ""
  }

  /** The role rows of one user: what the query filters `user_roles` down to. */
  function RoleRows(roles: seq<UserRole>, user: UserId): (r: seq<UserRole>)
    ensures forall x :: x in r <==> x in roles && x.user_id == user
  {
    Filter(roles, (x: UserRole) => x.user_id == user)
  }

  /**
   * `profile?.role || "citizen"` where `profile` comes from `.single()`: the role
   * of the user's only role row; "citizen" when the read fails, when the user has
   * no role row or more than one, or when the role is empty.
   */
  function RoleOf(roles: seq<UserRole>, user: UserId, readFails: bool): (role: string)
    ensures role != ""
    ensures readFails ==> role == "citizen"
    ensures |RoleRows(roles, user)| != 1 ==> role == "citizen"
    ensures !readFails && |RoleRows(roles, user)| == 1 && RoleRows(roles, user)[0].role != ""
            ==> role == RoleRows(roles, user)[0].role
    ensures role != "citizen" ==> exists x :: x in roles && x.user_id == user && x.role == role
  {
    var rows := RoleRows(roles, user);
    if !readFails && |rows| == 1 && rows[0].role != "" then
      assert rows[0] in rows;
      rows[0].role
    else "citizen"
  }

  /** The `userData` that `fetchUserProfile` sets for a signed-in user. */
  function Loaded(user: AuthUser, role: string): (d: UserData)
    ensures d.email == OrEmpty(user.email)
    ensures d.full_name == OrEmpty(user.metadata.full_name)
    ensures d.phone == OrEmpty(user.metadata.phone)
    ensures d.address == OrEmpty(user.metadata.address)
    ensures d.created_at == Some(user.created_at) && d.role == role
  {
    UserData(OrEmpty(user.email), OrEmpty(user.metadata.full_name), OrEmpty(user.metadata.phone),
             OrEmpty(user.metadata.address), Some(user.created_at), role)
  }

  /** The metadata `handleSave` sends: the three editable fields, nothing else. */
  function MetadataPatch(d: UserData): Metadata {
    Metadata(Some(d.full_name), Some(d.phone), Some(d.address))
  }

  /** The user after a successful `updateUser`: its metadata replaced, its e-mail and id kept. */
  function Saved(user: AuthUser, d: UserData): (u: AuthUser)
    ensures u.id == user.id && u.email == user.email && u.created_at == user.created_at
    ensures u.metadata == MetadataPatch(d)
  {
    user.(metadata := MetadataPatch(d))
  }

  /**
   * Saving and then loading the profile again shows the saved name, phone and
   * address; the e-mail shown is the one shown before, whatever was edited.
   */
  lemma SaveThenLoad(user: AuthUser, d: UserData, role: string)
    ensures Loaded(Saved(user, d), role).full_name == d.full_name
    ensures Loaded(Saved(user, d), role).phone == d.phone
    ensures Loaded(Saved(user, d), role).address == d.address
    ensures Loaded(Saved(user, d), role).email == Loaded(user, role).email
  {
  }

  /** The avatar text: the initials of the full name, or "U" when it is empty. */
  function AvatarText(d: UserData): (r: string)
    ensures d.full_name == "" ==> r == "U"
    ensures d.full_name != "" ==> r == Initials.GetInitials(d.full_name)
    ensures |r| <= 2 && forall c :: c in r ==> !Initials.IsLower(c)
  {
    if d.full_name == "" then "U" else Initials.GetInitials(d.full_name)
  }

  /** What the page shows and keeps between renders. */
  class Page {
    var loading: bool
    var editing: bool
    var userData: UserData
    var toast: Option<Toast>

    constructor ()
      ensures loading && !editing && userData == InitialUserData && toast == None
    {
      loading, editing, userData, toast := true, false, InitialUserData, None;
    }

    /** An input change while editing. */
    method Edit(full_name: string, phone: string, address: string)
      modifies this
      ensures userData == old(userData).(full_name := full_name, phone := phone, address := address)
      ensures loading == old(loading) && editing == old(editing) && toast == old(toast)
    {
      userData := userData.(full_name := full_name, phone := phone, address := address);
    }

    /**
     * `fetchUserProfile`: with no signed-in user the data stays as it is;
     * either way `loading` ends false.
     */
    method FetchUserProfile(user: Option<AuthUser>, roles: seq<UserRole>, readFails: bool)
      modifies this
      ensures !loading && editing == old(editing) && toast == old(toast)
      ensures user.None? ==> userData == old(userData)
      ensures user.Some? ==> userData == Loaded(user.value, RoleOf(roles, user.value.id, readFails))
    {
      if user.Some? {
        userData := Loaded(user.value, RoleOf(roles, user.value.id, readFails));
      }
      loading := false;
    }

    /**
     * `handleSave`: sends the metadata patch and returns the user as the auth
     * service then holds it. A missing user returns early; an error leaves edit
     * mode on; success leaves it. `loading` ends false in every case.
     */
    method HandleSave(user: Option<AuthUser>, updateError: Option<string>) returns (after: Option<AuthUser>)
      modifies this
      ensures !loading && userData == old(userData)
      ensures user.None? ==> after == None && editing == old(editing) && toast == old(toast)
      ensures user.Some? && updateError.Some? ==>
        after == user && editing == old(editing) && toast == Some(ErrorToast(updateError.value))
      ensures user.Some? && updateError.None? ==>
        after == Some(Saved(user.value, old(userData))) && !editing
        && toast == Some(SuccessToast("Profile updated successfully!"))
    {
      loading := true;
      if user.None? {
        after := None;
      } else if updateError.Some? {
        after := user;
        toast := Some(ErrorToast(updateError.value));
      } else {
        after := Some(Saved(user.value, userData));
        toast := Some(SuccessToast("Profile updated successfully!"));
        editing := false;
      }
      loading := false;
    }

    /** The header button: enter edit mode, or save when already editing. */
    method ClickHeaderButton(user: Option<AuthUser>, updateError: Option<string>) returns (after: Option<AuthUser>)
      modifies this
      ensures !old(editing) ==> editing && after == user && userData == old(userData)
                                 && loading == old(loading) && toast == old(toast)
      ensures old(editing) && user.Some? && updateError.None? ==> !editing && after == Some(Saved(user.value, old(userData)))
      ensures old(editing) && user.Some? && updateError.Some? ==> editing && after == user
      ensures old(editing) ==> !loading && userData == old(userData)
    {
      if editing {
        after := HandleSave(user, updateError);
      } else {
        editing := true;
        after := user;
      }
    }

    /** Cancel: leave edit mode and load the profile again, discarding the edits. */
    method Cancel(user: Option<AuthUser>, roles: seq<UserRole>, readFails: bool)
      modifies this
      ensures !editing && !loading && toast == old(toast)
      ensures user.Some? ==> userData == Loaded(user.value, RoleOf(roles, user.value.id, readFails))
      ensures user.None? ==> userData == old(userData)
    {
      editing := false;
      FetchUserProfile(user, roles, readFails);
    }
  }
}
