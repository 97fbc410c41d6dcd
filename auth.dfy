/** The authentication state: the signed-in user, if any, and a loading flag.
    Sign-in accepts two demonstration accounts. */
module Auth {
  import opened Wrappers

  datatype Role = AdminRole | UserRole

  datatype User = User(id: string, email: string, name: string, avatar: Option<string>, role: Role)

  /** A partial profile update: each present field overwrites the stored one. */
  datatype UserPatch = UserPatch(
    id: Option<string>,
    email: Option<string>,
    name: Option<string>,
    avatar: Option<string>,
    role: Option<Role>)

  const AdminEmail: string := "admin@horizon.com"
  const AdminPassword: string := "admin123"
  const MemberEmail: string := "user@horizon.com"
  const MemberPassword: string := "user123"

  /** The user a pair of credentials signs in as: the administrator account, the
      ordinary user account, or nobody. */
  function AccountFor(email: string, password: string): (r: Option<User>)
    ensures r.Some? <==> (email == AdminEmail && password == AdminPassword) || (email == MemberEmail && password == MemberPassword)
    ensures r.Some? ==> r.value.email == email
    ensures email == AdminEmail && password == AdminPassword ==> r.value.id == "1" && r.value.role == AdminRole
    ensures email == MemberEmail && password == MemberPassword ==> r.value.id == "2" && r.value.role == UserRole
  {
    if email == AdminEmail && password == AdminPassword then
      Some(User("1", AdminEmail, "Administrator",
                Some("https://ui-avatars.com/api/?name=Administrator&background=3b82f6&color=fff"), AdminRole))
    else if email == MemberEmail && password == MemberPassword then
      Some(User("2", MemberEmail, "John Doe",
                Some("https://ui-avatars.com/api/?name=John+Doe&background=8b5cf6&color=fff"), UserRole))
    else None
  }

  /** The user after a profile update: present fields overwrite, the rest persist. */
  function UpdatedUser(u: User, patch: UserPatch): (r: User)
    ensures r.id == patch.id.GetOr(u.id) && r.email == patch.email.GetOr(u.email)
    ensures r.name == patch.name.GetOr(u.name) && r.role == patch.role.GetOr(u.role)
    ensures r.avatar == if patch.avatar.Some? then patch.avatar else u.avatar
  {
    User(patch.id.GetOr(u.id), patch.email.GetOr(u.email), patch.name.GetOr(u.name),
         if patch.avatar.Some? then patch.avatar else u.avatar, patch.role.GetOr(u.role))
  }

  class AuthStore {
    var user: Option<User>
    var isLoading: bool

    constructor ()
      ensures user == None && !isLoading
    {
      user := None;
      isLoading := false;
    }

    /** `isAuthenticated`: someone is signed in. */
    predicate IsAuthenticated(): (r: bool)
      reads this
      ensures r <==> user.Some?
    {
      user.Some?
    }

    /** `login`: signs in when the credentials are one of the two accounts; any
        other pair gives `false` and leaves the user as it was. Loading is off
        afterwards whatever the outcome. */
    method Login(email: string, password: string) returns (ok: bool)
      modifies this`user, this`isLoading
      ensures ok <==> AccountFor(email, password).Some?
      ensures user == if ok then AccountFor(email, password) else old(user)
      ensures ok ==> IsAuthenticated()
      ensures !isLoading
    {
      isLoading := true;
      var account := AccountFor(email, password);
      if account.Some? {
        user := account;
        ok := true;
      } else {
        ok := false;
      }
      isLoading := false;
    }

    /** `logout`: nobody is signed in afterwards. */
    method Logout()
      modifies this`user
      ensures user == None && !IsAuthenticated()
    {
      user := None;
    }

    /** `initAuth`: adopts the stored user. `saved` is `None` when nothing readable
        was stored, and `Some(None)` when the stored value is `null`. */
    method InitAuth(saved: Option<Option<User>>)
      modifies this`user
      ensures user == if saved.Some? then saved.value else old(user)
    {
      if saved.Some? {
        user := saved.value;
      }
    }

    /** `updateProfile`: merges the update into the signed-in user; without one, nothing changes. */
    method UpdateProfile(patch: UserPatch)
      modifies this`user
      ensures user == if old(user).Some? then Some(UpdatedUser(old(user).value, patch)) else None
      ensures IsAuthenticated() == old(IsAuthenticated())
    {
      if user.Some? {
        user := Some(UpdatedUser(user.value, patch));
      }
    }
  }
}
