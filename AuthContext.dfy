/** The authentication context: the signed-in user, the fixed credential check, sign-out,
    the derived admin flag, and the hook that requires a provider. */
module AuthContext {
  import opened Common

  datatype Role = Admin | Member

  datatype User = User(id: string, email: string, name: string, role: Role)

  /** The development administrator, signed in from the start. */
  const AdminUser := User("1", "admin@stonepath.com", "Administrator", Admin)

  const InvalidCredentials := "Invalid credentials"
  const NoProvider := "useAuth must be used within an AuthProvider"

  /** `user?.role === 'admin'`. */
  function IsAdmin(user: Option<User>): (b: bool)
    ensures b <==> user.Some? && user.value.role == Admin
    ensures user.None? ==> !b
  {
    match user
    case None => false
    case Some(u) => u.role == Admin
  }

  /** The credential check of `login`: the one fixed pair gives the administrator;
      anything else is refused. */
  function CheckCredentials(email: string, password: string): (r: Option<User>)
    ensures r.Some? <==> email == "admin@stonepath.com" && password == "admin"
    ensures r.Some? ==> r.value == AdminUser && IsAdmin(r)
  {
    if email == "admin@stonepath.com" && password == "admin" then Some(AdminUser) else None
  }

  /** The comparison is exact: a different case or a trailing space is refused. */
  lemma CredentialsAreExact()
    ensures CheckCredentials("Admin@stonepath.com", "admin").None?
    ensures CheckCredentials("admin@stonepath.com", "admin ").None?
    ensures CheckCredentials("admin@stonepath.com", "").None?
  {
    assert "Admin@stonepath.com"[0] != "admin@stonepath.com"[0];
    assert |"admin "| != |"admin"|;
  }

  /** What the provider hands down: the user, and the admin flag derived from it. */
  datatype ContextValue = ContextValue(user: Option<User>, isAdmin: bool)

  function ValueOf(user: Option<User>): (v: ContextValue)
    ensures v.user == user && (v.isAdmin <==> user.Some? && user.value.role == Admin)
  {
    ContextValue(user, IsAdmin(user))
  }

  datatype Result<T> = Ok(value: T) | Err(error: string)

  /** `useAuth`: the provider's value, or the error thrown outside a provider. */
  function UseAuth(context: Option<ContextValue>): (r: Result<ContextValue>)
    ensures context.None? <==> r == Err(NoProvider)
    ensures context.Some? ==> r == Ok(context.value)
  {
    match context
    case None => Err(NoProvider)
    case Some(v) => Ok(v)
  }

  /** The provider's `user` state. */
  class AuthProvider {
    var user: Option<User>

    constructor ()
      ensures user == Some(AdminUser) && IsAdmin(user)
    {
      user := Some(AdminUser);
    }

    function Value(): ContextValue
      reads this
    {
      ValueOf(user)
    }

    /** `login`: the fixed pair signs the administrator in; any other pair is refused
      with "Invalid credentials" and the user is left as it was. */
    method Login(email: string, password: string) returns (error: Option<string>)
      modifies this
      ensures email == "admin@stonepath.com" && password == "admin" ==>
        error == None && user == Some(AdminUser) && IsAdmin(user)
      ensures !(email == "admin@stonepath.com" && password == "admin") ==>
        error == Some(InvalidCredentials) && user == old(user)
    {
      var checked := CheckCredentials(email, password);
      if checked.Some? {
        user := checked;
        error := None;
      } else {
        error := Some(InvalidCredentials);
      }
    }

    /** `logout`: nobody is signed in, so nobody is an administrator. */
    method Logout()
      modifies this
      ensures user == None && !IsAdmin(user)
    {
      user := None;
    }
  }
}
