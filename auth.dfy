/** The session context: the signed-in user and the loading flag, driven
    by login, register, logout and the online switch. */
module Auth {
  import opened Wrappers

  datatype User = User(
    id: string,
    name: string,
    email: string,
    phone: string,
    profileImage: Option<string>,
    isOnline: bool,
    deliveryRating: Option<real>,
    completedDeliveries: Option<int>)

  const DemoEmail: string := "demo@milk.com"
  const DemoPassword: string := "password"

  /** The admin layout's check. */
  predicate IsAdmin(user: Option<User>) {
    user.Some? && user.value.email == DemoEmail
  }

  /** The fixed credential check of `login`. */
  function Authenticate(email: string, password: string): (r: Option<User>)
    ensures r.Some? <==> email == DemoEmail && password == DemoPassword
    ensures r.Some? ==> r.value.email == email && r.value.isOnline && IsAdmin(r)
  {
    if email == DemoEmail && password == DemoPassword then
      Some(User("1", "Demo Driver", email, "555-123-4567", Some("/assets/profile.jpg"), true, Some(4.8), Some(127)))
    else
      None
  }

  /** The user `register` creates; `id` stands for `Date.now()`. */
  function RegisteredUser(id: string, name: string, email: string, phone: string): (u: User)
    ensures u.id == id && u.name == name && u.email == email && u.phone == phone
    ensures u.isOnline && u.deliveryRating == Some(5.0) && u.completedDeliveries == Some(0)
    ensures u.profileImage == None
  {
    User(id, name, email, phone, None, true, Some(5.0), Some(0))
  }

  /** A login or register call waiting on its simulated delay. */
  datatype Request =
    | LoginRequest(email: string, password: string)
    | RegisterRequest(name: string, email: string, phone: string, password: string)

  /** The user once a pending request has run to its end. */
  function AfterRequest(user: Option<User>, request: Request, newId: string): (r: Option<User>)
    ensures request.LoginRequest? ==>
              r == (if Authenticate(request.email, request.password).Some?
                    then Authenticate(request.email, request.password) else user)
    ensures request.RegisterRequest? ==>
              r == Some(RegisteredUser(newId, request.name, request.email, request.phone))
  {
    match request
    case LoginRequest(email, password) =>
      var u := Authenticate(email, password);
      if u.Some? then u else user
    case RegisterRequest(name, email, phone, _) =>
      Some(RegisteredUser(newId, name, email, phone))
  }

  /** Wrong credentials do not sign out whoever is signed in; the demo
      credentials always sign in an online admin. */
  lemma LoginOutcome(user: Option<User>, email: string, password: string, newId: string)
    ensures !(email == DemoEmail && password == DemoPassword) ==>
              AfterRequest(user, LoginRequest(email, password), newId) == user
    ensures email == DemoEmail && password == DemoPassword ==>
              var u := AfterRequest(user, LoginRequest(email, password), newId);
              IsAdmin(u) && u.value.isOnline && u.value.email == email
  {
  }

  /** Registration ignores the password. */
  lemma RegisterIgnoresPassword(user: Option<User>, name: string, email: string, phone: string, p1: string, p2: string, newId: string)
    ensures AfterRequest(user, RegisterRequest(name, email, phone, p1), newId) ==
            AfterRequest(None, RegisterRequest(name, email, phone, p2), newId)
  {
  }

  /** `updateOnlineStatus` on the user value. */
  function WithOnlineStatus(user: Option<User>, status: bool): (r: Option<User>)
    ensures user.None? ==> r == None
    ensures user.Some? ==> r.Some? && r.value.isOnline == status && r.value.(isOnline := user.value.isOnline) == user.value
  {
    if user.Some? then Some(user.value.(isOnline := status)) else user
  }

  class AuthProvider {
    var user: Option<User>
    var isLoading: bool
    var pending: Option<Request>

    /** Loading is on while a request is pending. */
    ghost predicate Valid()
      reads this
    {
      pending.Some? ==> isLoading
    }

    constructor ()
      ensures Valid() && user == None && isLoading && pending == None
    {
      user := None;
      isLoading := true;
      pending := None;
    }

    /** The mount effect: a stored session, if any, is taken over; loading
        ends. `stored` stands for what local storage holds. */
    method RestoreSession(stored: Option<User>)
      requires Valid() && pending == None
      modifies this`user, this`isLoading
      ensures Valid() && !isLoading
      ensures user == (if stored.Some? then stored else old(user))
    {
      if stored.Some? {
        user := stored;
      }
      isLoading := false;
    }

    /** `login` up to its await: loading is on, the user is untouched. */
    method BeginLogin(email: string, password: string)
      requires Valid() && pending == None
      modifies this`isLoading, this`pending
      ensures Valid() && isLoading
      ensures pending == Some(LoginRequest(email, password))
    {
      isLoading := true;
      pending := Some(LoginRequest(email, password));
    }

    /** `register` up to its await. */
    method BeginRegister(name: string, email: string, phone: string, password: string)
      requires Valid() && pending == None
      modifies this`isLoading, this`pending
      ensures Valid() && isLoading
      ensures pending == Some(RegisterRequest(name, email, phone, password))
    {
      isLoading := true;
      pending := Some(RegisterRequest(name, email, phone, password));
    }

    /** The await returns: the request sets the user or not, and loading
        ends whatever the outcome. */
    method Complete(newId: string)
      requires Valid() && pending.Some?
      modifies this
      ensures Valid() && !isLoading && pending == None
      ensures user == AfterRequest(old(user), old(pending).value, newId)
    {
      user := AfterRequest(user, pending.value, newId);
      pending := None;
      isLoading := false;
    }

    method Logout()
      requires Valid()
      modifies this`user
      ensures Valid() && user == None
    {
      user := None;
    }

    method UpdateOnlineStatus(status: bool)
      requires Valid()
      modifies this`user
      ensures Valid() && user == WithOnlineStatus(old(user), status)
    {
      if user.Some? {
        user := Some(user.value.(isOnline := status));
      }
    }
  }
}
