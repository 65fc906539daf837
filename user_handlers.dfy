/** The users command handlers: register, verify credentials, verify e-mail and get user.
    Hashing and checking a password are calls into a library; they are the two function
    values of a `Passwords` record. */
module UserHandlers {
  import opened Errors
  import opened Models
  import opened Messages
  import Stores
  import opened FakeUsers
  import opened UsersService
  import opened UnitsOfWork

  /** `hash_password` and `verify_password`. */
  datatype Passwords = Passwords(hash: string -> string, verify: (string, string) -> bool)

  /** A stored user that has `name` as e-mail or as username. */
  predicate Known(w: World, name: string)
  {
    exists k :: k in w.users.entries && (w.users.entries[k].email == name || w.users.entries[k].username == name)
  }

  /** The user the credentials check settles on: the first one with `name` as e-mail
      if there is one, else the first one with `name` as username. */
  function Lookup(w: World, name: string): (r: Option<User>)
    requires WorldValid(w)
    ensures r.None? <==> !Known(w, name)
    ensures r.Some? ==> (exists k :: k in w.users.entries && w.users.entries[k] == r.value) &&
                        (r.value.email == name || r.value.username == name)
    ensures (exists k :: k in w.users.entries && w.users.entries[k].email == name) ==>
              r.Some? && r.value.email == name
  {
    match UserByEmail(w, name)
    case Ok(u) => Some(u)
    case Err(_) =>
      match UserByUsername(w, name)
      case Ok(u) => Some(u)
      case Err(_) => None
  }

  /** The user a registration creates: the command's fields, the hashed password and
      the model's defaults. */
  function Registered(username: string, password: string, email: string, pw: Passwords): (u: User)
    ensures u.email == email && u.username == username && u.password == pw.hash(password)
    ensures u.id == 0 && !u.emailVerified
  {
    NewUser(email, pw.hash(password), username)
  }

  /** Register: the existence check by e-mail and username runs first, so a command with
      both empty raises its `ValueError` and a taken e-mail or username raises
      `UserAlreadyExistsError`, each before any write or event. Otherwise the user is
      stored with the hashed password, the scope commits, one `UserRegisteredEvent` is
      appended and the user comes back with the password cleared. */
  function AfterRegisterUser(w: World, username: string, password: string, email: string, pw: Passwords)
    : (o: Outcome<Reply>)
    requires WorldValid(w)
    ensures WorldValid(o.world)
    ensures o.result == Err(ValueError(USER_ATTRIBUTE_REQUIRED)) <==> email == "" && username == ""
    ensures o.result == Err(UserAlreadyExistsError) <==>
              exists k :: k in w.users.entries &&
                          ((email != "" && w.users.entries[k].email == email) ||
                           (username != "" && w.users.entries[k].username == username))
    ensures o.result.Ok? <==>
              (email != "" || username != "") &&
              !(exists k :: k in w.users.entries &&
                            ((email != "" && w.users.entries[k].email == email) ||
                             (username != "" && w.users.entries[k].username == username)))
    ensures o.result.Err? ==> o.world == w
    ensures o.result.Ok? ==>
              var u := Registered(username, password, email, pw);
              o.result.value == UserReply(ProtectPassword(u)) &&
              o.world.users.entries == w.users.entries[0 := u] &&
              o.world.events == w.events + [UserRegistered(0, username, email)] &&
              o.world.committed && o.world.groups == w.groups
  {
    match Existence(w, None, Some(email), Some(username))
    case Err(e) => Outcome(w, Err(e))
    case Ok(taken) =>
      if taken then Outcome(w, Err(UserAlreadyExistsError))
      else
        var o := AfterRegister(w, Registered(username, password, email, pw));
        var shown := ProtectPassword(o.result.value);
        Outcome(o.world.(events := o.world.events + [UserRegistered(shown.id, shown.username, shown.email)]),
                Ok(UserReply(shown)))
  }

  /** Verify credentials: the user is looked up by e-mail, then by username; the checks
      come in the order not found, e-mail not verified, wrong password. An empty name
      fails in the first existence check. Nothing is written. */
  function Credentials(w: World, username: string, password: string, pw: Passwords): (r: Result<Reply>)
    requires WorldValid(w)
    ensures r == Err(ValueError(USER_ATTRIBUTE_REQUIRED)) <==> username == ""
    ensures username != "" ==>
              var found := Lookup(w, username);
              (r == Err(UserNotFoundError) <==> found.None?) &&
              (r == Err(EmailIsNotVerifiedError) <==> found.Some? && !found.value.emailVerified) &&
              (r == Err(InvalidPasswordError) <==>
                 found.Some? && found.value.emailVerified && !pw.verify(password, found.value.password)) &&
              (r.Ok? ==> r.value == UserReply(ProtectPassword(found.value)) &&
                         found.value.emailVerified && pw.verify(password, found.value.password)) &&
              (found.Some? && found.value.emailVerified && pw.verify(password, found.value.password) ==>
                 r == Ok(UserReply(ProtectPassword(found.value))))
  {
    if username == "" then Err(ValueError(USER_ATTRIBUTE_REQUIRED))
    else
      var found :=
        if Existence(w, None, Some(username), None) == Ok(true) then Some(UserByEmail(w, username).value)
        else if Existence(w, None, None, Some(username)) == Ok(true) then Some(UserByUsername(w, username).value)
        else None;
      assert found == Lookup(w, username);
      match found
      case None => Err(UserNotFoundError)
      case Some(u) =>
        if !u.emailVerified then Err(EmailIsNotVerifiedError)
        else if !pw.verify(password, u.password) then Err(InvalidPasswordError)
        else Ok(UserReply(ProtectPassword(u)))
  }

  /** Verify e-mail: the verified user, with the password cleared, or `UserNotFoundError`. */
  function AfterVerifyUserEmail(w: World, userId: int): (o: Outcome<Reply>)
    requires WorldValid(w)
    ensures WorldValid(o.world)
    ensures o.result.Ok? <==> userId in w.users.entries
    ensures o.result.Ok? ==>
              o.result.value.UserReply? && o.result.value.user.emailVerified &&
              o.result.value.user == ProtectPassword(w.users.entries[userId].(emailVerified := true))
    ensures o.result.Err? ==> o.result.error == UserNotFoundError && o.world == w
    ensures o.world == AfterVerifyEmail(w, userId).world
  {
    var o := AfterVerifyEmail(w, userId);
    match o.result
    case Ok(u) => Outcome(o.world, Ok(UserReply(ProtectPassword(u))))
    case Err(e) => Outcome(o.world, Err(e))
  }

  /** Get user: the user stored under the id with the password cleared, or `UserNotFoundError`. */
  function GetUserReply(w: World, userId: int): (r: Result<Reply>)
    ensures r.Ok? <==> userId in w.users.entries
    ensures r.Ok? ==> r.value == UserReply(ProtectPassword(w.users.entries[userId]))
    ensures r.Err? ==> r.error == UserNotFoundError
  {
    match UserById(w, userId)
    case Ok(u) => Ok(UserReply(ProtectPassword(u)))
    case Err(e) => Err(e)
  }

  /** The only user with a given e-mail is the one the credentials check settles on. */
  lemma {:induction false} LookupFindsOnlyEmailOwner(w: World, key: int, email: string)
    requires WorldValid(w) && key in w.users.entries && w.users.entries[key].email == email
    requires forall k :: k in w.users.entries && w.users.entries[k].email == email ==> k == key
    ensures Lookup(w, email) == Some(w.users.entries[key])
  {
    var r := Lookup(w, email);
    assert r.Some? && r.value.email == email;
    var k :| k in w.users.entries && w.users.entries[k] == r.value;
  }

  /** A new registration is refused at once if repeated, and the new user cannot log in
      before the e-mail is verified and can afterwards, when the password checks against
      its hash. */
  lemma {:induction false} RegisterVerifyLogin(w: World, username: string, password: string, email: string, pw: Passwords)
    requires WorldValid(w) && email != ""
    requires AfterRegisterUser(w, username, password, email, pw).result.Ok?
    requires pw.verify(password, pw.hash(password))
    ensures var w1 := AfterRegisterUser(w, username, password, email, pw).world;
            AfterRegisterUser(w1, username, password, email, pw).result == Err(UserAlreadyExistsError) &&
            Credentials(w1, email, password, pw) == Err(EmailIsNotVerifiedError) &&
            var w2 := AfterVerifyUserEmail(w1, 0).world;
            Credentials(w2, email, password, pw) ==
              Ok(UserReply(ProtectPassword(Registered(username, password, email, pw).(emailVerified := true))))
  {
    var u := Registered(username, password, email, pw);
    var w1 := AfterRegisterUser(w, username, password, email, pw).world;
    assert w1.users.entries[0] == u;
    assert forall k :: k in w1.users.entries && w1.users.entries[k].email == email ==> k == 0;
    LookupFindsOnlyEmailOwner(w1, 0, email);
    var w2 := AfterVerifyUserEmail(w1, 0).world;
    assert w2.users.entries[0] == u.(emailVerified := true);
    assert forall k :: k in w2.users.entries && w2.users.entries[k].email == email ==> k == 0;
    LookupFindsOnlyEmailOwner(w2, 0, email);
  }

  method RegisterUser(uow: UnitOfWork, username: string, password: string, email: string, pw: Passwords)
    returns (r: Result<Reply>)
    requires uow.Valid()
    modifies uow, uow.users
    ensures uow.Valid()
    ensures var o := AfterRegisterUser(old(uow.Abs()), username, password, email, pw);
            uow.Abs() == o.world && r == o.result
  {
    var u := uow.Enter();
    var service := new UsersService(uow);
    var taken := service.CheckUserExistence(None, Some(email), Some(username));
    if taken.Err? {
      u.Exit();
      return Err(taken.error);
    }
    if taken.value {
      u.Exit();
      return Err(UserAlreadyExistsError);
    }
    var user := NewUser(email, password, username);
    user := user.(password := pw.hash(user.password));
    var stored := service.RegisterUser(user);
    var shown := ProtectPassword(stored.value);
    u.AddEvent(UserRegistered(shown.id, shown.username, shown.email));
    u.Exit();
    r := Ok(UserReply(shown));
  }

  method VerifyUserCredentials(uow: UnitOfWork, username: string, password: string, pw: Passwords)
    returns (r: Result<Reply>)
    requires uow.Valid()
    modifies uow
    ensures uow.Valid() && uow.Abs() == old(uow.Abs())
    ensures r == Credentials(old(uow.Abs()), username, password, pw)
  {
    var service := new UsersService(uow);
    var user: User;
    var byEmail := service.CheckUserExistence(None, Some(username), None);
    if byEmail.Err? {
      return Err(byEmail.error);
    }
    if byEmail.value {
      var found := service.GetUserByEmail(username);
      user := found.value;
    } else {
      var byUsername := service.CheckUserExistence(None, None, Some(username));
      if byUsername == Ok(true) {
        var found := service.GetUserByUsername(username);
        user := found.value;
      } else {
        return Err(UserNotFoundError);
      }
    }
    if !user.emailVerified {
      return Err(EmailIsNotVerifiedError);
    }
    if !pw.verify(password, user.password) {
      return Err(InvalidPasswordError);
    }
    r := Ok(UserReply(ProtectPassword(user)));
  }

  method VerifyUserEmail(uow: UnitOfWork, userId: int) returns (r: Result<Reply>)
    requires uow.Valid()
    modifies uow, uow.users
    ensures uow.Valid()
    ensures var o := AfterVerifyUserEmail(old(uow.Abs()), userId); uow.Abs() == o.world && r == o.result
  {
    var service := new UsersService(uow);
    var verified := service.VerifyUserEmail(userId);
    if verified.Err? {
      return Err(verified.error);
    }
    r := Ok(UserReply(ProtectPassword(verified.value)));
  }

  method GetUser(uow: UnitOfWork, userId: int) returns (r: Result<Reply>)
    requires uow.Valid()
    modifies uow
    ensures uow.Valid() && uow.Abs() == old(uow.Abs())
    ensures r == GetUserReply(old(uow.Abs()), userId)
  {
    var service := new UsersService(uow);
    var found := service.GetUserById(userId);
    if found.Err? {
      return Err(found.error);
    }
    r := Ok(UserReply(ProtectPassword(found.value)));
  }
}
