/** `UsersService`: user look-ups, the existence check, registration and e-mail
    verification, each inside one `async with` scope of the unit of work. */
module UsersService {
  import opened Errors
  import opened Models
  import Stores
  import opened FakeUsers
  import opened UnitsOfWork

  /** Python truthiness of an optional argument: absent, `0` and `''` are all falsy. */
  predicate GivenId(id: Option<int>)
  {
    id.Some? && id.value != 0
  }

  predicate GivenText(s: Option<string>)
  {
    s.Some? && s.value != ""
  }

  /** A stored user, kept under `key`, that one of the given attributes picks out. */
  predicate Picks(key: int, u: User, id: Option<int>, email: Option<string>, username: Option<string>)
  {
    (GivenId(id) && key == id.value) || (GivenText(email) && u.email == email.value) ||
    (GivenText(username) && u.username == username.value)
  }

  /** The fake's `get_by_email`: the first stored user, in iteration order, with that
      e-mail; `None` exactly when no stored user has it. */
  function FindByEmail(w: World, email: string): (r: Option<User>)
    requires WorldValid(w)
    ensures r.Some? <==> exists k :: k in w.users.entries && w.users.entries[k].email == email
    ensures r.Some? ==> (exists k :: k in w.users.entries && w.users.entries[k] == r.value) && r.value.email == email
  {
    Stores.FirstInStore(w.users, HasEmail(email));
    Stores.First(Stores.Values(w.users), HasEmail(email))
  }

  /** The fake's `get_by_username`, the same search by username. */
  function FindByUsername(w: World, username: string): (r: Option<User>)
    requires WorldValid(w)
    ensures r.Some? <==> exists k :: k in w.users.entries && w.users.entries[k].username == username
    ensures r.Some? ==> (exists k :: k in w.users.entries && w.users.entries[k] == r.value) && r.value.username == username
  {
    Stores.FirstInStore(w.users, HasUsername(username));
    Stores.First(Stores.Values(w.users), HasUsername(username))
  }

  /** `check_user_existence`: an error when no attribute is given, otherwise whether some
      stored user matches one of the given attributes. */
  function Existence(w: World, id: Option<int>, email: Option<string>, username: Option<string>): (r: Result<bool>)
    requires WorldValid(w)
    ensures r.Err? <==> !(GivenId(id) || GivenText(email) || GivenText(username))
    ensures r.Err? ==> r.error == ValueError(USER_ATTRIBUTE_REQUIRED)
    ensures r == Ok(true) <==>
              exists k :: k in w.users.entries && Picks(k, w.users.entries[k], id, email, username)
  {
    if !(GivenId(id) || GivenText(email) || GivenText(username)) then
      Err(ValueError(USER_ATTRIBUTE_REQUIRED))
    else
      Stores.FirstInStore(w.users, HasEmail(if email.Some? then email.value else ""));
      Stores.FirstInStore(w.users, HasUsername(if username.Some? then username.value else ""));
      var byId := GivenId(id) && id.value in w.users.entries;
      var byEmail := GivenText(email) && FindByEmail(w, email.value).Some?;
      var byUsername := GivenText(username) && FindByUsername(w, username.value).Some?;
      Ok(byId || byEmail || byUsername)
  }

  /** With some attribute given, the existence check is the disjunction of the three
      look-ups, in the order id, e-mail, username. */
  lemma ExistenceByAttribute(w: World, id: Option<int>, email: Option<string>, username: Option<string>)
    requires WorldValid(w) && (GivenId(id) || GivenText(email) || GivenText(username))
    ensures Existence(w, id, email, username) ==
              Ok((GivenId(id) && id.value in w.users.entries) ||
                 (GivenText(email) && FindByEmail(w, email.value).Some?) ||
                 (GivenText(username) && FindByUsername(w, username.value).Some?))
  {
  }

  /** `get_user_by_email`: the first stored user with that e-mail, or `UserNotFoundError`. */
  function UserByEmail(w: World, email: string): (r: Result<User>)
    requires WorldValid(w)
    ensures r.Ok? <==> exists k :: k in w.users.entries && w.users.entries[k].email == email
    ensures r.Ok? ==> (exists k :: k in w.users.entries && w.users.entries[k] == r.value) && r.value.email == email
    ensures r.Err? ==> r.error == UserNotFoundError
  {
    match FindByEmail(w, email)
    case Some(u) => Ok(u)
    case None => Err(UserNotFoundError)
  }

  /** `get_user_by_username`: the first stored user with that username, or `UserNotFoundError`. */
  function UserByUsername(w: World, username: string): (r: Result<User>)
    requires WorldValid(w)
    ensures r.Ok? <==> exists k :: k in w.users.entries && w.users.entries[k].username == username
    ensures r.Ok? ==> (exists k :: k in w.users.entries && w.users.entries[k] == r.value) && r.value.username == username
    ensures r.Err? ==> r.error == UserNotFoundError
  {
    match FindByUsername(w, username)
    case Some(u) => Ok(u)
    case None => Err(UserNotFoundError)
  }

  /** `get_user_by_id`: the user stored under `id`, or `UserNotFoundError`. */
  function UserById(w: World, id: int): (r: Result<User>)
    ensures r.Ok? <==> id in w.users.entries
    ensures r.Ok? ==> r.value == w.users.entries[id]
    ensures r.Err? ==> r.error == UserNotFoundError
  {
    if id in w.users.entries then Ok(w.users.entries[id]) else Err(UserNotFoundError)
  }

  /** `register_user`: the user is stored under its own id and the scope commits. */
  function AfterRegister(w: World, user: User): (o: Outcome<User>)
    requires WorldValid(w)
    ensures WorldValid(o.world)
    ensures o.result == Ok(user)
    ensures o.world.users.entries == w.users.entries[user.id := user]
    ensures o.world.committed && o.world.groups == w.groups && o.world.events == w.events
  {
    Outcome(w.(users := Stores.Put(w.users, user.id, user), committed := true), Ok(user))
  }

  /** `verify_user_email`: the stored user gets `email_verified` set, in place, and the
      scope commits; an unknown id changes nothing. */
  function AfterVerifyEmail(w: World, id: int): (o: Outcome<User>)
    requires WorldValid(w)
    ensures WorldValid(o.world)
    ensures o.result.Ok? <==> id in w.users.entries
    ensures o.result.Ok? ==>
              o.result.value == w.users.entries[id].(emailVerified := true) &&
              o.world.users.entries == w.users.entries[id := o.result.value] &&
              o.world.users.order == w.users.order &&
              o.world.committed && o.world.groups == w.groups && o.world.events == w.events
    ensures o.result.Err? ==> o.result.error == UserNotFoundError && o.world == w
  {
    if id in w.users.entries then
      var u := w.users.entries[id].(emailVerified := true);
      Outcome(w.(users := Stores.Put(w.users, id, u), committed := true), Ok(u))
    else
      Outcome(w, Err(UserNotFoundError))
  }

  /** `get_all_users`: every stored user, in insertion order. */
  function AllUsers(w: World): (r: seq<User>)
    requires Stores.Valid(w.users)
    ensures |r| == |w.users.entries|
    ensures forall u :: u in r <==> exists k :: k in w.users.entries && w.users.entries[k] == u
  {
    Stores.ValuesLength(w.users);
    forall u ensures u in Stores.Values(w.users) <==> exists k :: k in w.users.entries && w.users.entries[k] == u {
      Stores.ValuesMembership(w.users, u);
    }
    Stores.Values(w.users)
  }

  /** A registered user is found again by id, and by e-mail and username unless an
      earlier stored user shares them. */
  lemma RegisteredUserIsFound(w: World, user: User)
    requires WorldValid(w)
    ensures var w' := AfterRegister(w, user).world;
            UserById(w', user.id) == Ok(user) &&
            UserByEmail(w', user.email).Ok? && UserByUsername(w', user.username).Ok? &&
            (user.id != 0 || user.email != "" || user.username != "" ==>
               Existence(w', Some(user.id), Some(user.email), Some(user.username)) == Ok(true))
  {
    var w' := AfterRegister(w, user).world;
    assert w'.users.entries[user.id] == user;
    if user.id != 0 || user.email != "" || user.username != "" {
      assert Picks(user.id, w'.users.entries[user.id], Some(user.id), Some(user.email), Some(user.username));
    }
  }

  /** Verifying an e-mail twice leaves the same users as verifying it once. */
  lemma VerifyEmailIdempotent(w: World, id: int)
    requires WorldValid(w)
    ensures var o := AfterVerifyEmail(w, id);
            AfterVerifyEmail(o.world, id).world.users == o.world.users
  {
  }

  class UsersService {
    const uow: UnitOfWork

    constructor (uow: UnitOfWork)
      ensures this.uow == uow
    {
      this.uow := uow;
    }

    method RegisterUser(user: User) returns (r: Result<User>)
      requires uow.Valid()
      modifies uow, uow.users
      ensures uow.Valid()
      ensures var o := AfterRegister(old(uow.Abs()), user); uow.Abs() == o.world && r == o.result
    {
      var u := uow.Enter();
      u.users.Add(user);
      u.Commit();
      u.Exit();
      r := Ok(user);
    }

    /** The three look-ups of `check_user_existence`, in order, stopping at the first hit. */
    method AnyUserMatches(id: Option<int>, email: Option<string>, username: Option<string>)
      returns (found: bool)
      requires uow.Valid()
      ensures found == ((GivenId(id) && id.value in uow.Abs().users.entries) ||
                        (GivenText(email) && FindByEmail(uow.Abs(), email.value).Some?) ||
                        (GivenText(username) && FindByUsername(uow.Abs(), username.value).Some?))
    {
      if GivenId(id) {
        var byId := uow.users.Get(id.value);
        if byId.Some? { return true; }
      }
      if GivenText(email) {
        var byEmail := uow.users.GetByEmail(email.value);
        if byEmail.Some? { return true; }
      }
      if GivenText(username) {
        var byUsername := uow.users.GetByUsername(username.value);
        if byUsername.Some? { return true; }
      }
      found := false;
    }

    /** The missing-attribute error is raised before the scope is entered. */
    method CheckUserExistence(id: Option<int>, email: Option<string>, username: Option<string>)
      returns (r: Result<bool>)
      requires uow.Valid()
      modifies uow
      ensures uow.Valid() && uow.Abs() == old(uow.Abs())
      ensures r == Existence(old(uow.Abs()), id, email, username)
      ensures uow.rollbacks == if r.Err? then old(uow.rollbacks) else old(uow.rollbacks) + 1
    {
      if !(GivenId(id) || GivenText(email) || GivenText(username)) {
        return Err(ValueError(USER_ATTRIBUTE_REQUIRED));
      }
      var u := uow.Enter();
      ExistenceByAttribute(uow.Abs(), id, email, username);
      var found := AnyUserMatches(id, email, username);
      u.Exit();
      r := Ok(found);
    }

    method GetUserByEmail(email: string) returns (r: Result<User>)
      requires uow.Valid()
      modifies uow
      ensures uow.Valid() && uow.Abs() == old(uow.Abs())
      ensures r == UserByEmail(old(uow.Abs()), email)
    {
      var u := uow.Enter();
      var found := u.users.GetByEmail(email);
      r := if found.Some? then Ok(found.value) else Err(UserNotFoundError);
      u.Exit();
    }

    method GetUserByUsername(username: string) returns (r: Result<User>)
      requires uow.Valid()
      modifies uow
      ensures uow.Valid() && uow.Abs() == old(uow.Abs())
      ensures r == UserByUsername(old(uow.Abs()), username)
    {
      var u := uow.Enter();
      var found := u.users.GetByUsername(username);
      r := if found.Some? then Ok(found.value) else Err(UserNotFoundError);
      u.Exit();
    }

    method GetUserById(id: int) returns (r: Result<User>)
      requires uow.Valid()
      modifies uow
      ensures uow.Valid() && uow.Abs() == old(uow.Abs())
      ensures r == UserById(old(uow.Abs()), id)
    {
      var u := uow.Enter();
      var found := u.users.Get(id);
      r := if found.Some? then Ok(found.value) else Err(UserNotFoundError);
      u.Exit();
    }

    /** The fake hands out the stored object itself, so setting the flag on it changes
        the stored user; the model writes the changed value back. */
    method VerifyUserEmail(id: int) returns (r: Result<User>)
      requires uow.Valid()
      modifies uow, uow.users
      ensures uow.Valid()
      ensures var o := AfterVerifyEmail(old(uow.Abs()), id); uow.Abs() == o.world && r == o.result
    {
      var u := uow.Enter();
      var found := u.users.Get(id);
      if found.None? {
        u.Exit();
        return Err(UserNotFoundError);
      }
      var verified := found.value.(emailVerified := true);
      u.users.Update(id, verified);
      u.Commit();
      u.Exit();
      r := Ok(verified);
    }

    method GetAllUsers() returns (r: seq<User>)
      requires uow.Valid()
      modifies uow
      ensures uow.Valid() && uow.Abs() == old(uow.Abs())
      ensures r == AllUsers(old(uow.Abs()))
    {
      var u := uow.Enter();
      r := u.users.List();
      u.Exit();
    }
  }
}
