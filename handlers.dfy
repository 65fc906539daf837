/** The handler classes the registries name, the constructor parameters the injector
    inspects, the injection itself and what calling a constructed handler does. */
module Handlers {
  import opened Errors
  import opened Models
  import opened Messages
  import opened UnitsOfWork
  import GroupHandlers
  import UserHandlers

  /** Every class a registry can hold. `AddGroupMembersCommandClass` is the command
      dataclass `AddGroupMembersCommand` itself, which one registry lists as a handler. */
  datatype HandlerClass =
    | CreateGroupCommandHandler | DeleteGroupCommandHandler | UpdateGroupCommandHandler
    | AddGroupMembersCommandHandler | AddGroupMembersCommandClass
    | GroupMembersAddedToGroupEventHandler
    | RegisterUserCommandHandler | VerifyUserCredentialsCommandHandler
    | VerifyUserEmailCommandHandler | GetUserCommandHandler
    | SendVerifyEmailMessageEventHandler

  /** The parameter names `inspect.signature(handler).parameters` reports: every handler
      takes `uow`, the command dataclass takes its three fields. None has a default. */
  function CtorParams(c: HandlerClass): (ps: set<string>)
    ensures c != AddGroupMembersCommandClass <==> ps == {"uow"}
  {
    if c == AddGroupMembersCommandClass then {"group_id", "user", "group_members"} else {"uow"}
  }

  /** A constructed object: its class and the keyword arguments it was built from. */
  datatype Instance<D> = Instance(cls: HandlerClass, kwargs: map<string, D>)

  /** `handler(**kwargs)`: a `TypeError` when a parameter is missing or an argument is
      not a parameter. */
  function Construct<D>(c: HandlerClass, kwargs: map<string, D>): (r: Result<Instance<D>>)
    ensures r.Ok? <==> kwargs.Keys == CtorParams(c)
    ensures r.Ok? ==> r.value == Instance(c, kwargs)
    ensures r.Err? ==> r.error == TypeError
  {
    if kwargs.Keys == CtorParams(c) then Ok(Instance(c, kwargs)) else Err(TypeError)
  }

  /** `_inject_dependencies`: the dependencies whose names are constructor parameters,
      passed through unchanged; the others are dropped. The filter raises nothing; the
      constructor raises `TypeError` when a parameter is left without a dependency. */
  function InjectDependencies<D>(c: HandlerClass, deps: map<string, D>): (r: Result<Instance<D>>)
    ensures r.Ok? <==> CtorParams(c) <= deps.Keys
    ensures r.Ok? ==> r.value.cls == c && r.value.kwargs.Keys == deps.Keys * CtorParams(c) &&
                      forall name :: name in r.value.kwargs ==> r.value.kwargs[name] == deps[name]
    ensures r.Err? ==> r.error == TypeError
  {
    var kwargs := map name | name in deps && name in CtorParams(c) :: deps[name];
    assert CtorParams(c) <= deps.Keys ==> kwargs.Keys == CtorParams(c);
    Construct(c, kwargs)
  }

  /** With the dependency map `{'uow': uow}` every handler is built around that same unit
      of work and the command class cannot be built at all. */
  lemma {:induction false} InjectUnitOfWork<D>(c: HandlerClass, uow: D, extra: map<string, D>)
    requires "uow" !in extra
    ensures var r := InjectDependencies(c, extra["uow" := uow]);
            (c != AddGroupMembersCommandClass ==> r == Ok(Instance(c, map["uow" := uow]))) &&
            (c == AddGroupMembersCommandClass && extra == map[] ==> r == Err(TypeError))
  {
    var deps := extra["uow" := uow];
    var r := InjectDependencies(c, deps);
    if c != AddGroupMembersCommandClass {
      assert r.value.kwargs.Keys == {"uow"};
      assert r.value.kwargs == map["uow" := uow];
    } else if extra == map[] {
      assert "user" !in deps;
    }
  }

  /** A constructed handler that holds `uow` as its `_uow`. */
  predicate BoundTo<D(==)>(inst: Instance<D>, uow: D)
  {
    inst.cls != AddGroupMembersCommandClass && inst.kwargs == map["uow" := uow]
  }

  /** What `await handler(message)` does to the world. A message of a shape the handler
      does not read fails on the first missing attribute; calling a command object fails
      because it is not callable. The two event handlers change nothing: one is a stub,
      the other only hands the event to a Celery task. */
  function Effect(c: HandlerClass, m: Message, w: World, pw: UserHandlers.Passwords): (o: Outcome<Reply>)
    requires WorldValid(w)
    ensures WorldValid(o.world)
    ensures o.result.Err? ==> o.world == w
    ensures c == GroupMembersAddedToGroupEventHandler || c == SendVerifyEmailMessageEventHandler ==>
              o.world == w && (m.Evt? ==> o.result == Ok(NoReply))
    ensures |w.events| <= |o.world.events| <= |w.events| + 1 && o.world.events[..|w.events|] == w.events
  {
    match (c, m)
    case (CreateGroupCommandHandler, Cmd(CreateGroup(n, u))) => GroupHandlers.AfterCreate(w, n, u)
    case (DeleteGroupCommandHandler, Cmd(DeleteGroup(id, u))) => GroupHandlers.AfterDelete(w, id, u)
    case (UpdateGroupCommandHandler, Cmd(UpdateGroup(id, u, n))) => GroupHandlers.AfterUpdate(w, id, u, n)
    case (AddGroupMembersCommandHandler, Cmd(AddGroupMembers(id, u, ms))) => GroupHandlers.AfterAddMembers(w, id, u, ms)
    case (AddGroupMembersCommandClass, _) => Outcome(w, Err(TypeError))
    case (GroupMembersAddedToGroupEventHandler, Evt(_)) => Outcome(w, Ok(NoReply))
    case (RegisterUserCommandHandler, Cmd(RegisterUser(un, p, e))) => UserHandlers.AfterRegisterUser(w, un, p, e, pw)
    case (VerifyUserCredentialsCommandHandler, Cmd(VerifyUserCredentials(un, p))) =>
      Outcome(w, UserHandlers.Credentials(w, un, p, pw))
    case (VerifyUserEmailCommandHandler, Cmd(VerifyUserEmail(id))) => UserHandlers.AfterVerifyUserEmail(w, id)
    case (GetUserCommandHandler, Cmd(GetUser(id))) => Outcome(w, UserHandlers.GetUserReply(w, id))
    case (SendVerifyEmailMessageEventHandler, Evt(_)) => Outcome(w, Ok(NoReply))
    case _ => Outcome(w, Err(AttributeError))
  }

  /** The handlers of src/groups/handlers that run a service call. */
  predicate IsGroupCommandHandler(c: HandlerClass)
  {
    c == CreateGroupCommandHandler || c == DeleteGroupCommandHandler ||
    c == UpdateGroupCommandHandler || c == AddGroupMembersCommandHandler
  }

  /** The handlers of src/users/handlers that run a service call. */
  predicate IsUserCommandHandler(c: HandlerClass)
  {
    c == RegisterUserCommandHandler || c == VerifyUserCredentialsCommandHandler ||
    c == VerifyUserEmailCommandHandler || c == GetUserCommandHandler
  }

  /** `await handler(message)` on a handler built around `uow`. */
  method Invoke(uow: UnitOfWork, inst: Instance<UnitOfWork>, m: Message, pw: UserHandlers.Passwords)
    returns (r: Result<Reply>)
    requires uow.Valid() && BoundTo(inst, uow)
    modifies uow, uow.groups, uow.users
    ensures uow.Valid()
    ensures var o := Effect(inst.cls, m, old(uow.Abs()), pw); uow.Abs() == o.world && r == o.result
  {
    if IsGroupCommandHandler(inst.cls) {
      r := InvokeGroupHandler(uow, inst, m);
    } else if IsUserCommandHandler(inst.cls) {
      r := InvokeUserHandler(uow, inst, m, pw);
    } else {
      match (inst.cls, m)
      case (AddGroupMembersCommandClass, _) => r := Err(TypeError);
      case (GroupMembersAddedToGroupEventHandler, Evt(_)) => r := Ok(NoReply);
      case (SendVerifyEmailMessageEventHandler, Evt(_)) => r := Ok(NoReply);
      case _ => r := Err(AttributeError);
    }
  }

  /** `await handler(message)` for a group command handler. */
  method InvokeGroupHandler(uow: UnitOfWork, inst: Instance<UnitOfWork>, m: Message)
    returns (r: Result<Reply>)
    requires uow.Valid() && BoundTo(inst, uow) && IsGroupCommandHandler(inst.cls)
    modifies uow, uow.groups, uow.users
    ensures uow.Valid()
    ensures forall pw :: var o := Effect(inst.cls, m, old(uow.Abs()), pw); uow.Abs() == o.world && r == o.result
  {
    match (inst.cls, m)
    case (CreateGroupCommandHandler, Cmd(CreateGroup(n, u))) => r := GroupHandlers.CreateGroup(uow, n, u);
    case (DeleteGroupCommandHandler, Cmd(DeleteGroup(id, u))) => r := GroupHandlers.DeleteGroup(uow, id, u);
    case (UpdateGroupCommandHandler, Cmd(UpdateGroup(id, u, n))) => r := GroupHandlers.UpdateGroup(uow, id, u, n);
    case (AddGroupMembersCommandHandler, Cmd(AddGroupMembers(id, u, ms))) =>
      r := GroupHandlers.AddGroupMembers(uow, id, u, ms);
    case _ => r := Err(AttributeError);
  }

  /** `await handler(message)` for a user command handler. */
  method InvokeUserHandler(uow: UnitOfWork, inst: Instance<UnitOfWork>, m: Message, pw: UserHandlers.Passwords)
    returns (r: Result<Reply>)
    requires uow.Valid() && BoundTo(inst, uow) && IsUserCommandHandler(inst.cls)
    modifies uow, uow.groups, uow.users
    ensures uow.Valid()
    ensures var o := Effect(inst.cls, m, old(uow.Abs()), pw); uow.Abs() == o.world && r == o.result
  {
    match (inst.cls, m)
    case (RegisterUserCommandHandler, Cmd(RegisterUser(un, p, e))) => r := UserHandlers.RegisterUser(uow, un, p, e, pw);
    case (VerifyUserCredentialsCommandHandler, Cmd(VerifyUserCredentials(un, p))) =>
      r := UserHandlers.VerifyUserCredentials(uow, un, p, pw);
    case (VerifyUserEmailCommandHandler, Cmd(VerifyUserEmail(id))) => r := UserHandlers.VerifyUserEmail(uow, id);
    case (GetUserCommandHandler, Cmd(GetUser(id))) => r := UserHandlers.GetUser(uow, id);
    case _ => r := Err(AttributeError);
  }
}
