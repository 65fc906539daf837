/** `AbstractUnitOfWork` together with the two in-memory fakes: one object that owns
    the groups and the users repositories, the `committed` flag and the `events` list
    that handlers append to and the message bus reads. */
module UnitsOfWork {
  import opened Errors
  import opened Models
  import opened Messages
  import Stores
  import opened FakeGroups
  import opened FakeUsers

  /** Everything a handler can change, as a value. */
  datatype World = World(groups: Stores.Store<Group>, users: Stores.Store<User>,
                         events: seq<Event>, committed: bool)

  /** What a handler hands back: the group handlers return nothing, the user handlers a user. */
  datatype Reply = NoReply | UserReply(user: User)

  /** What a service or handler call leaves behind: the new world and its answer or error. */
  datatype Outcome<+T> = Outcome(world: World, result: Result<T>)

  ghost predicate WorldValid(w: World)
  {
    Stores.Listed(w.groups) && Stores.Listed(w.users)
  }

  class UnitOfWork {
    var events: seq<Event>
    var committed: bool
    /** How many times `rollback` has been called; the fakes' `rollback` does nothing else. */
    ghost var rollbacks: nat
    const groups: FakeGroupsRepository
    const users: FakeUsersRepository

    ghost function Repr(): set<object>
    {
      {this, groups, users}
    }

    ghost predicate Valid()
      reads Repr()
    {
      groups.Valid() && users.Valid()
    }

    ghost function Abs(): World
      reads Repr()
    {
      World(groups.Abs(), users.Abs(), events, committed)
    }

    /** A fresh unit of work has an empty `events` list and has not committed. */
    constructor (groups: FakeGroupsRepository, users: FakeUsersRepository)
      requires groups.Valid() && users.Valid()
      ensures this.groups == groups && this.users == users
      ensures Valid() && events == [] && !committed && rollbacks == 0
    {
      this.groups := groups;
      this.users := users;
      events := [];
      committed := false;
      rollbacks := 0;
    }

    /** `__aenter__` returns the same unit of work. */
    method Enter() returns (u: UnitOfWork)
      ensures u == this
    {
      u := this;
    }

    /** `__aexit__` always rolls back, also after a commit, and leaves `events` alone. */
    method Exit()
      modifies this
      ensures rollbacks == old(rollbacks) + 1
      ensures events == old(events) && committed == old(committed)
    {
      Rollback();
    }

    method Commit()
      modifies this
      ensures committed
      ensures events == old(events) && rollbacks == old(rollbacks)
    {
      committed := true;
    }

    /** The fakes' `rollback` discards nothing. */
    method Rollback()
      modifies this
      ensures rollbacks == old(rollbacks) + 1
      ensures events == old(events) && committed == old(committed)
    {
      rollbacks := rollbacks + 1;
    }

    /** `events.append(event)`; also stands for the `add_event` the register handler calls. */
    method AddEvent(e: Event)
      modifies this
      ensures events == old(events) + [e]
      ensures committed == old(committed) && rollbacks == old(rollbacks)
    {
      events := events + [e];
    }

    /** Empties `events`. The code has no such call; the corrected bus makes it after
        putting the events on its queue, so that each event is handed on once. */
    method ClearEvents()
      modifies this
      ensures events == [] && committed == old(committed) && rollbacks == old(rollbacks)
    {
      events := [];
    }
  }

}
