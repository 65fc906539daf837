/** `GroupsService` from src/groups/service.py: group look-ups, creation, the existence
    check and deletion, each inside one `async with` scope of the unit of work. */
module GroupsService {
  import opened Errors
  import opened Models
  import Stores
  import opened Schemas
  import opened FakeGroups
  import opened UnitsOfWork

  /** `get_group_by_id`: the group stored under `id`, or `GroupNotFoundError`. */
  function GroupById(w: World, id: int): (r: Result<Group>)
    ensures r.Ok? <==> id in w.groups.entries
    ensures r.Ok? ==> r.value == w.groups.entries[id]
    ensures r.Err? ==> r.error == GroupNotFoundError
  {
    if id in w.groups.entries then Ok(w.groups.entries[id]) else Err(GroupNotFoundError)
  }

  /** `GroupModel(**group_data.model_dump())`: the scheme's name and owner, the default
      id `0` and no members. */
  function GroupOf(scheme: CreateGroupScheme): (g: Group)
    ensures g.name == scheme.name && g.ownerId == scheme.ownerId && g.id == 0 && g.members == {}
  {
    Group(scheme.name, scheme.ownerId, 0, {})
  }

  /** `create_group`: the added group, stored under its id, and a commit. */
  function AfterCreateGroup(w: World, scheme: CreateGroupScheme): (o: Outcome<Group>)
    requires WorldValid(w)
    ensures WorldValid(o.world)
    ensures o.result == Ok(GroupOf(scheme))
    ensures o.world.groups.entries == w.groups.entries[0 := GroupOf(scheme)]
    ensures o.world.committed && o.world.users == w.users && o.world.events == w.events
  {
    var g := GroupOf(scheme);
    Outcome(w.(groups := Stores.Put(w.groups, g.id, g), committed := true), Ok(g))
  }

  /** `check_group_existence` with the repository's `get_by_owner_and_name`: whether a
      stored group has that owner and that name. */
  function GroupExists(w: World, ownerId: int, name: string): (r: bool)
    requires WorldValid(w)
    ensures r <==> exists k :: k in w.groups.entries && OwnerAndName(name, ownerId)(w.groups.entries[k])
  {
    Stores.FirstInStore(w.groups, OwnerAndName(name, ownerId));
    Stores.First(Stores.Values(w.groups), OwnerAndName(name, ownerId)).Some?
  }

  /** `check_group_existence` as written: it calls `get_group_by_owner_and_name`, which
      neither the repository interface nor the fake defines, so the call fails. */
  function ExistenceAsWritten(w: World, ownerId: int, name: string): (r: Result<bool>)
    ensures r.Err? && r.error == AttributeError
  {
    Err(AttributeError)
  }

  /** The as-written check never answers, even when the group it asks about is stored. */
  lemma ExistenceAsWrittenNeverAnswers(w: World, name: string, owner: int, g: Group)
    requires WorldValid(w) && g.name == name && g.ownerId == Some(owner)
    requires g.id in w.groups.entries && w.groups.entries[g.id] == g
    ensures GroupExists(w, owner, name)
    ensures ExistenceAsWritten(w, owner, name) == Err(AttributeError)
  {
    assert OwnerAndName(name, owner)(w.groups.entries[g.id]);
  }

  /** `delete_group`: the id is gone, every other entry is kept, and the scope commits;
      an absent id is not an error. */
  function AfterDeleteGroup(w: World, id: int): (w': World)
    requires WorldValid(w)
    ensures WorldValid(w')
    ensures w'.groups.entries == w.groups.entries - {id}
    ensures w'.committed && w'.users == w.users && w'.events == w.events
  {
    Stores.RemoveKeepsValid(w.groups, id);
    w.(groups := Stores.Remove(w.groups, id), committed := true)
  }

  /** `get_owner_groups`: the stored groups whose owner is `ownerId`. */
  function OwnerGroups(w: World, ownerId: int): (r: seq<Group>)
    requires WorldValid(w)
    ensures forall g :: g in r <==> (exists k :: k in w.groups.entries && w.groups.entries[k] == g) && g.ownerId == Some(ownerId)
  {
    forall g ensures g in Stores.Values(w.groups) <==> exists k :: k in w.groups.entries && w.groups.entries[k] == g {
      Stores.ValuesMembership(w.groups, g);
    }
    GroupsOwnedBy(Stores.Values(w.groups), ownerId)
  }

  /** A created group is then found under id `0`, among its owner's groups, and by
      the existence check for its owner and name. */
  lemma CreatedGroupIsFound(w: World, scheme: CreateGroupScheme)
    requires WorldValid(w)
    ensures var w' := AfterCreateGroup(w, scheme).world;
            GroupById(w', 0) == Ok(GroupOf(scheme)) &&
            (scheme.ownerId.Some? ==>
               GroupExists(w', scheme.ownerId.value, scheme.name) &&
               GroupOf(scheme) in OwnerGroups(w', scheme.ownerId.value))
  {
    var w' := AfterCreateGroup(w, scheme).world;
    if scheme.ownerId.Some? {
      assert OwnerAndName(scheme.name, scheme.ownerId.value)(w'.groups.entries[0]);
    }
  }

  /** After a delete the group is not found, and deleting again changes no group. */
  lemma DeletedGroupIsGone(w: World, id: int)
    requires WorldValid(w)
    ensures var w' := AfterDeleteGroup(w, id);
            GroupById(w', id) == Err(GroupNotFoundError) &&
            AfterDeleteGroup(w', id).groups.entries == w'.groups.entries
  {
  }

  class GroupsService {
    const uow: UnitOfWork

    constructor (uow: UnitOfWork)
      ensures this.uow == uow
    {
      this.uow := uow;
    }

    method GetGroupById(id: int) returns (r: Result<Group>)
      requires uow.Valid()
      modifies uow
      ensures uow.Valid() && uow.Abs() == old(uow.Abs())
      ensures r == GroupById(old(uow.Abs()), id)
    {
      var u := uow.Enter();
      var found := u.groups.Get(id);
      r := if found.Some? then Ok(found.value) else Err(GroupNotFoundError);
      u.Exit();
    }

    method CreateGroup(scheme: CreateGroupScheme) returns (r: Result<Group>)
      requires uow.Valid()
      modifies uow, uow.groups
      ensures uow.Valid()
      ensures var o := AfterCreateGroup(old(uow.Abs()), scheme); uow.Abs() == o.world && r == o.result
    {
      var u := uow.Enter();
      var g := u.groups.Add(GroupOf(scheme));
      u.Commit();
      u.Exit();
      r := Ok(g);
    }

    /** The existence check with the repository's own lookup, `get_by_owner_and_name`. */
    method CheckGroupExistence(ownerId: int, name: string) returns (r: bool)
      requires uow.Valid()
      modifies uow
      ensures uow.Valid() && uow.Abs() == old(uow.Abs())
      ensures r == GroupExists(old(uow.Abs()), ownerId, name)
    {
      var u := uow.Enter();
      var found := u.groups.GetByOwnerAndName(name, ownerId);
      r := found.Some?;
      u.Exit();
    }

    method DeleteGroup(id: int)
      requires uow.Valid()
      modifies uow, uow.groups
      ensures uow.Valid()
      ensures uow.Abs() == AfterDeleteGroup(old(uow.Abs()), id)
    {
      var u := uow.Enter();
      u.groups.Delete(id);
      u.Commit();
      u.Exit();
    }

    method GetOwnerGroups(ownerId: int) returns (r: seq<Group>)
      requires uow.Valid()
      modifies uow
      ensures uow.Valid() && uow.Abs() == old(uow.Abs())
      ensures r == OwnerGroups(old(uow.Abs()), ownerId)
    {
      var u := uow.Enter();
      r := u.groups.GetOwnerGroups(ownerId);
      u.Exit();
    }
  }
}
