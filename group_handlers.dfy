/** The groups command handlers: create, delete, update and add members. Each one
    checks existence and ownership before it writes anything. The calls the handlers make
    into the service layer become the repository write followed by a commit. */
module GroupHandlers {
  import opened Errors
  import opened Models
  import opened Messages
  import Stores
  import opened Schemas
  import opened GroupsService
  import opened UnitsOfWork

  /** The ownership test `group.owner_id == command.user.id`: a group without an owner
      is owned by nobody, and an owned group by its owner only. */
  function Owns(user: User, g: Group): (r: bool)
    ensures g.ownerId.None? ==> !r
    ensures r ==> g.ownerId.value == user.id
  {
    g.ownerId == Some(user.id)
  }

  /** `GroupModel(**command.to_dict(exclude={'user'}))` as written: the command's name,
      and the model's defaults for owner, id and members, since `user` is dropped. */
  function CreatedGroupAsWritten(groupName: string): (g: Group)
    ensures g.name == groupName && g.ownerId.None? && g.id == 0 && g.members == {}
    ensures forall u: User :: !Owns(u, g)
  {
    Group(groupName, None, 0, {})
  }

  /** The group a create command evidently means: "a new group for current user", owned
      by the creator, with id `0` and no members. */
  function CreatedGroup(groupName: string, user: User): (g: Group)
    ensures g.name == groupName && g.id == 0 && g.members == {}
    ensures Owns(user, g)
  {
    GroupOf(CreateGroupScheme(groupName, Some(user.id)))
  }

  /** Create, with the existence check awaited and the creator as owner:
      `GroupAlreadyExistsError` exactly when the user already owns a group of that name;
      otherwise the group is stored. */
  function AfterCreate(w: World, groupName: string, user: User): (o: Outcome<Reply>)
    requires WorldValid(w)
    ensures WorldValid(o.world)
    ensures o.result.Err? <==> GroupExists(w, user.id, groupName)
    ensures o.result.Err? <==>
              exists k :: k in w.groups.entries && Owns(user, w.groups.entries[k]) &&
                          w.groups.entries[k].name == groupName
    ensures o.result.Err? ==> o.result.error == GroupAlreadyExistsError && o.world == w
    ensures o.result.Ok? ==>
              o.result.value == NoReply &&
              o.world.groups.entries == w.groups.entries[0 := CreatedGroup(groupName, user)] &&
              o.world.committed && o.world.users == w.users && o.world.events == w.events
  {
    if GroupExists(w, user.id, groupName) then Outcome(w, Err(GroupAlreadyExistsError))
    else
      var o := AfterCreateGroup(w, CreateGroupScheme(groupName, Some(user.id)));
      Outcome(o.world, Ok(NoReply))
  }

  /** A second create of the same name by the same user is refused, whatever the first
      one did. */
  lemma RepeatedCreateRefused(w: World, groupName: string, user: User)
    requires WorldValid(w)
    ensures var o := AfterCreate(w, groupName, user);
            AfterCreate(o.world, groupName, user) == Outcome(o.world, Err(GroupAlreadyExistsError))
  {
    var o := AfterCreate(w, groupName, user);
    if o.result.Ok? {
      assert Owns(user, o.world.groups.entries[0]) && o.world.groups.entries[0].name == groupName;
    }
  }

  /** After a create the creator owns the new group, finds it among their groups and
      may delete it. */
  lemma CreatorOwnsCreatedGroup(w: World, groupName: string, user: User)
    requires WorldValid(w) && !GroupExists(w, user.id, groupName)
    ensures var w' := AfterCreate(w, groupName, user).world;
            0 in w'.groups.entries && Owns(user, w'.groups.entries[0]) &&
            CreatedGroup(groupName, user) in OwnerGroups(w', user.id) &&
            AfterDelete(w', 0, user).result == Ok(NoReply)
  {
    CreatedGroupIsFound(w, CreateGroupScheme(groupName, Some(user.id)));
  }

  /** Stored as written, a created group has no owner: its creator cannot delete or
      update it and does not see it among their groups. */
  lemma CreatorDoesNotOwnAsWritten(w: World, groupName: string, user: User)
    requires WorldValid(w)
    ensures var w' := AfterCreateGroup(w, CreateGroupScheme(groupName, None)).world;
            w'.groups.entries[0] == CreatedGroupAsWritten(groupName) &&
            AfterDelete(w', 0, user).result == Err(GroupOwnerError) &&
            AfterUpdate(w', 0, user, groupName).result == Err(GroupOwnerError) &&
            CreatedGroupAsWritten(groupName) !in OwnerGroups(w', user.id)
  {
  }

  /** Create as written: the un-awaited check is a coroutine object, which is always
      truthy, so every call raises `GroupAlreadyExistsError` and nothing is stored. */
  function AfterCreateAsWritten(w: World, groupName: string, user: User): (o: Outcome<Reply>)
    ensures o.result == Err(GroupAlreadyExistsError) && o.world == w
  {
    Outcome(w, Err(GroupAlreadyExistsError))
  }

  /** On an empty store the intended handler creates the group and the written one refuses. */
  lemma CreateAsWrittenRefusesNewGroup(w: World, groupName: string, user: User)
    requires WorldValid(w) && w.groups.entries == map[]
    ensures AfterCreate(w, groupName, user).result == Ok(NoReply)
    ensures AfterCreateAsWritten(w, groupName, user).result == Err(GroupAlreadyExistsError)
  {
  }

  /** Delete: `GroupNotFoundError` for an unknown id, then `GroupOwnerError` for a
      group the user does not own, each with nothing changed; otherwise the group is removed. */
  function AfterDelete(w: World, groupId: int, user: User): (o: Outcome<Reply>)
    requires WorldValid(w)
    ensures WorldValid(o.world)
    ensures o.result.Err? <==> groupId !in w.groups.entries || !Owns(user, w.groups.entries[groupId])
    ensures o.result.Err? ==> o.world == w
    ensures o.result == Err(GroupNotFoundError) <==> groupId !in w.groups.entries
    ensures o.result == Err(GroupOwnerError) <==>
              groupId in w.groups.entries && !Owns(user, w.groups.entries[groupId])
    ensures o.result.Ok? ==> o.result.value == NoReply && o.world == AfterDeleteGroup(w, groupId)
  {
    match GroupById(w, groupId)
    case Err(e) => Outcome(w, Err(e))
    case Ok(g) =>
      if !Owns(user, g) then Outcome(w, Err(GroupOwnerError))
      else Outcome(AfterDeleteGroup(w, groupId), Ok(NoReply))
  }

  /** The merge `group.to_dict(exclude={'members'}) | command.to_dict(exclude={'group_id',
      'user'})`: the command's name wins, owner and id are kept, and members fall back
      to their default because they were excluded. */
  function UpdatedGroup(g: Group, groupName: string): (r: Group)
    ensures r.name == groupName && r.ownerId == g.ownerId && r.id == g.id && r.members == {}
  {
    Group(groupName, g.ownerId, g.id, {})
  }

  /** Update: the same two errors as delete, in the same order, before any write;
      otherwise the merged group replaces the stored one under the command's id. */
  function AfterUpdate(w: World, groupId: int, user: User, groupName: string): (o: Outcome<Reply>)
    requires WorldValid(w)
    ensures WorldValid(o.world)
    ensures o.result.Err? <==> groupId !in w.groups.entries || !Owns(user, w.groups.entries[groupId])
    ensures o.result.Err? ==> o.world == w
    ensures o.result == Err(GroupNotFoundError) <==> groupId !in w.groups.entries
    ensures o.result == Err(GroupOwnerError) <==>
              groupId in w.groups.entries && !Owns(user, w.groups.entries[groupId])
    ensures o.result.Ok? ==>
              o.result.value == NoReply &&
              o.world.groups.entries ==
                w.groups.entries[groupId := UpdatedGroup(w.groups.entries[groupId], groupName)] &&
              o.world.groups.order == w.groups.order &&
              o.world.committed && o.world.users == w.users && o.world.events == w.events
  {
    match GroupById(w, groupId)
    case Err(e) => Outcome(w, Err(e))
    case Ok(g) =>
      if !Owns(user, g) then Outcome(w, Err(GroupOwnerError))
      else
        var groups := Stores.Put(w.groups, groupId, UpdatedGroup(g, groupName));
        Outcome(w.(groups := groups, committed := true), Ok(NoReply))
  }

  /** `{GroupMemberModel(group_id=group.id, user_id=m.id) for m in command.group_members}`. */
  function MembersOf(groupId: int, members: seq<User>): (r: set<GroupMember>)
    ensures forall m :: m in r <==> exists i :: 0 <= i < |members| && m == GroupMember(groupId, members[i].id)
    decreases |members|
  {
    if members == [] then {}
    else
      var rest := MembersOf(groupId, members[1..]);
      assert forall i :: 1 <= i < |members| ==> members[i] == members[1..][i - 1];
      {GroupMember(groupId, members[0].id)} + rest
  }

  function Emails(members: seq<User>): (r: seq<string>)
    ensures |r| == |members| && forall i :: 0 <= i < |members| ==> r[i] == members[i].email
  {
    seq(|members|, i requires 0 <= i < |members| => members[i].email)
  }

  function Usernames(members: seq<User>): (r: seq<string>)
    ensures |r| == |members| && forall i :: 0 <= i < |members| ==> r[i] == members[i].username
  {
    seq(|members|, i requires 0 <= i < |members| => members[i].username)
  }

  /** The event the add-members handler appends, with one email and one username per
      command member, in command order. */
  function AddedEvent(g: Group, user: User, members: seq<User>): (e: Event)
    ensures EventTypeOf(e) == GroupMembersAddedToGroupEvent
    ensures e.groupName == g.name && e.ownerUsername == user.username
    ensures |e.memberEmails| == |members| && |e.memberUsernames| == |members|
    ensures forall i :: 0 <= i < |members| ==>
              e.memberEmails[i] == members[i].email && e.memberUsernames[i] == members[i].username
  {
    GroupMembersAddedToGroup(g.name, Usernames(members), Emails(members), user.username)
  }

  function WithMembers(g: Group, members: seq<User>): (r: Group)
    ensures r.members == g.members + MembersOf(g.id, members)
    ensures r.name == g.name && r.ownerId == g.ownerId && r.id == g.id
  {
    g.(members := g.members + MembersOf(g.id, members))
  }

  /** Add members: the same two errors, with no write and no event; otherwise the
      memberships are added under the group's own id, the scope commits and exactly one
      `GroupMembersAddedToGroupEvent` is appended. */
  function AfterAddMembers(w: World, groupId: int, user: User, members: seq<User>): (o: Outcome<Reply>)
    requires WorldValid(w)
    ensures WorldValid(o.world)
    ensures o.result.Err? <==> groupId !in w.groups.entries || !Owns(user, w.groups.entries[groupId])
    ensures o.result.Err? ==> o.world == w
    ensures o.result == Err(GroupNotFoundError) <==> groupId !in w.groups.entries
    ensures o.result == Err(GroupOwnerError) <==>
              groupId in w.groups.entries && !Owns(user, w.groups.entries[groupId])
    ensures o.result.Ok? ==>
              var g := w.groups.entries[groupId];
              o.result.value == NoReply &&
              o.world.groups.entries ==
                (if g.id in w.groups.entries then w.groups.entries[g.id := WithMembers(g, members)]
                 else w.groups.entries) &&
              o.world.events == w.events + [AddedEvent(g, user, members)] &&
              o.world.committed && o.world.users == w.users
  {
    match GroupById(w, groupId)
    case Err(e) => Outcome(w, Err(e))
    case Ok(g) =>
      if !Owns(user, g) then Outcome(w, Err(GroupOwnerError))
      else
        var groups := if g.id in w.groups.entries then Stores.Put(w.groups, g.id, WithMembers(g, members))
                      else w.groups;
        Outcome(w.(groups := groups, committed := true, events := w.events + [AddedEvent(g, user, members)]),
                Ok(NoReply))
  }

  /** Adding the same members twice leaves the same memberships as adding them once,
      since a membership set collapses duplicates; each call still appends its own event. */
  lemma {:induction false} AddMembersTwiceSameMembers(w: World, groupId: int, user: User, members: seq<User>)
    requires WorldValid(w)
    requires groupId in w.groups.entries && w.groups.entries[groupId].id == groupId
    ensures var o := AfterAddMembers(w, groupId, user, members);
            var o2 := AfterAddMembers(o.world, groupId, user, members);
            o2.world.groups.entries == o.world.groups.entries &&
            (o.result.Ok? ==> |o2.world.events| == |w.events| + 2)
  {
    var o := AfterAddMembers(w, groupId, user, members);
    if o.result.Ok? {
      var g := w.groups.entries[groupId];
      var g1 := WithMembers(g, members);
      assert o.world.groups.entries[groupId] == g1;
      assert WithMembers(g1, members) == g1;
    }
  }

  /** Listing the command's members twice gives the same memberships as listing them once. */
  lemma DuplicateMembersCollapse(groupId: int, members: seq<User>)
    ensures MembersOf(groupId, members + members) == MembersOf(groupId, members)
  {
    var both := members + members;
    forall m | m in MembersOf(groupId, both) ensures m in MembersOf(groupId, members) {
      var i :| 0 <= i < |both| && m == GroupMember(groupId, both[i].id);
      var j := if i < |members| then i else i - |members|;
      assert both[i] == members[j];
    }
    forall m | m in MembersOf(groupId, members) ensures m in MembersOf(groupId, both) {
      var i :| 0 <= i < |members| && m == GroupMember(groupId, members[i].id);
      assert both[i] == members[i];
    }
  }

  /** `CreateGroupCommandHandler.__call__`, with the existence check awaited. */
  method CreateGroup(uow: UnitOfWork, groupName: string, user: User) returns (r: Result<Reply>)
    requires uow.Valid()
    modifies uow, uow.groups
    ensures uow.Valid()
    ensures var o := AfterCreate(old(uow.Abs()), groupName, user); uow.Abs() == o.world && r == o.result
  {
    var service := new GroupsService(uow);
    var taken := service.CheckGroupExistence(user.id, groupName);
    if taken {
      return Err(GroupAlreadyExistsError);
    }
    var _ := service.CreateGroup(CreateGroupScheme(groupName, Some(user.id)));
    r := Ok(NoReply);
  }

  method DeleteGroup(uow: UnitOfWork, groupId: int, user: User) returns (r: Result<Reply>)
    requires uow.Valid()
    modifies uow, uow.groups
    ensures uow.Valid()
    ensures var o := AfterDelete(old(uow.Abs()), groupId, user); uow.Abs() == o.world && r == o.result
  {
    var service := new GroupsService(uow);
    var found := service.GetGroupById(groupId);
    if found.Err? {
      return Err(found.error);
    }
    if !Owns(user, found.value) {
      return Err(GroupOwnerError);
    }
    service.DeleteGroup(groupId);
    r := Ok(NoReply);
  }

  method UpdateGroup(uow: UnitOfWork, groupId: int, user: User, groupName: string) returns (r: Result<Reply>)
    requires uow.Valid()
    modifies uow, uow.groups
    ensures uow.Valid()
    ensures var o := AfterUpdate(old(uow.Abs()), groupId, user, groupName); uow.Abs() == o.world && r == o.result
  {
    var service := new GroupsService(uow);
    var found := service.GetGroupById(groupId);
    if found.Err? {
      return Err(found.error);
    }
    if !Owns(user, found.value) {
      return Err(GroupOwnerError);
    }
    var u := uow.Enter();
    var _ := u.groups.Update(groupId, UpdatedGroup(found.value, groupName));
    u.Commit();
    u.Exit();
    r := Ok(NoReply);
  }

  /** `AddGroupMembersCommandHandler.__call__`, all of it inside one scope. */
  method AddGroupMembers(uow: UnitOfWork, groupId: int, user: User, members: seq<User>) returns (r: Result<Reply>)
    requires uow.Valid()
    modifies uow, uow.groups
    ensures uow.Valid()
    ensures var o := AfterAddMembers(old(uow.Abs()), groupId, user, members); uow.Abs() == o.world && r == o.result
  {
    var u := uow.Enter();
    var service := new GroupsService(u);
    var found := service.GetGroupById(groupId);
    if found.Err? {
      u.Exit();
      return Err(found.error);
    }
    var g := found.value;
    if !Owns(user, g) {
      u.Exit();
      return Err(GroupOwnerError);
    }
    var _ := u.groups.Update(g.id, WithMembers(g, members));
    u.Commit();
    u.AddEvent(AddedEvent(g, user, members));
    u.Exit();
    r := Ok(NoReply);
  }
}
