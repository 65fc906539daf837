/** The static handler registries of the groups and the users contexts. A dictionary
    literal is kept as its list of entries, in the order written. */
module Registries {
  import opened Errors
  import opened Messages
  import opened Handlers

  /** No key is written twice, so each key has exactly one value. */
  predicate DistinctKeys<K(==), V>(entries: seq<(K, V)>)
  {
    forall i, j :: 0 <= i < j < |entries| ==> entries[i].0 != entries[j].0
  }

  function KeysOf<K, V>(entries: seq<(K, V)>): (ks: seq<K>)
    ensures |ks| == |entries| && forall i :: 0 <= i < |entries| ==> ks[i] == entries[i].0
  {
    seq(|entries|, i requires 0 <= i < |entries| => entries[i].0)
  }

  /** `registry[key]`: the value written under the key, or `KeyError`. */
  function Lookup<K(==), V>(entries: seq<(K, V)>, key: K): (r: Result<V>)
    ensures r.Err? <==> forall i :: 0 <= i < |entries| ==> entries[i].0 != key
    ensures r.Err? ==> r.error == KeyError
    ensures r.Ok? ==> exists i :: 0 <= i < |entries| && entries[i] == (key, r.value)
    ensures DistinctKeys(entries) ==>
              forall i :: 0 <= i < |entries| && entries[i].0 == key ==> r == Ok(entries[i].1)
    decreases |entries|
  {
    if entries == [] then Err(KeyError)
    else if entries[0].0 == key then Ok(entries[0].1)
    else
      assert forall i :: 1 <= i < |entries| ==> entries[i] == entries[1..][i - 1];
      Lookup(entries[1..], key)
  }

  /** `EVENTS_HANDLERS_RAW` of the groups context. */
  const GroupEventsRaw: seq<(EventType, seq<HandlerClass>)> :=
    [(GroupMembersInvitedEvent, []),
     (GroupMembersAddedToGroupEvent, [GroupMembersAddedToGroupEventHandler])]

  /** `COMMANDS_HANDLERS_RAW` of the groups context, as written: the add-members entry
      names the command class. */
  const GroupCommandsRaw: seq<(CommandType, HandlerClass)> :=
    [(CreateGroupCommand, CreateGroupCommandHandler),
     (DeleteGroupCommand, DeleteGroupCommandHandler),
     (UpdateGroupCommand, UpdateGroupCommandHandler),
     (AddGroupMembersCommand, AddGroupMembersCommandClass)]

  /** The same registry with the add-members entry naming its handler. */
  const GroupCommandsIntended: seq<(CommandType, HandlerClass)> :=
    [(CreateGroupCommand, CreateGroupCommandHandler),
     (DeleteGroupCommand, DeleteGroupCommandHandler),
     (UpdateGroupCommand, UpdateGroupCommandHandler),
     (AddGroupMembersCommand, AddGroupMembersCommandHandler)]

  /** `EVENTS_HANDLERS_FOR_INJECTION` of the users context. */
  const UserEventsRaw: seq<(EventType, seq<HandlerClass>)> :=
    [(UserRegisteredEvent, [SendVerifyEmailMessageEventHandler])]

  /** `COMMANDS_HANDLERS_FOR_INJECTION` of the users context. */
  const UserCommandsRaw: seq<(CommandType, HandlerClass)> :=
    [(RegisterUserCommand, RegisterUserCommandHandler),
     (VerifyUserEmailCommand, VerifyUserEmailCommandHandler),
     (VerifyUserCredentialsCommand, VerifyUserCredentialsCommandHandler),
     (GetUserCommand, GetUserCommandHandler)]

  /** The groups event registry: no handler for invitations, one for added members. */
  lemma GroupEventRegistry()
    ensures DistinctKeys(GroupEventsRaw)
    ensures Lookup(GroupEventsRaw, GroupMembersInvitedEvent) == Ok([])
    ensures Lookup(GroupEventsRaw, GroupMembersAddedToGroupEvent) == Ok([GroupMembersAddedToGroupEventHandler])
    ensures Lookup(GroupEventsRaw, GroupMembersRemovedFromGroupEvent) == Err(KeyError)
  {
  }

  /** The groups command registry: three commands map to their own handlers, the
      add-members command to the command class, and invitations are not registered. */
  lemma GroupCommandRegistry()
    ensures DistinctKeys(GroupCommandsRaw)
    ensures Lookup(GroupCommandsRaw, CreateGroupCommand) == Ok(CreateGroupCommandHandler)
    ensures Lookup(GroupCommandsRaw, DeleteGroupCommand) == Ok(DeleteGroupCommandHandler)
    ensures Lookup(GroupCommandsRaw, UpdateGroupCommand) == Ok(UpdateGroupCommandHandler)
    ensures Lookup(GroupCommandsRaw, AddGroupMembersCommand) == Ok(AddGroupMembersCommandClass)
    ensures Lookup(GroupCommandsRaw, InviteGroupMembersCommand) == Err(KeyError)
  {
    GroupCommandKeysDistinct();
    assert GroupCommandsRaw[3] == (AddGroupMembersCommand, AddGroupMembersCommandClass);
  }

  lemma GroupCommandKeysDistinct()
    ensures DistinctKeys(GroupCommandsRaw)
  {
    var keys := [CreateGroupCommand, DeleteGroupCommand, UpdateGroupCommand, AddGroupMembersCommand];
    assert forall i :: 0 <= i < 4 ==> GroupCommandsRaw[i].0 == keys[i];
  }

  /** The users registries: only `UserRegisteredEvent` has handlers, exactly the
      verification mail one, and each of the four user commands has its own handler. */
  lemma {:induction false} UserRegistries()
    ensures DistinctKeys(UserEventsRaw) && DistinctKeys(UserCommandsRaw)
    ensures Lookup(UserEventsRaw, UserRegisteredEvent) == Ok([SendVerifyEmailMessageEventHandler])
    ensures forall e :: e != UserRegisteredEvent ==> Lookup(UserEventsRaw, e) == Err(KeyError)
    ensures Lookup(UserCommandsRaw, RegisterUserCommand) == Ok(RegisterUserCommandHandler)
    ensures Lookup(UserCommandsRaw, VerifyUserEmailCommand) == Ok(VerifyUserEmailCommandHandler)
    ensures Lookup(UserCommandsRaw, VerifyUserCredentialsCommand) == Ok(VerifyUserCredentialsCommandHandler)
    ensures Lookup(UserCommandsRaw, GetUserCommand) == Ok(GetUserCommandHandler)
  {
    forall e | e != UserRegisteredEvent ensures Lookup(UserEventsRaw, e) == Err(KeyError) {
      assert UserEventsRaw[0].0 != e;
    }
  }
}
