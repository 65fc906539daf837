/** The commands and events of the users and groups contexts, and the messages the bus queues. */
module Messages {
  import opened Models

  datatype Command =
    | CreateGroup(groupName: string, user: User)
    | DeleteGroup(groupId: int, user: User)
    | UpdateGroup(groupId: int, user: User, groupName: string)
    | AddGroupMembers(groupId: int, user: User, groupMembers: seq<User>)
    | InviteGroupMembers(groupId: int, user: User, invitedEmails: seq<string>)
    | RegisterUser(username: string, password: string, email: string)
    | VerifyUserCredentials(username: string, password: string)
    | VerifyUserEmail(userId: int)
    | GetUser(userId: int)

  datatype Event =
    | GroupMembersAddedToGroup(groupName: string, memberUsernames: seq<string>,
                               memberEmails: seq<string>, ownerUsername: string)
    | GroupMembersRemovedFromGroup(groupName: string, memberUsernames: seq<string>,
                                   memberEmails: seq<string>, ownerUsername: string)
    | GroupMembersInvited(groupName: string, invitedEmails: seq<string>, ownerUsername: string)
    | UserRegistered(userId: int, username: string, email: string)

  /** What `MessageBus.handle` may be given: an event, a command, or some other value. */
  datatype Message = Cmd(command: Command) | Evt(event: Event) | Other(name: string)

  /** The Python classes of the commands and the events: the keys of the handler registries. */
  datatype CommandType =
    | CreateGroupCommand | DeleteGroupCommand | UpdateGroupCommand | AddGroupMembersCommand
    | InviteGroupMembersCommand | RegisterUserCommand | VerifyUserCredentialsCommand
    | VerifyUserEmailCommand | GetUserCommand

  datatype EventType =
    | GroupMembersAddedToGroupEvent | GroupMembersRemovedFromGroupEvent
    | GroupMembersInvitedEvent | UserRegisteredEvent

  /** `type(command)`. */
  function CommandTypeOf(c: Command): CommandType
  {
    match c
    case CreateGroup(_, _) => CreateGroupCommand
    case DeleteGroup(_, _) => DeleteGroupCommand
    case UpdateGroup(_, _, _) => UpdateGroupCommand
    case AddGroupMembers(_, _, _) => AddGroupMembersCommand
    case InviteGroupMembers(_, _, _) => InviteGroupMembersCommand
    case RegisterUser(_, _, _) => RegisterUserCommand
    case VerifyUserCredentials(_, _) => VerifyUserCredentialsCommand
    case VerifyUserEmail(_) => VerifyUserEmailCommand
    case GetUser(_) => GetUserCommand
  }

  /** `type(event)`. */
  function EventTypeOf(e: Event): EventType
  {
    match e
    case GroupMembersAddedToGroup(_, _, _, _) => GroupMembersAddedToGroupEvent
    case GroupMembersRemovedFromGroup(_, _, _, _) => GroupMembersRemovedFromGroupEvent
    case GroupMembersInvited(_, _, _) => GroupMembersInvitedEvent
    case UserRegistered(_, _, _) => UserRegisteredEvent
  }
}
