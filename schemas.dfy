/** The request schemes' field validators and defaults. */
module Schemas {
  import opened Errors

  /** `GroupValidationConfig` (src/groups/config.py:30-32). */
  const NAME_MIN_LENGTH: nat := 1
  const NAME_MAX_LENGTH: nat := 70

  /** `PasswordConfig` (src/auth/config.py:23-25). */
  const PASSWORD_MIN_LENGTH: nat := 8
  const PASSWORD_MAX_LENGTH: nat := 30

  /** `CreateOrUpdateGroupScheme.validate_group_name`. */
  function ValidateGroupName(value: string): (r: Result<string>)
    ensures r.Ok? <==> NAME_MIN_LENGTH <= |value| <= NAME_MAX_LENGTH
    ensures r.Ok? ==> r.value == value
    ensures r.Err? ==> r.error == GroupNameValidationError
  {
    if !(NAME_MIN_LENGTH <= |value| <= NAME_MAX_LENGTH) then Err(GroupNameValidationError)
    else Ok(value)
  }

  datatype CreateOrUpdateGroupScheme = CreateOrUpdateGroupScheme(name: string)

  datatype UpdateGroupMembersScheme = UpdateGroupMembersScheme(groupMembersIds: seq<int>)

  /** Building an `UpdateGroupMembersScheme`: the given ids, or the empty list when
      `group_members_ids` is omitted. */
  function NewUpdateGroupMembersScheme(groupMembersIds: Option<seq<int>>): (r: UpdateGroupMembersScheme)
    ensures groupMembersIds.None? ==> r.groupMembersIds == []
    ensures groupMembersIds.Some? ==> r.groupMembersIds == groupMembersIds.value
  {
    UpdateGroupMembersScheme(if groupMembersIds.Some? then groupMembersIds.value else [])
  }

  datatype InviteGroupMembersScheme = InviteGroupMembersScheme(emails: seq<string>)

  /** Building an `InviteGroupMembersScheme`: the given addresses, or the empty list when
      `emails` is omitted. */
  function NewInviteGroupMembersScheme(emails: Option<seq<string>>): (r: InviteGroupMembersScheme)
    ensures emails.None? ==> r.emails == []
    ensures emails.Some? ==> r.emails == emails.value
  {
    InviteGroupMembersScheme(if emails.Some? then emails.value else [])
  }

  /** Building a `CreateOrUpdateGroupScheme` runs the name validator first. */
  function NewCreateOrUpdateGroupScheme(name: string): (r: Result<CreateOrUpdateGroupScheme>)
    ensures r.Ok? <==> NAME_MIN_LENGTH <= |name| <= NAME_MAX_LENGTH
    ensures r.Ok? ==> r.value.name == name
    ensures r.Err? ==> r.error == GroupNameValidationError
  {
    match ValidateGroupName(name)
    case Ok(v) => Ok(CreateOrUpdateGroupScheme(v))
    case Err(e) => Err(e)
  }

  /** `CreateGroupScheme` from src/groups/schemas.py: the same name bound, and
      `owner_id` defaulting to `None`. */
  datatype CreateGroupScheme = CreateGroupScheme(name: string, ownerId: Option<int>)

  function NewCreateGroupScheme(name: string, ownerId: Option<int> := None): (r: Result<CreateGroupScheme>)
    ensures r.Ok? <==> NAME_MIN_LENGTH <= |name| <= NAME_MAX_LENGTH
    ensures r.Ok? ==> r.value.name == name && r.value.ownerId == ownerId
    ensures r.Err? ==> r.error == GroupNameValidationError
  {
    if !(NAME_MIN_LENGTH <= |name| <= NAME_MAX_LENGTH) then Err(GroupNameValidationError)
    else Ok(CreateGroupScheme(name, ownerId))
  }

  lemma CreateGroupSchemeOwnerDefaultsToNone(name: string)
    requires NAME_MIN_LENGTH <= |name| <= NAME_MAX_LENGTH
    ensures NewCreateGroupScheme(name) == Ok(CreateGroupScheme(name, None))
  {
  }

  /** `AuthUserScheme.validate_username`, which checks the password's length. */
  function ValidatePassword(value: string): (r: Result<string>)
    ensures r.Ok? <==> PASSWORD_MIN_LENGTH <= |value| <= PASSWORD_MAX_LENGTH
    ensures r.Ok? ==> r.value == value
    ensures r.Err? ==> r.error == ValueError(PASSWORD_ERROR)
  {
    if !(PASSWORD_MIN_LENGTH <= |value| <= PASSWORD_MAX_LENGTH) then Err(ValueError(PASSWORD_ERROR))
    else Ok(value)
  }

  /** The error text promises at most 20 characters, the configured bound is 30:
      a 25-character password is accepted. */
  lemma PasswordMessageUnderstatesBound()
    ensures ValidatePassword("abcdefghijklmnopqrstuvwxy").Ok?
    ensures |"abcdefghijklmnopqrstuvwxy"| == 25
  {
  }
}
