# benefit-bistro backend core, in Dafny

This project models the core of the benefit-bistro backend. That core is:

- an in-process message bus that dispatches commands and events in FIFO order;
- a unit of work that carries the list of events the handlers raise;
- a bootstrap that builds the handlers around that unit of work by dependency injection;
- the static handler registries of the groups and the users contexts;
- the group and user command handlers, and the two services they use;
- the helpers the handlers rely on: `to_dict`, `protect_password` and the length validators;
- the in-memory repositories and units of work used in place of the database.

The model has two layers.

- **Specification functions on values.** A repository's dictionary is a `Stores.Store`: the entries plus the order in which keys were inserted, because Python dictionaries iterate in that order. Everything a handler can change is a `UnitsOfWork.World`. Each service call and handler is a function from a world to an `Outcome`: the new world and the answer or the error raised. The message bus is the function `MessageBusSpec.Run` over the queue and the world.
- **Imperative classes that follow the code.** These are the repositories (`FakeGroupsRepository`, `FakeUsersRepository`), the unit of work (`UnitOfWork`), the services (`UsersService`, `GroupsService`) and the bus (`MessageBus`), together with methods for the handlers. Each method is proved to leave its state, and give its answer, exactly as the specification function says. Loops stay loops: the queue loop of `handle`, the handler loop and the drain loops of the bus, the exclusion loop of `to_dict`, and the early-return lookups of the repositories.

The bus is specified over any table of handler effects. `MessageBus.Valid` ties the table the bus holds to the handlers of this model. The bus specification takes three switches, `Semantics(conditionGuard, clearOnDrain, rebind)`:

- `conditionGuard`: whether the loop guard is the always-truthy `Queue.not_empty` condition object;
- `clearOnDrain`: whether draining empties `uow.events`;
- `rebind`: whether the drain loop rebinds the event that later handlers receive.

Three settings are named:

- `Modelled`: the bus as written, except that the loop stops on an empty queue;
- `AsWritten`: the bus exactly as written;
- `Intended`: the bus as evidently intended.

The properties of each setting, and the differences between them, are lemmas (see Findings). The switches concern the bus alone. The handler effects the bus runs are always the corrected handlers. Where a handler's code as written differs, that version is a separate member (`GroupHandlers.AfterCreateAsWritten`, `GroupHandlers.CreatedGroupAsWritten`, `FakeGroups.IdAndName`), with a lemma beside it that shows the difference.

Exceptions are values: an `Error` datatype with one constructor per exception class, carried in `Result` or `Outcome`. A handler exception propagates out of `handle` unchanged, as status `Raised`.

Some choices the code does not settle on its own:

- **The group built from a create command.** The create handler builds a `GroupModel` from the command's fields minus `user`. The model reads the command's `group_name` as the group's name. The group model the handlers import, src/groups/domain/models.py, is not part of this model. `GroupHandlers.CreatedGroupAsWritten` assumes its owner defaults to `None`; with the group model of src/groups/models.py, whose `owner_id` has no default, the construction would raise `TypeError` instead. Either way the creator is not the owner. The handler's own description ("Creates a new group for current user") and its test, which expects the owner to be the creating user, say it should be. `GroupHandlers.CreatedGroup` therefore gives the group the creator as owner, and `GroupHandlers.AfterCreate` uses it (see Findings).
- **The add-event call.** `RegisterUserCommandHandler` calls `uow.add_event`, which the shown unit of work does not declare. The model treats it as the same append to `events` that the add-members handler makes directly (`UnitOfWork.AddEvent`).
- **Owner lookups.** The fake groups repository's owner lookups compare `group.id` with the owner id they are given. The SQL repository filters on `owner_id`. The fake's methods here compare `owner_id` too (`FakeGroups.OwnerAndName`, `FakeGroups.GroupsOwnedBy`), so `GroupsService.GroupExists` and `GroupsService.OwnerGroups` answer by owner. The comparison as written is kept as `FakeGroups.IdAndName` and `FakeGroups.GroupsWithId`, and `FakeGroups.OwnerLookupComparesId` exhibits a group that it misses (see Findings).
- **The password message.** The password error message says 8 to 20 characters; the configured bound is 30. The model validates against 30, and `Schemas.PasswordMessageUnderstatesBound` shows a 25-character password being accepted.
- **List defaults.** `group_members_ids` and `emails` default to empty lists. A field that is omitted is the argument `None` of `Schemas.NewUpdateGroupMembersScheme` and `Schemas.NewInviteGroupMembersScheme`.

## Model

| member | source | states |
|---|---|---|
| Models.NewUser | src/users/domain/models.py:7-14 | a new user has the given email, password and username, id 0 and an unverified e-mail |
| Models.ProtectPassword | src/users/domain/models.py:16-17 | the password becomes empty and every other field is kept |
| Models.ProtectPasswordIdempotent | src/users/domain/models.py:16-17 | protecting a password twice is the same as once |
| BaseModel.ToDict | src/core/interfaces/base_model.py:8-25 | the keys are the fields minus the excluded names, plus the included keys; an included value wins; every other field keeps its value; excluding an absent key is ignored |
| BaseModel.ToDictAll | src/core/interfaces/base_model.py:14-25 | with no exclude and no include, the dictionary is exactly the fields |
| Schemas.ValidateGroupName | src/groups/entypoints/schemas.py:13-17 | a name is accepted exactly when its length is between 1 and 70 and then returned unchanged; otherwise `GroupNameValidationError` |
| Schemas.NewCreateOrUpdateGroupScheme | src/groups/entypoints/schemas.py:8-17 | the scheme is built exactly when the name passes the validator, and it holds that name |
| Schemas.NewCreateGroupScheme | src/groups/schemas.py:8-18 | the same bound and error for `CreateGroupScheme`; the scheme holds the name and the given owner |
| Schemas.CreateGroupSchemeOwnerDefaultsToNone | src/groups/schemas.py:10 | a scheme built without an owner has owner `None` |
| Schemas.NewUpdateGroupMembersScheme | src/groups/entypoints/schemas.py:20-21 | the given member ids, or the empty list when the field is omitted |
| Schemas.NewInviteGroupMembersScheme | src/groups/entypoints/schemas.py:24-25 | the given addresses, or the empty list when the field is omitted |
| Schemas.ValidatePassword | src/auth/schemas.py:17-23 | a password is accepted exactly when its length is between 8 and 30 and then returned unchanged; otherwise `ValueError(PASSWORD_ERROR)` |
| Schemas.PasswordMessageUnderstatesBound | src/auth/constants.py:6 | a 25-character password is accepted, although the message names 20 as the maximum |
| Stores.Empty | tests/groups/fake_objects.py:11-12 | the empty dictionary is well formed and has no entries |
| Stores.Get | tests/groups/fake_objects.py:14-15 | `dict.get`: the value stored under the key, or none exactly when the key is absent |
| Stores.Put | tests/groups/fake_objects.py:29 | `d[key] = value` maps the key to the value, leaves every other entry alone, and keeps the key order well formed |
| Stores.PutNewKeyAppends | tests/groups/fake_objects.py:29 | storing a new key puts its value last in iteration order and keeps the earlier ones in place |
| Stores.PutPresentKeyKeepsOrder | tests/groups/fake_objects.py:35 | overwriting a present key keeps the iteration order |
| Stores.Remove | tests/groups/fake_objects.py:39-41 | deleting removes exactly that key and is a no-op when it is absent |
| Stores.RemoveKeepsValid | tests/groups/fake_objects.py:39-41 | after a delete every remaining key is still listed exactly once |
| Stores.ValuesLength | tests/groups/fake_objects.py:43-44 | `list(d.values())` has as many elements as the dictionary has keys |
| Stores.ValuesMembership | tests/groups/fake_objects.py:43-44 | a value is listed exactly when it is stored under some key |
| Stores.First | tests/auth/fake_objects.py:17-23 | the first value in iteration order that satisfies the test, or none when no value does |
| Stores.FirstInStore | tests/auth/fake_objects.py:17-23 | a first-match search over the values finds something exactly when some stored value passes, and what it finds is stored |
| FakeGroups.GroupsWithId | tests/groups/fake_objects.py:17-18 | the selection as written: exactly the listed groups whose `id` equals the argument |
| FakeGroups.GroupsOwnedBy | tests/groups/fake_objects.py:17-18 | the selection with the owner compared as `owner_id`: exactly the listed groups owned by the argument |
| FakeGroups.FakeGroupsRepository.constructor | tests/groups/fake_objects.py:11-12 | the repository starts with the given dictionary |
| FakeGroups.FakeGroupsRepository.Get | tests/groups/fake_objects.py:14-15 | the group stored under the id, or none exactly when the id is absent |
| FakeGroups.FakeGroupsRepository.GetOwnerGroups | tests/groups/fake_objects.py:17-18 | the stored groups owned by the owner id, in iteration order |
| FakeGroups.FakeGroupsRepository.GetByOwnerAndName | tests/groups/fake_objects.py:20-25 | the first stored group, in iteration order, that the owner id owns and whose name matches; none if there is none |
| FakeGroups.FakeGroupsRepository.Add | tests/groups/fake_objects.py:27-30 | the group is stored under its own id, overwriting any entry there, and returned |
| FakeGroups.FakeGroupsRepository.Update | tests/groups/fake_objects.py:32-37 | the entry is replaced only when the id is present, otherwise nothing changes; the new group is returned either way |
| FakeGroups.FakeGroupsRepository.Delete | tests/groups/fake_objects.py:39-41 | a present id is removed, an absent one changes nothing |
| FakeGroups.FakeGroupsRepository.List | tests/groups/fake_objects.py:43-44 | every stored group in iteration order, as many as there are keys |
| FakeGroups.OwnerLookupComparesId | tests/groups/fake_objects.py:17-25 | with the `id` comparison as written, group 1 owned by user 2 is not found for owner 2 and is found for owner 1; with the owner comparison it is found for owner 2 only |
| FakeUsers.FakeUsersRepository.constructor | tests/auth/fake_objects.py:11-12 | the repository starts with the given dictionary |
| FakeUsers.FakeUsersRepository.Get | tests/auth/fake_objects.py:14-15 | the user stored under the id, or none exactly when the id is absent |
| FakeUsers.FakeUsersRepository.GetByEmail | tests/auth/fake_objects.py:17-23 | the first stored user, in iteration order, with that e-mail, or none |
| FakeUsers.FakeUsersRepository.GetByUsername | tests/auth/fake_objects.py:25-31 | the first stored user, in iteration order, with that username, or none |
| FakeUsers.FakeUsersRepository.Add | tests/auth/fake_objects.py:33-35 | the user is stored under its id, overwriting any entry there |
| FakeUsers.FakeUsersRepository.Update | tests/auth/fake_objects.py:37-39 | the entry is replaced only when the id is present |
| FakeUsers.FakeUsersRepository.Delete | tests/auth/fake_objects.py:41-43 | a present id is removed, an absent one changes nothing |
| FakeUsers.FakeUsersRepository.List | tests/auth/fake_objects.py:45-46 | every stored user in iteration order, as many as there are keys |
| FakeUsers.DuplicateEmailsAreStored | tests/auth/fake_objects.py:33-35 | two users with one e-mail are both stored; the fake does not enforce the uniqueness the SQL table declares |
| UnitsOfWork.UnitOfWork.constructor | src/core/interfaces/units_of_work.py:12-14 | a new unit of work has an empty `events` list and has not committed |
| UnitsOfWork.UnitOfWork.Enter | src/core/interfaces/units_of_work.py:16-17 | entering the scope returns the same unit of work |
| UnitsOfWork.UnitOfWork.Exit | src/core/interfaces/units_of_work.py:19-20 | leaving the scope always rolls back, also after a commit, and leaves `events` and `committed` alone |
| UnitsOfWork.UnitOfWork.Commit | tests/groups/fake_objects.py:53-54 | commit sets `committed` and changes nothing else |
| UnitsOfWork.UnitOfWork.Rollback | tests/groups/fake_objects.py:56-57 | the fakes' rollback discards nothing |
| UnitsOfWork.UnitOfWork.AddEvent | src/groups/service_layer/handlers/command_handlers.py:87-94 | one event is appended to `events` and nothing else changes |
| UnitsOfWork.UnitOfWork.ClearEvents | src/core/messagebus.py:47-48 | `events` becomes empty; only the corrected bus calls it |
| UsersService.FindByEmail | tests/auth/fake_objects.py:17-23 | the e-mail look-up finds a stored user with that e-mail, and finds one exactly when one exists |
| UsersService.FindByUsername | tests/auth/fake_objects.py:25-31 | the username look-up finds a stored user with that username, and finds one exactly when one exists |
| UsersService.Existence | src/users/service_layer/service.py:23-50 | `ValueError(USER_ATTRIBUTE_REQUIRED)` exactly when id, e-mail and username are all falsy; otherwise true exactly when some stored user matches one of the given attributes |
| UsersService.UserByEmail | src/users/service_layer/service.py:52-58 | a stored user with that e-mail, found exactly when one exists; otherwise `UserNotFoundError` |
| UsersService.UserByUsername | src/users/service_layer/service.py:60-66 | a stored user with that username, found exactly when one exists; otherwise `UserNotFoundError` |
| UsersService.UserById | src/users/service_layer/service.py:68-74 | the user stored under the id, or `UserNotFoundError` exactly when it is absent |
| UsersService.AfterRegister | src/users/service_layer/service.py:17-21 | the user is stored under its id, the scope commits, and the user is returned |
| UsersService.AfterVerifyEmail | src/users/service_layer/service.py:76-84 | a present user gets `email_verified` set, keeps its place and is returned, and the scope commits; an absent id raises `UserNotFoundError` and changes nothing |
| UsersService.AllUsers | src/users/service_layer/service.py:86-89 | exactly the stored users, as many as there are keys |
| UsersService.RegisteredUserIsFound | src/users/service_layer/service.py:17-74 | a registered user is then found by id, by e-mail, by username and by the existence check |
| UsersService.VerifyEmailIdempotent | src/users/service_layer/service.py:76-84 | verifying twice leaves the same users as verifying once |
| UsersService.UsersService.constructor | src/users/service_layer/service.py:14-15 | the service keeps the unit of work it is given |
| UsersService.UsersService.RegisterUser | src/users/service_layer/service.py:17-21 | leaves the world and answer of `AfterRegister` |
| UsersService.UsersService.CheckUserExistence | src/users/service_layer/service.py:23-50 | answers `Existence`, changes nothing; it rolls back once when it enters the scope and not at all when it raises first |
| UsersService.UsersService.AnyUserMatches | src/users/service_layer/service.py:33-48 | the three look-ups by id, e-mail and username find something exactly when one of the given attributes matches a stored user |
| UsersService.ExistenceByAttribute | src/users/service_layer/service.py:33-50 | with an attribute given, the existence answer is the disjunction of the three look-ups |
| UsersService.UsersService.GetUserByEmail | src/users/service_layer/service.py:52-58 | answers `UserByEmail` and changes nothing |
| UsersService.UsersService.GetUserByUsername | src/users/service_layer/service.py:60-66 | answers `UserByUsername` and changes nothing |
| UsersService.UsersService.GetUserById | src/users/service_layer/service.py:68-74 | answers `UserById` and changes nothing |
| UsersService.UsersService.VerifyUserEmail | src/users/service_layer/service.py:76-84 | leaves the world and answer of `AfterVerifyEmail` |
| UsersService.UsersService.GetAllUsers | src/users/service_layer/service.py:86-89 | answers `AllUsers` and changes nothing, so it does not commit |
| GroupsService.GroupById | src/groups/service.py:17-23 | the group stored under the id, or `GroupNotFoundError` exactly when it is absent |
| GroupsService.GroupOf | src/groups/service.py:27 | the group built from a scheme has its name and owner, id 0 and no members |
| GroupsService.AfterCreateGroup | src/groups/service.py:25-29 | the built group is stored under its id and returned, and the scope commits |
| GroupsService.GroupExists | src/groups/service.py:31-37 | true exactly when a stored group has that owner and that name |
| GroupsService.ExistenceAsWritten | src/groups/service.py:33 | the call as written always raises `AttributeError` |
| GroupsService.ExistenceAsWrittenNeverAnswers | src/groups/service.py:31-37 | even for a stored group that the intended check finds, the written call raises |
| GroupsService.AfterDeleteGroup | src/groups/service.py:39-42 | the id is gone, every other group is kept, and the scope commits; an absent id is not an error |
| GroupsService.OwnerGroups | src/groups/service.py:44-47 | exactly the stored groups owned by the owner |
| GroupsService.CreatedGroupIsFound | src/groups/service.py:17-47 | a created group is found by id; one with an owner is found by the existence check for its owner and name and among its owner's groups |
| GroupsService.DeletedGroupIsGone | src/groups/service.py:17-42 | after a delete the group is not found, and a second delete changes no group |
| GroupsService.GroupsService.constructor | src/groups/service.py:14-15 | the service keeps the unit of work it is given |
| GroupsService.GroupsService.GetGroupById | src/groups/service.py:17-23 | answers `GroupById` and changes nothing |
| GroupsService.GroupsService.CreateGroup | src/groups/service.py:25-29 | leaves the world and answer of `AfterCreateGroup` |
| GroupsService.GroupsService.CheckGroupExistence | src/groups/service.py:31-37 | answers `GroupExists`, with the repository's own lookup, and changes nothing |
| GroupsService.GroupsService.DeleteGroup | src/groups/service.py:39-42 | leaves the world of `AfterDeleteGroup` |
| GroupsService.GroupsService.GetOwnerGroups | src/groups/service.py:44-47 | answers `OwnerGroups` and changes nothing, so it does not commit |
| GroupHandlers.Owns | src/groups/service_layer/handlers/command_handlers.py:40-41 | `group.owner_id == command.user.id`: a group with no owner is owned by nobody, an owned group by its owner only |
| GroupHandlers.CreatedGroupAsWritten | src/groups/service_layer/handlers/command_handlers.py:27 | the group built as written has the command's name, no owner, id 0 and no members, so no user owns it |
| GroupHandlers.CreatedGroup | src/groups/service_layer/handlers/command_handlers.py:19-27 | the group a create command means has the command's name, id 0, no members, and the creator owns it |
| GroupHandlers.AfterCreate | src/groups/service_layer/handlers/command_handlers.py:16-28 | `GroupAlreadyExistsError` exactly when the user already owns a group of that name, with nothing changed; otherwise the group, owned by the user, is stored and the scope commits |
| GroupHandlers.RepeatedCreateRefused | src/groups/service_layer/handlers/command_handlers.py:24-25 | creating the same name twice for the same user: the second create raises `GroupAlreadyExistsError` and changes nothing |
| GroupHandlers.CreatorOwnsCreatedGroup | src/groups/service_layer/handlers/command_handlers.py:19-28 | after a create the creator owns the group, sees it among their groups and may delete it |
| GroupHandlers.CreatorDoesNotOwnAsWritten | src/groups/service_layer/handlers/command_handlers.py:27 | a group stored as written has no owner, so its creator's delete and update raise `GroupOwnerError` and it is not among their groups |
| GroupHandlers.AfterCreateAsWritten | src/groups/service_layer/handlers/command_handlers.py:23-25 | with the check not awaited, every create raises `GroupAlreadyExistsError` and stores nothing |
| GroupHandlers.CreateAsWrittenRefusesNewGroup | src/groups/service_layer/handlers/command_handlers.py:24-25 | on an empty store the awaited check creates the group and the written one refuses it |
| GroupHandlers.AfterDelete | src/groups/service_layer/handlers/command_handlers.py:31-43 | `GroupNotFoundError` exactly for an unknown id, then `GroupOwnerError` exactly for a group the user does not own, each with nothing changed; otherwise the group is deleted |
| GroupHandlers.UpdatedGroup | src/groups/service_layer/handlers/command_handlers.py:59-61 | the merge takes the command's name, keeps owner and id, and resets the excluded members |
| GroupHandlers.AfterUpdate | src/groups/service_layer/handlers/command_handlers.py:46-62 | `GroupNotFoundError` exactly for an unknown id, then `GroupOwnerError` exactly for a group the user does not own, each before any write; otherwise the merged group replaces the stored one in place and the scope commits |
| GroupHandlers.MembersOf | src/groups/service_layer/handlers/command_handlers.py:79-84 | a membership is in the set exactly when it pairs the group id with the id of some command member |
| GroupHandlers.Emails | src/groups/service_layer/handlers/command_handlers.py:91 | one e-mail per command member, in command order |
| GroupHandlers.Usernames | src/groups/service_layer/handlers/command_handlers.py:92 | one username per command member, in command order |
| GroupHandlers.AddedEvent | src/groups/service_layer/handlers/command_handlers.py:87-94 | a `GroupMembersAddedToGroupEvent` with the group's name, the owner's username, and one e-mail and one username per command member, in command order |
| GroupHandlers.WithMembers | src/groups/service_layer/handlers/command_handlers.py:86 | the group gains exactly those memberships and keeps its other fields |
| GroupHandlers.AfterAddMembers | src/groups/service_layer/handlers/command_handlers.py:65-94 | `GroupNotFoundError` exactly for an unknown id, then `GroupOwnerError` exactly for a group the user does not own, each with no write and no event; otherwise the memberships are added under the group's own id, the scope commits and exactly one added-members event is appended |
| GroupHandlers.AddMembersTwiceSameMembers | src/groups/service_layer/handlers/command_handlers.py:79-94 | adding the same members twice leaves the memberships of adding them once, and appends two events |
| GroupHandlers.DuplicateMembersCollapse | src/groups/service_layer/handlers/command_handlers.py:79-84 | listing the command's members twice gives the same memberships as listing them once |
| GroupHandlers.CreateGroup | src/groups/service_layer/handlers/command_handlers.py:16-28 | leaves the world and answer of `AfterCreate` |
| GroupHandlers.DeleteGroup | src/groups/service_layer/handlers/command_handlers.py:31-43 | leaves the world and answer of `AfterDelete` |
| GroupHandlers.UpdateGroup | src/groups/service_layer/handlers/command_handlers.py:46-62 | leaves the world and answer of `AfterUpdate` |
| GroupHandlers.AddGroupMembers | src/groups/service_layer/handlers/command_handlers.py:65-94 | leaves the world and answer of `AfterAddMembers` |
| UserHandlers.Lookup | src/users/service_layer/handlers/command_handlers.py:59-64 | a user with the name as e-mail if there is one, else one with it as username; none exactly when neither exists |
| UserHandlers.Registered | src/users/service_layer/handlers/command_handlers.py:33-34 | the new user has the command's fields, the hashed password, id 0 and an unverified e-mail |
| UserHandlers.AfterRegisterUser | src/users/service_layer/handlers/command_handlers.py:20-46 | `ValueError` exactly when e-mail and username are both empty; `UserAlreadyExistsError` exactly when either is taken; each with nothing changed; it succeeds exactly when neither happens, and then the user is stored with the hashed password, the scope commits, one registered event with the user's id, username and e-mail is appended, and the user comes back with the password cleared |
| UserHandlers.Credentials | src/users/service_layer/handlers/command_handlers.py:49-73 | `ValueError` exactly for an empty name; otherwise not found, e-mail not verified and wrong password exactly in that order; a found, verified user with the right password always gets the reply, which is that user with the password cleared |
| UserHandlers.AfterVerifyUserEmail | src/users/service_layer/handlers/command_handlers.py:76-86 | a present user comes back verified with the password cleared; otherwise `UserNotFoundError` with nothing changed |
| UserHandlers.GetUserReply | src/users/service_layer/handlers/command_handlers.py:89-95 | the user stored under the id with the password cleared, or `UserNotFoundError` exactly when it is absent |
| UserHandlers.LookupFindsOnlyEmailOwner | src/users/service_layer/handlers/command_handlers.py:59-60 | when one user holds an e-mail, the credentials check settles on that user |
| UserHandlers.RegisterVerifyLogin | src/users/service_layer/handlers/command_handlers.py:20-86 | registering again is refused; the new user cannot log in before the e-mail is verified and can afterwards |
| UserHandlers.RegisterUser | src/users/service_layer/handlers/command_handlers.py:20-46 | leaves the world and answer of `AfterRegisterUser` |
| UserHandlers.VerifyUserCredentials | src/users/service_layer/handlers/command_handlers.py:49-73 | answers `Credentials` and changes nothing |
| UserHandlers.VerifyUserEmail | src/users/service_layer/handlers/command_handlers.py:76-86 | leaves the world and answer of `AfterVerifyUserEmail` |
| UserHandlers.GetUser | src/users/service_layer/handlers/command_handlers.py:89-95 | answers `GetUserReply` and changes nothing |
| Handlers.CtorParams | src/groups/interfaces/handlers.py:13-27 | every handler's constructor takes exactly `uow`; the command class takes other parameters |
| Handlers.Construct | src/core/interfaces/bootstraps.py:40 | construction succeeds exactly when the keyword arguments are the constructor's parameters; otherwise `TypeError` |
| Handlers.InjectDependencies | src/core/interfaces/bootstraps.py:34-40 | the keyword arguments are exactly the dependencies named among the parameters, values unchanged; the rest are dropped; `TypeError` exactly when a parameter has no dependency |
| Handlers.InjectUnitOfWork | src/core/interfaces/bootstraps.py:34-40 | with `uow` among the dependencies every handler is built around it alone; the command class cannot be built from `{'uow': uow}` |
| Handlers.Effect | src/groups/service_layer/handlers/event_handlers.py:9-13 | every handler keeps the world well formed, changes nothing when it raises, and appends at most one event; the two event handlers change nothing |
| Handlers.Invoke | src/core/messagebus.py:40 | calling a handler built around the unit of work leaves the world and answer of `Effect` |
| Handlers.InvokeGroupHandler | src/core/messagebus.py:40 | calling a group command handler leaves the world and answer of `Effect`, whatever the password functions |
| Handlers.InvokeUserHandler | src/core/messagebus.py:40 | calling a user command handler leaves the world and answer of `Effect` |
| Registries.Lookup | src/core/messagebus.py:45 | the value registered under the key, or `KeyError` exactly when the key is not registered |
| Registries.GroupEventRegistry | src/groups/service_layer/handlers/__init__.py:28-31 | invitations have no handler, added members exactly one, and the removal event is not registered |
| Registries.GroupCommandRegistry | src/groups/service_layer/handlers/__init__.py:33-38 | create, delete and update map to their handlers, add-members to the command class, and invitations are not registered |
| Registries.UserRegistries | src/users/service_layer/handlers/__init__.py:26-35 | only the registered event has handlers, exactly the verification mail one; each user command has its own handler; no key repeats |
| Bootstraps.Dependencies | src/groups/entypoints/bootstraps.py:12 | the dependency map is exactly `{'uow': uow}` with the bootstrap's unit of work |
| Bootstraps.InjectList | src/groups/entypoints/bootstraps.py:14-17 | one instance per handler class, in list order; `TypeError` when any constructor raises |
| Bootstraps.InjectEvents | src/groups/entypoints/bootstraps.py:13-19 | the same event types in the same order, each list built one for one |
| Bootstraps.InjectCommands | src/groups/entypoints/bootstraps.py:21-24 | the same command types in the same order, one instance each |
| Bootstraps.GetMessageBus | src/groups/entypoints/bootstraps.py:11-30 | the bus is built exactly when both maps can be injected, and it holds the bootstrap's unit of work |
| Bootstraps.InjectedIsBound | src/core/interfaces/bootstraps.py:34-40 | a handler injected from `{'uow': uow}` holds that unit of work and keeps its class |
| Bootstraps.BuiltBusShape | src/groups/entypoints/bootstraps.py:11-30 | a built bus has the registries' keys in order, each handler list with its length and classes, and every handler bound to the bootstrap's unit of work |
| Bootstraps.GroupsBootstrapRaises | src/groups/service_layer/handlers/__init__.py:37 | the groups bootstrap as written raises `TypeError` for every unit of work |
| Bootstraps.GroupsBootstrapIntended | src/groups/entypoints/bootstraps.py:11-30 | with the add-members entry naming its handler the bus is built, with the registered events, lists and command keys, every handler bound to the unit of work |
| Bootstraps.NewMessageBus | src/groups/entypoints/bootstraps.py:26-30 | a new bus with an empty queue, the bootstrap's unit of work and the injected maps, exactly when they can be built |
| MessageBusSpec.HandlerEffectsBehave | src/groups/service_layer/handlers/command_handlers.py:87-94 | the model's handlers never take an event off `uow.events` and keep the world well formed |
| MessageBusSpec.HandlerEffectsUndo | src/users/service_layer/handlers/command_handlers.py:30-31 | a handler that raises leaves the world as it found it |
| MessageBusSpec.EventLoop | src/core/messagebus.py:37-42 | the handlers are called in list order, all of them unless one raises, and the queue only grows |
| MessageBusSpec.Step | src/core/messagebus.py:29-35 | the queue only grows, and a message that is neither command nor event raises `MessageBusMessageError` with nothing changed |
| MessageBusSpec.Run | src/core/messagebus.py:26-35 | the loop ends normally only with an empty queue and a queue-empty guard; with the condition-object guard an empty queue blocks |
| MessageBusProperties.RunKeepsFifo | src/core/messagebus.py:27-29 | the messages queued before the loop are taken off first and in order; everything queued meanwhile goes behind them |
| MessageBusSpec.RunKeepsValid | src/core/messagebus.py:26-35 | when every handler keeps the world well formed, so does the whole loop |
| MessageBusProperties.CommandDispatchedOnce | src/core/messagebus.py:44-48 | a command's one registered handler is called once; after it returns all of `uow.events` go to the back of the queue in order; when it raises nothing is queued |
| MessageBusProperties.UnregisteredCommandRaises | src/core/messagebus.py:45 | an unregistered command type raises `KeyError` before any handler runs |
| MessageBusProperties.OtherMessageRaises | src/core/messagebus.py:30-35 | any other message is taken off the queue and raises `MessageBusMessageError` with no handler called |
| MessageBusProperties.EmptyHandlerListIsNoop | src/core/messagebus.py:39-40 | an event type registered with no handlers changes nothing and raises nothing |
| MessageBusProperties.DrainAfterEachHandler | src/core/messagebus.py:39-42 | with two handlers the queue is drained after each, and without clearing the first drain's events are queued again by the second |
| MessageBusProperties.SecondHandlerGetsLastDrained | src/core/messagebus.py:41 | with rebinding the second handler of an event receives the last drained event |
| MessageBusProperties.SecondHandlerGetsEvent | src/core/messagebus.py:39-40 | without rebinding every handler of an event receives the event itself |
| MessageBusProperties.EchoForever | src/core/messagebus.py:41-42 | an event left in `uow.events` without clearing comes back at every drain, so the loop never empties the queue |
| MessageBusProperties.CommandEchoForever | src/core/messagebus.py:44-48 | without clearing, a command whose handler raises one event, answered by one handler that changes nothing, keeps the loop running until the fuel is gone |
| MessageBusProperties.CommandSettlesWhenCleared | src/core/messagebus.py:44-48 | with clearing, the same command ends the loop after exactly two trips, with the command and then its event taken off and handled once each |
| MessageBusProperties.EventSettlesWhenCleared | src/core/messagebus.py:37-42 | with clearing, an event whose one handler changes nothing is taken off, handled once, and the loop ends with the world unchanged |
| MessageBusProperties.AddMembersNeverSettles | src/core/messagebus.py:47-48 | without clearing, a successful add-members command never lets `handle` finish |
| MessageBusProperties.AddMembersSettlesWhenCleared | src/core/messagebus.py:47-48 | with clearing, the same command finishes after two trips, with the members added and the event handled once |
| MessageBusProperties.ConditionGuardBlocks | src/core/messagebus.py:28 | the written guard runs the same trips as a queue-empty guard but blocks where that one would finish |
| MessageBusProperties.RunBlocksWhereDone | src/core/messagebus.py:28 | the loop with the condition-object guard is the loop with the queue-empty guard, except that a normal end becomes a block |
| MessageBuses.MessageBus.constructor | src/core/messagebus.py:14-24 | the bus keeps the unit of work and the two maps and starts with an empty queue |
| MessageBuses.MessageBus.Handle | src/core/messagebus.py:26-35 | puts the message at the back of the queue and leaves status, queue and world as `Run` does |
| MessageBuses.MessageBus.HandleMessage | src/core/messagebus.py:29-35 | one trip of the loop does what `Step` does |
| MessageBuses.MessageBus.HandleEvent | src/core/messagebus.py:37-42 | the handler loop does what `Step` does for an event |
| MessageBuses.MessageBus.RunHandlers | src/core/messagebus.py:39-42 | running the handlers in turn, each followed by a drain, does what `EventLoop` does and stops at the first error |
| MessageBuses.MessageBus.Trip | src/core/messagebus.py:28-35 | one trip of the loop: an error ends `Run` with that error, otherwise `Run` continues from the queue and world the trip left |
| MessageBuses.MessageBus.HandleCommand | src/core/messagebus.py:44-48 | the command lookup, call and drain do what `Step` does for a command |
| MessageBuses.MessageBus.CallAndDrain | src/core/messagebus.py:46-48 | after the handler returns, its events are queued in order and, in the corrected bus, cleared; a raise queues nothing |
| MessageBuses.MessageBus.Drain | src/core/messagebus.py:47-48 | every event in `uow.events` goes to the back of the queue in list order |

## Left out

- `async`/`await` and the event loop: every coroutine is a sequential call.
- A handler exception inside a `with` scope: it leaves the scope with the rollback the fakes make, which discards nothing. It is a value the caller passes on.
- `queue.Queue` blocking and thread safety: a `get()` on an empty queue, which would wait for ever, is the status `Blocked`.
- MessageBuses.MessageBus.Handle: a `fuel` bound of loop trips. `OutOfFuel` stands for a loop that does not end within it; the lemmas about loops that never end hold for every fuel.
- `inspect.signature` reflection: each class's constructor parameters are the explicit set `Handlers.CtorParams`.
- Handlers.CtorParams: src/groups/interfaces/handlers.py defines `GroupsEventHandler` and `GroupsCommandHandler`, while the handler modules import `GroupEventHandler` and `GroupCommandHandler`; the model takes the two pairs to be the same classes, each with the one constructor parameter `uow`.
- `hash_password` and `verify_password`: calls into passlib, passed in as the two function values of `UserHandlers.Passwords`, with no property assumed.
- The Celery task behind `SendVerifyEmailMessageEventHandler`: the handler only hands the event to Celery, so it changes nothing in the model. The groups event handler is a stub.
- src/groups/service_layer/service.py is not part of this model. The group handlers call its `create_group`, `update_group` and `add_group_members`; here each is a repository write followed by a commit.
- src/groups/domain/models.py is not part of this model. Its group model has the `members` field the handlers use. `Models.Group` carries `members` as a set of memberships and the owner as optional, because a group built from a scheme may have none.
- GroupHandlers.CreatedGroup: the create command's `group_name` is taken as the group's name. A group model with a field `name` constructed from a `group_name` keyword would reject it.
- GroupHandlers.UpdatedGroup: the update command's `group_name` is taken as the new name. As written, the merge keeps the stored `name` and passes `group_name` as an extra keyword, which a group model with a field `name` would reject; the model does not capture either outcome.
- Schemas.NewInviteGroupMembersScheme: pydantic's `EmailStr` check of each address is not modelled; the addresses are kept as given.
- UsersService.UsersService.RegisterUser: returns the user it stored, as the users repository interface declares. The auth fake's `add` returns `None`, which the handler would then try to protect.
- Models.ProtectPassword: users are values. In the fakes the user returned by `get` is the stored object itself, so clearing its password also clears the stored one. The model keeps the stored password, and `UserHandlers.RegisterVerifyLogin` relies on that.
- UnitsOfWork.UnitOfWork.constructor: the fake units of work do not call the base constructor and have no `events` list of their own. `SQLAlchemyUnitOfWork.__init__` (src/core/database/units_of_work.py:10-11) does not call it either. The model gives the combined unit of work the base class's empty list.
- One unit of work holds both fake repositories. The two fakes are separate classes with the same `commit` and `rollback`.
- `to_dict` works on the field map that `dataclasses.asdict` would produce. The recursive conversion of nested dataclasses is not modelled.
- The SQL repositories, units of work and ORM tables, the FastAPI routers and dependencies, JWT and cookie handling are not modelled.
- `InviteGroupMembersCommand` has no handler. Only its lookup, which fails, is modelled.

## Findings

| source | as written | input that shows it | evidently intended | confidence | as-written member | corrected member |
|---|---|---|---|---|---|---|
| src/core/messagebus.py:28 | the loop guard is `Queue.not_empty`, a condition object that is always truthy | any message handled without an exception, e.g. an event type with no handlers: the loop then calls `get()` on the empty queue and waits for ever | loop while the queue is not empty | not executed | MessageBusProperties.ConditionGuardBlocks | MessageBusSpec.Run |
| src/core/messagebus.py:47-48 | drained events are never removed from `uow.events` | an add-members command for a group the user owns: its event is put back on the queue at every drain | clear `uow.events` after queuing them | not executed | MessageBusProperties.AddMembersNeverSettles | MessageBusProperties.AddMembersSettlesWhenCleared |
| src/core/messagebus.py:41 | the drain loop reuses the name `event`, rebinding the event later handlers receive | an event with two handlers whose first handler leaves an event in `uow.events` | every handler receives the original event | not executed | MessageBusProperties.SecondHandlerGetsLastDrained | MessageBusProperties.SecondHandlerGetsEvent |
| src/groups/service_layer/handlers/command_handlers.py:24 | the existence check is not awaited, and a coroutine object is always truthy | a create command for a user with no groups, on an empty store | raise only when the owner already has a group of that name | not executed | GroupHandlers.CreateAsWrittenRefusesNewGroup | GroupHandlers.AfterCreate |
| src/groups/service_layer/handlers/__init__.py:37 | the add-members command is registered as its own handler | building the groups bus for any unit of work: the command class cannot be built from `{'uow': uow}` | register `AddGroupMembersCommandHandler` | not executed | Bootstraps.GroupsBootstrapRaises | Bootstraps.GroupsBootstrapIntended |
| src/groups/service_layer/handlers/command_handlers.py:27 | the group is built from the command's fields with `user` excluded, so the creator is not its owner | user 1 creates a group on an empty store: user 1's delete of that group then raises `GroupOwnerError` | the creating user owns the new group | not executed | GroupHandlers.CreatorDoesNotOwnAsWritten | GroupHandlers.CreatorOwnsCreatedGroup |
| tests/groups/fake_objects.py:17-25 | the fake's owner lookups compare `group.id` with the owner id | group 1 owned by user 2, looked up for owner 2 and the same name: not found | compare `owner_id`, as the SQL repository does | not executed | FakeGroups.OwnerLookupComparesId | FakeGroups.FakeGroupsRepository.GetByOwnerAndName |
| src/groups/service.py:33 | calls `get_group_by_owner_and_name`, which neither the interface nor the fake defines | any existence check, even for a stored group | call `get_by_owner_and_name` | not executed | GroupsService.ExistenceAsWrittenNeverAnswers | GroupsService.GroupExists |
