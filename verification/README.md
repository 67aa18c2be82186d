# Membership tracking of SpinEverydayBot, in Dafny

SpinEverydayBot keeps three process-wide maps in its `data` module:
`chat_users` (chat id to the roster of user ids seen in that group chat),
`can_change_name` (chat id to the users allowed to rename the chat's raffle)
and `usernames` (user id to display name). Two handlers in
`handlers/_service.py` maintain them:

- `update_cache` runs on every message. It adds the sender to the roster of a
  group chat the bot already tracks and refreshes the sender's cached name.
- `svc_handler` runs on every service message. It takes the first matching
  branch of an `if`/`elif` chain:
  1. chat created, or the bot itself was added;
  2. members joined;
  3. the chat migrated to a new id;
  4. the bot itself left;
  5. another member left.

This project models both handlers.

- `wrappers.dfy` (`Wrappers`): `Option`, standing for Python's `None`.
- `telegram.dfy` (`Telegram`): the user objects and service-message fields the handlers read.
- `builtins.dfy` (`Builtins`): the list and dict operations the handlers apply to rosters:
  - `x in xs`, append-if-absent;
  - `list.index`, `list.pop`;
  - `dict.get`;
  - the key move behind `data.migrate`.
- `service_spec.dfy` (`ServiceSpec`):
  - each transition as a function on a value `Data` of the three maps;
  - the exceptions that escape as an explicit `raised: Option<Error>` (`KeyError`, `ValueError`);
  - the properties of each transition as lemmas.
- `service.dfy` (`Service`): class `MembershipStore`.
  - Its fields are the three maps, updated in place.
  - A ghost counter records calls of the welcome/help handler.
  - Each method is proved to perform the transition `ServiceSpec` defines.
  - `JoinMembers` is the `for` loop over the new members, with its early `return`.

Three behaviours of the code are easy to miss:

- Removing a human whose chat has a roster that lacks their id raises
  `ValueError` from `list.index`. The code catches only `KeyError`, so the
  error escapes instead of being ignored. `Scenario` shows it.
- A join for a chat without a roster raises an uncaught `KeyError` at the first
  human member, unless a bot comes first and ends the loop.
- Re-creating a known chat resets its roster and privileged list to empty.

## Model

| member | source | states |
|---|---|---|
| `Service.MembershipStore.UpdateCache` | handlers/_service.py:21-29 | the new maps are exactly `Cache` of the old ones; no privileged list and no other chat's roster changes; duplicate-free rosters stay so |
| `ServiceSpec.CacheEffect` | handlers/_service.py:25-29 | private chats and chats without a roster are untouched; otherwise the roster only grows at its end and gains exactly the sender, and the cached name becomes the sender's name |
| `ServiceSpec.CacheIdempotent` | handlers/_service.py:21-29 | handling the same message twice has the effect of handling it once |
| `ServiceSpec.CachePreservesValid` | handlers/_service.py:25-29 | rosters and privileged lists stay in lockstep and rosters stay duplicate-free |
| `ServiceSpec.CacheAgreesWithJoin` | handlers/_service.py:21-29 | for a human in a rostered group, the upsert ends in the same state as a one-member join (lines 44-50), which never raises there |
| `Service.MembershipStore.SvcHandler` | handlers/_service.py:32-62 | the new maps and the escaping exception are those of `Svc`; an exception leaves every map as it was; the welcome handler is called once exactly when the creation branch fires; duplicate-free, lockstep state stays so |
| `ServiceSpec.HasMember` | handlers/_service.py:38 | `any(...)` is true exactly when some new member has the given id |
| `ServiceSpec.ClassifyCases` | handlers/_service.py:37-55 | exactly one branch or none fires, with priority creation, join, migration, bot left, member left; a migration target of `None` or `0` and an empty member list count as false |
| `ServiceSpec.SvcCreation` | handlers/_service.py:37-43 | creation sets the chat's roster and privileged list to empty whatever they held, adds nobody (not even humans added with the bot), keeps names, never raises |
| `ServiceSpec.SvcWelcomesOnlyOnCreation` | handlers/_service.py:37-43 | the welcome handler is called if and only if the chat was created or the bot is among the new members |
| `ServiceSpec.SvcJoinNeverSeesBot` | handlers/_service.py:37-50 | when the join branch runs, no new member has the bot's id |
| `Service.MembershipStore.JoinMembers` | handlers/_service.py:44-50 | the loop ends in the state and with the exception that `Join` gives |
| `ServiceSpec.Processed` | handlers/_service.py:45-47 | the members the loop handles are the longest bot-free prefix of the list, followed by a bot or the end |
| `ServiceSpec.JoinWithoutRoster` | handlers/_service.py:48 | without a roster nothing changes, and `KeyError` escapes exactly when a human comes before any bot |
| `ServiceSpec.JoinRoster` | handlers/_service.py:45-49 | with a roster the loop never raises; the roster only grows at its end, gains exactly the ids of the handled members, and a duplicate-free roster stays duplicate-free |
| `ServiceSpec.JoinOnlyThisRoster` | handlers/_service.py:44-50 | the loop changes no other chat's roster, no chat's presence, and no privileged list |
| `ServiceSpec.JoinNames` | handlers/_service.py:50 | each handled member's id ends up cached under the name of the last handled member with that id; every other cached name is unchanged |
| `ServiceSpec.JoinStopsAtBot` | handlers/_service.py:45-47 | a bot at position k aborts the loop: the result equals that of the first k members alone |
| `Service.MembershipStore.Migrate` | handlers/_service.py:51-52 | the maps become `Migrated` of the old ones |
| `ServiceSpec.SvcMigration` | handlers/_service.py:51-52 | after migrating a tracked chat, the old id has no roster or privileged list, the new id holds the old ones, names are unchanged |
| `Service.MembershipStore.ClearChatData` | handlers/_service.py:53-54 | the maps become `Cleared` of the old ones |
| `ServiceSpec.SvcBotLeft` | handlers/_service.py:53-54 | when the bot leaves, the chat's roster and privileged list are gone, every other chat's are unchanged, and no cached name changes |
| `Service.MembershipStore.RemoveLeftMember` | handlers/_service.py:55-62 | the maps and the escaping exception are those of `Leave` |
| `ServiceSpec.LeaveCases` | handlers/_service.py:55-62 | a departing bot changes nothing; a chat without a roster changes nothing (caught `KeyError`); a roster lacking the id raises `ValueError` with nothing changed; otherwise exactly one occurrence of the id is removed, and nothing else changes |
| `ServiceSpec.LeaveRemovesMember` | handlers/_service.py:59 | from a duplicate-free roster the departing human is absent afterwards, everyone else stays, and the roster stays duplicate-free |
| `ServiceSpec.SvcErrorChangesNothing` | handlers/_service.py:44-62 | whenever an exception escapes (line 48 or line 59), all three maps are as before the message |
| `ServiceSpec.SvcNamesOnlyOnJoin` | handlers/_service.py:37-62 | no branch but the join branch changes a cached name |
| `ServiceSpec.SvcOtherChatsUntouched` | handlers/_service.py:37-62 | a message changes the lists of no chat other than its own and its migration target |
| `ServiceSpec.SvcPreservesValid` | handlers/_service.py:37-62 | every message keeps rosters and privileged lists present for the same chats, and rosters duplicate-free |
| `ServiceSpec.Scenario` | handlers/_service.py:32-62 | creation, a join, a departure, a second departure of the same user (`ValueError`, nothing changes), a migration and the bot leaving give the stated maps at each step |
| `Builtins.Get` | handlers/_service.py:25 | `dict.get` gives the stored value exactly when the key is present |
| `Builtins.AddIfAbsent` | handlers/_service.py:26-27 | the roster grows only at its end, gains exactly the id, and stays duplicate-free |
| `Builtins.IndexOf` | handlers/_service.py:59 | `list.index` gives the first position of the id, and fails exactly when the id is absent |
| `Builtins.RemoveAt` | handlers/_service.py:59 | `list.pop(i)` removes exactly one occurrence of the element at i and shifts the rest |
| `Builtins.RemoveAtNoDup` | handlers/_service.py:59 | from a duplicate-free list, the popped id is gone, the others stay, and the list stays duplicate-free |
| `Builtins.MoveKey` | handlers/_service.py:52 | the entry under the old id moves to the new id, the old id disappears, other keys are unchanged, and a missing old id changes nothing |

## Left out

- `handle_error` (handlers/_service.py:15-18): it only logs and replies with a message.
- The `log.info` call and the body of `start_help_handler`. The handler's call is recorded as the ghost counter `welcomeCalls`.
- `start_help_handler` is assumed not to raise; if it did, the exception would escape with the chat's lists already reset. `SvcCreation`'s "never raises" and `SvcHandler`'s "an exception leaves every map as it was" rest on this assumption.
- `utils.is_private`: its body is not part of this model. `UpdateCache` takes its value for the chat as the `isPrivate` parameter.
- `data.migrate` and `data.clear_chat_data`: their bodies are not part of this model.
  - They are given the evident semantics on `chat_users` and `can_change_name`: move the entries under the old id to the new id, and delete the entries of the chat.
  - Any other per-chat table the `data` module may hold is not modelled.
  - These semantics are an assumption that the shown source cannot confirm.
- spin_everyday_bot/cli.py: argument parsing, configuration loading and framework wiring, all I/O.
- The `bot` and `update` objects: only the bot's id, the message's chat id and the fields listed in `Telegram.Message` are modelled. An `update_cache` call whose update carries no user (an `AttributeError` in Python) is not modelled.
- Aliasing of roster lists: rosters are sequence values in a map, so two keys never share one list object.
- Concurrency: the handlers mutate the maps from one thread; no locking exists to model.
- Chat and user ids are unbounded integers. The handlers do no arithmetic on them, so their 64-bit range does not matter here.
