# Welcome-bot join handling, modelled in Dafny

This project models the join-handling core of a Discord welcome bot
(`main.py`). When a member joins a guild, the bot creates a private channel
named `환영-<display name>-<MMDD>`. Its permission overwrites deny the
default role read and grant read-and-send to the member, the bot, a
configurable helper role (`도라도라미` by default) and that role's non-bot
holders. The model covers:

- the in-flight gate: a process-wide set of `"<guild id>-<member id>"` keys;
- the fixed order of checks and the one outcome each join reaches;
- helper selection: online non-bot holders of the role, else every non-bot holder;
- the permission-overwrite table, built by a loop;
- the channel name and the `환영-` prefix guard of the delete command;
- the helper count reported by the status command.

Discord itself is replaced by inputs. A `Guild` snapshot holds roles with
their members, categories, channel names and the bot's own id. `Replies`
says whether channel creation and the first message succeeded. The date is a
month/day parameter.

Modules: `Options`, `Snapshot` (guild data, first-match lookup), `Naming`
(decimal ids, the key, the date stamp, the channel name, the prefix guard),
`Helpers`, `Overwrites`, `Gate` (class `JoinGate` owning the in-flight set),
`Onboarding` (decision function and handler), `Commands`.

## Model

| member | source | states |
|---|---|---|
| `Snapshot.FirstNamed` | main.py:59 | the lookup returns the first element with the wanted name, and `None` exactly when no element has it |
| `Naming.Decimal` | main.py:49 | an id is rendered as a non-empty run of decimal digits, one digit exactly for ids below 10 |
| `Naming.DecimalInjective` | main.py:49 | different ids never render to the same digits |
| `Naming.KeyOfInjective` | main.py:49 | two in-flight keys are equal exactly when guild id and member id are both equal |
| `Naming.StampInjective` | main.py:66 | the `%m%d` stamp is four characters and different dates give different stamps |
| `Naming.ChannelNameInjective` | main.py:66 | the channel name is a deterministic function of display name and date; two names are equal exactly when both inputs are |
| `Naming.ChannelNameIsWelcome` | main.py:168 | every computed channel name starts with `환영-`, so it passes the delete guard |
| `Helpers.Filter` | main.py:75-78 | a comprehension keeps exactly the members that satisfy its condition, and is never longer than its input |
| `Helpers.FilterLength` | main.py:194 | a comprehension has exactly one element per position of its input whose member satisfies the condition |
| `Helpers.SelectHelpersSpec` | main.py:75-84 | the selection never holds a bot; it is the online non-bot holders when there are any, else all non-bot holders; it is empty exactly when no holder is a non-bot |
| `Helpers.NonBotCount` | main.py:194 | the count is the number of positions in the role's member list that hold a non-bot; hence at most the role's size, and zero exactly when every holder is a bot |
| `Overwrites.GrantHelpersAt` | main.py:100-102 | the loop adds a read-and-send entry for exactly the non-bot holders and keeps every other entry |
| `Overwrites.OverwriteTableShape` | main.py:92-102 | the table's role keys are the default role and the helper role; its member keys are the joiner, the bot and the non-bot holders; the default role is denied read unless the helper role is the default role; every other entry is read-and-send |
| `Overwrites.OverwriteTableGuarantees` | main.py:92-102 | when the helper role is not the default role: default denied read; joiner, role and bot read-and-send; every non-bot holder, online or not, read-and-send; no entry for a bot holder that is neither the joiner, the bot nor sharing an id with a non-bot holder |
| `Overwrites.BuildOverwrites` | main.py:92-102 | the dict literal followed by the per-member loop yields exactly the specified table |
| `Gate.JoinGate.constructor` | main.py:23 | the in-flight set starts empty |
| `Gate.JoinGate.Begin` | main.py:49-55 | a key already in flight is refused and the set is unchanged; otherwise the key is admitted and added |
| `Gate.JoinGate.End` | main.py:155-157 | the key is discarded; discarding an absent key changes nothing |
| `Gate.JoinGate.Reset` | main.py:37 | the set is emptied |
| `Onboarding.ProvisionAsWritten` | main.py:57-118 | the `try` body with the two clock readings main.py makes: a channel is requested only when the role exists and the name from the first reading is absent; the request carries the name from the second reading, the role's overwrite table and the welcome category. Its further properties are stated through `Decide` (both readings equal) and `MidnightDuplicateName` |
| `Onboarding.DecideAsWritten` | main.py:44-118 | the whole handler with both clock readings: a channel is requested only for a non-bot joiner whose key is not in flight, after the name from the first reading was found absent, and it is requested under the name from the second reading. Its further properties are stated through `Decide` (both readings equal) and `MidnightDuplicateName` |
| `Onboarding.Decide` | main.py:44-118 | with one clock reading, a requested channel carries the computed name `환영-<display name>-<MMDD>` (so the name checked and the name created are one string), that name is not already in the guild and has the `환영-` prefix, the channel goes in the `신입환영` category if the guild has one, and a requested channel ends `Created` exactly when the platform's create call succeeds |
| `Onboarding.CreationAttemptedIff` | main.py:44-86 | a channel is requested exactly when the joiner is not a bot, its key is not in flight, the role exists, no channel has the computed name and the role has a non-bot holder |
| `Onboarding.OutcomeByChecks` | main.py:44-118 | each of the seven outcomes is characterised both ways by the checks in main.py's order: bot; key in flight; role missing; computed name exists (and the outcome carries that name); no non-bot holder; create call failed; created |
| `Onboarding.RequestGrantsHelpers` | main.py:92-114 | a requested channel's overwrites are exactly the table built from the found role, so it holds nothing beyond what `OverwriteTableShape` lists: the default-role, joiner, role, bot and per-helper entries |
| `Onboarding.InFlightBlocksOnlySameMember` | main.py:49-52 | a key in flight refuses only the same member of the same guild |
| `Onboarding.NoticesOnlyAfterCreation` | main.py:108-149 | a requested channel whose create call succeeds is `Created`; sends are attempted only after a successful creation: the welcome embed first, then the helper ping exactly when the embed went out; nothing is attempted when creation fails |
| `Onboarding.MidnightDuplicateName` | main.py:66-89 | as written, a join handled across midnight requests a channel whose name already exists |
| `Onboarding.Provision` | main.py:57-151 | the `try` body, step by step with one clock reading and the loop-built table, reaches the outcome of the one-reading decision function |
| `Onboarding.OnMemberJoin` | main.py:40-157 | the handler reaches the decision function's outcome, and the in-flight set afterwards equals the set before, whatever the outcome |
| `Commands.CommandTarget` | main.py:163-166 | without a truthy id the command targets the channel it was typed in; with a truthy id there is a target exactly when the bot knows that id, and it is the channel with that id |
| `Commands.DeleteWelcomeChannel` | main.py:168-173 | a deleted channel is the command's target and carries the `환영-` prefix; a confirmation is sent exactly when it is not the invoking channel |
| `Commands.DeleteRefusesNonWelcome` | main.py:168-173 | the command refuses exactly when the target is missing or lacks the prefix |
| `Commands.UnknownIdIsRefused` | main.py:163-173 | a truthy id the bot does not know deletes nothing, not even the invoking channel |
| `Commands.CreatedChannelIsDeletable` | main.py:168-169 | a channel created by the join handler is deleted when the command targets it |
| `Commands.StatusHelperCount` | main.py:187-197 | no count exactly when the role is missing; otherwise the number of non-bot holders of the role |
| `Commands.StatusCountsFallbackHelpers` | main.py:80-82 | when no holder is online, the status command's count equals the number of helpers the handler falls back to |
| `Commands.StatusAgreesWithJoin` | main.py:80-86 | once the earlier checks pass, a join stops for lack of helpers exactly when the status command reports zero helpers |

## Left out

- Discord calls are not modelled as I/O: `create_text_channel`, `send`, `delete`, `change_presence`, `bot.get_channel`. Their answers are inputs (`Replies`, the `known` channel map) and their effects are outcome values.
- The async event loop and interleaved joins are left out. The model is sequential. Two handlers overlapping at an `await` is shown only through the gate's contracts: a key already in flight is refused and left in place.
- Embed contents, the channel topic, mentions and log lines are left out because they are presentation only.
- `datetime.now()` is replaced by a `Date` parameter. `Decide`, `Provision` and `OnMemberJoin` use one reading for both name computations (see Findings); only `DecideAsWritten` takes the two readings main.py makes.
- Exceptions other than a failed channel creation and a failed first message are left out. A failing second message changes no outcome, so it is not distinguished.
- `on_ready` is left out apart from its `clear()` (`Gate.JoinGate.Reset`). So are `on_command_error`, the token handling and `bot.run`, which are bootstrap.
- `set_doradori_role` is not modelled as a command. The helper role's name is a parameter of the handler and of the status command.
- The permission decorators on the commands are checked by the framework before the command body runs, so they are left out.
- The status command's other fields (guild name, member count) are presentation only.
- `Commands.DeleteWelcomeChannel`: the channel the command was typed in is assumed to be a guild channel with a name.
- `main.py` keeps no recently-handled map, follow-up scheduler, departure cleanup or interactive buttons, so none are modelled.
- `main.py` denies the default role read only; send is left unset on that entry, and the model does the same.
- The existence check at main.py:69 compares the exact computed name; channels from earlier days or with other names are not considered, in the model as in `main.py`.
- `Commands.CreatedChannelIsDeletable`: assumes the platform keeps the requested channel name as given. If the platform rewrote names (lower-casing, spaces to `-`), the `환영-` prefix would survive, but the exact-name check at main.py:69 could miss the rewritten channel; that rewriting is not modelled.
- `Commands.CommandTarget`: `known` holds the channels of every guild the bot is in, as `bot.get_channel` does; the model does not restrict the delete command to the invoking guild, since `main.py` does not.
- Member presence is an unconstrained input. `main.py` enables only the default intents plus members and message content (main.py:7-9), not presences. If the library reports every member as offline without that intent, as its documentation says, the online list at main.py:75-78 is always empty and the fallback at main.py:82 always runs. This comes from the library's documentation, not from `main.py`.
- The notices of an `Onboarding.Outcome` `Created` value are the sends the handler attempts, not messages known to have arrived; only the first send's success is an input.
- `Helpers.Filter`: states which members are kept, not that the source order is preserved. No caller depends on the order.
- `Onboarding.OnMemberJoin`: "the set ends as it began" holds for one handler run on its own. Concurrent handlers changing the set between `await`s are not modelled.

## Findings

| source | as written | input that shows it | evidently intended | confidence | as-written member | corrected member |
|---|---|---|---|---|---|---|
| main.py:66-89 | The existence check uses a name built from one `datetime.now()` reading. The channel is created with a name built from a second reading. | A join handled as the clock passes midnight from 31 Dec to 1 Jan, in a guild that already has `환영-a-0101`. It checks `환영-a-1231` (absent) and creates a second `환영-a-0101`. | One name for both the check and the creation, so a duplicate name is never created | low (needs the midnight instant between two nearby lines); not executed | `Onboarding.MidnightDuplicateName` | `Onboarding.Decide` |
