# Toothless bot and dashboard: a Dafny model of the state and its rules

Toothless is a chat bot for guilds (servers) together with a small web
dashboard. This project models the part of it that holds state and the rules
that read and change that state.

- **The bot's JSON store** (`Storage`). It keeps four in-memory documents:
  guild configurations, economy accounts, level progress and warning lists.
  There is also a cooldowns file, which commands read and write directly.
  The store is a `class` whose fields the operations reassign. Each of the
  four documents has a ghost `...File` field that records what its file
  holds, so every contract says whether a call writes through to disk or
  only changes memory. The cooldowns file is an ordinary field, because
  commands read it back.
- **JavaScript value semantics** (`Js`): JSON values, truthiness, `||`,
  optional chaining, object spread, and `Math.floor(Math.random() * n)`.
- **XP for chat messages** (`MessageXp`):
  - a 60-second per-user XP cooldown;
  - a random gain between the guild's bounds;
  - a single-step level-up at `100 * (level + 1)`.
- **`/work` and `/daily`** (`Work`, `Daily`): cooldown gates read from the
  cooldowns file, the time-left messages, and the wallet credit.
- **The per-command cooldown gate** of the interaction handler (`Client`).
- **`/config`** (`ConfigCommand`): each subcommand as a transformation of
  the guild configuration, plus the handler that stores the result.
- **The welcome message** (`WelcomeMessage`): the enable/channel guard and
  the chain of global placeholder replacements.
- **The dashboard backend** (`Dashboard`, `StableSort`):
  - validation of request bodies and replacement of per-guild settings;
  - the economy and levels leaderboards, which sort stably in descending
    order and keep the top 20;
  - the Administrator-bit guild filter;
  - the command count.

Inputs from the outside world become parameters:

- **Clock:** `now`, in milliseconds. `addWarn`'s ISO timestamp is a
  separate string.
- **Randomness:** a draw `rand` with `0 <= rand < 1`.
- **Files:** a `FileState` that is `Missing`, `Unreadable` or `Parsed`.
- **Platform:** whether the welcome channel is in the guild's cache, and the
  guilds the platform lists for a user.

The source's comments differ from its code in two places. The model follows
the code:

- `/work` pays 100 to 399. The comment at `work.js:47` says 100-400.
- `/daily` pays 500 to 999. The comment at `daily.js:38` says 500-1000.

A few behaviours of the code are worth knowing, and each is proved:

- Two pairs of cooldown bounds hold only for a last use strictly in the
  past:
  - `/work` reports 0 to 59 minutes, and 60 when the last use is the same
    millisecond;
  - `/daily` reports at most 23 hours, and "24h 0m" when the last claim is
    the same millisecond.
- `/config levels` can store `xpMin > xpMax`. A gain then lies in
  `(xpMax, xpMin]`.
- One message can overshoot several thresholds and still gains one level.
  A level-up is never left pending when two conditions hold. First, the
  guild's bounds must lie in 1..100, as `/config levels` or the defaults set
  them, so that a message is worth at most 100 XP. Second, the stored xp must
  already be below its threshold. A guild file written by hand with larger
  bounds can leave a level-up pending.
- A username that reads `{server}` ends up as the server's name, because the
  replacements run one after another.

## Model

| member | source | states |
|---|---|---|
| Js.Truthy | bot/events/guildMemberAdd.js:13 | a value is falsy exactly when it is undefined, null, false, 0 or the empty string |
| Js.Or | bot/commands/slash/config/config.js:142-144 | the logical-or fallback gives `a` when `a` is truthy, otherwise `b`; the result is truthy iff either operand is |
| Js.Prop | bot/commands/slash/config/config.js:142 | `o?.k` is present exactly when `o` is an object holding `k`, and then it is that property |
| Js.Spread | bot/commands/slash/config/config.js:140 | `{...o}` copies the properties of an object, and nothing for null, undefined, booleans or numbers |
| Js.Put | bot/commands/slash/config/config.js:139-145 | a literal property whose value is undefined is absent; a present value is stored; every other key is kept |
| Js.RandomBelow | toothless-local/bot/commands/slash/economy/work.js:47 | `Math.floor(Math.random() * n)` lies in `[0, n)` for positive `n` and in `[n, 0]` otherwise |
| Storage.LoadJson | toothless-local/bot/utils/jsonStorage.js:19-30 | loading gives the parsed content, or the default when the file is missing or unreadable |
| Storage.JsonStorage.constructor | toothless-local/bot/utils/jsonStorage.js:47 | each document starts as its file's content, or as `{}` |
| Storage.ConfigOrDefault | toothless-local/bot/utils/jsonStorage.js:52-66 | the stored configuration of a known guild, and exactly the default configuration for an unknown one |
| Storage.WithConfig | toothless-local/bot/utils/jsonStorage.js:53-63 | get-or-create adds the guild and leaves every stored guild as it was |
| Storage.JsonStorage.GetGuildConfig | toothless-local/bot/utils/jsonStorage.js:52-66 | an unknown guild gets the default (prefix `!`, welcome/log/tickets/levels disabled with null ids, XP 15..25, economy on, no autoroles), which is saved and returned; a known guild's config is returned and neither map nor file changes |
| Storage.GetOrCreateIdempotent | toothless-local/bot/utils/jsonStorage.js:53-65 | a second get-or-create changes nothing and returns what the first returned |
| Storage.ShallowMerge | toothless-local/bot/utils/jsonStorage.js:72 | keys of `data` take their new value; other keys of the stored config keep theirs; no other key appears |
| Storage.JsonStorage.SetGuildConfig | toothless-local/bot/utils/jsonStorage.js:71-75 | the guild's entry becomes the shallow merge of its stored config (none when absent) with `data`; other guilds are untouched; the file is written |
| Storage.SelfMergeIsIdentity | bot/commands/slash/config/config.js:119-120 | merging a configuration into itself stores it unchanged |
| Storage.MergeSection | toothless-local/bot/utils/jsonStorage.js:82 | one section is merged one level deep and every other section is unchanged |
| Storage.MergeSectionIsolation | toothless-local/bot/utils/jsonStorage.js:82-83 | a section other than the updated key is present and equal before and after |
| Storage.JsonStorage.UpdateGuildConfig | toothless-local/bot/utils/jsonStorage.js:80-86 | the config, starting from the default for an unknown guild, gets `key` merged one level deep; other guilds are unchanged; the file is written |
| Storage.Lookup2 | toothless-local/bot/utils/jsonStorage.js:93 | a guild/user record is present iff both levels hold the keys |
| Storage.Put2 | toothless-local/bot/utils/jsonStorage.js:100-101 | storing a record creates the guild's table when needed, and changes no other guild's or user's record |
| Storage.ValueOr | toothless-local/bot/utils/jsonStorage.js:96 | get-or-create returns the stored record, or the default when none exists |
| Storage.WithEntry | toothless-local/bot/utils/jsonStorage.js:91-97 | an existing record leaves the document unchanged; a missing one is filled by storing the default, creating the guild's table when needed; afterwards the user reads as the record or the default, and every other guild/user record reads as before |
| Storage.PutThenGet | toothless-local/bot/utils/jsonStorage.js:99-104 | after a store, reading back gives exactly the stored record, and every other guild/user reads as before |
| Storage.PutOverEntry | toothless-local/bot/commands/slash/economy/work.js:49-51 | get-or-create followed by a store leaves the same document as the store alone |
| Storage.JsonStorage.GetEconomy | toothless-local/bot/utils/jsonStorage.js:91-97 | returns the account, or `{wallet: 0, bank: 0, inventory: []}` installed in memory only |
| Storage.JsonStorage.SetEconomy | toothless-local/bot/utils/jsonStorage.js:99-104 | replaces the user's account, returns it, and writes the file |
| Storage.JsonStorage.GetLevels | toothless-local/bot/utils/jsonStorage.js:109-115 | returns the progress, or `{xp: 0, level: 0, totalXp: 0}` installed in memory only |
| Storage.JsonStorage.SetLevels | toothless-local/bot/utils/jsonStorage.js:117-122 | replaces the user's progress, returns it, and writes the file |
| Storage.JsonStorage.GetWarns | toothless-local/bot/utils/jsonStorage.js:127-133 | returns the list, or an empty list installed in memory only |
| Storage.Stamp | toothless-local/bot/utils/jsonStorage.js:137 | the stored warning is the caller's object with `id = now` and `timestamp` set, and every other field kept |
| Storage.JsonStorage.AddWarn | toothless-local/bot/utils/jsonStorage.js:135-141 | exactly one stamped entry is appended at the end; earlier entries are unchanged; the file is written |
| Storage.FindWarnIndex | toothless-local/bot/utils/jsonStorage.js:145 | the index of the first warning with the id, or -1 iff none has it |
| Storage.RemoveFirst | toothless-local/bot/utils/jsonStorage.js:145-147 | removing a present id shortens the list by one; an absent id leaves it unchanged |
| Storage.RemoveFirstAt | toothless-local/bot/utils/jsonStorage.js:145-147 | removal cuts out exactly the first matching entry, and the rest keep their order |
| Storage.AddThenRemove | toothless-local/bot/utils/jsonStorage.js:135-153 | adding a warning and removing it by its new id restores the list, provided no older warning has the same id |
| Storage.JsonStorage.RemoveWarn | toothless-local/bot/utils/jsonStorage.js:143-153 | returns true iff some warning has the id, and then removes the first one and saves; otherwise it returns false, the list is as before and the file is untouched |
| Storage.JsonStorage.ClearWarns | toothless-local/bot/utils/jsonStorage.js:155-160 | always yields `[]` for the user, returns true and saves |
| Storage.LastStamp | toothless-local/bot/commands/slash/economy/work.js:16 | a missing cooldown entry counts as time 0 |
| Storage.Credit | toothless-local/bot/commands/slash/economy/work.js:50 | the wallet grows by exactly the amount; bank and inventory are unchanged |
| Storage.JsonStorage.LoadCooldowns | toothless-local/bot/commands/slash/economy/work.js:14 | the cooldowns file's content, or `{}` |
| Storage.JsonStorage.SaveCooldowns | toothless-local/bot/commands/slash/economy/work.js:54 | the cooldowns file then holds exactly the given table |
| Client.CooldownAmount | bot/index.js:98-99 | the cooldown is the command's own value, or 3 when it declares none, times 1000 ms |
| Js.EntryOrEmpty | bot/index.js:92-97 | a command never used before has an empty timestamps table; the same helper gives the nothing that `{ ...guildConfigs[guildId] }` spreads for an unknown guild at toothless-local/bot/utils/jsonStorage.js:72 |
| Client.StampBlocksUntilExpiry | bot/index.js:101-112 | after a stamp at `t0`, the user is admitted again exactly from `t0 + amount`; other users' admission does not change |
| Client.BotClient.constructor | bot/index.js:32 | both cooldown tables start empty |
| Client.BotClient.GateCommand | bot/index.js:91-112 | a call is rejected iff the user has a stamp and `now < stamp + amount`; rejection changes nothing; acceptance creates the command's table lazily, sets the user's stamp to `now` and changes nothing else |
| Client.BotClient.ForgetStamp | bot/index.js:113 | the expiry timer removes exactly that user's stamp for that command |
| MessageXp.XpBound | toothless-local/bot/events/messageCreate.js:27-28 | a truthy stored bound is used, and 15/25 when it is falsy |
| MessageXp.XpGain | toothless-local/bot/events/messageCreate.js:29 | with `xpMin <= xpMax` the gain lies in `[xpMin, xpMax]`; with the bounds reversed it lies in `(xpMax, xpMin]` |
| MessageXp.AwardXp | toothless-local/bot/events/messageCreate.js:32-40 | the level rises by one iff `xp + gain >= 100 * (level + 1)`, and never by more; the threshold is subtracted; totalXp grows by the gain; with a non-negative gain, xp stays non-negative and totalXp never decreases |
| MessageXp.AwardKeepsConsistent | toothless-local/bot/events/messageCreate.js:32-40 | totalXp always equals the cost of the levels reached plus the current xp |
| MessageXp.SmallGainStaysBelowThreshold | bot/commands/slash/config/config.js:37-38 | with gains of at most 100 (the largest `/config levels` allows), xp stays below the current threshold, so no level-up is left pending |
| MessageXp.SingleStepExamples | toothless-local/bot/events/messageCreate.js:36-40 | a gain that crosses several thresholds still raises the level by one |
| MessageXp.OnMessage | toothless-local/bot/events/messageCreate.js:11-57 | bot and guild-less messages change nothing; a guild with levels off, or a cooldown shorter than 60 s since the last award (missing = 0), changes no level or XP-cooldown state; otherwise the cooldown is stamped with `now` and the progress is awarded the drawn gain, levelled up at most once and written back |
| Work.MinutesLeft | toothless-local/bot/commands/slash/economy/work.js:20-22 | the reported minutes are the remaining time rounded down to whole minutes: 0..59 for a last use in the past, 60 at the same millisecond |
| Work.WorkPay | toothless-local/bot/commands/slash/economy/work.js:47 | the pay lies in 100..399 |
| Work.Execute | toothless-local/bot/commands/slash/economy/work.js:13-54 | the key is `work_<guild>_<user>`; within an hour of the last use nothing changes and the minutes are reported; otherwise the wallet grows by the pay, bank and inventory unchanged, and the key's cooldown becomes `now` with other keys kept |
| Daily.TimeLeft | bot/commands/slash/economy/daily.js:22-25 | hours and minutes are the remaining time rounded down; minutes lie in 0..59, hours in 0..23 for a last claim in the past, and 24h 0m at the same millisecond |
| Daily.DailyPay | bot/commands/slash/economy/daily.js:38 | the pay lies in 500..999 |
| Daily.GatesAgree | bot/commands/slash/economy/daily.js:13-20 | the declared 86400 s cooldown equals the handler's own 24 h check |
| Daily.Execute | bot/commands/slash/economy/daily.js:15-44 | the key is `daily_<guild>_<user>`; within 24 h nothing changes and hours/minutes are reported; otherwise the wallet grows by the pay, bank unchanged, and the key's cooldown becomes `now` |
| ConfigCommand.TextOf | bot/commands/slash/config/config.js:142-144 | `channel?.id`, `role?.id` and a string option are the option's text when it is given, otherwise undefined |
| ConfigCommand.WelcomeSection | bot/commands/slash/config/config.js:139-145 | `enabled` is set; channelId/roleId take the new id, else the old one; the message is new, else old, else `Benvenuto {user}!`, so it is never empty; every other old welcome field is kept, and no key beyond the old ones and these four appears |
| ConfigCommand.LogSection | bot/commands/slash/config/config.js:167-170 | the section holds only `enabled` and the new-or-old channel id; other old fields are dropped |
| ConfigCommand.TicketsSection | bot/commands/slash/config/config.js:192-196 | the section holds only `enabled` and the new-or-old category and support-role ids |
| ConfigCommand.LevelsSection | bot/commands/slash/config/config.js:220-225 | xpMin and xpMax are the option, else the old value, else 15/25; the announce channel is new-or-old; nothing else is kept |
| ConfigCommand.Apply | bot/commands/slash/config/config.js:56-226 | `view` returns the configuration unchanged; `reset` holds every default key with its default value; `prefix` stores the new prefix; each section subcommand stores an object under its own key whose `enabled` is the option given |
| ConfigCommand.OnlyOwnSectionChanges | bot/commands/slash/config/config.js:117-226 | each update subcommand writes only its own top-level key and leaves every other one unchanged; `view` changes nothing |
| ConfigCommand.ResetRestoresDefaults | bot/commands/slash/config/config.js:95-104 | reset puts back exactly the defaults `getGuildConfig` installs, keeps any extra top-level key, and leaves a default configuration unchanged |
| ConfigCommand.LevelsKeepsBoundsInRange | bot/commands/slash/config/config.js:37-38 | with options limited to 1..100, stored bounds stay integers in 1..100, so every message gains 1 to 100 XP |
| ConfigCommand.Execute | bot/commands/slash/config/config.js:50-226 | the guild's config becomes the subcommand's result (from the default for an unknown guild); other guilds are untouched; the file is written unless the command is `view` on a known guild |
| WelcomeMessage.ReplaceAbsent | bot/events/guildMemberAdd.js:20-24 | a global replacement of a pattern that does not occur returns the string unchanged |
| WelcomeMessage.ReplaceAfterBraceFree | bot/events/guildMemberAdd.js:20-24 | text without `{` in front of the rest passes through a placeholder replacement as it is |
| WelcomeMessage.BraceFreeUnchanged | bot/events/guildMemberAdd.js:20-24 | a string without `{` is unchanged by every placeholder replacement |
| WelcomeMessage.ReplaceFirst | bot/events/guildMemberAdd.js:20-24 | a global replacement keeps the text before the first match, puts the replacement in place of that match, and carries on with the text after it |
| WelcomeMessage.DecimalString | bot/events/guildMemberAdd.js:24 | the member count is written as decimal digits whose value is the count, with no leading zero |
| WelcomeMessage.WelcomeText | bot/events/guildMemberAdd.js:13-24 | something is sent iff welcome.enabled and channelId are truthy, the channel is cached and the message is a string; the sent text is the stored message, or `Benvenuto {user}!` when that is empty or missing, with `{user}`, `{username}`, `{server}` and `{memberCount}` replaced in that order |
| WelcomeMessage.NoPlaceholderUnchanged | bot/events/guildMemberAdd.js:20-24 | a message containing none of the four placeholders is sent as written |
| WelcomeMessage.MentionOnly | bot/events/guildMemberAdd.js:20-24 | a message holding one `{user}` and no other `{` becomes the same text with the member's mention `<@id>` in its place, when the member id has no `{` |
| WelcomeMessage.DefaultMessageMentionsMember | bot/events/guildMemberAdd.js:19-21 | the default message becomes `Benvenuto <@id>!` |
| WelcomeMessage.LaterPlaceholdersSeeEarlierText | bot/events/guildMemberAdd.js:22-23 | the replacements run in order, so a username reading `{server}` is replaced by the server's name |
| WelcomeMessage.DefaultConfigSendsNothing | bot/events/guildMemberAdd.js:13 | a guild with the default configuration gets no welcome |
| WelcomeMessage.ConfiguredWelcomeIsSent | bot/events/guildMemberAdd.js:13-24 | after `/config welcomer` enables the welcome with a channel and a message, a joining member gets that message with its placeholders filled |
| StableSort.Insert | backend/server.py:298 | inserting adds exactly one item |
| StableSort.SortDesc | backend/server.py:298 | the sorted list is a permutation of the input in non-increasing key order |
| StableSort.InsertKeepsSorted | backend/server.py:298 | inserting into a sorted list keeps it sorted |
| StableSort.InsertWithKey | backend/server.py:298 | an inserted item goes in front of the items that share its key |
| StableSort.SortIsStable | backend/server.py:298 | for every key, items with that key keep their input order |
| StableSort.Prefix | backend/server.py:299 | `s[:n]` has n items, or all of `s` when it is shorter, and is a prefix of `s` |
| StableSort.TopKeepsLargest | backend/server.py:298-299 | the kept items are sorted, come from the input, and none left out has a larger key than one kept |
| Dashboard.LoadJsonPy | backend/server.py:46-53 | the parsed file, else the given default, else `{}` when the default is `None` |
| Dashboard.ValidateFields | backend/server.py:68-90 | a body is accepted iff every declared field it gives has the field's type; the model holds exactly the declared fields, each with the given value or else its default |
| Dashboard.Validate | backend/server.py:68-90 | a body that is not an object is rejected |
| Dashboard.ValidateIdempotent | backend/server.py:259-260 | a stored settings entry, posted again, validates to itself |
| Dashboard.EmptyBodyStoresDefaults | backend/server.py:68-90 | an empty body yields every default: enabled true, empty strings, null embed/xpPerMessage, leaveEnabled false |
| Dashboard.SettingsModelsWellFormed | backend/server.py:68-90 | the four models declare distinct fields whose defaults have their types |
| Dashboard.SettingsOf | backend/server.py:250-253 | a guild's stored entry is answered as it is, and null when the document has none; a document that is not a dict fails with a server error |
| Dashboard.ReplaceThenRead | backend/server.py:258-283 | after an update the guild's entry is exactly the new settings, and every other guild reads as before |
| Dashboard.SettingsStore.constructor | backend/server.py:60-63 | each settings document starts as its file's content, or `{}` |
| Dashboard.SettingsStore.UpdateWelcomer | backend/server.py:258-262 | an invalid body is rejected with no change; otherwise the guild's whole entry becomes the validated settings, the file is written and `{success: true, data: entry}` is returned; a document that is not an object fails with no change |
| Dashboard.SettingsStore.UpdateLog | backend/server.py:265-269 | the same for the log settings |
| Dashboard.SettingsStore.UpdateTickets | backend/server.py:272-276 | the same for the ticket settings |
| Dashboard.SettingsStore.UpdateLevels | backend/server.py:279-283 | the same for the level settings |
| Dashboard.Number | backend/server.py:292-294 | a missing field counts as 0; an integer counts as itself; a value that cannot be added fails the request |
| Dashboard.EconomyRows | backend/server.py:289-297 | one row per user in document order, with total = wallet + bank; the request fails iff some record is not an object or has a non-numeric wallet or bank |
| Dashboard.LevelsRows | backend/server.py:305-313 | one row per user in document order, with level and xp copied (0 when missing) and totalXp as the sort key |
| Dashboard.EconomyLeaderboard | backend/server.py:286-299 | fails iff the document or the guild's entry cannot be iterated or a row cannot be computed; otherwise it answers with the top rows |
| Dashboard.EconomyJson | backend/server.py:290-295 | each row becomes `{userId, total, wallet, bank}` |
| Dashboard.LevelsLeaderboard | backend/server.py:302-315 | the same for the levels leaderboard |
| Dashboard.LevelsJson | backend/server.py:306-311 | each row becomes `{userId, level, xp, totalXp}` |
| Dashboard.EconomyTop | backend/server.py:298-299 | the top rows exist iff every user's row can be computed, and there are min(20, number of users) of them |
| Dashboard.EconomyLeaderboardSpec | backend/server.py:288-299 | min(20, number of users) rows drawn from the guild's rows, sorted by non-increasing total; nobody left out has more than one shown |
| Dashboard.EconomyLeaderboardRows | backend/server.py:288-299 | every row shown is a user of the guild whose total is wallet + bank |
| Dashboard.EconomyLeaderboardStable | backend/server.py:298 | users with equal totals keep their order in the document |
| Dashboard.LevelsTop | backend/server.py:314-315 | the top rows exist iff every user's row can be computed, and there are min(20, number of users) of them |
| Dashboard.LevelsLeaderboardSpec | backend/server.py:304-315 | min(20, number of users) rows drawn from the guild's rows, sorted by non-increasing totalXp; nobody left out has more than one shown |
| Dashboard.LevelsLeaderboardRows | backend/server.py:304-315 | every row shown is a user of the guild |
| Dashboard.LevelsLeaderboardStable | backend/server.py:314 | users with equal totalXp keep their order in the document |
| Dashboard.IsAdmin | backend/server.py:157 | `(p & 0x8) == 0x8` holds exactly when `p mod 16 >= 8` |
| Dashboard.AdminBitLowNibble | backend/server.py:157 | the Administrator test is bit 3 (`p % 16 >= 8`) and repeats every 16 |
| Dashboard.AdminGuilds | backend/server.py:157 | a guild is kept iff its permissions have the 0x8 bit set |
| Dashboard.AdminGuildsAppend | backend/server.py:157 | the filter keeps the listed order |
| Dashboard.GuildCards | backend/server.py:166-174 | each admin guild becomes a card with its id, name and icon, and `hasBot` true |
| Dashboard.TotalCommands | backend/server.py:190-192 | with non-negative counts, the total is non-negative and at least every category's count |
| Dashboard.TotalCommandsAppend | backend/server.py:190-192 | the sum splits over the table, so the listing order does not matter |
| Dashboard.FixedTableTotal | backend/server.py:179-192 | the fixed table counts 69 commands |

## Left out

- File I/O. `loadJSON`/`load_json` read a `FileState`. `saveJSON`/`save_json`
  always succeed: a failed write, which JavaScript logs and ignores, is not
  modelled.
- JSON numbers are integers. Floating-point values, such as a fractional
  `xpMin` or wallet, are not modelled.
- MessageXp.XpBound: a truthy stored bound that is not a number (a string,
  say) falls back to the default here. In JavaScript it would take part in
  string or NaN arithmetic.
- Js.Spread: spreading a string or an array contributes index keys in
  JavaScript. The model treats them as having no properties.
- WelcomeMessage.Substitute: `$&`, `$1` and similar patterns inside a
  replacement string (a username, say) are expanded by JavaScript's
  `replace`. The model inserts the replacement literally.
- Storage.JsonStorage.RemoveWarn: the id is compared as a number. A warning
  id given as a string (`===` is strict) is not modelled.
- The random job picked in `/work`, and all embeds, replies and
  `toLocaleString` formatting. The level-up announcement and the welcome
  role assignment are platform side effects.
- The `setTimeout` that expires a command stamp is modelled as the separate
  operation `Client.BotClient.ForgetStamp`. Timer scheduling itself is not
  modelled.
- Command and event loading, deployment, the ready event and the other fun,
  help and balance commands.
- The dashboard's OAuth code exchange and platform API calls (httpx). Only
  the Administrator filter applied to the listed guilds is modelled. A
  guild's `permissions` is taken as the integer `int()` yields; a string
  that does not parse, which raises in Python, is not modelled.
- Dashboard.Validate: validation is strict. Lax coercions a validation
  library may apply, such as `"true"` to a boolean or a number to a string,
  are not modelled.
- Dashboard.Number: the model fails the request for non-numeric
  wallet/bank/totalXp values. Python would concatenate two strings or two
  lists, and sort totals when all of them are comparable. A boolean counts
  as 0/1 but is copied into a row as that integer.
- Dashboard.LevelsLeaderboard: a non-numeric totalXp fails the request in
  the model. Python fails only when two incomparable keys are compared
  (never with one user).
- The read-only dashboard endpoints: health, auth URL, bot info, invite URL
  and the demo guild listing. Only `get_guild`'s read of the settings
  (`Dashboard.SettingsOf`) is modelled, including the 500 it raises on a
  document that is not a dict.
- The bot's documents are typed: guild configurations are JSON objects, and
  accounts and progress are records of integers. A file that parses but has
  the wrong shape cannot be written down, so three behaviours of the source
  are not modelled:
  - a guild entry that is null or otherwise falsy, which `getGuildConfig`
    overwrites with the default (`jsonStorage.js:53`);
  - a levels record without `totalXp`, whose total becomes NaN
    (`messageCreate.js:32-33`);
  - a document that is `null` at the top level, on which the source throws.
- The dashboard and the bot keep separate stores (`xpPerMessage` versus
  `xpMin`/`xpMax`). They are modelled separately and not reconciled.
- Python dict iteration order is given to the leaderboards as the key order
  of the guild's entry.
- Concurrency between handlers and processes. Every operation runs to
  completion on its own.
- The frontend and the HTTP test client.
