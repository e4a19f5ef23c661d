# A verified model of a Discord moderation bot's core cogs

This project models five cogs of a French-language Discord bot and proves properties of
the model:

- **security.** Anti-spam and anti-raid detection, modelled as a state machine over the cog's own fields:
  - spam: message histories, warning counts and mutes;
  - raids: the join window, the raid and lockdown flags, and the two database tables it writes;
  - upkeep: the `clearwarnings` and `unmute` commands and the periodic cleanup sweep.
- **backup.** Three parts:
  - capture: turning a guild into a JSON snapshot;
  - the catalogue: the `backups` table;
  - restore: rebuilding a guild from a snapshot, including how permission overwrites are matched to the roles that were created.
- **levels.** The XP-to-level formula, the message and voice XP gates, and the per-user trackers.
- **banque.** The balance table with its implicit opening balance, `give`, the casino with its cooldown, and the transaction log.
- **ban.** The whitelist table and the guard order of the `ban`, `whitelist` and `unwhitelist` commands.

How the source maps onto Dafny:

- **Pure helpers are pure functions.**
  - Text normalisation is `Text`.
  - Ordered dictionaries are association lists with unique keys, in `Collections`.
  - Snapshot capture is `BackupCapture`.
- **Cogs that mutate their own state are classes.** These are `Security.SecurityCog`, `BackupStore.Catalogue`, `BackupRestore.Guild`, `Levels.LevelsCog`, `Banque.Bank` and `Ban.Whitelist`.
  - Their fields mirror the Python attributes and tables.
  - Each method states the whole new state.
  - The loops of the source are `while` loops carrying invariants, each proved against a specification function.
- **External effects become parameters.** This covers the clock, the outcomes of Discord API calls, the aiohttp download status and the readability of the log file:
  - a clock reading is an integer `now`, in seconds;
  - an API outcome is a boolean, a `nat -> bool` oracle indexed by position, or the `BackupRestore.Outcomes` record.
- **Randomness is a nondeterministic choice (`:|`).**
- **Integers are unbounded.** Python's integers are too, so no width or wrap-around is modelled.

Where the documentation of the bot and its code disagree, the model follows the code:

- `clearwarnings` does not touch active mutes.
- When a channel is restored, its category is looked up by the *channel's* name (`cogs/backup.py:333`).
- A news channel is captured twice: `text_channels` includes news channels (`BackupCapture.NewsChannelCapturedTwice`).
- A channel of an unknown type gets its overwrites applied to the previously created channel, which is still bound to `new_channel`.
- `update_user_xp` stores level 1 for a new profile, whatever XP it is given.
- An unreadable transaction log restarts from the new entry alone.
- `restore_server` returns `True` whenever the snapshot is well-formed, however many creations failed.
- A role's booster marker is never captured. The `hasattr(role.tags, 'premium_subscriber')` guard (`cogs/backup.py:163`) fails for the library's `RoleTags`, which offers only `is_premium_subscriber()`, so `premium_subscriber` is always stored as `None`.

## Model

| member | source | states |
|---|---|---|
| Text.NormaliseIdempotent | cogs/security.py:138 | normalising (`lower().strip()`) twice is normalising once, so a stored history entry compares equal to a re-normalised message |
| Text.NormaliseShape | cogs/security.py:138 | a normalised message has no leading or trailing white space and no upper-case letter |
| Text.StripNoUpper | cogs/security.py:138 | `strip()` only removes characters, so it adds no upper-case letter |
| Text.DecimalStringInjective | cogs/backup.py:407 | `str(id)` is injective on identifiers, so an overwrite key names at most one role id |
| Collections.PutUnique | cogs/backup.py:301 | assigning a key in an ordered dictionary keeps the keys unique |
| Collections.GetPutSame | cogs/backup.py:289 | after `d[k] = v`, looking up `k` gives `v` |
| Collections.GetPutOther | cogs/backup.py:289 | assigning one key leaves every other key's value unchanged |
| Collections.SortDesc | cogs/backup.py:70 | `ORDER BY … DESC`: the result is sorted descending by the key and is a permutation of the input |
| Security.Preview | cogs/security.py:351 | `recent_accounts[:5]` holds the first five suspects, or all of them when there are fewer |
| Security.RecordMessageShape | cogs/security.py:131-146 | after a message the history ends with it (normalised, stamped `now`) and every entry is strictly inside the spam window |
| Security.StaleCopiesDoNotCount | cogs/security.py:141-163 | copies older than the window are pruned first, so a message whose earlier copies are all stale counts once and never triggers spam |
| Security.ClearedRowsAreTheUsers | cogs/security.py:475-476 | the deleted-rows count is exactly the number of the member's warning rows |
| Security.AutoBan | cogs/security.py:361-380 | the ban loop counts exactly the successful bans and never more than the number of suspects |
| Security.ActiveMutes | cogs/security.py:577-584 | the mutes kept by the sweep are exactly those whose end is not before `now`, unchanged |
| Security.ExpireMutes | cogs/security.py:577-584 | the collect-then-delete loop leaves exactly `ActiveMutes` |
| Security.PrunedHistories | cogs/security.py:586-596 | each kept history holds only its entries of the last hour and is non-empty; emptied histories are deleted |
| Security.PruneHistories | cogs/security.py:586-596 | the history-pruning loop computes exactly `PrunedHistories` |
| Security.PartlyPrunedStep | cogs/security.py:586-596 | pruning one more user replaces its history by its recent part, or deletes it when nothing recent is left |
| Security.RecentHistoryKept | cogs/security.py:586-596 | a history younger than an hour survives the sweep untouched |
| Security.SecurityCog.OnMessage | cogs/security.py:124-149 | bots and `+` commands change nothing; otherwise the history is `RecordMessage` of the old one, and spam is reported exactly when `Repeated` reaches the limit, with `handle_spam`'s effect |
| Security.SecurityCog.CheckSpam | cogs/security.py:152-163 | spam is reported iff the normalised message occurs at least `max_repeated_messages` times; the history is not changed |
| Security.SecurityCog.HandleSpam | cogs/security.py:165-217 | the warning count goes up by one for the author only; one warning row is logged; ban from 3 warnings, mute from 2, otherwise warn; the label is `get_action_for_warning`'s; a mute is recorded only if it was applied |
| Security.SecurityCog.OnMemberJoinAsWritten | cogs/security.py:298-304 | as written, every join ends without a raid report and changes no state: bots return early, and for other members the naive-minus-aware subtraction raises before the append |
| Security.SecurityCog.OnMemberJoin | cogs/security.py:298-321 | the intended handler: bots are ignored; otherwise the join, with its age in whole days, is appended, the window becomes `JoinWindow` of that one arrival (pruned to `join_time_window`), and the raid check follows |
| Security.FreshBurstSuspects | cogs/security.py:307-336 | arrivals at one instant from accounts at most two days old all stay in a window that started empty, and every one is a suspect |
| Security.RaidMissedAsWritten | cogs/security.py:303-336 | five fresh accounts joining at once leave five suspects under the intended handler, enough for `check_raid`, while the window as written stays empty with no suspect |
| Security.SecurityCog.CheckRaid | cogs/security.py:323-336 | nothing during lockdown; otherwise a raid fires iff at least `max_recent_accounts` window entries are recent accounts |
| Security.SecurityCog.HandleRaid | cogs/security.py:338-402 | both flags are raised; the preview is the first five suspects; the banned count is the number of successful bans; exactly one raid row is logged |
| Security.SecurityCog.EndLockdown | cogs/security.py:404-409 | both raid flags drop and nothing else changes |
| Security.SecurityCog.ClearWarnings | cogs/security.py:470-483 | the member's warning rows and warning counter are deleted, the count reported is the number of rows removed, and mutes stay |
| Security.SecurityCog.Unmute | cogs/security.py:532-556 | not muted: refused with no change; the mute record is dropped only when the role removal succeeds |
| Security.SecurityCog.CleanupSweep | cogs/security.py:571-596 | the mutes become `ActiveMutes` and the histories `PrunedHistories`; the other state is unchanged |
| BackupCapture.TagsOf | cogs/backup.py:160-164 | a bot or integration tag is recorded iff the role has tags and the id is truthy; `premium_subscriber` is always `None`, because the library's `RoleTags` has no attribute of that name and the `hasattr` guard fails |
| BackupCapture.CaptureRoles | cogs/backup.py:148-166 | every role except `@everyone` is captured, and no `@everyone` role is |
| BackupCapture.CaptureRolesInOrder | cogs/backup.py:148-166 | role capture preserves the guild's order (it distributes over concatenation) |
| BackupCapture.GetOverwrites | cogs/backup.py:246-254 | the overwrites dictionary has unique keys and at most one entry per overwrite |
| BackupCapture.GetOverwritesExact | cogs/backup.py:246-254 | with distinct targets, every overwrite is stored under `str(target.id)` with its allow and deny values |
| BackupCapture.CaptureChannels | cogs/backup.py:177-230 | every record is tagged with one of the four types, the blocks come text, voice, news, forum, and the length is the four views' sizes added up |
| BackupCapture.CaptureChannelsByKind | cogs/backup.py:177-230 | the records of each type are, in guild order, exactly the channels of the matching view with that type's fields (text view as "text", voice as "voice", news as "news", forum as "forum") |
| BackupCapture.EachBlockOfKind | cogs/backup.py:177-230 | filtering the four concatenated blocks by each type gives back exactly that type's block |
| BackupCapture.CapturedChannelFields | cogs/backup.py:177-230 | each captured channel carries the fields of its kind and leaves the others absent |
| BackupCapture.NewsChannelCapturedTwice | cogs/backup.py:178-216 | a news channel appears once as "text" and once as "news" |
| BackupCapture.CreateBackupData | cogs/backup.py:112-244 | the snapshot records the version, `now` and the server info; it holds no `@everyone` role, one entry per category and emoji, channels in kind order, and for each type exactly the matching view's channels in guild order |
| BackupStore.WithoutName | cogs/backup.py:103 | the rows kept are exactly the rows with another name |
| BackupStore.FilterKeepsNamesUnique | cogs/backup.py:34 | deleting rows keeps the `UNIQUE` name constraint |
| BackupStore.Upsert | cogs/backup.py:52-55 | `INSERT OR REPLACE` drops the row with that name and appends the new one; every row with another name stays |
| BackupStore.UpsertKeepsNamesUnique | cogs/backup.py:52-55 | after an upsert the names are still unique and exactly one row has the new name |
| BackupStore.FindByName | cogs/backup.py:88-96 | a found row has that name and is in the table; none is found iff no row has that name |
| BackupStore.Catalogue.LogBackup | cogs/backup.py:47-58 | the table becomes `Upsert` of the old table with a row stamped `now`; names stay unique |
| BackupStore.Catalogue.GetBackups | cogs/backup.py:60-81 | newest first; a permutation of the server's rows for a truthy server id, and of all rows otherwise |
| BackupStore.Catalogue.GetBackupInfo | cogs/backup.py:83-96 | the row with that name, or nothing exactly when no row has it |
| BackupStore.Catalogue.DeleteBackup | cogs/backup.py:98-108 | reports whether a row had the name; afterwards no row has it and the other rows stay |
| BackupStore.Catalogue.CreateBackup | cogs/backup.py:488-531 | a missing or already-used name changes nothing; otherwise the snapshot is written to its file and logged under `backups/<name>.json` |
| BackupRestore.SetRoleEmoji | cogs/backup.py:304-305 | editing a role's emoji keeps the number of roles and their names |
| BackupRestore.AddRoleFresh | cogs/backup.py:293-301 | in a guild whose ids are all below the next one, a created role's id is used by no object, and the ids stay below the next one |
| BackupRestore.AddCategoryFresh | cogs/backup.py:314-318 | the same for a created category |
| BackupRestore.AddChannelFresh | cogs/backup.py:337-369 | the same for a created channel |
| BackupRestore.AddEmojiFresh | cogs/backup.py:386-390 | the same for a created emoji |
| BackupRestore.RoleEmojiKeepsIds | cogs/backup.py:304-305 | setting a role's emoji keeps the ids below the next one |
| BackupRestore.Guild.CreateRole | cogs/backup.py:293-301 | on success the role is appended with the next id, which no object of a valid guild has, and the guild stays valid; on failure nothing changes |
| BackupRestore.Guild.EditRoleEmoji | cogs/backup.py:304-305 | on success the role's emoji is set; on failure nothing changes; a valid guild stays valid |
| BackupRestore.Guild.CreateCategory | cogs/backup.py:314-318 | on success a category is appended with the next id, which no object of a valid guild has, and the guild stays valid; on failure nothing changes |
| BackupRestore.Guild.CreateChannel | cogs/backup.py:337-369 | on success a channel is appended with the next id, which no object of a valid guild has, and the guild stays valid; on failure nothing changes |
| BackupRestore.Guild.SetPermissions | cogs/backup.py:412-419 | on success the overwrite is recorded; on failure nothing changes; a valid guild stays valid |
| BackupRestore.Guild.CreateEmoji | cogs/backup.py:386-390 | on success an emoji is appended with the next id; on failure nothing changes; a valid guild stays valid |
| BackupRestore.RoleForKey | cogs/backup.py:405-409 | a role is found only if `str(role.id)` equals the key, and none is found iff no created role matches |
| BackupRestore.Overwrite | cogs/backup.py:400-421 | applying overwrites changes only the guild's grants and only appends to them |
| BackupRestore.OverwriteGrantsResolve | cogs/backup.py:403-419 | every grant added is for the target, has a matching snapshot entry and uses a created role whose id string is that key |
| BackupRestore.OverwriteStopsAtFailure | cogs/backup.py:402-421 | once a `set_permissions` call fails, the remaining entries do nothing |
| BackupRestore.OverwriteSkipsUnknownKeys | cogs/backup.py:411 | entries whose key matches no created role apply nothing |
| BackupRestore.ApplyOverwrites | cogs/backup.py:400-421 | the loop's effect on the guild is exactly `Overwrite` |
| BackupRestore.ApplyOverwrite | cogs/backup.py:403-418 | one entry: a key that resolves to a created role gains its grant when `set_permissions` succeeds and stops the loop when it fails; any other key changes nothing |
| BackupRestore.NameIndex | cogs/backup.py:281 | every existing role's name is a key, and each key maps to an existing role of that name |
| BackupRestore.RoleStep | cogs/backup.py:285-308 | a role is created iff its name is not an existing role's and the creation succeeds; existing names are kept |
| BackupRestore.RoleStage | cogs/backup.py:285-308 | restoring roles touches only the roles and keeps the existing ones with their names |
| BackupRestore.RoleStageCount | cogs/backup.py:285-308 | after the first k records, one role has been added per record with a new name whose creation succeeded |
| BackupRestore.RoleStageNewNames | cogs/backup.py:288-301 | no role the loop adds has the name of a role that existed at the start |
| BackupRestore.RoleStageCreates | cogs/backup.py:285-308 | the number of roles created is the number of successful creations of new names, and no created role has an existing name |
| BackupRestore.RoleStageReuses | cogs/backup.py:288-290 | a snapshot role with an existing name maps to the existing role's id |
| BackupRestore.RoleStageAllExisting | cogs/backup.py:288-290 | when every name already exists, no role is created |
| BackupRestore.RoleStageCoversNames | cogs/backup.py:285-301 | when every creation succeeds, each snapshot role name is present afterwards |
| BackupRestore.RoleStageIndexesSnapshot | cogs/backup.py:281-301 | when every creation succeeds, the name index built from the roles afterwards holds every snapshot role name |
| BackupRestore.CategoryStage | cogs/backup.py:311-324 | restoring categories keeps roles, channels and emojis, and only appends to the categories and the grants |
| BackupRestore.CategoryStageCreates | cogs/backup.py:311-324 | the number of categories created is the number of successful creations |
| BackupRestore.ParentOf | cogs/backup.py:329-335 | a parent is found iff the category id is truthy and a created category has the *channel's* name |
| BackupRestore.ParentIgnoresCategoryId | cogs/backup.py:330-335 | a channel named "general" in category 7 gets no parent even though category "Text" was created as 7 |
| BackupRestore.SettingsDefaults | cogs/backup.py:337-369 | absent fields default to slowmode 0, nsfw false, bitrate 64000 and user limit 0 |
| BackupRestore.ChannelStage | cogs/backup.py:327-375 | restoring channels keeps roles, categories and emojis, and only appends to the channels and the grants |
| BackupRestore.ChannelStageCreates | cogs/backup.py:327-375 | the number of channels created is the number of successful creations of a known kind |
| BackupRestore.EmojiStage | cogs/backup.py:378-392 | restoring emojis only appends emojis |
| BackupRestore.EmojiStageCreates | cogs/backup.py:378-392 | an emoji is created iff its download answered 200 and the creation succeeded |
| BackupRestore.RestoreTwiceCreatesNoRoles | cogs/backup.py:281-301 | after a restore in which every role creation succeeded, restoring the same snapshot again creates no role |
| BackupRestore.RestoredRoleCount | cogs/backup.py:281-308 | the restore adds exactly one role per snapshot role with a new name whose creation succeeded, whatever happened to the others |
| BackupRestore.RestoredCategoryCount | cogs/backup.py:311-324 | the restore adds exactly one category per successful creation |
| BackupRestore.RestoredChannelCount | cogs/backup.py:327-375 | the restore adds exactly one channel per channel of a known kind whose creation succeeded |
| BackupRestore.RestoredEmojiCount | cogs/backup.py:378-392 | the restore adds exactly one emoji per download answered 200 whose creation succeeded |
| BackupRestore.RestoreRoles | cogs/backup.py:284-308 | the role loop yields exactly `RoleStage`, including the created-roles dictionary |
| BackupRestore.RestoreCategories | cogs/backup.py:311-324 | the category loop yields exactly `CategoryStage` |
| BackupRestore.RestoreChannels | cogs/backup.py:327-375 | the channel loop yields exactly `ChannelStage` |
| BackupRestore.RestoreEmojis | cogs/backup.py:378-392 | the emoji loop yields exactly `EmojiStage` |
| BackupRestore.RestoreServer | cogs/backup.py:277-398 | reports success and leaves the guild in the `Restored` state |
| Levels.FloorSqrt | cogs/levels.py:130 | the integer square root: r² ≤ n < (r+1)² |
| Levels.CalculateLevel | cogs/levels.py:127-130 | the level is at least 1, and level L is held exactly on 100(L−1)² ≤ xp < 100L² |
| Levels.CalculateLevelIsLargest | cogs/levels.py:127-130 | 100k² ≤ xp iff k ≤ level − 1 |
| Levels.CalculateLevelMonotone | cogs/levels.py:127-130 | more XP never gives a lower level |
| Levels.LevelOfRange | cogs/levels.py:127-130 | an XP value in [100(L−1)², 100L²) has level exactly L |
| Levels.XpForNextLevel | cogs/levels.py:132-134 | the announced target is a multiple of 100 and not negative for levels from 1 |
| Levels.XpForNextLevelStaysAtLevel | cogs/levels.py:132-134 | at the announced target a user is still at the same level |
| Levels.XpForNextLevelOne | cogs/levels.py:318-320 | at level 1 the announced target is 0 XP |
| Levels.XpForLevelUp | cogs/levels.py:127-134 | the corrected target 100L²: level L+1 is reached there, and one XP less is still level L |
| Levels.WithGains | cogs/levels.py:110-114 | the gains are added to the XP and the counters, and the stored level is `calculate_level` of the new XP |
| Levels.VoiceXp | cogs/levels.py:218-219 | 10 XP per whole minute spent in voice, at least 10 |
| Levels.LevelsCog.GetUserData | cogs/levels.py:55-87 | the stored profile, or a fresh (0, 1, 0, 0) profile that is inserted |
| Levels.LevelsCog.UpdateUserXp | cogs/levels.py:89-125 | a new user gets level 1 and the given values as is; an existing one gets `WithGains`, and the new level is returned |
| Levels.LevelsCog.OnMessage | cogs/levels.py:139-177 | a refused message (bot, command, cooldown, too short, repeated) changes nothing; otherwise the grant below |
| Levels.LevelsCog.GrantMessageXp | cogs/levels.py:163-180 | 15–25 XP, doubled above 4000 characters; one more message; the trackers are updated; a level-up is reported iff the level rose |
| Levels.LevelsCog.OnVoiceStateUpdate | cogs/levels.py:196-241 | joining starts tracking; leaving stops it and grants `VoiceXp` and the seconds spent after at least 60 s; bots and moves change nothing |
| Banque.BalanceAfterUpdate | cogs/banque.py:65-100 | after an update the user holds the old balance plus the amount (1000 plus the amount for a user with no account), and every other user's balance is unchanged |
| Banque.CooldownRemaining | cogs/banque.py:214-227 | the minutes and seconds shown add up to the 300 − elapsed seconds still to wait, with fewer than 60 seconds |
| Banque.RecentLogs | cogs/banque.py:299 | `logs[-limit:]` for a positive limit is the newest `min(limit, len)` entries; any other limit shows everything |
| Banque.RecentLogsShowsNewest | cogs/banque.py:299 | the entry just logged is always the last one shown |
| Banque.RecentLogsNested | cogs/banque.py:299 | a smaller limit shows a suffix of what a larger limit shows |
| Banque.Bank.GetBalance | cogs/banque.py:65-82 | the stored balance, or a new account opened with the opening balance |
| Banque.Bank.UpdateBalance | cogs/banque.py:84-99 | the amount is added to the current or opening balance |
| Banque.Bank.LogTransaction | cogs/banque.py:43-63 | the log is `Appended` with an entry stamped `now` |
| Banque.Bank.Give | cogs/banque.py:124-151 | a non-positive amount changes nothing; otherwise the member's balance grows by the amount and one "give" entry is logged |
| Banque.Bank.Casino | cogs/banque.py:208-277 | within 300 s: the time left is reported and nothing changes; otherwise the cooldown restarts, the balance changes by a win of 50–200 or a loss of 10–50 or 50–150, and that is logged |
| Banque.Bank.Play | cogs/banque.py:229-261 | the cooldown restarts at the current time, the balance changes by the drawn win or loss, and the win or loss is logged with its positive amount |
| Banque.Draw | cogs/banque.py:233-251 | the draw is a win of 50–200 or a loss of 10–150 (the union of the 10–50 and 50–150 ranges), never a cooldown report |
| Ban.BanDecision | cogs/ban.py:88-135 | a whitelisted member is always protected, then self-bans are refused; only then is the ban attempt's result reported |
| Ban.AddThenRemove | cogs/ban.py:44-67 | adding an unlisted user and removing them gives the table back |
| Ban.ListsExactlyPermuted | cogs/ban.py:69-82 | reordering a listing still lists each row exactly once |
| Ban.Whitelist.Rows | cogs/ban.py:74-79 | the rows the query reads: each row of the table exactly once |
| Ban.Whitelist.IsWhitelisted | cogs/ban.py:33-42 | true iff the user has a row |
| Ban.Whitelist.AddToWhitelist | cogs/ban.py:44-55 | `INSERT OR REPLACE`: the user's row becomes the new listing, stamped `now` |
| Ban.Whitelist.RemoveFromWhitelist | cogs/ban.py:57-67 | reports whether the user had a row, and deletes it |
| Ban.Whitelist.GetWhitelist | cogs/ban.py:69-82 | every row exactly once, newest first |
| Ban.Whitelist.Ban | cogs/ban.py:88-135 | the outcome is `BanDecision` for the member's whitelist status |
| Ban.Whitelist.WhitelistCommand | cogs/ban.py:214-235 | an already listed member is reported and the table is unchanged; otherwise a row is added with the given reason, or "Aucune raison fournie" when none is given |
| Ban.Whitelist.UnwhitelistCommand | cogs/ban.py:239-259 | an unlisted member is reported and the table is unchanged; otherwise the row is removed |

## Left out

- Discord embeds, message texts and the sending of messages are not modelled; where a message carries data, the data is an out-parameter.
- SQLite, JSON files and their encodings are left out. Each table is a sequence or map of records, and each JSON file is a value.
- I/O is not modelled: clock readings are parameters, and so are the results of Discord API calls and the aiohttp status.
- `asyncio` sleeps, loops and scheduling are not modelled. The timers (`end_lockdown`, the `cleanup_task` sweep every five minutes and `unmute_user_after`) are methods invoked explicitly, and interleavings of concurrent handlers are not modelled.
- `unmute_user_after` only removes the Discord role and does not touch the mute table, so it has no effect in the model.
- `mute_user` creates the "Muted" role and sets channel permissions. That Discord set-up is folded into the `muteApplied` parameter.
- The raid log's `action_taken` text is reduced to the banned count.
- The display commands are left out because they only format state the model already exposes: `warnings`, `security`, `bank`, `classement`, `top`, `levels`, `rank`, `banlist`, `baninfo`, `whitelistlist`, `whitelistinfo` and `checkwhitelist`.
- The backup commands `load`, `list`, `info` and `delete` are left out: they only wrap the catalogue methods modelled here, plus confirmation waits.
- The `voice_xp_tracker` loop and its periodic voice XP are left out; only the leave handler grants voice XP.
- `Levels.CalculateLevel`: computed exactly on integers. The source takes a floating-point square root, which can differ from the exact one for XP beyond about 2^52.
- The rank percentage is floating point and is not modelled.
- `Text.Normalise`: white space and case are ASCII only. Python's `str.lower` and `str.strip` also act on Unicode letters and spaces.
- `Banque.Draw`: `random.random()` is discretised to tenths, which keeps the 40/30/30 split of outcomes but not a finer distribution. The amounts are any value in their range.
- `BackupCapture.CreateBackupData`: only the identifier and name of `server_info` are kept. The library's position ordering of roles and channels is taken as the input order.
- `BackupRestore.RestoreServer`: the outer `except` that returns `False` on a malformed snapshot is not modelled, because typed snapshots cannot be malformed. The ensures therefore always states success.
- `Banque.Bank.Give`, `Ban.Whitelist.Ban`, `Ban.Whitelist.WhitelistCommand`, `Ban.Whitelist.UnwhitelistCommand`, `Security.SecurityCog.ClearWarnings`, `Security.SecurityCog.Unmute` and `BackupStore.Catalogue.CreateBackup` (and `Banque.RecentLogs`, behind `logs`): the `has_permissions(administrator=True)` check runs in the command framework before the command body and is not modelled. Each member models the body, that is, a call by an administrator; a non-administrator's command is refused by the framework and changes nothing.
- `BackupRestore.Guild.CreateEmoji`: the download's bytes are not modelled; only the HTTP status decides whether creation is attempted.
- Negative XP cannot arise: the source would fail on the square root of a negative number, and all gains are natural numbers.

## Findings

| source | as written | input that shows it | evidently intended | confidence | as-written member | corrected member |
|---|---|---|---|---|---|---|
| cogs/levels.py:132-134 | `calculate_xp_for_next_level(L) = (L² − 1)·100`, but `calculate_level` moves from L to L+1 at 100·L² XP | level 1: the target shown is 0 XP, yet a user with 0 XP is at level 1; at level 2 a user with 300 XP is still level 2 | the next level is reached at 100·L² XP | not executed | Levels.XpForNextLevelStaysAtLevel | Levels.XpForLevelUp |
| cogs/security.py:303-304 | `datetime.now() - member.created_at` subtracts the library's timezone-aware `created_at` from a naive `datetime.now()`, which raises `TypeError` before the join is appended, so `recent_joins` never grows and `check_raid` is never reached | any member who is not a bot joining; five fresh accounts joining within a minute raise no raid | the account age is computed with a matching clock (`datetime.now(timezone.utc)` or `discord.utils.utcnow()`), and the join is recorded and checked | not executed; assumes the py-cord 2.x library the cogs are written against | Security.SecurityCog.OnMemberJoinAsWritten, Security.RaidMissedAsWritten | Security.SecurityCog.OnMemberJoin, Security.FreshBurstSuspects |
