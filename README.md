# FumeGuard core, modelled in Dafny

FumeGuard is a Discord moderation bot. Most of it is glue code over the
Discord library and a MySQL database. This project models the small
stateful core that decides what happens to the bot's per-guild store:

- the per-guild settings row, the AFK table, and the `|`-delimited role
  allowlists with their codec;
- the moderation log and its case counter;
- the automod decision taken for each message;
- the AFK state machine, both the slash commands and the dashboard (IPC)
  routes;
- the four-way settings decisions;
- the moderation and role commands, with their guards;
- the permission checks;
- `parse_cooldown`.

Layout: one module per source file.

- `Base`: ids, `Option`/`Result`, decimal strings, and Python truthiness.
- `Discord`: plain datatypes for members, channels, guilds and embeds, plus
  the `Effect` log and the `Api` outcome of a library call.
- `Db`: the class `Store` and the codec.
- `Logger`, `Checks`, `Tools`, `Automod`, `Afk`, `Ipc`, `Settings`,
  `Moderation` and `Roles`: one each, for the matching source file.

`Db.Store` is a class with two map fields:

- `guilds` maps a guild id to its settings row: the moderation log channel,
  the member log channel, the welcome message, the automod flag, the two
  allowlist columns and the nullable case counter;
- `afk` maps a (user, guild) pair to the AFK start and reason.

Handlers that write the store are methods with `modifies store`. Each one
ensures that the new table and the effects it emits equal an outcome
function of the old table. The lemmas about those outcome functions state
what the bot promises. Handlers that do not write the store are methods
without `modifies`, and each one ensures that its effects equal a function
of the store.

A handler's output is a list of effects: replies, posts, deletions, renames,
library calls and so on. A Python exception that is not caught becomes a
final `Raise(exc)` effect. SQL `NULL + 1` stays `NULL`, so a NULL case counter
never advances. Where the source compares an `int` with a list of `str`, the
model uses an explicit Python value type, so the comparison is always false.

Each library call whose exception the source catches takes an `Api`
parameter (`Done` or `Fails(exc)`). The handler then models every outcome.
Values that come from the library are parameters:

- the list of bans;
- the users `fetch_user` can find;
- the colour `Colour.from_str` parses;
- the modal's text;
- the AFK start time.

## Model

| member | source | states |
|---|---|---|
| Base.Drop | cogs/afk.py:111 | Python slicing `s[k:]`: the suffix from `k`, or the empty string when `k` is past the end. |
| Base.NatToString | utils/db.py:288-303 | `str(n)` of a non-negative id is a non-empty string of decimal digits. |
| Base.ParseInt | cogs/moderation.py:158-162 | `int(arg)` succeeds exactly when the argument is a non-empty string of digits. |
| Base.ParseNatToString | cogs/moderation.py:158-162 | Parsing the decimal text of an id gives back the id. |
| Base.NatToStringInjective | cogs/automod.py:156 | Different ids have different decimal texts, so list entries identify roles. |
| Db.Split | utils/db.py:282 | Splitting the column on the delimiter gives at least one part, and no part contains the delimiter. |
| Db.SplitWithoutDelim | utils/db.py:282 | A string without the delimiter splits into itself alone. |
| Db.SplitAfterPart | utils/db.py:282 | Splitting `a`, the delimiter, then `s` gives `a` followed by the parts of `s`. |
| Db.SplitJoin | utils/db.py:282-296 | Splitting a join of delimiter-free parts gives back the parts. |
| Db.JoinSplit | utils/db.py:282-296 | Joining the split of any string gives back the string. |
| Db.JoinEmpty | utils/db.py:296 | Only the empty list and `[""]` join to the empty string. |
| Db.DecodeAsymmetry | utils/db.py:273-315 | The link list decodes to `[]` exactly when the embed list decodes to `None`. A NULL or empty column gives `[]` for links and `None` for embeds. Otherwise the two decode alike. |
| Db.LinkRolesRoundTrip | utils/db.py:282-296 | Decoding an encoded link list of delimiter-free entries (other than `[""]`) gives it back. |
| Db.EmbedRolesRoundTrip | utils/db.py:315-329 | Decoding an encoded embed list gives it back, except that the empty list decodes to `None`. |
| Db.EncodeDecode | utils/db.py:282-296 | Re-encoding a decoded non-NULL column gives the column text back. |
| Db.IndexOf | utils/db.py:293-294 | The index `list.remove` deletes: the first index holding the value. |
| Db.RemoveFirst | utils/db.py:293-294 | `list.remove`: an error exactly when the value is absent, and otherwise the list without its first occurrence. |
| Db.RemoveFirstMultiset | utils/db.py:293-294 | Removing drops exactly one copy of the value and keeps every other entry. |
| Db.CaseNumbers | utils/db.py:167-185 | Reading and then incrementing the counter `n` times yields `n` case numbers. |
| Db.CaseNumbersFromPositive | utils/db.py:167-185 | From a positive counter `c`, the `k`-th case number is `c + k`. |
| Db.CaseNumbersFromNull | utils/db.py:167-185 | A NULL counter never advances: every case number read is 1. |
| Db.CaseNumbersFromZero | utils/db.py:167-185 | A counter of 0 reads as 1, then becomes 1, so case 1 is used twice. |
| Db.BumpTimesAdds | utils/db.py:179-185 | `n` increments add `n` to a stored counter and leave NULL as NULL. |
| Db.WithModLog | utils/db.py:108-116 | Writing the moderation log column changes that column of that guild only. |
| Db.WithMemberLog | utils/db.py:132-140 | Writing the member log column changes that column of that guild only. |
| Db.WithWelcome | utils/db.py:156-164 | Writing the welcome message changes that column of that guild only. |
| Db.WithCaseBump | utils/db.py:179-185 | The increment touches only that guild's counter. |
| Db.Store.constructor | utils/db.py:11-23 | A store starts with the given tables. |
| Db.Store.UpdateModLogChannel | utils/db.py:108-116 | The new table is the old one with that guild's moderation log column set. The AFK table is unchanged. |
| Db.Store.UpdateMemberLogChannel | utils/db.py:132-140 | Same, for the member log column. |
| Db.Store.UpdateWelcomeMessage | utils/db.py:156-164 | Same, for the welcome message. |
| Db.Store.GetCaseNumber | utils/db.py:167-176 | Raises for a guild without a row. Otherwise returns a non-zero value: the stored value if truthy, else 1. |
| Db.Store.IncrementCaseNumber | utils/db.py:179-185 | Adds one to that guild's counter only. NULL stays NULL. |
| Db.Store.SetAfk | utils/db.py:200-208 | After the call the pair is AFK with that reason. Every other pair and the guild table are unchanged. |
| Db.Store.RemoveAfk | utils/db.py:234-243 | After the call the pair is not AFK. Every other pair is unchanged. |
| Db.Store.GetAfkDetails | utils/db.py:211-220 | Returns the record exactly when the pair is AFK. |
| Db.Store.GetAfkMembers | utils/db.py:223-231 | Lists exactly the users AFK in the guild, each once. |
| Db.Store.AutomodStatus | utils/db.py:262-270 | Fails exactly for a guild without a row. |
| Db.Store.AutomodEnable | utils/db.py:246-251 | Sets the flag to true and nothing else, so a repeat changes nothing. The status then reads true. |
| Db.Store.AutomodDisable | utils/db.py:254-259 | Sets the flag to false and nothing else. The status then reads false. |
| Db.Store.GetLinkRoles | utils/db.py:273-282 | Fails exactly for a guild without a row. |
| Db.Store.GetEmbedRoles | utils/db.py:306-315 | Fails exactly for a guild without a row. |
| Db.Store.UpdateLinkRoles | utils/db.py:285-303 | Add appends the id at the end and re-joins. Remove deletes the first occurrence, or raises `ValueError` and writes nothing when the id is absent. Only that guild's column changes. A missing row raises `TypeError`. |
| Db.Store.UpdateEmbedRoles | utils/db.py:318-336 | As for links, except that an empty list decodes to `None`, so both add and remove raise `AttributeError` and write nothing. |
| Db.LinkRolesAfterAdd | utils/db.py:285-303 | After adding, the link list decodes to the old list with the id appended. |
| Db.LinkRolesAfterRemove | utils/db.py:285-303 | After removing, the link list decodes to the old list without the first occurrence. |
| Tools.DivMod | utils/tools.py:9-10 | Python `divmod` with a positive divisor: quotient times divisor plus remainder gives the dividend, and the remainder lies in `[0, b)`. |
| Tools.ParseCooldown | utils/tools.py:6-12 | Minutes and seconds both lie in `[0, 60)`, and `60*m + s` is the input modulo 3600. |
| Tools.CooldownDropsHours | utils/tools.py:9-12 | From one hour on, the hours are dropped, so the result is shorter than the wait. Below an hour it is exact. |
| Tools.Truncate | utils/tools.py:7 | `int(x)` on a number truncates toward zero. |
| Tools.ParseCooldownReal | utils/tools.py:6-12 | For a non-negative fractional wait, the result is the truncated wait modulo 3600. |
| Checks.BotThenUser | utils/checks.py:17-30 | Passes exactly when both the bot and the user hold the permission. The bot is checked first, so it decides the message. |
| Checks.UserOnly | utils/checks.py:65-72 | Passes exactly when the user holds the permission, and fails with the user message otherwise. |
| Checks.AfkPermsCheck | utils/checks.py:7-14 | Passes exactly when the bot holds Manage Nicknames, and fails with the bot message otherwise. |
| Checks.KickPermsCheck | utils/checks.py:17-30 | Passes exactly when the bot and the user both hold Kick Members. |
| Checks.BanPermsCheck | utils/checks.py:33-46 | Passes exactly when the bot and the user both hold Ban Members. |
| Checks.MutePermsCheck | utils/checks.py:49-62 | Passes exactly when the bot and the user both hold Moderate Members. |
| Checks.ChannelMutePermsCheck | utils/checks.py:65-72 | Passes exactly when the user holds Moderate Members. |
| Checks.WarnPermsCheck | utils/checks.py:75-85 | As written: passes exactly when the user holds both Kick Members and Ban Members. |
| Checks.WarnPermsCheckEither | utils/checks.py:75-85 | As its message says: passes when the user holds either permission. |
| Checks.WarnCheckRefusesKickOnly | utils/checks.py:75-85 | A user with Kick Members but without Ban Members is refused by the check as written and let through by the intended one. |
| Checks.ClearPermsCheck | utils/checks.py:88-101 | Passes exactly when the bot and the user both hold Manage Messages. |
| Checks.AnnouncePermsCheck | utils/checks.py:104-111 | Passes exactly when the user holds Manage Server. |
| Checks.RolesPermsCheck | utils/checks.py:114-127 | Passes exactly when the bot and the user both hold Manage Roles. |
| Checks.SettingsPermsCheck | utils/checks.py:130-137 | Passes exactly when the user holds Manage Server. |
| Checks.ChecksLookOnlyWhereTheySay | utils/checks.py:7-137 | The user-only checks depend only on the user's permissions. The AFK check depends only on the bot's Manage Nicknames. |
| Checks.BotCheckedFirst | utils/checks.py:17-30 | When neither side holds the permission, the bot message is the one raised. |
| Logger.PresentNames | utils/logger.py:50-69 | The present slots are no more than the slots listed. |
| Logger.PresentNamesMembers | utils/logger.py:50-69 | A slot is kept exactly when it is listed and its field is present. |
| Logger.FieldsFor | utils/logger.py:50-69 | The `i`-th embed field carries the label and value of the `i`-th present slot. |
| Logger.ModEmbedFields | utils/logger.py:50-69 | Moderator is always present. Name and ID appear exactly when a member is given. Channel, Reason and Message Count each appear exactly when their argument is truthy. |
| Logger.UnfoldPresent | utils/logger.py:50-69 | The fields come in the order Name, ID, Moderator, Channel, Reason, Message Count, each optional one only when present. |
| Logger.BuildModEmbed | utils/logger.py:45-69 | The field-by-field appends build exactly the specified embed: the title is the action, then "Case" and the number, followed by the fields in order. |
| Logger.LogModAction | utils/logger.py:17-78 | The new table and the effects equal the moderation log outcome of the old table. The AFK table is unchanged. |
| Logger.LogPostsAtMostOnce | utils/logger.py:17-78 | One call posts at most once, or ends in `TypeError`. |
| Logger.NoChannelNoCase | utils/logger.py:33-36 | With no log channel configured, nothing is posted and the counter is not touched. |
| Logger.ColourlessLeavesCounter | utils/logger.py:40-43 | With no colour the call fails before the increment, so the counter is unchanged. With a channel configured, it ends in `TypeError`. |
| Logger.CaseUsedUpEvenWithoutPost | utils/logger.py:38-76 | With a channel configured, the counter of that guild is incremented exactly once and no other guild changes. A deleted channel gets no post. Otherwise one post goes to the channel, titled with the number read before the increment. |
| Logger.ConsecutiveCases | utils/logger.py:38-76 | Two logged actions in a row get consecutive case numbers from a positive counter. From a NULL counter, both get 1. |
| Logger.LogRoleAction | utils/logger.py:114-154 | Posts at most once, titled with the action, and does not change the store. |
| Logger.MemberLogTitle | utils/logger.py:96 | The title is "Member Joined" for a join and "Member Left" otherwise. |
| Logger.LogMember | utils/logger.py:81-111 | Posts the name, id and member count to the member log channel when it is set and exists, and does nothing otherwise. The store is unchanged. |
| Logger.WelcomeMember | utils/logger.py:157-167 | Sends the welcome message by DM when one is set. A `Forbidden` DM is swallowed, and any other failure propagates. |
| Automod.ScanFromMeaning | cogs/automod.py:44-55 | The scan stops at the first entry whose role the author holds, or at the first entry that is not an integer. Otherwise it passes over every entry. |
| Automod.ScanMeaning | cogs/automod.py:44-55 | The same, from the start of the list. "None held" means exactly that every entry was passed over. |
| Automod.ProcessMessage | cogs/automod.py:42-66 | For a guild with a row, the effects equal the message decision on its decoded allowlists. A missing row raises `TypeError`. |
| Automod.OnMessage | cogs/automod.py:68-73 | A message is processed exactly when automod is on and the message has a URL. A direct message (no guild) raises `AttributeError`. |
| Automod.HeldLinkRoleSkipsEverything | cogs/automod.py:43-49 | An author holding a listed link role returns at once: no deletion and no embed check. |
| Automod.UnlistedAuthorLoses | cogs/automod.py:51-57 | With a non-empty link list and no listed role held, the message is deleted, a notice is sent, and then the embed check runs. |
| Automod.EmptyLinkListNeverDeletes | cogs/automod.py:43-66 | An empty link list never deletes. At most the embeds are suppressed. |
| Automod.SuppressedExactlyWhen | cogs/automod.py:43-66 | Embeds are suppressed exactly when the link check let the message through and the embed list is truthy with no role of it held. |
| Automod.EnableCommand | cogs/automod.py:75-92 | Enables and replies, or only replies when automod is already on. A missing row raises. The flag is on afterwards. |
| Automod.DisableCommand | cogs/automod.py:94-111 | Disables and replies, or only replies when automod is already off. The flag is off afterwards. |
| Automod.Strs | cogs/automod.py:156 | The stored list, as Python strings. |
| Automod.IntNeverInStrings | cogs/automod.py:156 | An `int` is never `in` a list of strings. |
| Automod.RunAllowlistCommand | cogs/automod.py:139-291 | The new table and the effects equal the allowlist outcome of the old table. |
| Automod.AllowLinkSend | cogs/automod.py:139-169 | The same, for allowing link sending. |
| Automod.DisallowLinkSend | cogs/automod.py:171-201 | The same, for disallowing link sending. |
| Automod.AllowLinkEmbed | cogs/automod.py:229-259 | The same, for allowing embeds. |
| Automod.DisallowLinkEmbed | cogs/automod.py:261-291 | The same, for disallowing embeds. |
| Automod.AllowAlwaysAppends | cogs/automod.py:156-164 | Allowing always takes the add branch and appends the id. |
| Automod.AllowTwiceListsTwice | cogs/automod.py:156-164 | Allowing the same role twice lists it twice. |
| Automod.DisallowNeverChanges | cogs/automod.py:188-201 | Disallowing never writes the store and always replies that the role is not listed. |
| Automod.EmbedCommandOnEmptyListRaises | cogs/automod.py:229-291 | On an empty embed list, the embed commands raise before any write. |
| Automod.AllowLinkIntendedListsOnce | cogs/automod.py:156-164 | With a string comparison, the first allow appends the id once and the second only replies. |
| Automod.DisallowLinkIntendedRemoves | cogs/automod.py:188-193 | With a string comparison and `add=False`, disallowing removes the first occurrence. |
| Automod.DisallowLinkAsWrittenKeepsRole | cogs/automod.py:188-193 | As written, a listed role is still listed after disallowing. |
| Afk.ReasonText | cogs/afk.py:41 | An absent or empty reason is shown as "Unspecified.". |
| Afk.RenameEffects | cogs/afk.py:75-115 | A rename is recorded on success. A `Forbidden` error is swallowed, and any other error propagates. |
| Afk.Then | cogs/afk.py:75-93 | A step that raised ends the handler, and otherwise the handler goes on. |
| Afk.AfkSet | cogs/afk.py:50-93 | Replies when the bot lacks Manage Nicknames or the user is already AFK. Otherwise it creates the record and adds the `[AFK] ` prefix only when the name lacks `[AFK]`. A failed rename does not undo the record. |
| Afk.AfkReset | cogs/afk.py:95-124 | Replies when the user is not AFK. Otherwise it deletes the record and renames a prefixed name to `display_name[5:]`. |
| Afk.ResetLeavesLeadingSpace | cogs/afk.py:111 | Applied to the `[AFK] ` prefix, the strip `[5:]` leaves a leading space. |
| Afk.SetThenResetNames | cogs/afk.py:75-111 | Setting and then resetting does not give back the original name. |
| Afk.SetThenResetIntendedRestores | cogs/afk.py:111 | Stripping the whole prefix gives back the original name. |
| Afk.ForbiddenRenameIsHarmless | cogs/afk.py:82-115 | A `Forbidden` rename leaves only the reply. |
| Afk.MentionReplies | cogs/afk.py:33-43 | Every effect is a reply, except a final `AttributeError` raised at the first mention that is not a guild member. There is at most one effect per mention. |
| Afk.MentionRaisesIff | cogs/afk.py:33-34 | The listener raises exactly when some mention is not a guild member. |
| Afk.DirectMessageMentionRaises | cogs/afk.py:33-34 | In a direct message the first mention raises `AttributeError` and no reply is sent. |
| Afk.MentionRaisesAt | cogs/afk.py:33-34 | At the first non-member mention the replies to the earlier mentions are followed by the raise, and later mentions are not looked at. |
| Afk.MentionRepliesCount | cogs/afk.py:33-43 | In a guild where every mention is a member: no AFK mentions give no replies, and with every mention AFK there is one reply per mention. |
| Afk.ProcessMentions | cogs/afk.py:31-43 | The loop emits exactly the per-mention replies, in mention order, and stops with `AttributeError` at the first mention that is not a guild member, as in a direct message. |
| Afk.AfkCheck | cogs/afk.py:126-150 | Shows the AFK notice for an AFK member, and "is not afk." otherwise. |
| Afk.AfkCheckReadsStore | cogs/afk.py:126-150 | After a set, the check shows the notice with the record just stored. After a reset it says "is not afk.". Every other member's answer is unchanged. |
| Afk.ListLines | cogs/afk.py:164-175 | Line `i` is numbered `i + 1` and describes the `i`-th stored user. |
| Afk.AfkList | cogs/afk.py:152-185 | An empty store gives "No members are afk.". Otherwise the numbered lines are shown in store order. A user no longer in the guild raises `AttributeError`. |
| Ipc.LookupMember | cogs/__ipc__.py:207-218 | A member is found exactly when the user is known and belongs to the known guild. It gives a 404 for an unknown user, `AttributeError` for an unknown guild and `NotFound` for a non-member. |
| Ipc.ToggleAfk | cogs/__ipc__.py:207-251 | Not AFK: a reason over 100 characters gives 400. Otherwise it creates the record and always adds the prefix. AFK: it removes the record and strips `[5:]` only from a prefixed name. A lookup failure changes nothing. |
| Ipc.ToggleTwice | cogs/__ipc__.py:207-251 | Two successful toggles restore the AFK status of the pair. Every other pair is untouched. |
| Ipc.IsAfkRoute | cogs/__ipc__.py:166-181 | Answers whether the pair is AFK after a successful lookup, and the lookup error otherwise. |
| Ipc.GetAfkDetailsRoute | cogs/__ipc__.py:183-205 | Gives 400 "User is not AFK." for a non-AFK member, and the stored start and reason otherwise. |
| Ipc.GetChannelList | cogs/__ipc__.py:52-68 | Gives 404 for an unknown guild. Otherwise it lists exactly the text channels the bot can send in, keyed by id with their names. |
| Ipc.ChannelAnswer | cogs/__ipc__.py:90-104 | An unset channel gives id 0, "Logging disabled.". A stored and existing channel gives its id and name. A stored but deleted channel raises `AttributeError`. |
| Ipc.GetModLogChannelRoute | cogs/__ipc__.py:90-104 | Gives 404 for an unknown guild, and the channel answer for the stored moderation log otherwise. |
| Ipc.GetMemberLogChannelRoute | cogs/__ipc__.py:117-131 | The same, for the member log. |
| Ipc.GetWelcomeMessageRoute | cogs/__ipc__.py:144-153 | Gives 404 for an unknown guild, and the stored message otherwise. |
| Ipc.UpdateModLogChannelRoute | cogs/__ipc__.py:106-115 | Gives 404 and no write for an unknown guild. Otherwise it writes only that guild's column and answers success. |
| Ipc.UpdateMemberLogChannelRoute | cogs/__ipc__.py:133-142 | The same, for the member log. |
| Ipc.UpdateWelcomeMessageRoute | cogs/__ipc__.py:155-164 | The same, for the welcome message. |
| Ipc.ModLogReadsBackUpdate | cogs/__ipc__.py:90-115 | Reading the moderation log after an update gives the channel written, or "Logging disabled." after clearing it. |
| Settings.SetModLog | cogs/settings.py:35-99 | The new table and the effects equal the four-way moderation log outcome of the old table. |
| Settings.ModLogNoChangeIsQuiet | cogs/settings.py:54-62 | Nothing set with no argument, or the same channel again: the command only replies and writes nothing. |
| Settings.DisableAnnouncedInOldChannel | cogs/settings.py:65-78 | Disabling first logs to the channel being disabled, using up a case. Then it stores NULL and replies. |
| Settings.RefusedChannelLeavesTable | cogs/settings.py:81-84 | A channel the bot cannot send in is refused without a write. |
| Settings.SetAnnouncedInNewChannel | cogs/settings.py:86-99 | A new channel is stored before logging. The reply comes first, then the announcement in the new channel. |
| Settings.SetModLogTwice | cogs/settings.py:35-99 | Setting the same channel twice: the second call changes nothing. |
| Settings.SetMemberLog | cogs/settings.py:101-166 | The new table and the effects equal the four-way member log outcome. |
| Settings.MemberLogKeepsModLog | cogs/settings.py:101-166 | A member log change leaves the moderation log and welcome columns alone, and every announcement goes to the moderation log. |
| Settings.MemberLogStored | cogs/settings.py:132-166 | A real change stores the new channel, or NULL when disabling. |
| Settings.SetWelcomeMessage | cogs/settings.py:168-225 | The new table and the effects equal the four-way welcome outcome on the modal text. |
| Settings.WelcomeStoredAndStable | cogs/settings.py:186-225 | After a change the stored message is the text entered, or unset for an empty entry. A second identical entry changes nothing. |
| Moderation.HierarchyRefusesExactly | cogs/moderation.py:53 | Refused exactly when the caller is not the owner and the target's top role is strictly higher. Equal roles are allowed. |
| Moderation.ApplySanction | cogs/moderation.py:30-467 | The guard, the call, the reply and the log of kick, ban, mute and warn equal the sanction outcome. |
| Moderation.ReportSanction | cogs/moderation.py:70-80 | The reply, then the moderation log outcome. |
| Moderation.KickCommand | cogs/moderation.py:30-80 | The kick outcome. |
| Moderation.BanCommand | cogs/moderation.py:82-135 | The ban outcome. |
| Moderation.MuteCommand | cogs/moderation.py:211-264 | The mute outcome. |
| Moderation.WarnCommand | cogs/moderation.py:422-467 | The warn outcome. |
| Moderation.RefusedSanctionIsInert | cogs/moderation.py:53-58 | A refused action only replies with the refusal, and nothing is written. |
| Moderation.SanctionCallMadeWhenAllowed | cogs/moderation.py:60-61 | When the guard passes, the library call comes first. |
| Moderation.SanctionCallOnlyWhenAllowed | cogs/moderation.py:53-68 | No kick, ban, timeout or DM takes effect when the guard refuses or the call fails. |
| Moderation.SanctionWritesOnlyOnSuccess | cogs/moderation.py:53-80 | The table changes only after a successful call, or after a warning whose DM was refused. |
| Moderation.UndeliveredWarningStillLogged | cogs/moderation.py:456-467 | A warning that cannot be delivered is still reported and logged. |
| Moderation.UnmuteCommand | cogs/moderation.py:266-301 | The unmute outcome, which has no hierarchy guard. |
| Moderation.UnmuteIgnoresHierarchy | cogs/moderation.py:243-301 | A target whom mute refuses can still be unmuted. |
| Moderation.ReportOverwrite | cogs/moderation.py:354-365 | The reply, then the moderation log outcome. |
| Moderation.ChannelMute | cogs/moderation.py:303-365 | The channel mute outcome. |
| Moderation.ChannelMuteRefusal | cogs/moderation.py:329-334 | A refused channel mute replies with its own text, which ends "member you are trying to mute." where `mute`'s ends "person you are trying to timeout.". Nothing is written. |
| Moderation.ChannelUnmute | cogs/moderation.py:367-420 | The channel unmute outcome. |
| Moderation.Overwritten | cogs/moderation.py:343-401 | Applying permission overwrites changes only the members' own overwrites: the channel's identity, its exempt members and its role-derived permissions are kept. |
| Moderation.OverwriteDoneWrites | cogs/moderation.py:343-365 | After a successful overwrite, the only change to the channel is the overwrite. |
| Moderation.ChannelMuteThenUnmute | cogs/moderation.py:338-420 | For a member who is neither owner nor Administrator, a successful mute then unmute silences the member in between. Afterwards the channel is as it was except that the member's own overwrite is deleted, so sending is up to their roles. |
| Moderation.ChannelMuteThenUnmuteRestores | cogs/moderation.py:338-420 | For such a member who had no overwrite of their own, mute then unmute gives back the channel exactly. |
| Moderation.ChannelUnmuteLosesOwnAllow | cogs/moderation.py:338-420 | A member whose own overwrite let them send despite their roles cannot send after mute then unmute. |
| Moderation.ChannelMuteOfExemptMember | cogs/moderation.py:338-420 | The owner or an Administrator let through by the hierarchy guard is muted in the log yet still can send, and unmute then answers "not muted". |
| Moderation.ChannelMuteGuardIsInert | cogs/moderation.py:338-341 | A member who already cannot send is not muted again: a reply only. |
| Moderation.ChannelUnmuteGuardIsInert | cogs/moderation.py:395-398 | A member who can send is not unmuted: a reply only. |
| Moderation.ClearCommand | cogs/moderation.py:469-511 | The clear outcome. |
| Moderation.ClearBounds | cogs/moderation.py:485-511 | A purge happens exactly for an amount from 1 to 100 whose purge succeeds, and purges that many messages in that channel. Any other amount writes nothing. |
| Moderation.AnnounceText | cogs/moderation.py:537-544 | The message is the mention prefix followed by the text as entered. |
| Moderation.AnnounceEffects | cogs/moderation.py:529-555 | The bot sends the prefixed text to the channel when it can send there, and replies with a refusal otherwise. |
| Moderation.PingsDiffer | cogs/moderation.py:537-544 | `@everyone`, `@here` and "none" give three different messages. |
| Moderation.AnnounceUnchecked | cogs/moderation.py:513-528 | The command carries no check, so a caller without Manage Server, whom `announce_perms_check` refuses, still has the announcement sent. |
| Moderation.AnnounceChecked | utils/checks.py:104-111 | `announce` with its check applied has at most the two effects of the command. |
| Moderation.AnnounceCheckedNeedsManageServer | utils/checks.py:104-111 | With the check applied, an announcement is sent only for a caller holding Manage Server, and for such a caller the command is unchanged. |
| Moderation.ParseTarget | cogs/moderation.py:158-162 | The argument is looked up by id exactly when it parses as an integer. |
| Moderation.FirstNamed | cogs/moderation.py:164-181 | The first ban entry with that name, if any. |
| Moderation.UnbanEntry | cogs/moderation.py:167-206 | The unban, the reply and the log of one resolved entry. |
| Moderation.UnbanCommand | cogs/moderation.py:137-209 | The loop over bans, which reassigns `member`, yields exactly the resolution function, followed by its outcome. |
| Moderation.UnbanByNameFirstMatch | cogs/moderation.py:164-209 | By name, a user is unbanned exactly when some entry has that name. The first such entry is the one taken. Otherwise the reply is "No such banned user found.". |
| Moderation.UnbanByIdComparesOnlyFirstEntry | cogs/moderation.py:183-206 | By id, a match in the second entry is reported as not found. |
| Moderation.UnknownIdGetsNoReply | cogs/moderation.py:187-209 | An id `fetch_user` cannot find breaks out of the loop, so nothing is replied or logged. |
| Moderation.UnbanByNameLogRaises | cogs/moderation.py:175-181 | By name the log has no colour, so with a log channel the handler raises `TypeError` after the unban and the reply, and the case counter does not move. |
| Moderation.UnbanResolveIntended | cogs/moderation.py:164-206 | The intended lookup logs in green either way. |
| Moderation.FirstWithId | cogs/moderation.py:183-203 | The first ban entry for that id, if any. |
| Moderation.UnbanIntendedFindsAnyEntry | cogs/moderation.py:183-203 | With the intended lookup, a known id is unbanned exactly when some entry is for that user. |
| Moderation.UnbanIntendedAgreesOnFirstEntry | cogs/moderation.py:183-203 | On the first entry, the intended and the written lookups agree. |
| Roles.LoggedOnceAfterReply | cogs/roles.py:168-179 | A successful role call is followed by the reply and then at most one post: the role log, third. |
| Roles.RoleCreate | cogs/roles.py:27-126 | The role creation effects, for a colour choice from the menu. |
| Roles.InvalidColourAbortsBeforeCreate | cogs/roles.py:81-95 | An invalid custom colour only replies: no role is created and nothing is logged. |
| Roles.CreateUsesChosenColour | cogs/roles.py:81-126 | The role is created with the parsed hex or the preset colour chosen, followed by the reply and at most one role log post. |
| Roles.RoleAdd | cogs/roles.py:128-179 | The role add effects. |
| Roles.AddGuardIsInert | cogs/roles.py:153-157 | A role the member already has: a reply only, with no call and no log. |
| Roles.AddLoggedOnlyOnSuccess | cogs/roles.py:159-179 | The role is added exactly when the call succeeds, and it is logged only then. |
| Roles.RemoveForbiddenGetsGenericText | cogs/roles.py:215-225 | As written, a `Forbidden` failure gets the generic text, and the specific text is unreachable. |
| Roles.RemoveIntendedNamesForbidden | cogs/roles.py:215-225 | With `Forbidden` caught first, it gets the specific text, and every other failure is handled as before. |
| Roles.RoleRemove | cogs/roles.py:181-237 | The role remove effects. |
| Roles.RemoveGuardIsInert | cogs/roles.py:206-210 | A role the member lacks: a reply only. |
| Roles.RemoveLoggedOnlyOnSuccess | cogs/roles.py:212-237 | The role is removed exactly when the call succeeds, and it is logged only then. |
| Roles.DeleteForbiddenGetsGenericText | cogs/roles.py:264-272 | As written, a `Forbidden` failure gets the generic text, and the specific text is unreachable. |
| Roles.DeleteIntendedNamesForbidden | cogs/roles.py:264-272 | With `Forbidden` caught first, it gets the specific text. |
| Roles.RoleDelete | cogs/roles.py:239-283 | The role delete effects. |
| Roles.DeleteLoggedOnlyOnSuccess | cogs/roles.py:261-283 | The role is deleted exactly when the call succeeds, and it is logged only then. |

## Left out

- Discord library calls such as kick, ban, timeout, purge, send, edit,
  set_permissions and create_role. Each one is an effect in the log, and
  its outcome is an `Api` parameter where the code catches an exception.
- `CanSend`: how Discord computes Send Messages is not modelled. A channel
  carries the result as inputs: the members no overwrite restricts (owner,
  Administrator), each member's own overwrite, and the members whose roles
  and role or @everyone overwrites let them send. View Channel is recorded
  in the overwrite `channelmute` writes but never read.
- Library calls the code does not guard, such as unban and
  delete_original_response. These are assumed to succeed.
- Database connection pooling, async scheduling and concurrent handlers,
  including the lost-update race on the case counter. Each handler is one
  sequential step.
- The URL regular expression. A message carries a `hasUrl` flag instead.
- Embed colours, `Colour.from_str`, timestamps, `strftime` and the current
  time.
  - The AFK start time is a parameter.
  - The colour that `from_str` parses is a parameter.
  - Role embeds leave out the colour.
- Roles.RoleCreate: the menu is modelled as a set of names. It requires the
  choice to come from the menu, as the command's choices enforce.
- Deferred replies and edited responses. Both are shown as `Reply`, so the
  `is_done` distinction in role create is not modelled.
- Permission check failures as effects. Each checked command is modelled
  after its check passed, except the AFK commands, whose error reply is
  modelled. The checks are modelled separately, and none of them ever
  returns False. `announce` has no check at all (see Findings).
- The automod commands' `automod_perms_check`. cogs/automod.py:21 imports
  it, but utils/checks.py does not define it, so the import fails as the
  source stands. The automod commands are modelled as if a check had
  passed.
- Mute's `timedelta`, and ban's delete-message days. Only the call itself
  is recorded. When minutes, hours or days is left at `None`, building the
  `timedelta` raises `TypeError` before `timeout` is called
  (cogs/moderation.py:249-252). In the model this appears only as
  `call == Fails(TypeError)`, which ends the command with
  `Raise(TypeError)`.
- Moderation.ClearCommand: when the purge is forbidden, the code edits the
  response it has just deleted (cogs/moderation.py:487-496). The model
  records `[DeleteResponse, Reply(..)]` in the order the code issues them.
  What the library does with an edit of a deleted response is not
  modelled.
- `guild.owner` being unknown. The owner is a field of the guild.
- `int()` on signs, whitespace and underscores. Only plain digit strings
  parse.
- Schema defaults and `add_guild`, because the schema is not part of this
  model.
  - `set_afk` runs a plain `INSERT`; for a pair that is already AFK its
    effect depends on the schema. `Db.Store.SetAfk` overwrites instead. Both
    callers check `is_afk` first, so no handler reaches the difference.
  - A missing guild row raises `TypeError` where the code indexes `res[0]`.
  - A missing guild row reads as unset where the code guards it.
- The count routes and mutual guilds in cogs/__ipc__.py. These are plain
  lookups over library collections.
- The help text, the top.gg loop, startup and configuration.
- utils/modals.py, the modal wait and its 5-minute timeout. The text
  entered is a parameter.

## Findings

| source | as written | input that shows it | evidently intended | confidence | as-written member | corrected member |
|---|---|---|---|---|---|---|
| utils/checks.py:75-85 | `not kick or not ban` raises unless the user holds both permissions | a user with Kick Members only | pass with either, as the message "Kick Members or Ban Members" says | not executed | Checks.WarnCheckRefusesKickOnly | Checks.WarnPermsCheckEither |
| cogs/automod.py:156-164 | the `int` role id is tested against a list of strings, so allow always appends | allowing the same role twice | append once, then report it is already listed | not executed | Automod.AllowTwiceListsTwice | Automod.AllowLinkIntendedListsOnce |
| cogs/automod.py:188-193 | the same test means a listed role is never found, and `add=False` is not passed | disallowing a listed role | remove its first occurrence | not executed | Automod.DisallowLinkAsWrittenKeepsRole | Automod.DisallowLinkIntendedRemoves |
| cogs/moderation.py:183-206 | `member` is replaced by the fetched user on the first entry, so later entries are skipped | an id banned in the second entry | unban whichever entry matches the id | not executed | Moderation.UnbanByIdComparesOnlyFirstEntry | Moderation.UnbanIntendedFindsAnyEntry |
| cogs/moderation.py:175-181 | unban by name logs without a colour, which raises `TypeError` when the log channel is set | unban by username with a moderation log channel | log in green, as by id | not executed | Moderation.UnbanByNameLogRaises | Moderation.UnbanResolveIntended |
| cogs/afk.py:111 | `display_name[5:]` keeps the space of the `"[AFK] "` prefix | set then reset for the name `x` | restore `x` | not executed | Afk.ResetLeavesLeadingSpace | Afk.SetThenResetIntendedRestores |
| cogs/roles.py:215-225 | `HTTPException` is caught before its subclass `Forbidden`, so the Forbidden text is unreachable | a remove the bot is forbidden to make | the Forbidden-specific reply | not executed | Roles.RemoveForbiddenGetsGenericText | Roles.RemoveIntendedNamesForbidden |
| cogs/moderation.py:513-528 | `announce` has no `@app_commands.check`, so `announce_perms_check` is never applied | a caller without Manage Server | only callers with Manage Server announce, as the check that exists for it says | not executed | Moderation.AnnounceUnchecked | Moderation.AnnounceCheckedNeedsManageServer |
| cogs/roles.py:264-272 | the same clause order in delete | a delete the bot is forbidden to make | the Forbidden-specific reply | not executed | Roles.DeleteForbiddenGetsGenericText | Roles.DeleteIntendedNamesForbidden |
