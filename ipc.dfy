/** The IPC routes the web dashboard calls (cogs/__ipc__.py). Each route
    answers with a JSON object, here a `Response`; an exception that escapes
    a route is `Failure(exc)`. */
module Ipc {
  import opened Base
  import opened Discord
  import opened Db

  /** The bot's caches: `get_guild` and `get_user` look here. */
  datatype Bot = Bot(guilds: map<Id, Guild>, users: map<Id, User>)

  datatype Response =
    | Error(code: int, message: string)            // {"error": {"code": ..., "message": ...}}
    | Status(status: int, message: string)         // {"status": ..., "message": ...}
    | ChannelList(channels: map<Id, string>)       // {"channels": {id: name}}
    | ChannelInfo(id: Id, name: string)            // {"id": ..., "name": ...}
    | WelcomeText(text: Option<string>)            // {"message": ...}
    | AfkFlag(afk: bool)                           // {"afk": ...}
    | Details(user: Id, guild: Id, start: int, reason: Option<string>)  // {"details": ...}
    | Failure(exc: Exc)

  const GuildNotFound: Response := Error(404, "Guild not found.")
  const UserNotFound: Response := Error(404, "User not found.")
  const Success: Response := Status(200, "Success.")
  const LoggingDisabled: Response := ChannelInfo(0, "Logging disabled.")

  /** How the member lookup of the AFK routes ends. */
  datatype Lookup = Found(guild: Guild, member: Member) | NoSuchUser | LookupFails(exc: Exc)

  /** `get_user`, `get_guild` and `guild.fetch_member`: a user the bot does
      not know is a 404; an unknown guild fails on `guild.fetch_member` with
      `AttributeError`; a user who is not a member makes `fetch_member`
      raise `NotFound`. `fetch_member` never returns `None`, so the routes'
      "Member not found." branch cannot be taken. */
  function LookupMember(bot: Bot, userId: Id, guildId: Id): (r: Lookup)
    ensures r.Found? <==> userId in bot.users && guildId in bot.guilds && userId in bot.guilds[guildId].members
    ensures r.Found? ==> r.guild == bot.guilds[guildId] && r.member == bot.guilds[guildId].members[userId]
    ensures r.NoSuchUser? <==> userId !in bot.users
    ensures userId in bot.users && guildId !in bot.guilds ==> r == LookupFails(AttributeError)
    ensures userId in bot.users && guildId in bot.guilds && userId !in bot.guilds[guildId].members ==> r == LookupFails(NotFound)
  {
    if userId !in bot.users then NoSuchUser
    else if guildId !in bot.guilds then LookupFails(AttributeError)
    else if userId !in bot.guilds[guildId].members then LookupFails(NotFound)
    else Found(bot.guilds[guildId], bot.guilds[guildId].members[userId])
  }

  /** The answer of a route whose lookup did not find the member. */
  function LookupAnswer(r: Lookup): Response
    requires !r.Found?
  {
    if r.NoSuchUser? then UserNotFound else Failure(r.exc)
  }

  /** `toggle_afk`. Turning on renames first, to `"[AFK] "` and the user's
      account-wide display name without looking for an existing prefix, and
      writes the record afterwards; turning off removes the record first and
      strips `[5:]` only from a guild name that has the prefix. `edit` is
      the outcome of the nickname edit, `start` the current time. */
  method ToggleAfk(store: Store, bot: Bot, userId: Id, guildId: Id, reason: Option<string>, start: int, edit: Api)
    returns (resp: Response, effects: seq<Effect>)
    modifies store
    ensures var l := LookupMember(bot, userId, guildId);
      !l.Found? ==> resp == LookupAnswer(l) && effects == [] && store.afk == old(store.afk)
    ensures var l := LookupMember(bot, userId, guildId);
      l.Found? && (userId, guildId) !in old(store.afk) ==>
        if TruthyStr(reason) && |reason.value| > 100 then
          resp == Error(400, "AFK reason too long.") && effects == [] && store.afk == old(store.afk)
        else if edit.Fails? && edit.exc != Forbidden then
          resp == Failure(edit.exc) && effects == [] && store.afk == old(store.afk)
        else
          resp == Success && store.afk == old(store.afk)[(userId, guildId) := AfkRecord(start, reason)] &&
          effects == (if edit == Done then [Rename(userId, "[AFK] " + bot.users[userId].displayName)] else [])
    ensures var l := LookupMember(bot, userId, guildId);
      l.Found? && (userId, guildId) in old(store.afk) ==>
        store.afk == old(store.afk) - {(userId, guildId)} &&
        if !StartsWith(l.member.displayName, "[AFK]") || edit == Fails(Forbidden) then
          resp == Success && effects == []
        else if edit == Done then
          resp == Success && effects == [Rename(userId, Drop(l.member.displayName, 5))]
        else resp == Failure(edit.exc) && effects == []
    ensures store.guilds == old(store.guilds)
  {
    effects := [];
    var l := LookupMember(bot, userId, guildId);
    if !l.Found? {
      return LookupAnswer(l), [];
    }
    if !store.IsAfk(userId, guildId) {
      if TruthyStr(reason) && |reason.value| > 100 {
        return Error(400, "AFK reason too long."), [];
      }
      if edit == Done {
        effects := [Rename(userId, "[AFK] " + bot.users[userId].displayName)];
      } else if edit.exc != Forbidden {
        return Failure(edit.exc), [];
      }
      store.SetAfk(userId, guildId, start, reason);
    } else {
      store.RemoveAfk(userId, guildId);
      if StartsWith(l.member.displayName, "[AFK]") {
        if edit == Done {
          effects := [Rename(userId, Drop(l.member.displayName, 5))];
        } else if edit.exc != Forbidden {
          return Failure(edit.exc), [];
        }
      }
    }
    resp := Success;
  }

  /** Two toggles that both succeed leave the user's AFK status as it was,
      and no other (user, guild) pair changes on the way. */
  method ToggleTwice(store: Store, bot: Bot, userId: Id, guildId: Id, reason: Option<string>, start: int, edit1: Api, edit2: Api)
    returns (first: Response, second: Response)
    modifies store
    ensures first == Success && second == Success ==>
      ((userId, guildId) in store.afk <==> (userId, guildId) in old(store.afk))
    ensures forall k :: k != (userId, guildId) ==>
      (k in store.afk <==> k in old(store.afk)) && (k in store.afk ==> store.afk[k] == old(store.afk)[k])
  {
    var eff1, eff2;
    first, eff1 := ToggleAfk(store, bot, userId, guildId, reason, start, edit1);
    second, eff2 := ToggleAfk(store, bot, userId, guildId, reason, start, edit2);
  }

  /** `is_afk` */
  function IsAfkRoute(store: Store, bot: Bot, userId: Id, guildId: Id): (r: Response)
    reads store
    ensures LookupMember(bot, userId, guildId).Found? ==> r == AfkFlag((userId, guildId) in store.afk)
    ensures !LookupMember(bot, userId, guildId).Found? ==> r == LookupAnswer(LookupMember(bot, userId, guildId))
  {
    var l := LookupMember(bot, userId, guildId);
    if !l.Found? then LookupAnswer(l) else AfkFlag(store.IsAfk(userId, guildId))
  }

  /** `get_afk_details`: 400 for a member who is not AFK. */
  function GetAfkDetailsRoute(store: Store, bot: Bot, userId: Id, guildId: Id): (r: Response)
    reads store
    ensures LookupMember(bot, userId, guildId).Found? && (userId, guildId) !in store.afk ==>
      r == Error(400, "User is not AFK.")
    ensures LookupMember(bot, userId, guildId).Found? && (userId, guildId) in store.afk ==>
      r == Details(userId, guildId, store.afk[(userId, guildId)].start, store.afk[(userId, guildId)].reason)
    ensures !LookupMember(bot, userId, guildId).Found? ==> r == LookupAnswer(LookupMember(bot, userId, guildId))
  {
    var l := LookupMember(bot, userId, guildId);
    if !l.Found? then LookupAnswer(l)
    else if !store.IsAfk(userId, guildId) then Error(400, "User is not AFK.")
    else
      var d := store.GetAfkDetails(userId, guildId).value;
      Details(userId, guildId, d.start, d.reason)
  }

  /** The channels `get_channel_list` reports: the text channels whose
      permissions for the bot allow sending. */
  predicate Listed(guild: Guild, id: Id) {
    id in guild.channels && guild.channels[id].isText && CanSend(guild.channels[id], guild.me.user.id)
  }

  /** `get_channel_list`. The guild's channels are keyed by their ids. */
  method GetChannelList(bot: Bot, guildId: Id) returns (resp: Response)
    ensures guildId !in bot.guilds ==> resp == GuildNotFound
    ensures guildId in bot.guilds ==> resp.ChannelList?
    ensures guildId in bot.guilds ==> forall id :: id in resp.channels <==> Listed(bot.guilds[guildId], id)
    ensures guildId in bot.guilds ==> forall id :: id in resp.channels ==>
      id in bot.guilds[guildId].channels && resp.channels[id] == bot.guilds[guildId].channels[id].name
  {
    if guildId !in bot.guilds {
      return GuildNotFound;
    }
    var guild := bot.guilds[guildId];
    var pending := guild.channels.Keys;
    var channels: map<Id, string> := map[];
    while pending != {}
      invariant pending <= guild.channels.Keys
      invariant forall id :: id in channels <==> Listed(guild, id) && id !in pending
      invariant forall id :: id in channels ==> channels[id] == guild.channels[id].name
      decreases pending
    {
      var id :| id in pending;
      var channel := guild.channels[id];
      if channel.isText && CanSend(channel, guild.me.user.id) {
        channels := channels[id := channel.name];
      }
      pending := pending - {id};
    }
    resp := ChannelList(channels);
  }

  /** The shared answer of `get_mod_log_channel` and `get_member_log_channel`
      for a known guild: the stored channel's id and name, "Logging
      disabled." when none is stored, and `AttributeError` on
      `channel.id` when the stored channel no longer exists. */
  function ChannelAnswer(guild: Guild, stored: Option<Id>): (r: Response)
    ensures !TruthyId(stored) ==> r == LoggingDisabled
    ensures TruthyId(stored) && stored.value in guild.channels ==>
      r == ChannelInfo(stored.value, guild.channels[stored.value].name) && r.id != 0
    ensures TruthyId(stored) && stored.value !in guild.channels ==> r == Failure(AttributeError)
  {
    if !TruthyId(stored) then LoggingDisabled
    else if stored.value !in guild.channels then Failure(AttributeError)
    else ChannelInfo(stored.value, guild.channels[stored.value].name)
  }

  /** `get_mod_log_channel` */
  function GetModLogChannelRoute(store: Store, bot: Bot, guildId: Id): (r: Response)
    reads store
    ensures guildId !in bot.guilds ==> r == GuildNotFound
    ensures guildId in bot.guilds ==> r == ChannelAnswer(bot.guilds[guildId], ModLogOf(store.guilds, guildId))
  {
    if guildId !in bot.guilds then GuildNotFound
    else ChannelAnswer(bot.guilds[guildId], store.ModLogChannel(guildId))
  }

  /** `get_member_log_channel` */
  function GetMemberLogChannelRoute(store: Store, bot: Bot, guildId: Id): (r: Response)
    reads store
    ensures guildId !in bot.guilds ==> r == GuildNotFound
    ensures guildId in bot.guilds ==> r == ChannelAnswer(bot.guilds[guildId], MemberLogOf(store.guilds, guildId))
  {
    if guildId !in bot.guilds then GuildNotFound
    else ChannelAnswer(bot.guilds[guildId], store.MemberLogChannel(guildId))
  }

  /** `get_welcome_message` */
  function GetWelcomeMessageRoute(store: Store, bot: Bot, guildId: Id): (r: Response)
    reads store
    ensures guildId !in bot.guilds ==> r == GuildNotFound
    ensures guildId in bot.guilds ==> r == WelcomeText(WelcomeOf(store.guilds, guildId))
  {
    if guildId !in bot.guilds then GuildNotFound else WelcomeText(store.WelcomeMessage(guildId))
  }

  /** `update_mod_log_channel`: an unknown guild is a 404 and writes
      nothing; otherwise the value is stored as given. */
  method UpdateModLogChannelRoute(store: Store, bot: Bot, guildId: Id, channelId: Option<Id>) returns (resp: Response)
    modifies store
    ensures guildId !in bot.guilds ==> resp == GuildNotFound && store.guilds == old(store.guilds)
    ensures guildId in bot.guilds ==> resp == Success
    ensures guildId in bot.guilds && guildId in old(store.guilds) ==>
      store.guilds == old(store.guilds)[guildId := old(store.guilds)[guildId].(modLogChannel := channelId)]
    ensures guildId !in old(store.guilds) ==> store.guilds == old(store.guilds)
    ensures store.afk == old(store.afk)
  {
    if guildId !in bot.guilds {
      return GuildNotFound;
    }
    store.UpdateModLogChannel(guildId, channelId);
    resp := Success;
  }

  /** `update_member_log_channel` */
  method UpdateMemberLogChannelRoute(store: Store, bot: Bot, guildId: Id, channelId: Option<Id>) returns (resp: Response)
    modifies store
    ensures guildId !in bot.guilds ==> resp == GuildNotFound && store.guilds == old(store.guilds)
    ensures guildId in bot.guilds ==> resp == Success
    ensures guildId in bot.guilds && guildId in old(store.guilds) ==>
      store.guilds == old(store.guilds)[guildId := old(store.guilds)[guildId].(memberLogChannel := channelId)]
    ensures guildId !in old(store.guilds) ==> store.guilds == old(store.guilds)
    ensures store.afk == old(store.afk)
  {
    if guildId !in bot.guilds {
      return GuildNotFound;
    }
    store.UpdateMemberLogChannel(guildId, channelId);
    resp := Success;
  }

  /** `update_welcome_message` */
  method UpdateWelcomeMessageRoute(store: Store, bot: Bot, guildId: Id, message: Option<string>) returns (resp: Response)
    modifies store
    ensures guildId !in bot.guilds ==> resp == GuildNotFound && store.guilds == old(store.guilds)
    ensures guildId in bot.guilds ==> resp == Success
    ensures guildId in bot.guilds && guildId in old(store.guilds) ==>
      store.guilds == old(store.guilds)[guildId := old(store.guilds)[guildId].(welcomeMessage := message)]
    ensures guildId !in old(store.guilds) ==> store.guilds == old(store.guilds)
    ensures store.afk == old(store.afk)
  {
    if guildId !in bot.guilds {
      return GuildNotFound;
    }
    store.UpdateWelcomeMessage(guildId, message);
    resp := Success;
  }

  /** What the dashboard reads back after an update: the channel it set, if
      that channel exists, or "Logging disabled." after storing `None` or 0. */
  lemma ModLogReadsBackUpdate(guilds: map<Id, GuildRow>, guild: Guild, channelId: Option<Id>)
    requires guild.id in guilds
    ensures var after := guilds[guild.id := guilds[guild.id].(modLogChannel := channelId)];
      var r := ChannelAnswer(guild, ModLogOf(after, guild.id));
      (TruthyId(channelId) && channelId.value in guild.channels ==> r == ChannelInfo(channelId.value, guild.channels[channelId.value].name)) &&
      (!TruthyId(channelId) ==> r == LoggingDisabled)
  {
  }
}
