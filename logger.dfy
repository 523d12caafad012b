/** The log embeds of utils/logger.py. `LogModAction` is the only writer of
    the case counter: it reads the configured moderation log channel, reads
    the counter, builds a "<action> | Case <n>" embed field by field,
    increments the counter and posts only if the channel still exists.
    `LogRoleAction`, `LogMember` and `WelcomeMember` read the store and
    change nothing in it. */
module Logger {
  import opened Base
  import opened Discord
  import opened Db

  /** The arguments of `log_mod_action` after the interaction. */
  datatype ModAction = ModAction(
    moderator: User,
    action: string,
    description: Option<string>,
    member: Option<User>,
    channel: Option<Id>,
    reason: Option<string>,
    messageCount: Option<int>,
    color: Option<string>)

  /** The fields a moderation log embed can carry. */
  datatype Slot = NameSlot | IdSlot | ModeratorSlot | ChannelSlot | ReasonSlot | CountSlot

  /** The name a field is shown under. */
  function Label(s: Slot): string {
    match s
    case NameSlot => "Name"
    case IdSlot => "ID"
    case ModeratorSlot => "Moderator"
    case ChannelSlot => "Channel"
    case ReasonSlot => "Reason"
    case CountSlot => "Message Count"
  }

  /** The order in which the fields are added. */
  const FieldOrder: seq<Slot> := [NameSlot, IdSlot, ModeratorSlot, ChannelSlot, ReasonSlot, CountSlot]

  /** Whether the field is added for these arguments: each optional one
      exactly when its argument is truthy, Moderator always. */
  predicate FieldPresent(a: ModAction, s: Slot) {
    match s
    case NameSlot => a.member.Some?
    case IdSlot => a.member.Some?
    case ModeratorSlot => true
    case ChannelSlot => a.channel.Some?
    case ReasonSlot => TruthyStr(a.reason)
    case CountSlot => TruthyInt(a.messageCount)
  }

  /** The value shown in the field. */
  function FieldValue(a: ModAction, s: Slot): string {
    match s
    case NameSlot => if a.member.Some? then UserLabel(a.member.value) else ""
    case IdSlot => if a.member.Some? then NatToString(a.member.value.id) else ""
    case ModeratorSlot => UserLabel(a.moderator)
    case ChannelSlot => if a.channel.Some? then ChannelMention(a.channel.value) else ""
    case ReasonSlot => if a.reason.Some? then a.reason.value else ""
    case CountSlot => if a.messageCount.Some? then IntToString(a.messageCount.value) else ""
  }

  /** The names of `names` whose field is present, in the same order. */
  function PresentNames(a: ModAction, names: seq<Slot>): (r: seq<Slot>)
    ensures |r| <= |names|
  {
    if names == [] then []
    else (if FieldPresent(a, names[0]) then [names[0]] else []) + PresentNames(a, names[1..])
  }

  /** A slot is kept exactly when it is in the list and its field is
      present. */
  lemma {:induction false} PresentNamesMembers(a: ModAction, names: seq<Slot>)
    ensures forall s :: s in PresentNames(a, names) <==> s in names && FieldPresent(a, s)
    decreases |names|
  {
    if names != [] {
      PresentNamesMembers(a, names[1..]);
      assert names == [names[0]] + names[1..];
    }
  }

  /** Each name with its value, as an embed field. */
  function FieldsFor(a: ModAction, names: seq<Slot>): (fields: seq<Field>)
    ensures |fields| == |names|
    ensures forall i :: 0 <= i < |names| ==> fields[i] == Field(Label(names[i]), FieldValue(a, names[i]))
  {
    if names == [] then [] else [Field(Label(names[0]), FieldValue(a, names[0]))] + FieldsFor(a, names[1..])
  }

  lemma FieldsForAppend(a: ModAction, x: seq<Slot>, y: seq<Slot>)
    ensures FieldsFor(a, x + y) == FieldsFor(a, x) + FieldsFor(a, y)
  {
  }

  /** The embed `log_mod_action` posts for case `n`. */
  function ModEmbed(a: ModAction, n: int): Embed {
    Embed(a.action + " | Case " + IntToString(n),
          if TruthyStr(a.description) then a.description else None,
          FieldsFor(a, PresentNames(a, FieldOrder)))
  }

  /** Moderator is always a field, Name and ID exactly when a member is
      given, and Channel, Reason and Message Count exactly when their
      argument is truthy. */
  lemma ModEmbedFields(a: ModAction)
    ensures var names := PresentNames(a, FieldOrder);
      && ModeratorSlot in names
      && (NameSlot in names <==> a.member.Some?)
      && (IdSlot in names <==> a.member.Some?)
      && (ChannelSlot in names <==> a.channel.Some?)
      && (ReasonSlot in names <==> TruthyStr(a.reason))
      && (CountSlot in names <==> TruthyInt(a.messageCount))
  {
    UnfoldPresent(a);
  }

  /** The filter on the last three fields, written out. */
  lemma UnfoldTail(a: ModAction)
    ensures PresentNames(a, [ChannelSlot, ReasonSlot, CountSlot]) ==
      (if a.channel.Some? then [ChannelSlot] else []) +
      (if TruthyStr(a.reason) then [ReasonSlot] else []) +
      (if TruthyInt(a.messageCount) then [CountSlot] else [])
  {
    var t5 := [CountSlot];
    var t4 := [ReasonSlot] + t5;
    assert [ChannelSlot, ReasonSlot, CountSlot] == [ChannelSlot] + t4;
    PresentNamesCons(a, ChannelSlot, t4);
    PresentNamesCons(a, ReasonSlot, t5);
    PresentNamesCons(a, CountSlot, []);
    assert [CountSlot] + [] == t5;
  }

  /** One step of the filter. */
  lemma PresentNamesCons(a: ModAction, s: Slot, rest: seq<Slot>)
    ensures PresentNames(a, [s] + rest) == (if FieldPresent(a, s) then [s] else []) + PresentNames(a, rest)
  {
    assert ([s] + rest)[1..] == rest;
  }

  /** The filter on the first three fields, written out. */
  lemma UnfoldHead(a: ModAction)
    ensures PresentNames(a, FieldOrder) ==
      (if a.member.Some? then [NameSlot, IdSlot] else []) + [ModeratorSlot] +
      PresentNames(a, [ChannelSlot, ReasonSlot, CountSlot])
  {
    var t3 := [ChannelSlot, ReasonSlot, CountSlot];
    var t2 := [ModeratorSlot] + t3;
    var t1 := [IdSlot] + t2;
    assert FieldOrder == [NameSlot] + t1;
    PresentNamesCons(a, NameSlot, t1);
    PresentNamesCons(a, IdSlot, t2);
    PresentNamesCons(a, ModeratorSlot, t3);
  }

  /** The present fields in their order, written out: the order of
      `FieldOrder` is kept. */
  lemma UnfoldPresent(a: ModAction)
    ensures PresentNames(a, FieldOrder) ==
      (if a.member.Some? then [NameSlot, IdSlot] else []) + [ModeratorSlot] +
      (if a.channel.Some? then [ChannelSlot] else []) +
      (if TruthyStr(a.reason) then [ReasonSlot] else []) +
      (if TruthyInt(a.messageCount) then [CountSlot] else [])
  {
    UnfoldHead(a);
    UnfoldTail(a);
    var head := (if a.member.Some? then [NameSlot, IdSlot] else []) + [ModeratorSlot];
    var ch := if a.channel.Some? then [ChannelSlot] else [];
    var re := if TruthyStr(a.reason) then [ReasonSlot] else [];
    var mc := if TruthyInt(a.messageCount) then [CountSlot] else [];
    assert head + (ch + re + mc) == head + ch + re + mc;
  }

  /** `log_mod_action`'s embed, built the way the source builds it: one
      field appended after another. */
  method BuildModEmbed(a: ModAction, n: int) returns (e: Embed)
    ensures e == ModEmbed(a, n)
  {
    var fields: seq<Field> := [];
    ghost var names: seq<Slot> := [];
    if a.member.Some? {
      fields := [Field("Name", UserLabel(a.member.value)), Field("ID", NatToString(a.member.value.id))];
      names := [NameSlot, IdSlot];
      assert fields == FieldsFor(a, names);
    }
    ghost var p0 := if a.member.Some? then [NameSlot, IdSlot] else [];
    assert names == p0;
    fields, names := Append(a, fields, names, ModeratorSlot, Field("Moderator", UserLabel(a.moderator)));
    if a.channel.Some? {
      fields, names := Append(a, fields, names, ChannelSlot, Field("Channel", ChannelMention(a.channel.value)));
    }
    ghost var p1 := p0 + [ModeratorSlot] + (if a.channel.Some? then [ChannelSlot] else []);
    assert names == p1;
    if TruthyStr(a.reason) {
      fields, names := Append(a, fields, names, ReasonSlot, Field("Reason", a.reason.value));
    }
    ghost var p2 := p1 + (if TruthyStr(a.reason) then [ReasonSlot] else []);
    assert names == p2;
    if TruthyInt(a.messageCount) {
      fields, names := Append(a, fields, names, CountSlot, Field("Message Count", IntToString(a.messageCount.value)));
    }
    assert names == p2 + (if TruthyInt(a.messageCount) then [CountSlot] else []);
    UnfoldPresent(a);
    var description := if TruthyStr(a.description) then a.description else None;
    e := Embed(a.action + " | Case " + IntToString(n), description, fields);
  }

  /** `embed.add_field(...)` for one present field. */
  method Append(a: ModAction, fields: seq<Field>, ghost names: seq<Slot>, s: Slot, f: Field)
    returns (fields': seq<Field>, ghost names': seq<Slot>)
    requires fields == FieldsFor(a, names)
    requires f == Field(Label(s), FieldValue(a, s))
    ensures fields' == fields + [f] && names' == names + [s]
    ensures fields' == FieldsFor(a, names')
  {
    fields', names' := fields + [f], names + [s];
    FieldsForAppend(a, names, [s]);
  }

  /** What one call of `log_mod_action` does to the table and what it
      posts. */
  function ModLogOutcome(before: map<Id, GuildRow>, guild: Guild, a: ModAction): (map<Id, GuildRow>, seq<Effect>) {
    var ch := ModLogOf(before, guild.id);
    if !TruthyId(ch) then (before, [])
    else if !TruthyStr(a.color) then (before, [Raise(TypeError)])
    else
      (WithCaseBump(before, guild.id),
       if ch.value in guild.channels then [Post(ch.value, ModEmbed(a, CaseNumberOf(before[guild.id].caseNumber)))] else [])
  }

  /** `log_mod_action` */
  method LogModAction(store: Store, guild: Guild, a: ModAction) returns (effects: seq<Effect>)
    modifies store
    ensures (store.guilds, effects) == ModLogOutcome(old(store.guilds), guild, a)
    ensures store.afk == old(store.afk)
  {
    var channelId := store.ModLogChannel(guild.id);
    if !TruthyId(channelId) {
      return [];
    }
    var caseNum := store.GetCaseNumber(guild.id);
    if !TruthyStr(a.color) {
      // `_color` is None and `_color()` raises before the increment
      return [Raise(TypeError)];
    }
    var embed := BuildModEmbed(a, caseNum.value);
    store.IncrementCaseNumber(guild.id);
    if channelId.value in guild.channels {
      effects := [Post(channelId.value, embed)];
    } else {
      effects := [];
    }
  }

  /** A call posts at most once, and otherwise can only fail. */
  lemma LogPostsAtMostOnce(before: map<Id, GuildRow>, guild: Guild, a: ModAction)
    ensures var eff := ModLogOutcome(before, guild, a).1;
      |eff| <= 1 && (eff != [] ==> eff[0].Post? || eff[0] == Raise(TypeError))
  {
  }

  /** With no moderation log channel configured, nothing is read, written
      or posted. */
  lemma NoChannelNoCase(before: map<Id, GuildRow>, guild: Guild, a: ModAction)
    requires !TruthyId(ModLogOf(before, guild.id))
    ensures ModLogOutcome(before, guild, a) == (before, [])
  {
  }

  /** Without a colour the call fails before the increment: the table is
      as it was. */
  lemma ColourlessLeavesCounter(before: map<Id, GuildRow>, guild: Guild, a: ModAction)
    requires !TruthyStr(a.color)
    ensures ModLogOutcome(before, guild, a).0 == before
    ensures TruthyId(ModLogOf(before, guild.id)) ==> ModLogOutcome(before, guild, a).1 == [Raise(TypeError)]
  {
  }

  /** With a channel configured and a colour given, the counter goes up by
      exactly one, whether or not the channel still exists, and the embed,
      if posted, shows the number read before the increment. */
  lemma CaseUsedUpEvenWithoutPost(before: map<Id, GuildRow>, guild: Guild, a: ModAction)
    requires TruthyId(ModLogOf(before, guild.id)) && TruthyStr(a.color)
    ensures var (after, eff) := ModLogOutcome(before, guild, a);
      var ch := ModLogOf(before, guild.id).value;
      guild.id in before && guild.id in after &&
      after[guild.id].caseNumber == Bump(before[guild.id].caseNumber) &&
      (forall h :: h in before && h != guild.id ==> h in after && after[h] == before[h]) &&
      (ch !in guild.channels ==> eff == []) &&
      (ch in guild.channels ==>
        |eff| == 1 && eff[0].Post? && eff[0].channel == ch &&
        eff[0].embed.title == a.action + " | Case " + IntToString(CaseNumberOf(before[guild.id].caseNumber)))
  {
  }

  /** Two calls that log number their cases consecutively when the
      counter is set; a NULL counter shows case 1 every time. */
  lemma {:induction false} ConsecutiveCases(before: map<Id, GuildRow>, guild: Guild, a: ModAction, b: ModAction)
    requires TruthyId(ModLogOf(before, guild.id)) && TruthyStr(a.color) && TruthyStr(b.color)
    ensures var mid := ModLogOutcome(before, guild, a).0;
      guild.id in before && guild.id in mid &&
      ModLogOf(mid, guild.id) == ModLogOf(before, guild.id) &&
      (before[guild.id].caseNumber.Some? && before[guild.id].caseNumber.value >= 1 ==>
        CaseNumberOf(mid[guild.id].caseNumber) == CaseNumberOf(before[guild.id].caseNumber) + 1) &&
      (before[guild.id].caseNumber.None? ==> CaseNumberOf(mid[guild.id].caseNumber) == 1)
  {
    var mid := ModLogOutcome(before, guild, a).0;
    assert mid == WithCaseBump(before, guild.id);
  }

  /** The arguments of `log_role_action` after the interaction. */
  datatype RoleAction = RoleAction(role: Role, moderator: User, action: string, member: Option<User>, reason: Option<string>)

  /** The embed `log_role_action` posts: titled with the bare action, no case
      number; Role Name, then Member if given, Moderator, then Reason if
      truthy. */
  function RoleEmbed(a: RoleAction): Embed {
    Embed(a.action, None,
      [Field("Role Name", "**" + a.role.name + "** (" + RoleMention(a.role.id) + ")")] +
      (if a.member.Some? then [Field("Member", UserLabel(a.member.value))] else []) +
      [Field("Moderator", UserLabel(a.moderator))] +
      (if TruthyStr(a.reason) then [Field("Reason", a.reason.value)] else []))
  }

  /** What `log_role_action` posts: to the configured moderation log
      channel if it still exists, and nothing else. */
  function RoleLogEffects(guilds: map<Id, GuildRow>, guild: Guild, a: RoleAction): seq<Effect> {
    var ch := ModLogOf(guilds, guild.id);
    if TruthyId(ch) && ch.value in guild.channels then [Post(ch.value, RoleEmbed(a))] else []
  }

  /** `log_role_action`. It takes no `modifies` clause: the case counter and
      every other column are left as they are. */
  method LogRoleAction(store: Store, guild: Guild, a: RoleAction) returns (effects: seq<Effect>)
    ensures effects == RoleLogEffects(store.guilds, guild, a)
    ensures |effects| <= 1 && forall i :: 0 <= i < |effects| ==> effects[i].Post? && effects[i].embed.title == a.action
  {
    var channelId := store.ModLogChannel(guild.id);
    if !TruthyId(channelId) {
      return [];
    }
    var fields := [Field("Role Name", "**" + a.role.name + "** (" + RoleMention(a.role.id) + ")")];
    if a.member.Some? {
      fields := fields + [Field("Member", UserLabel(a.member.value))];
    }
    fields := fields + [Field("Moderator", UserLabel(a.moderator))];
    if TruthyStr(a.reason) {
      fields := fields + [Field("Reason", a.reason.value)];
    }
    var embed := Embed(a.action, None, fields);
    assert embed == RoleEmbed(a);
    if channelId.value in guild.channels {
      effects := [Post(channelId.value, embed)];
    } else {
      effects := [];
    }
  }

  /** The title of the member log embed. */
  function MemberLogTitle(join: bool): (t: string)
    ensures join ==> t == "Member Joined"
    ensures !join ==> t == "Member Left"
  {
    if join then "Member Joined" else "Member Left"
  }

  /** `log_member`: posts to the member log channel, if configured and still
      there, an embed with Name, ID and Member Count; the case counter takes
      no part. */
  method LogMember(store: Store, guild: Guild, member: User, join: bool) returns (effects: seq<Effect>)
    ensures var ch := MemberLogOf(store.guilds, guild.id);
      if TruthyId(ch) && ch.value in guild.channels then
        effects == [Post(ch.value, Embed(MemberLogTitle(join), None,
          [Field("Name", UserLabel(member)), Field("ID", NatToString(member.id)),
           Field("Member Count", NatToString(guild.memberCount))]))]
      else effects == []
  {
    var channelId := store.MemberLogChannel(guild.id);
    if !TruthyId(channelId) {
      return [];
    }
    var embed := Embed(MemberLogTitle(join), None,
      [Field("Name", UserLabel(member)), Field("ID", NatToString(member.id)),
       Field("Member Count", NatToString(guild.memberCount))]);
    if channelId.value in guild.channels {
      effects := [Post(channelId.value, embed)];
    } else {
      effects := [];
    }
  }

  /** `welcome_member`: DMs the stored welcome message, if it is truthy; a
      `Forbidden` from the DM is swallowed. */
  method WelcomeMember(store: Store, guildId: Id, member: User, dm: Api) returns (effects: seq<Effect>)
    ensures var msg := WelcomeOf(store.guilds, guildId);
      if !TruthyStr(msg) then effects == []
      else if dm == Done then effects == [DirectMessage(member.id, msg.value)]
      else if dm.exc == Forbidden then effects == []
      else effects == [Raise(dm.exc)]
  {
    var msg := store.WelcomeMessage(guildId);
    if !TruthyStr(msg) {
      return [];
    }
    match dm
    case Done => effects := [DirectMessage(member.id, msg.value)];
    case Fails(e) => effects := if e == Forbidden then [] else [Raise(e)];
  }
}
