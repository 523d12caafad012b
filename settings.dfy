/** The `set` command group: the moderation log channel, the member log
    channel and the welcome message of a guild. Each command compares the
    requested value with the stored one; only a real change writes the row
    and is announced in the moderation log. The bodies below run once
    `Checks.SettingsPermsCheck` has passed. Long reply texts are written as
    concatenations of short literals, each defined once. */
module Settings {
  import opened Base
  import opened Discord
  import opened Db
  import opened Logger

  /** A settings change as `log_mod_action` receives it: no member, channel,
      reason or count, always a colour. */
  function SettingAction(moderator: User, action: string, description: string, color: string): ModAction {
    ModAction(moderator, action, Some(description), None, None, None, None, Some(color))
  }

  // The replies. Long texts are written as short pieces; the verifier's
  // work on a string literal grows quickly with its length.

  function ModLogSameText(c: Id): string {
    ("The moderation " + "log channel for " + "this server is " + "already set to ") + ChannelMention(c) + "."
  }

  function ModLogSetText(c: Id): string {
    ("The moderation " + "log channel for " + "this server has " + "been set to ") + ChannelMention(c) + "."
  }

  function MemberLogSameText(c: Id): string {
    ("The member " + "logging channel " + "for this server " + "is already set " + "to ") + ChannelMention(c) + "."
  }

  function MemberLogSetText(c: Id): string {
    ("The member " + "logging channel " + "for this server " + "has been set to ") + ChannelMention(c) + "."
  }

  const NoModLogText := ("No moderation " + "log channel is " + "set for this " + "server.")

  const ModLogOffText := ("The moderation " + "log channel for " + "this server has " + "been disabled.")

  const NoMemberLogText := ("No member log " + "channel is set " + "for this server.")

  const MemberLogOffText := ("The member " + "logging channel " + "for this server " + "has been " + "disabled.")

  const NoWelcomeText := ("No welcome " + "message is set " + "for this server.")

  const WelcomeSameText := ("The welcome " + "message for the " + "server is " + "already set to " + "the message you " + "entered.")

  const WelcomeOffText := ("The welcome " + "message for " + "this server has " + "been disabled.")

  const WelcomeSetText := ("The welcome " + "message for " + "this server has " + "been set.")

  // ---------------------------------------------------------------------
  // set mod_log
  // ---------------------------------------------------------------------

  function ModLogDisabled(ctx: Ctx): ModAction {
    SettingAction(ctx.user.user, "Logging Channel Disabled", ("Moderation " + "logging channel " + "has been " + "disabled."), "red")
  }

  function ModLogUpdated(ctx: Ctx, c: Id): ModAction {
    SettingAction(ctx.user.user, "Logging Channel Updated", ("Moderation " + "logging channel " + "updated to ") + ChannelMention(c) + ".", "green")
  }

  function NoSendReply(c: Id): Effect {
    Reply(("I do not have " + "permissions to " + "send messages " + "in ") + ChannelMention(c) + ".")
  }

  /** The table after `set mod_log` and what it does, in order. Disabling
      announces itself in the channel being disabled, before the write;
      setting writes first and announces in the new channel. */
  function SetModLogOutcome(before: map<Id, GuildRow>, ctx: Ctx, channel: Option<Channel>): (map<Id, GuildRow>, seq<Effect>) {
    var g := ctx.guild.id;
    var current := ModLogOf(before, g);
    if channel.None? && !TruthyId(current) then
      (before, [Reply(NoModLogText)])
    else if channel.Some? && current == Some(channel.value.id) then
      (before, [Reply(ModLogSameText(channel.value.id))])
    else if channel.None? then
      var logged := ModLogOutcome(before, ctx.guild, ModLogDisabled(ctx));
      (WithModLog(logged.0, g, None), logged.1 + [Reply(ModLogOffText)])
    else if !CanSend(channel.value, ctx.guild.me.user.id) then
      (before, [NoSendReply(channel.value.id)])
    else
      var c := channel.value.id;
      var logged := ModLogOutcome(WithModLog(before, g, Some(c)), ctx.guild, ModLogUpdated(ctx, c));
      (logged.0, [Reply(ModLogSetText(c))] + logged.1)
  }

  /** `set mod_log` */
  method SetModLog(store: Store, ctx: Ctx, channel: Option<Channel>) returns (effects: seq<Effect>)
    modifies store
    ensures (store.guilds, effects) == SetModLogOutcome(old(store.guilds), ctx, channel)
    ensures store.afk == old(store.afk)
  {
    var g := ctx.guild.id;
    var current := store.ModLogChannel(g);
    if channel.None? && !TruthyId(current) {
      return [Reply(NoModLogText)];
    } else if channel.Some? && current == Some(channel.value.id) {
      return [Reply(ModLogSameText(channel.value.id))];
    }
    if channel.None? {
      var logged := LogModAction(store, ctx.guild, ModLogDisabled(ctx));
      store.UpdateModLogChannel(g, None);
      return logged + [Reply(ModLogOffText)];
    }
    var c := channel.value.id;
    if !CanSend(channel.value, ctx.guild.me.user.id) {
      return [NoSendReply(c)];
    }
    store.UpdateModLogChannel(g, Some(c));
    var logged := LogModAction(store, ctx.guild, ModLogUpdated(ctx, c));
    effects := [Reply(ModLogSetText(c))] + logged;
  }

  /** Asking for what is already in place changes nothing and only replies. */
  lemma ModLogNoChangeIsQuiet(before: map<Id, GuildRow>, ctx: Ctx, channel: Option<Channel>)
    requires (channel.None? && !TruthyId(ModLogOf(before, ctx.guild.id)))
      || (channel.Some? && ModLogOf(before, ctx.guild.id) == Some(channel.value.id))
    ensures var (after, eff) := SetModLogOutcome(before, ctx, channel);
      after == before && |eff| == 1 && eff[0].Reply?
  {
  }

  /** Disabling clears the column and posts the announcement, numbered with
      the case read before the write, to the channel that is being
      disabled. */
  lemma {:induction false} DisableAnnouncedInOldChannel(before: map<Id, GuildRow>, ctx: Ctx)
    requires TruthyId(ModLogOf(before, ctx.guild.id))
    requires ModLogOf(before, ctx.guild.id).value in ctx.guild.channels
    ensures var (after, eff) := SetModLogOutcome(before, ctx, None);
      var g := ctx.guild.id;
      g in before && g in after &&
      ModLogOf(after, g) == None &&
      after[g].caseNumber == Bump(before[g].caseNumber) &&
      eff == [Post(before[g].modLogChannel.value, ModEmbed(ModLogDisabled(ctx), CaseNumberOf(before[g].caseNumber))),
              Reply(ModLogOffText)]
  {
    var g := ctx.guild.id;
    var logged := ModLogOutcome(before, ctx.guild, ModLogDisabled(ctx));
    assert logged.0 == WithCaseBump(before, g);
    assert SetModLogOutcome(before, ctx, None) == (WithModLog(logged.0, g, None), logged.1 + [Reply(ModLogOffText)]);
  }

  /** A new channel the bot can send to is stored, the reply comes first,
      and the announcement is posted to the new channel. */
  lemma {:induction false} SetAnnouncedInNewChannel(before: map<Id, GuildRow>, ctx: Ctx, channel: Channel)
    requires ctx.guild.id in before
    requires ModLogOf(before, ctx.guild.id) != Some(channel.id)
    requires CanSend(channel, ctx.guild.me.user.id)
    requires channel.id != 0 && channel.id in ctx.guild.channels
    ensures var (after, eff) := SetModLogOutcome(before, ctx, Some(channel));
      var g := ctx.guild.id;
      g in after && ModLogOf(after, g) == Some(channel.id) &&
      after[g].caseNumber == Bump(before[g].caseNumber) &&
      eff == [Reply(ModLogSetText(channel.id)),
              Post(channel.id, ModEmbed(ModLogUpdated(ctx, channel.id), CaseNumberOf(before[g].caseNumber)))]
  {
    var g := ctx.guild.id;
    var mid := WithModLog(before, g, Some(channel.id));
    assert ModLogOf(mid, g) == Some(channel.id);
    assert mid[g].caseNumber == before[g].caseNumber;
    var logged := ModLogOutcome(mid, ctx.guild, ModLogUpdated(ctx, channel.id));
    assert logged.0 == WithCaseBump(mid, g);
  }

  /** A channel the bot cannot send to is refused without a write. */
  lemma RefusedChannelLeavesTable(before: map<Id, GuildRow>, ctx: Ctx, channel: Channel)
    requires ModLogOf(before, ctx.guild.id) != Some(channel.id)
    requires !CanSend(channel, ctx.guild.me.user.id)
    ensures SetModLogOutcome(before, ctx, Some(channel)) == (before, [NoSendReply(channel.id)])
  {
  }

  /** Setting the same channel twice: the second call finds it in place. */
  lemma {:induction false} SetModLogTwice(before: map<Id, GuildRow>, ctx: Ctx, channel: Channel)
    requires ctx.guild.id in before
    requires CanSend(channel, ctx.guild.me.user.id)
    ensures var once := SetModLogOutcome(before, ctx, Some(channel)).0;
      SetModLogOutcome(once, ctx, Some(channel)).0 == once
  {
    var g := ctx.guild.id;
    var once := SetModLogOutcome(before, ctx, Some(channel)).0;
    if ModLogOf(before, g) == Some(channel.id) {
      assert once == before;
    } else {
      var mid := WithModLog(before, g, Some(channel.id));
      var logged := ModLogOutcome(mid, ctx.guild, ModLogUpdated(ctx, channel.id));
      assert once == logged.0;
      assert ModLogOf(mid, g) == Some(channel.id);
      assert g in logged.0 && logged.0[g].modLogChannel == mid[g].modLogChannel;
    }
    assert ModLogOf(once, g) == Some(channel.id);
  }

  // ---------------------------------------------------------------------
  // set member_log
  // ---------------------------------------------------------------------

  function MemberLogDisabled(ctx: Ctx): ModAction {
    SettingAction(ctx.user.user, "Logging Channel Disabled", ("Member logging " + "channel has " + "been disabled."), "red")
  }

  function MemberLogUpdated(ctx: Ctx, c: Id): ModAction {
    SettingAction(ctx.user.user, "Logging Channel Updated", ("Member logging " + "channel updated " + "to ") + ChannelMention(c) + ".", "green")
  }

  /** The table after `set member_log` and what it does. The change is
      announced in the moderation log, after the write and the reply. */
  function SetMemberLogOutcome(before: map<Id, GuildRow>, ctx: Ctx, channel: Option<Channel>): (map<Id, GuildRow>, seq<Effect>) {
    var g := ctx.guild.id;
    var current := MemberLogOf(before, g);
    if channel.None? && !TruthyId(current) then
      (before, [Reply(NoMemberLogText)])
    else if channel.Some? && current == Some(channel.value.id) then
      (before, [Reply(MemberLogSameText(channel.value.id))])
    else if channel.None? then
      var logged := ModLogOutcome(WithMemberLog(before, g, None), ctx.guild, MemberLogDisabled(ctx));
      (logged.0, [Reply(MemberLogOffText)] + logged.1)
    else if !CanSend(channel.value, ctx.guild.me.user.id) then
      (before, [NoSendReply(channel.value.id)])
    else
      var c := channel.value.id;
      var logged := ModLogOutcome(WithMemberLog(before, g, Some(c)), ctx.guild, MemberLogUpdated(ctx, c));
      (logged.0, [Reply(MemberLogSetText(c))] + logged.1)
  }

  /** `set member_log` */
  method SetMemberLog(store: Store, ctx: Ctx, channel: Option<Channel>) returns (effects: seq<Effect>)
    modifies store
    ensures (store.guilds, effects) == SetMemberLogOutcome(old(store.guilds), ctx, channel)
    ensures store.afk == old(store.afk)
  {
    var g := ctx.guild.id;
    var current := store.MemberLogChannel(g);
    if channel.None? && !TruthyId(current) {
      return [Reply(NoMemberLogText)];
    } else if channel.Some? && current == Some(channel.value.id) {
      return [Reply(MemberLogSameText(channel.value.id))];
    }
    if channel.None? {
      store.UpdateMemberLogChannel(g, None);
      var logged := LogModAction(store, ctx.guild, MemberLogDisabled(ctx));
      return [Reply(MemberLogOffText)] + logged;
    }
    var c := channel.value.id;
    if !CanSend(channel.value, ctx.guild.me.user.id) {
      return [NoSendReply(c)];
    }
    store.UpdateMemberLogChannel(g, Some(c));
    var logged := LogModAction(store, ctx.guild, MemberLogUpdated(ctx, c));
    effects := [Reply(MemberLogSetText(c))] + logged;
  }

  /** A member log change writes only the member log column and the case
      counter: the moderation log channel stays where it was, and every
      announcement goes there. */
  lemma {:induction false} MemberLogKeepsModLog(before: map<Id, GuildRow>, ctx: Ctx, channel: Option<Channel>)
    ensures var (after, eff) := SetMemberLogOutcome(before, ctx, channel);
      var g := ctx.guild.id;
      after.Keys == before.Keys &&
      ModLogOf(after, g) == ModLogOf(before, g) &&
      WelcomeOf(after, g) == WelcomeOf(before, g) &&
      (forall i :: 0 <= i < |eff| && eff[i].Post? ==> Some(eff[i].channel) == ModLogOf(before, g))
  {
    var g := ctx.guild.id;
    var current := MemberLogOf(before, g);
    if channel.None? && !TruthyId(current) {
    } else if channel.Some? && current == Some(channel.value.id) {
    } else if channel.None? || CanSend(channel.value, ctx.guild.me.user.id) {
      var c := if channel.None? then None else Some(channel.value.id);
      var action := if channel.None? then MemberLogDisabled(ctx) else MemberLogUpdated(ctx, channel.value.id);
      var mid := WithMemberLog(before, g, c);
      assert ModLogOf(mid, g) == ModLogOf(before, g);
      assert WelcomeOf(mid, g) == WelcomeOf(before, g);
      var logged := ModLogOutcome(mid, ctx.guild, action);
      assert SetMemberLogOutcome(before, ctx, channel).0 == logged.0;
      assert ModLogOf(logged.0, g) == ModLogOf(mid, g);
    }
  }

  /** A real member log change stores the new value. */
  lemma {:induction false} MemberLogStored(before: map<Id, GuildRow>, ctx: Ctx, channel: Option<Channel>)
    requires ctx.guild.id in before
    requires channel.None? ==> TruthyId(MemberLogOf(before, ctx.guild.id))
    requires channel.Some? ==> MemberLogOf(before, ctx.guild.id) != Some(channel.value.id) && CanSend(channel.value, ctx.guild.me.user.id)
    ensures var after := SetMemberLogOutcome(before, ctx, channel).0;
      MemberLogOf(after, ctx.guild.id) == (if channel.None? then None else Some(channel.value.id))
  {
    var g := ctx.guild.id;
    var c := if channel.None? then None else Some(channel.value.id);
    var action := if channel.None? then MemberLogDisabled(ctx) else MemberLogUpdated(ctx, channel.value.id);
    var mid := WithMemberLog(before, g, c);
    var logged := ModLogOutcome(mid, ctx.guild, action);
    assert SetMemberLogOutcome(before, ctx, channel).0 == logged.0;
  }

  // ---------------------------------------------------------------------
  // set welcome_message
  // ---------------------------------------------------------------------

  function WelcomeDisabled(ctx: Ctx): ModAction {
    SettingAction(ctx.user.user, "Welcome Message Disabled", ("Welcome message " + "has been " + "disabled."), "red")
  }

  function WelcomeUpdated(ctx: Ctx): ModAction {
    SettingAction(ctx.user.user, "Welcome Message Updated", ("Welcome message " + "has been " + "updated."), "green")
  }

  /** The table after `set welcome_message` and what it does; `entered` is
      the text submitted in the modal, empty when the field was cleared. */
  function SetWelcomeOutcome(before: map<Id, GuildRow>, ctx: Ctx, entered: string): (map<Id, GuildRow>, seq<Effect>) {
    var g := ctx.guild.id;
    var current := WelcomeOf(before, g);
    if entered == "" && !TruthyStr(current) then
      (before, [Reply(NoWelcomeText)])
    else if entered != "" && current == Some(entered) then
      (before, [Reply(WelcomeSameText)])
    else if entered == "" then
      var logged := ModLogOutcome(WithWelcome(before, g, None), ctx.guild, WelcomeDisabled(ctx));
      (logged.0, [Reply(WelcomeOffText)] + logged.1)
    else
      var logged := ModLogOutcome(WithWelcome(before, g, Some(entered)), ctx.guild, WelcomeUpdated(ctx));
      (logged.0, [Reply(WelcomeSetText)] + logged.1)
  }

  /** `set welcome_message`, after the modal has been submitted. */
  method SetWelcomeMessage(store: Store, ctx: Ctx, entered: string) returns (effects: seq<Effect>)
    modifies store
    ensures (store.guilds, effects) == SetWelcomeOutcome(old(store.guilds), ctx, entered)
    ensures store.afk == old(store.afk)
  {
    var g := ctx.guild.id;
    var current := store.WelcomeMessage(g);
    if entered == "" && !TruthyStr(current) {
      return [Reply(NoWelcomeText)];
    } else if entered != "" && current == Some(entered) {
      return [Reply(WelcomeSameText)];
    }
    var stored := if entered == "" then None else Some(entered);
    var action := if entered == "" then WelcomeDisabled(ctx) else WelcomeUpdated(ctx);
    var reply := if entered == "" then WelcomeOffText else WelcomeSetText;
    store.UpdateWelcomeMessage(g, stored);
    var logged := LogModAction(store, ctx.guild, action);
    effects := [Reply(reply)] + logged;
  }

  /** After a change the stored message is what was entered, an empty entry
      clearing it; a second identical submission finds it in place. */
  lemma {:induction false} WelcomeStoredAndStable(before: map<Id, GuildRow>, ctx: Ctx, entered: string)
    requires ctx.guild.id in before
    ensures var after := SetWelcomeOutcome(before, ctx, entered).0;
      var g := ctx.guild.id;
      (entered != "" ==> WelcomeOf(after, g) == Some(entered)) &&
      (entered == "" ==> !TruthyStr(WelcomeOf(after, g))) &&
      SetWelcomeOutcome(after, ctx, entered).0 == after
  {
    var g := ctx.guild.id;
    var current := WelcomeOf(before, g);
    var after := SetWelcomeOutcome(before, ctx, entered).0;
    if (entered == "" && !TruthyStr(current)) || (entered != "" && current == Some(entered)) {
      assert after == before;
    } else {
      var stored := if entered == "" then None else Some(entered);
      var action := if entered == "" then WelcomeDisabled(ctx) else WelcomeUpdated(ctx);
      var mid := WithWelcome(before, g, stored);
      var logged := ModLogOutcome(mid, ctx.guild, action);
      assert after == logged.0;
      assert WelcomeOf(logged.0, g) == WelcomeOf(mid, g);
    }
  }
}
