/** The moderation commands: kick, ban, unban, mute, unmute, channel mute
    and unmute, warn, clear and announce. Each command but `announce`
    carries a permission check (module Checks) and is modelled once that
    check has passed; `announce` carries none. The target is guarded by the
    role hierarchy, the library call is made, the reply is sent and the
    action is logged through `log_mod_action`.

    Reply texts are written as concatenations of short literals; each text
    is defined once, as a named function or constant. */
module Moderation {
  import opened Base
  import opened Discord
  import opened Db
  import opened Logger
  import opened Checks

  /** The hierarchy guard: refused exactly when the caller is not the
      guild owner and the target's top role is strictly above theirs. */
  predicate HierarchyRefuses(ctx: Ctx, target: Member) {
    !IsOwner(ctx) && target.topRole > ctx.user.topRole
  }

  /** The owner is never refused, and neither is a caller whose top role is
      at least the target's; anybody else is. */
  lemma HierarchyRefusesExactly(ctx: Ctx, target: Member)
    ensures IsOwner(ctx) ==> !HierarchyRefuses(ctx, target)
    ensures target.topRole <= ctx.user.topRole ==> !HierarchyRefuses(ctx, target)
    ensures !IsOwner(ctx) && target.topRole > ctx.user.topRole ==> HierarchyRefuses(ctx, target)
  {
  }

  /** `**{member}**`: a user's name in bold. */
  function Bold(u: User): string {
    "**" + u.name + "**"
  }

  /** A logged action about a member, with a reason and a colour. */
  function MemberAction(ctx: Ctx, target: User, action: string, reason: Option<string>, color: Option<string>): ModAction {
    ModAction(ctx.user.user, action, None, Some(target), None, reason, None, color)
  }

  // ---------------------------------------------------------------------
  // kick, ban, mute, warn
  // ---------------------------------------------------------------------

  /** The four hierarchy-guarded commands. */
  datatype Sanction = KickMember | BanMember | MuteMember | WarnMember

  function RefusalText(s: Sanction, m: User): string {
    "You cannot " + Verb(s) + " " + Bold(m) + (". Make sure you " + "have a role " + "higher than the ")
      + (if s == MuteMember then ("person you are " + "trying to " + "timeout.") else ("member you are " + "trying to ") + Verb(s) + ".")
  }

  /** `channelmute`'s refusal: it starts like `mute`'s, but ends "member you
      are trying to mute." where `mute`'s ends "person you are trying to
      timeout.". */
  function ChannelMuteRefusalText(m: User): string {
    "You cannot mute " + Bold(m) + (". Make sure you " + "have a role " + "higher than the ")
      + ("member you are " + "trying to ") + "mute."
  }

  function Verb(s: Sanction): string {
    match s
    case KickMember => "kick"
    case BanMember => "ban"
    case MuteMember => "mute"
    case WarnMember => "warn"
  }

  /** The reply when the bot lacks the permission for a kick or a ban. */
  function ForbiddenText(s: Sanction): string {
    ("I do not have " + "permission to ") + Verb(s) + (" that user. " + "Please make " + "sure I have a " + "role higher " + "than the member " + "you are trying " + "to ") + Verb(s) + "."
  }

  function DoneText(s: Sanction, m: User): string {
    match s
    case KickMember => Bold(m) + (" has been " + "kicked from the " + "server!")
    case BanMember => Bold(m) + (" has been " + "banned from the " + "server!")
    case MuteMember => Bold(m) + (" has been timed " + "out in the " + "server!")
    case WarnMember => Bold(m) + " has been warned!"
  }

  function ActionName(s: Sanction): string {
    match s
    case KickMember => "Member Kicked"
    case BanMember => "Member Banned"
    case MuteMember => "Member Muted"
    case WarnMember => "Member Warned"
  }

  /** `str(None)` inside an f-string is `"None"`. */
  function ReasonRepr(reason: Option<string>): string {
    if reason.Some? then reason.value else "None"
  }

  /** The direct message a warned member receives. */
  function WarningText(ctx: Ctx, m: User, reason: Option<string>): string {
    UserMention(m.id) + (" - You have " + "been warned by ") + Bold(ctx.user.user) + " with reason *" + ReasonRepr(reason) + "*!"
  }

  /** The library call each command makes on its target. */
  function CallEffect(s: Sanction, ctx: Ctx, m: User, reason: Option<string>): Effect {
    match s
    case KickMember => Kick(m.id)
    case BanMember => Ban(m.id)
    case MuteMember => Timeout(m.id)
    case WarnMember => DirectMessage(m.id, WarningText(ctx, m, reason))
  }

  /** The table after one of the guarded commands and what it does; `call`
      is the outcome of the library call. Kick and ban catch `Forbidden`
      and reply; warn swallows it; mute catches nothing. */
  function SanctionOutcome(before: map<Id, GuildRow>, ctx: Ctx, target: Member, s: Sanction, reason: Option<string>, call: Api): (map<Id, GuildRow>, seq<Effect>) {
    var m := target.user;
    if HierarchyRefuses(ctx, target) then
      (before, [Reply(RefusalText(s, m))])
    else if call.Fails? && !(call.exc == Forbidden && s == WarnMember) then
      (before, SanctionFailure(s, call.exc))
    else
      SanctionDone(before, ctx, m, s, reason, if call == Done then [CallEffect(s, ctx, m, reason)] else [])
  }

  /** The success path: the call's effect if it was made, the reply, the
      log. */
  function SanctionDone(before: map<Id, GuildRow>, ctx: Ctx, m: User, s: Sanction, reason: Option<string>, made: seq<Effect>): (map<Id, GuildRow>, seq<Effect>) {
    var logged := ModLogOutcome(before, ctx.guild, MemberAction(ctx, m, ActionName(s), reason, Some("red")));
    (logged.0, made + [Reply(DoneText(s, m))] + logged.1)
  }

  /** A failed call: kick and ban catch `Forbidden` and reply, anything
      else escapes. */
  function SanctionFailure(s: Sanction, e: Exc): seq<Effect> {
    if e == Forbidden && (s == KickMember || s == BanMember) then [Reply(ForbiddenText(s))] else [Raise(e)]
  }

  /** The shared body of `kick`, `ban`, `mute` and `warn`. */
  method ApplySanction(store: Store, ctx: Ctx, target: Member, s: Sanction, reason: Option<string>, call: Api) returns (effects: seq<Effect>)
    modifies store
    ensures (store.guilds, effects) == SanctionOutcome(old(store.guilds), ctx, target, s, reason, call)
    ensures store.afk == old(store.afk)
  {
    var m := target.user;
    if HierarchyRefuses(ctx, target) {
      return [Reply(RefusalText(s, m))];
    }
    if call.Fails? && !(call.exc == Forbidden && s == WarnMember) {
      return SanctionFailure(s, call.exc);
    }
    effects := ReportSanction(store, ctx, m, s, reason, if call == Done then [CallEffect(s, ctx, m, reason)] else []);
  }

  method ReportSanction(store: Store, ctx: Ctx, m: User, s: Sanction, reason: Option<string>, made: seq<Effect>) returns (effects: seq<Effect>)
    modifies store
    ensures (store.guilds, effects) == SanctionDone(old(store.guilds), ctx, m, s, reason, made)
    ensures store.afk == old(store.afk)
  {
    var logged := LogModAction(store, ctx.guild, MemberAction(ctx, m, ActionName(s), reason, Some("red")));
    effects := made + [Reply(DoneText(s, m))] + logged;
  }

  /** `kick` */
  method KickCommand(store: Store, ctx: Ctx, target: Member, reason: Option<string>, call: Api) returns (effects: seq<Effect>)
    modifies store
    ensures (store.guilds, effects) == SanctionOutcome(old(store.guilds), ctx, target, KickMember, reason, call)
    ensures store.afk == old(store.afk)
  {
    effects := ApplySanction(store, ctx, target, KickMember, reason, call);
  }

  /** `ban`; how many days of messages to delete is passed to the library
      and does not affect the outcome. */
  method BanCommand(store: Store, ctx: Ctx, target: Member, reason: Option<string>, call: Api) returns (effects: seq<Effect>)
    modifies store
    ensures (store.guilds, effects) == SanctionOutcome(old(store.guilds), ctx, target, BanMember, reason, call)
    ensures store.afk == old(store.afk)
  {
    effects := ApplySanction(store, ctx, target, BanMember, reason, call);
  }

  /** `mute`: a timeout. The `timedelta` built from the duration is not
      modelled; its `TypeError` for a missing part appears only as
      `call == Fails(TypeError)`. */
  method MuteCommand(store: Store, ctx: Ctx, target: Member, reason: Option<string>, call: Api) returns (effects: seq<Effect>)
    modifies store
    ensures (store.guilds, effects) == SanctionOutcome(old(store.guilds), ctx, target, MuteMember, reason, call)
    ensures store.afk == old(store.afk)
  {
    effects := ApplySanction(store, ctx, target, MuteMember, reason, call);
  }

  /** `warn`: `call` is the outcome of the direct message. */
  method WarnCommand(store: Store, ctx: Ctx, target: Member, reason: Option<string>, call: Api) returns (effects: seq<Effect>)
    modifies store
    ensures (store.guilds, effects) == SanctionOutcome(old(store.guilds), ctx, target, WarnMember, reason, call)
    ensures store.afk == old(store.afk)
  {
    effects := ApplySanction(store, ctx, target, WarnMember, reason, call);
  }

  /** A refused command touches nothing: no library call, no log, one
      reply. */
  lemma RefusedSanctionIsInert(before: map<Id, GuildRow>, ctx: Ctx, target: Member, s: Sanction, reason: Option<string>, call: Api)
    requires HierarchyRefuses(ctx, target)
    ensures SanctionOutcome(before, ctx, target, s, reason, call) == (before, [Reply(RefusalText(s, target.user))])
  {
  }

  /** When the guard lets the command through and the call succeeds, the
      call is the first thing the handler does. */
  lemma SanctionCallMadeWhenAllowed(before: map<Id, GuildRow>, ctx: Ctx, target: Member, s: Sanction, reason: Option<string>)
    requires !HierarchyRefuses(ctx, target)
    ensures var eff := SanctionOutcome(before, ctx, target, s, reason, Done).1;
      |eff| >= 1 && eff[0] == CallEffect(s, ctx, target.user, reason) && IsSanctionCall(eff[0])
  {
  }

  /** A library call by the guarded commands is a kick, a ban, a timeout
      or a direct message. */
  predicate IsSanctionCall(e: Effect) {
    e.Kick? || e.Ban? || e.Timeout? || e.DirectMessage?
  }

  /** No library call is made when the guard refuses or the call fails. */
  lemma {:induction false} SanctionCallOnlyWhenAllowed(before: map<Id, GuildRow>, ctx: Ctx, target: Member, s: Sanction, reason: Option<string>, call: Api)
    requires HierarchyRefuses(ctx, target) || call.Fails?
    ensures var eff := SanctionOutcome(before, ctx, target, s, reason, call).1;
      forall i :: 0 <= i < |eff| ==> !IsSanctionCall(eff[i])
  {
    var m := target.user;
    var eff := SanctionOutcome(before, ctx, target, s, reason, call).1;
    if HierarchyRefuses(ctx, target) {
      RefusedSanctionIsInert(before, ctx, target, s, reason, call);
    } else if !(call.exc == Forbidden && s == WarnMember) {
      assert eff == SanctionFailure(s, call.exc);
    } else {
      var action := MemberAction(ctx, m, ActionName(s), reason, Some("red"));
      LogPostsAtMostOnce(before, ctx.guild, action);
      assert eff == [Reply(DoneText(s, m))] + ModLogOutcome(before, ctx.guild, action).1;
    }
  }

  /** The table changes only when the command gets through and the call
      succeeds, or for a warning whose message could not be delivered. */
  lemma SanctionWritesOnlyOnSuccess(before: map<Id, GuildRow>, ctx: Ctx, target: Member, s: Sanction, reason: Option<string>, call: Api)
    ensures SanctionOutcome(before, ctx, target, s, reason, call).0 != before ==>
      !HierarchyRefuses(ctx, target) && (call == Done || (s == WarnMember && call == Fails(Forbidden)))
  {
  }

  /** A warning that cannot be delivered is still reported and logged. */
  lemma UndeliveredWarningStillLogged(before: map<Id, GuildRow>, ctx: Ctx, target: Member, reason: Option<string>)
    requires !HierarchyRefuses(ctx, target)
    ensures var (after, eff) := SanctionOutcome(before, ctx, target, WarnMember, reason, Fails(Forbidden));
      var logged := ModLogOutcome(before, ctx.guild, MemberAction(ctx, target.user, "Member Warned", reason, Some("red")));
      after == logged.0 && eff == [Reply(DoneText(WarnMember, target.user))] + logged.1
  {
  }

  function UnmutedText(m: User): string {
    Bold(m) + (" has been " + "unmuted in the " + "server!")
  }

  /** `unmute`: no hierarchy guard; a failing call escapes. */
  function UnmuteOutcome(before: map<Id, GuildRow>, ctx: Ctx, target: Member, reason: Option<string>, call: Api): (map<Id, GuildRow>, seq<Effect>) {
    var m := target.user;
    if call.Fails? then (before, [Raise(call.exc)])
    else
      var logged := ModLogOutcome(before, ctx.guild, MemberAction(ctx, m, "Member Unmuted", reason, Some("green")));
      (logged.0, [ClearTimeout(m.id), Reply(UnmutedText(m))] + logged.1)
  }

  /** `unmute` */
  method UnmuteCommand(store: Store, ctx: Ctx, target: Member, reason: Option<string>, call: Api) returns (effects: seq<Effect>)
    modifies store
    ensures (store.guilds, effects) == UnmuteOutcome(old(store.guilds), ctx, target, reason, call)
    ensures store.afk == old(store.afk)
  {
    var m := target.user;
    if call.Fails? {
      return [Raise(call.exc)];
    }
    var logged := LogModAction(store, ctx.guild, MemberAction(ctx, m, "Member Unmuted", reason, Some("green")));
    effects := [ClearTimeout(m.id), Reply(UnmutedText(m))] + logged;
  }

  /** Unlike `mute`, `unmute` ignores the hierarchy: even a target ranked
      above the caller has the timeout removed. */
  lemma UnmuteIgnoresHierarchy(before: map<Id, GuildRow>, ctx: Ctx, target: Member, reason: Option<string>)
    requires HierarchyRefuses(ctx, target)
    ensures SanctionOutcome(before, ctx, target, MuteMember, reason, Done).1 == [Reply(RefusalText(MuteMember, target.user))]
    ensures UnmuteOutcome(before, ctx, target, reason, Done).1[0] == ClearTimeout(target.user.id)
  {
  }

  // ---------------------------------------------------------------------
  // channelmute and channelunmute
  // ---------------------------------------------------------------------

  function NoManageText(c: Channel): string {
    ("I do not have " + "the permission " + "to manage " + "permissions for ") + ChannelMention(c.id) + "."
  }

  /** `channel or ctx.channel` */
  function ChosenChannel(ctx: Ctx, channel: Option<Channel>): Channel {
    if channel.Some? then channel.value else ctx.channel
  }

  function ChannelAction(ctx: Ctx, m: User, c: Channel, action: string, reason: Option<string>, color: string): ModAction {
    ModAction(ctx.user.user, action, None, Some(m), Some(c.id), reason, None, Some(color))
  }

  /** A failed `set_permissions`: `Forbidden` is answered, anything else
      escapes. */
  function ManageFailure(c: Channel, e: Exc): seq<Effect> {
    [if e == Forbidden then Reply(NoManageText(c)) else Raise(e)]
  }

  /** The success path of both commands: the overwrite, the reply, the
      log. */
  function OverwriteDone(before: map<Id, GuildRow>, ctx: Ctx, a: ModAction, made: Effect, text: string): (map<Id, GuildRow>, seq<Effect>) {
    var logged := ModLogOutcome(before, ctx.guild, a);
    (logged.0, [made, Reply(text)] + logged.1)
  }

  method ReportOverwrite(store: Store, ctx: Ctx, a: ModAction, made: Effect, text: string) returns (effects: seq<Effect>)
    modifies store
    ensures (store.guilds, effects) == OverwriteDone(old(store.guilds), ctx, a, made, text)
    ensures store.afk == old(store.afk)
  {
    var logged := LogModAction(store, ctx.guild, a);
    effects := [made, Reply(text)] + logged;
  }

  function AlreadyMutedText(m: User, c: Channel): string {
    "**" + Bold(m) + "** is already muted in " + ChannelMention(c.id) + "."
  }

  function NotMutedText(m: User, c: Channel): string {
    "**" + Bold(m) + "** is not muted in " + ChannelMention(c.id) + " yet."
  }

  /** The table after `channelmute` and what it does; `call` is the outcome
      of `set_permissions`. */
  function ChannelMuteOutcome(before: map<Id, GuildRow>, ctx: Ctx, target: Member, channel: Option<Channel>, reason: Option<string>, call: Api): (map<Id, GuildRow>, seq<Effect>) {
    var m := target.user;
    var c := ChosenChannel(ctx, channel);
    if HierarchyRefuses(ctx, target) then
      (before, [Reply(ChannelMuteRefusalText(m))])
    else if !CanSend(c, m.id) then
      (before, [Reply(AlreadyMutedText(m, c))])
    else if call.Fails? then
      (before, ManageFailure(c, call.exc))
    else
      OverwriteDone(before, ctx, ChannelAction(ctx, m, c, "Member Channel Muted", reason, "red"),
        DenySend(c.id, m.id), Bold(m) + " has been muted in " + ChannelMention(c.id) + "!")
  }

  /** `channelmute` */
  method ChannelMute(store: Store, ctx: Ctx, target: Member, channel: Option<Channel>, reason: Option<string>, call: Api) returns (effects: seq<Effect>)
    modifies store
    ensures (store.guilds, effects) == ChannelMuteOutcome(old(store.guilds), ctx, target, channel, reason, call)
    ensures store.afk == old(store.afk)
  {
    var m := target.user;
    if HierarchyRefuses(ctx, target) {
      return [Reply(ChannelMuteRefusalText(m))];
    }
    var c := ChosenChannel(ctx, channel);
    if !CanSend(c, m.id) {
      return [Reply(AlreadyMutedText(m, c))];
    }
    if call.Fails? {
      return ManageFailure(c, call.exc);
    }
    effects := ReportOverwrite(store, ctx, ChannelAction(ctx, m, c, "Member Channel Muted", reason, "red"),
      DenySend(c.id, m.id), Bold(m) + " has been muted in " + ChannelMention(c.id) + "!");
  }

  /** The table after `channelunmute` and what it does; there is no
      hierarchy guard. */
  function ChannelUnmuteOutcome(before: map<Id, GuildRow>, ctx: Ctx, target: Member, channel: Option<Channel>, reason: Option<string>, call: Api): (map<Id, GuildRow>, seq<Effect>) {
    var m := target.user;
    var c := ChosenChannel(ctx, channel);
    if CanSend(c, m.id) then
      (before, [Reply(NotMutedText(m, c))])
    else if call.Fails? then
      (before, ManageFailure(c, call.exc))
    else
      OverwriteDone(before, ctx, ChannelAction(ctx, m, c, "Member Channel Unmuted", reason, "green"),
        ClearOverwrite(c.id, m.id), Bold(m) + " has been unmuted in " + ChannelMention(c.id) + "!")
  }

  /** `channelunmute` */
  method ChannelUnmute(store: Store, ctx: Ctx, target: Member, channel: Option<Channel>, reason: Option<string>, call: Api) returns (effects: seq<Effect>)
    modifies store
    ensures (store.guilds, effects) == ChannelUnmuteOutcome(old(store.guilds), ctx, target, channel, reason, call)
    ensures store.afk == old(store.afk)
  {
    var m := target.user;
    var c := ChosenChannel(ctx, channel);
    if CanSend(c, m.id) {
      return [Reply(NotMutedText(m, c))];
    }
    if call.Fails? {
      return ManageFailure(c, call.exc);
    }
    effects := ReportOverwrite(store, ctx, ChannelAction(ctx, m, c, "Member Channel Unmuted", reason, "green"),
      ClearOverwrite(c.id, m.id), Bold(m) + " has been unmuted in " + ChannelMention(c.id) + "!");
  }

  /** The overwrite `channelmute` writes: it replaces whatever the member
      had with one that allows reading and denies sending. */
  const MuteOverwrite: MemberOverwrite := MemberOverwrite(Some(true), Some(false))

  /** What one effect does to a channel's overwrites: `DenySend` replaces
      the member's overwrite, `ClearOverwrite` deletes it. */
  function Overwrite(c: Channel, e: Effect): Channel {
    match e
    case DenySend(ch, u) => if ch == c.id then c.(overwrites := c.overwrites[u := MuteOverwrite]) else c
    case ClearOverwrite(ch, u) => if ch == c.id then c.(overwrites := c.overwrites - {u}) else c
    case _ => c
  }

  /** What a channel's overwrites become after the effects of a handler. */
  function Overwritten(c: Channel, eff: seq<Effect>): (r: Channel)
    ensures r.id == c.id && r.name == c.name && r.isText == c.isText
    ensures r.exempt == c.exempt && r.roleSend == c.roleSend
    decreases |eff|
  {
    if eff == [] then c else Overwritten(Overwrite(c, eff[0]), eff[1..])
  }

  lemma {:induction false} OverwrittenAppend(c: Channel, e1: seq<Effect>, e2: seq<Effect>)
    ensures Overwritten(c, e1 + e2) == Overwritten(Overwritten(c, e1), e2)
    decreases |e1|
  {
    if e1 == [] {
      assert e1 + e2 == e2;
    } else {
      assert (e1 + e2)[0] == e1[0];
      assert (e1 + e2)[1..] == e1[1..] + e2;
      OverwrittenAppend(Overwrite(c, e1[0]), e1[1..], e2);
    }
  }

  /** The effects of a success path, in overwrite terms: only the first
      one writes. */
  lemma {:induction false} OverwriteDoneWrites(c: Channel, before: map<Id, GuildRow>, ctx: Ctx, a: ModAction, made: Effect, text: string)
    ensures Overwritten(c, OverwriteDone(before, ctx, a, made, text).1) == Overwrite(c, made)
  {
    var logged := ModLogOutcome(before, ctx.guild, a).1;
    var eff := [made, Reply(text)] + logged;
    assert OverwriteDone(before, ctx, a, made, text).1 == eff;
    OverwrittenAppend(c, [made, Reply(text)], logged);
    var c1 := Overwrite(c, made);
    assert [made, Reply(text)][1..] == [Reply(text)];
    assert Overwritten(c, [made, Reply(text)]) == Overwritten(c1, [Reply(text)]);
    assert [Reply(text)][1..] == [];
    assert Overwritten(c1, [Reply(text)]) == Overwritten(c1, []);
    LogPostsAtMostOnce(before, ctx.guild, a);
    if logged != [] {
      assert logged[1..] == [];
      assert Overwritten(c1, logged) == Overwritten(Overwrite(c1, logged[0]), []);
    }
  }

  /** A successful channel mute of a member no overwrite restricts,
      followed by a successful channel unmute in the same channel: the
      member cannot send in between, and afterwards the channel is as it
      was except that the member has no overwrite of their own, so one they
      had before is lost and sending is again up to their roles. */
  lemma {:induction false} ChannelMuteThenUnmute(before: map<Id, GuildRow>, ctx: Ctx, target: Member, c: Channel, r1: Option<string>, r2: Option<string>)
    requires !HierarchyRefuses(ctx, target) && CanSend(c, target.user.id)
    requires target.user.id !in c.exempt
    ensures var (mid, eff1) := ChannelMuteOutcome(before, ctx, target, Some(c), r1, Done);
      var c1 := Overwritten(c, eff1);
      !CanSend(c1, target.user.id) &&
      var eff2 := ChannelUnmuteOutcome(mid, ctx, target, Some(c1), r2, Done).1;
      var c2 := Overwritten(c1, eff2);
      c2 == c.(overwrites := c.overwrites - {target.user.id}) &&
      (CanSend(c2, target.user.id) <==> target.user.id in c.roleSend)
  {
    var m := target.user;
    var (mid, eff1) := ChannelMuteOutcome(before, ctx, target, Some(c), r1, Done);
    OverwriteDoneWrites(c, before, ctx, ChannelAction(ctx, m, c, "Member Channel Muted", r1, "red"),
      DenySend(c.id, m.id), Bold(m) + " has been muted in " + ChannelMention(c.id) + "!");
    var c1 := c.(overwrites := c.overwrites[m.id := MuteOverwrite]);
    assert Overwritten(c, eff1) == c1;
    OverwriteDoneWrites(c1, mid, ctx, ChannelAction(ctx, m, c1, "Member Channel Unmuted", r2, "green"),
      ClearOverwrite(c1.id, m.id), Bold(m) + " has been unmuted in " + ChannelMention(c1.id) + "!");
    assert c1.overwrites - {m.id} == c.overwrites - {m.id};
  }

  /** For a member without an overwrite of their own, mute then unmute
      gives back the channel exactly. */
  lemma ChannelMuteThenUnmuteRestores(before: map<Id, GuildRow>, ctx: Ctx, target: Member, c: Channel, r1: Option<string>, r2: Option<string>)
    requires !HierarchyRefuses(ctx, target) && CanSend(c, target.user.id)
    requires target.user.id !in c.exempt && target.user.id !in c.overwrites
    ensures var (mid, eff1) := ChannelMuteOutcome(before, ctx, target, Some(c), r1, Done);
      var c1 := Overwritten(c, eff1);
      Overwritten(c1, ChannelUnmuteOutcome(mid, ctx, target, Some(c1), r2, Done).1) == c
  {
    ChannelMuteThenUnmute(before, ctx, target, c, r1, r2);
    assert c.overwrites - {target.user.id} == c.overwrites;
  }

  /** A member whose own overwrite let them send past a role denial can no
      longer send after mute then unmute. */
  lemma ChannelUnmuteLosesOwnAllow(before: map<Id, GuildRow>, ctx: Ctx, target: Member, c: Channel, r1: Option<string>, r2: Option<string>)
    requires !HierarchyRefuses(ctx, target)
    requires target.user.id !in c.exempt && target.user.id !in c.roleSend
    requires target.user.id in c.overwrites && c.overwrites[target.user.id].sendMessages == Some(true)
    ensures CanSend(c, target.user.id)
    ensures var (mid, eff1) := ChannelMuteOutcome(before, ctx, target, Some(c), r1, Done);
      var c1 := Overwritten(c, eff1);
      !CanSend(Overwritten(c1, ChannelUnmuteOutcome(mid, ctx, target, Some(c1), r2, Done).1), target.user.id)
  {
    ChannelMuteThenUnmute(before, ctx, target, c, r1, r2);
  }

  /** The owner or a holder of Administrator, when the hierarchy guard
      lets the command through, is "muted" (the overwrite is written, the reply and the log are sent)
      yet can still send, and `channelunmute` then answers that the member
      is not muted and leaves the overwrite in place. */
  lemma ChannelMuteOfExemptMember(before: map<Id, GuildRow>, ctx: Ctx, target: Member, c: Channel, r1: Option<string>, r2: Option<string>)
    requires !HierarchyRefuses(ctx, target) && target.user.id in c.exempt
    ensures var (mid, eff1) := ChannelMuteOutcome(before, ctx, target, Some(c), r1, Done);
      var c1 := Overwritten(c, eff1);
      eff1[0] == DenySend(c.id, target.user.id) && CanSend(c1, target.user.id) &&
      ChannelUnmuteOutcome(mid, ctx, target, Some(c1), r2, Done) == (mid, [Reply(NotMutedText(target.user, c1))])
  {
    var m := target.user;
    OverwriteDoneWrites(c, before, ctx, ChannelAction(ctx, m, c, "Member Channel Muted", r1, "red"),
      DenySend(c.id, m.id), Bold(m) + " has been muted in " + ChannelMention(c.id) + "!");
  }

  /** Each guard refuses with a reply and nothing else: a member who
      already cannot send is not muted again. */
  lemma ChannelMuteGuardIsInert(before: map<Id, GuildRow>, ctx: Ctx, target: Member, channel: Option<Channel>, reason: Option<string>, call: Api)
    requires !CanSend(ChosenChannel(ctx, channel), target.user.id)
    ensures var (after, eff) := ChannelMuteOutcome(before, ctx, target, channel, reason, call);
      after == before && |eff| == 1 && eff[0].Reply?
  {
  }

  /** A refused channel mute replies with its own text, which differs from
      the one `mute` sends, and writes nothing. */
  lemma ChannelMuteRefusal(before: map<Id, GuildRow>, ctx: Ctx, target: Member, channel: Option<Channel>, reason: Option<string>, call: Api)
    requires HierarchyRefuses(ctx, target)
    ensures ChannelMuteOutcome(before, ctx, target, channel, reason, call) ==
      (before, [Reply(ChannelMuteRefusalText(target.user))])
    ensures ChannelMuteRefusalText(target.user) != RefusalText(MuteMember, target.user)
  {
    var m := target.user;
    var k := |"You cannot mute " + Bold(m) + ". Make sure you have a role higher than the "|;
    assert ChannelMuteRefusalText(m)[k] == 'm';
    assert RefusalText(MuteMember, m)[k] == 'p';
  }

  /** A member who can send is not unmuted. */
  lemma ChannelUnmuteGuardIsInert(before: map<Id, GuildRow>, ctx: Ctx, target: Member, channel: Option<Channel>, reason: Option<string>, call: Api)
    requires CanSend(ChosenChannel(ctx, channel), target.user.id)
    ensures ChannelUnmuteOutcome(before, ctx, target, channel, reason, call) ==
      (before, [Reply(NotMutedText(target.user, ChosenChannel(ctx, channel)))])
  {
  }

  // ---------------------------------------------------------------------
  // clear
  // ---------------------------------------------------------------------

  const BadAmountText := ("The number of " + "messages can be " + "between 1 and " + "100 only.")

  /** A failed purge: a missing permission is explained, anything else escapes. */
  function PurgeFailure(e: Exc): Effect {
    if e == Forbidden then Reply(("I do not have " + "permission to " + "delete messages " + "in this channel.")) else Raise(e)
  }

  /** The check mark the bot posts after a purge. */
  const CheckMark := "\U{2705}"

  /** The table after `clear` and what it does; `purge` is the outcome of
      the purge call. */
  function ClearOutcome(before: map<Id, GuildRow>, ctx: Ctx, amount: int, purge: Api): (map<Id, GuildRow>, seq<Effect>) {
    var c := ctx.channel.id;
    if !(1 <= amount <= 100) then
      (before, [Reply(BadAmountText)])
    else if purge.Fails? then
      (before, [DeleteResponse, PurgeFailure(purge.exc)])
    else
      var logged := ModLogOutcome(before, ctx.guild, ModAction(ctx.user.user, "Messages Cleared", None, None, Some(c), None, Some(amount), Some("red")));
      (logged.0, [DeleteResponse, Purge(c, amount), Send(c, CheckMark)] + logged.1)
  }

  /** `clear` */
  method ClearCommand(store: Store, ctx: Ctx, amount: int, purge: Api) returns (effects: seq<Effect>)
    modifies store
    ensures (store.guilds, effects) == ClearOutcome(old(store.guilds), ctx, amount, purge)
    ensures store.afk == old(store.afk)
  {
    var c := ctx.channel.id;
    if 1 <= amount <= 100 {
      if purge.Fails? {
        return [DeleteResponse, PurgeFailure(purge.exc)];
      }
      var logged := LogModAction(store, ctx.guild, ModAction(ctx.user.user, "Messages Cleared", None, None, Some(c), None, Some(amount), Some("red")));
      effects := [DeleteResponse, Purge(c, amount), Send(c, CheckMark)] + logged;
    } else {
      effects := [Reply(BadAmountText)];
    }
  }

  /** A purge is requested exactly for an amount from 1 to 100, and then
      for that many messages; any other amount changes nothing. */
  lemma {:induction false} ClearBounds(before: map<Id, GuildRow>, ctx: Ctx, amount: int, purge: Api)
    ensures var (after, eff) := ClearOutcome(before, ctx, amount, purge);
      (exists i :: 0 <= i < |eff| && eff[i].Purge?) <==> (1 <= amount <= 100 && purge == Done)
    ensures var (after, eff) := ClearOutcome(before, ctx, amount, purge);
      forall i :: 0 <= i < |eff| && eff[i].Purge? ==> eff[i].limit == amount && eff[i].channel == ctx.channel.id
    ensures !(1 <= amount <= 100) ==> ClearOutcome(before, ctx, amount, purge).0 == before
  {
    var (after, eff) := ClearOutcome(before, ctx, amount, purge);
    var c := ctx.channel.id;
    if 1 <= amount <= 100 && purge == Done {
      var logged := ModLogOutcome(before, ctx.guild, ModAction(ctx.user.user, "Messages Cleared", None, None, Some(c), None, Some(amount), Some("red")));
      assert eff == [DeleteResponse, Purge(c, amount), Send(c, CheckMark)] + logged.1;
      assert eff[1].Purge?;
      assert forall i :: 0 <= i < |logged.1| ==> logged.1[i].Post?;
      assert forall i :: 3 <= i < |eff| ==> eff[i] == logged.1[i - 3];
    }
  }

  // ---------------------------------------------------------------------
  // announce
  // ---------------------------------------------------------------------

  /** The `mention` choice of `announce`. */
  datatype Ping = Everyone | Here | NoPing

  function PingPrefix(p: Ping): string {
    match p
    case Everyone => "@everyone "
    case Here => "@here "
    case NoPing => ""
  }

  /** The announced message. */
  function AnnounceText(p: Ping, text: string): (r: string)
    ensures |r| == |PingPrefix(p)| + |text|
    ensures r[|PingPrefix(p)|..] == text
  {
    PingPrefix(p) + text
  }

  /** `announce`: `text` is what was entered in the modal. */
  function AnnounceEffects(ctx: Ctx, channel: Channel, p: Ping, text: string): (eff: seq<Effect>)
    ensures CanSend(channel, ctx.guild.me.user.id) ==>
      |eff| == 2 && eff[0].Send? && eff[0].channel == channel.id && eff[0].text == AnnounceText(p, text)
    ensures !CanSend(channel, ctx.guild.me.user.id) ==> |eff| == 1 && eff[0].Reply?
  {
    if CanSend(channel, ctx.guild.me.user.id) then
      [Send(channel.id, AnnounceText(p, text)), Reply(("The " + "announcement " + "has been made " + "in ") + ChannelMention(channel.id) + ".")]
    else
      [Reply(("I do not have " + "permission to " + "send messages " + "in ") + ChannelMention(channel.id) + ".")]
  }

  /** The three choices give three different messages for the same text,
      each ending with the text as entered. */
  lemma PingsDiffer(text: string)
    ensures AnnounceText(Everyone, text) != AnnounceText(Here, text)
    ensures AnnounceText(Here, text) != AnnounceText(NoPing, text)
    ensures AnnounceText(Everyone, text) != AnnounceText(NoPing, text)
  {
    assert |AnnounceText(Everyone, text)| == |text| + 10;
    assert |AnnounceText(Here, text)| == |text| + 6;
  }

  /** `announce` carries no permission check, so a caller without Manage
      Server, whom `announce_perms_check` would refuse, still has the
      announcement sent. */
  lemma AnnounceUnchecked(ctx: Ctx, channel: Channel, p: Ping, text: string)
    requires !ctx.user.perms.manageGuild && CanSend(channel, ctx.guild.me.user.id)
    ensures AnnouncePermsCheck(ctx) != Pass
    ensures AnnounceEffects(ctx, channel, p, text)[0] == Send(channel.id, AnnounceText(p, text))
  {
  }

  /** `announce` with `announce_perms_check` applied, as every other
      command applies its check: a failing check stops the command before
      its body runs, so it has no effects here. */
  function AnnounceChecked(ctx: Ctx, channel: Channel, p: Ping, text: string): (eff: seq<Effect>)
    ensures |eff| <= 2
  {
    if AnnouncePermsCheck(ctx) == Pass then AnnounceEffects(ctx, channel, p, text) else []
  }

  /** With the check applied, an announcement is sent only for a caller
      holding Manage Server, and for such a caller the command is
      unchanged. */
  lemma AnnounceCheckedNeedsManageServer(ctx: Ctx, channel: Channel, p: Ping, text: string)
    ensures (exists i :: 0 <= i < |AnnounceChecked(ctx, channel, p, text)| && AnnounceChecked(ctx, channel, p, text)[i].Send?)
      ==> ctx.user.perms.manageGuild
    ensures ctx.user.perms.manageGuild ==> AnnounceChecked(ctx, channel, p, text) == AnnounceEffects(ctx, channel, p, text)
  {
  }

  // ---------------------------------------------------------------------
  // unban
  // ---------------------------------------------------------------------

  /** What the loop variable `member` holds: the argument as text, the
      argument as a number, or the user fetched for that number. */
  datatype Sought = ByName(name: string) | ById(n: nat) | Fetched(user: User)

  /** `int(member)`, kept as a string when it fails. */
  function ParseTarget(arg: string): (r: Sought)
    ensures r.ByName? || r.ById?
    ensures r.ById? <==> ParseInt(arg).Some?
  {
    match ParseInt(arg)
    case Some(n) => ById(n)
    case None => ByName(arg)
  }

  /** How the loop ends: an entry is unbanned (shown by `shown`, logged
      with `color`), the `for-else` reply, or a `break` with nothing. */
  datatype Resolution = Unbanned(user: User, shown: string, color: Option<string>) | NoneFound | FetchFailed

  /** The first index from `k` on whose user has this name. */
  function FirstNamed(bans: seq<BanEntry>, name: string, k: nat): (r: Option<nat>)
    ensures r.Some? ==> k <= r.value < |bans| && bans[r.value].user.name == name
    ensures r.Some? ==> forall j :: k <= j < r.value ==> bans[j].user.name != name
    ensures r.None? ==> forall j :: k <= j < |bans| ==> bans[j].user.name != name
    decreases |bans| - k
  {
    if k >= |bans| then None
    else if bans[k].user.name == name then Some(k)
    else FirstNamed(bans, name, k + 1)
  }

  /** The unban loop as written; `users` is what `fetch_user` can find. */
  function UnbanResolve(bans: seq<BanEntry>, arg: string, users: map<Id, User>): Resolution {
    match ParseTarget(arg)
    case ByName(name) =>
      var i := FirstNamed(bans, name, 0);
      if i.Some? then Unbanned(bans[i.value].user, name, None) else NoneFound
    case ById(n) =>
      if bans == [] then NoneFound
      else if n !in users then FetchFailed
      else if bans[0].user.id == users[n].id then Unbanned(bans[0].user, users[n].name, Some("green"))
      else NoneFound
    case Fetched(_) => NoneFound
  }

  const NoBannedText := ("No such banned " + "user found.")

  function UnbannedText(shown: string): string {
    "**" + shown + "** has been unbanned!"
  }

  /** The table after `unban` and what it does. */
  function UnbanOutcome(before: map<Id, GuildRow>, ctx: Ctx, res: Resolution, reason: Option<string>): (map<Id, GuildRow>, seq<Effect>) {
    match res
    case NoneFound => (before, [Reply(NoBannedText)])
    case FetchFailed => (before, [])
    case Unbanned(u, shown, color) =>
      var logged := ModLogOutcome(before, ctx.guild, MemberAction(ctx, u, "Member Unbanned", reason, color));
      (logged.0, [Unban(u.id), Reply(UnbannedText(shown))] + logged.1)
  }

  /** Unbans `user`, replies and logs. */
  method UnbanEntry(store: Store, ctx: Ctx, user: User, shown: string, color: Option<string>, reason: Option<string>) returns (effects: seq<Effect>)
    modifies store
    ensures (store.guilds, effects) == UnbanOutcome(old(store.guilds), ctx, Unbanned(user, shown, color), reason)
    ensures store.afk == old(store.afk)
  {
    var logged := LogModAction(store, ctx.guild, MemberAction(ctx, user, "Member Unbanned", reason, color));
    effects := [Unban(user.id), Reply(UnbannedText(shown))] + logged;
  }

  /** `unban`: walks the ban list, reassigning `member` to the fetched user
      on the first numeric iteration. */
  method UnbanCommand(store: Store, ctx: Ctx, arg: string, bans: seq<BanEntry>, users: map<Id, User>, reason: Option<string>) returns (effects: seq<Effect>)
    modifies store
    ensures (store.guilds, effects) == UnbanOutcome(old(store.guilds), ctx, UnbanResolve(bans, arg, users), reason)
    ensures store.afk == old(store.afk)
  {
    var first := ParseTarget(arg);
    var member := first;
    var broke := false;
    var i := 0;
    while i < |bans|
      invariant 0 <= i <= |bans|
      invariant store.guilds == old(store.guilds) && store.afk == old(store.afk)
      invariant first.ByName? ==> member == first && FirstNamed(bans, first.name, i) == FirstNamed(bans, first.name, 0)
      invariant first.ById? && i == 0 ==> member == first
      invariant first.ById? && i > 0 ==> first.n in users && member == Fetched(users[first.n]) && bans[0].user.id != users[first.n].id
    {
      var user := bans[i].user;
      if member.ByName? {
        if user.name == member.name {
          effects := UnbanEntry(store, ctx, user, member.name, None, reason);
          return;
        }
      } else if member.ById? {
        if member.n !in users {
          broke := true;
          break;
        }
        member := Fetched(users[member.n]);
        if user.id == member.user.id {
          effects := UnbanEntry(store, ctx, user, member.user.name, Some("green"), reason);
          return;
        }
      } else {
        i := i + 1;
        continue;
      }
      i := i + 1;
    }
    if broke {
      effects := [];
    } else {
      effects := [Reply(NoBannedText)];
    }
  }

  /** By name, the first entry with that name is unbanned and the search
      stops there; with no such entry the reply says so. */
  lemma UnbanByNameFirstMatch(bans: seq<BanEntry>, arg: string, users: map<Id, User>)
    requires ParseInt(arg).None?
    ensures var r := UnbanResolve(bans, arg, users);
      (r.Unbanned? <==> exists j :: 0 <= j < |bans| && bans[j].user.name == arg) &&
      (r.Unbanned? ==> r.user.name == arg) &&
      (r.Unbanned? ==> exists j :: 0 <= j < |bans| && bans[j].user == r.user && (forall k :: 0 <= k < j ==> bans[k].user.name != arg)) &&
      (!r.Unbanned? ==> r == NoneFound)
  {
  }

  /** By id, only the first ban entry is ever compared: a match further
      down the list is reported as not found. */
  lemma UnbanByIdComparesOnlyFirstEntry(bans: seq<BanEntry>, arg: string, users: map<Id, User>)
    requires ParseInt(arg).Some? && ParseInt(arg).value in users
    requires |bans| >= 2 && bans[0].user.id != users[ParseInt(arg).value].id
    requires bans[1].user.id == users[ParseInt(arg).value].id
    ensures UnbanResolve(bans, arg, users) == NoneFound
  {
  }

  /** An id `fetch_user` cannot find breaks out of the loop, which skips
      the `for-else`: nothing is replied or logged. */
  lemma UnknownIdGetsNoReply(before: map<Id, GuildRow>, ctx: Ctx, bans: seq<BanEntry>, arg: string, users: map<Id, User>, reason: Option<string>)
    requires ParseInt(arg).Some? && ParseInt(arg).value !in users && bans != []
    ensures UnbanOutcome(before, ctx, UnbanResolve(bans, arg, users), reason) == (before, [])
  {
  }

  /** An unban by name is logged without a colour, so with a moderation log
      channel configured the handler ends in `TypeError` after the unban
      and the reply, and the case counter does not move. */
  lemma UnbanByNameLogRaises(before: map<Id, GuildRow>, ctx: Ctx, bans: seq<BanEntry>, arg: string, users: map<Id, User>, reason: Option<string>)
    requires ParseInt(arg).None? && TruthyId(ModLogOf(before, ctx.guild.id))
    requires UnbanResolve(bans, arg, users).Unbanned?
    ensures var (after, eff) := UnbanOutcome(before, ctx, UnbanResolve(bans, arg, users), reason);
      after == before && |eff| == 3 && eff[0].Unban? && eff[2] == Raise(TypeError)
  {
  }

  /** The lookup the command evidently intends: fetch the user once, then
      unban the first entry for that user, whichever its position; by name
      the entry is logged with the same colour as by id. */
  function UnbanResolveIntended(bans: seq<BanEntry>, arg: string, users: map<Id, User>): (r: Resolution)
    ensures r.Unbanned? ==> r.color == Some("green")
  {
    match ParseTarget(arg)
    case ByName(name) =>
      var i := FirstNamed(bans, name, 0);
      if i.Some? then Unbanned(bans[i.value].user, name, Some("green")) else NoneFound
    case ById(n) =>
      if bans == [] then NoneFound
      else if n !in users then FetchFailed
      else
        var i := FirstWithId(bans, users[n].id, 0);
        if i.Some? then Unbanned(bans[i.value].user, users[n].name, Some("green")) else NoneFound
    case Fetched(_) => NoneFound
  }

  /** The first index from `k` on whose user has this id. */
  function FirstWithId(bans: seq<BanEntry>, id: Id, k: nat): (r: Option<nat>)
    ensures r.Some? ==> k <= r.value < |bans| && bans[r.value].user.id == id
    ensures r.None? ==> forall j :: k <= j < |bans| ==> bans[j].user.id != id
    decreases |bans| - k
  {
    if k >= |bans| then None
    else if bans[k].user.id == id then Some(k)
    else FirstWithId(bans, id, k + 1)
  }

  /** With the intended lookup, a known id is unbanned exactly when some
      ban entry is for that user. */
  lemma UnbanIntendedFindsAnyEntry(bans: seq<BanEntry>, arg: string, users: map<Id, User>)
    requires ParseInt(arg).Some? && ParseInt(arg).value in users && bans != []
    ensures var r := UnbanResolveIntended(bans, arg, users);
      var want := users[ParseInt(arg).value].id;
      (r.Unbanned? <==> exists j :: 0 <= j < |bans| && bans[j].user.id == want) &&
      (r.Unbanned? ==> r.user.id == want)
  {
  }

  /** On the entry the original loop does compare, the two agree. */
  lemma UnbanIntendedAgreesOnFirstEntry(bans: seq<BanEntry>, arg: string, users: map<Id, User>)
    requires ParseInt(arg).Some? && ParseInt(arg).value in users && bans != []
    requires bans[0].user.id == users[ParseInt(arg).value].id
    ensures UnbanResolveIntended(bans, arg, users) == UnbanResolve(bans, arg, users)
  {
  }
}
