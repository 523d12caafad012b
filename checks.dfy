/** The permission predicates of utils/checks.py. Each returns True or
    raises `CheckFailure` with a fixed message; here the result is `Pass` or
    `CheckFailure(message)`, so "never returns False" is the shape of the
    type. */
module Checks {
  import opened Discord

  datatype CheckResult = Pass | CheckFailure(message: string)

  function BotNeeds(perm: string): string {
    "I need the **" + perm + "** permission in this server to perform this action."
  }

  function UserNeeds(perm: string): string {
    "You need the **" + perm + "** permission in this server to perform this action."
  }

  /** The shape shared by the kick, ban, mute, clear and roles checks: the
      bot's permission first, then the user's. */
  function BotThenUser(bot: bool, user: bool, perm: string): (r: CheckResult)
    ensures r == Pass <==> bot && user
    ensures !bot ==> r == CheckFailure(BotNeeds(perm))
    ensures bot && !user ==> r == CheckFailure(UserNeeds(perm))
  {
    if !bot then CheckFailure(BotNeeds(perm))
    else if !user then CheckFailure(UserNeeds(perm))
    else Pass
  }

  /** The shape of the channel-mute, announce and settings checks: the
      user's permission only. */
  function UserOnly(user: bool, perm: string): (r: CheckResult)
    ensures r == Pass <==> user
    ensures !user ==> r == CheckFailure(UserNeeds(perm))
  {
    if !user then CheckFailure(UserNeeds(perm)) else Pass
  }

  /** `afk_perms_check`: the bot's Manage Nicknames only. */
  function AfkPermsCheck(ctx: Ctx): (r: CheckResult)
    ensures r == Pass <==> ctx.guild.me.perms.manageNicknames
    ensures r != Pass ==> r == CheckFailure(BotNeeds("Manage Nicknames"))
  {
    if !ctx.guild.me.perms.manageNicknames then CheckFailure(BotNeeds("Manage Nicknames")) else Pass
  }

  function KickPermsCheck(ctx: Ctx): (r: CheckResult)
    ensures r == Pass <==> ctx.guild.me.perms.kickMembers && ctx.user.perms.kickMembers
  {
    BotThenUser(ctx.guild.me.perms.kickMembers, ctx.user.perms.kickMembers, "Kick Members")
  }

  function BanPermsCheck(ctx: Ctx): (r: CheckResult)
    ensures r == Pass <==> ctx.guild.me.perms.banMembers && ctx.user.perms.banMembers
  {
    BotThenUser(ctx.guild.me.perms.banMembers, ctx.user.perms.banMembers, "Ban Members")
  }

  function MutePermsCheck(ctx: Ctx): (r: CheckResult)
    ensures r == Pass <==> ctx.guild.me.perms.moderateMembers && ctx.user.perms.moderateMembers
  {
    BotThenUser(ctx.guild.me.perms.moderateMembers, ctx.user.perms.moderateMembers, "Moderate Members")
  }

  function ChannelMutePermsCheck(ctx: Ctx): (r: CheckResult)
    ensures r == Pass <==> ctx.user.perms.moderateMembers
  {
    UserOnly(ctx.user.perms.moderateMembers, "Moderate Members")
  }

  const WarnFailure: string :=
    "You need the **Kick Members** or **Ban Members** permission in this server to perform this action."

  /** `warn_perms_check` as written: `not kick or not ban` raises, so the
      user needs BOTH permissions although the message says "or". */
  function WarnPermsCheck(ctx: Ctx): (r: CheckResult)
    ensures r == Pass <==> ctx.user.perms.kickMembers && ctx.user.perms.banMembers
    ensures r != Pass ==> r == CheckFailure(WarnFailure)
  {
    if !ctx.user.perms.kickMembers || !ctx.user.perms.banMembers then CheckFailure(WarnFailure) else Pass
  }

  /** The warn check its message describes: either permission suffices. */
  function WarnPermsCheckEither(ctx: Ctx): (r: CheckResult)
    ensures r == Pass <==> ctx.user.perms.kickMembers || ctx.user.perms.banMembers
    ensures r != Pass ==> r == CheckFailure(WarnFailure)
  {
    if !ctx.user.perms.kickMembers && !ctx.user.perms.banMembers then CheckFailure(WarnFailure) else Pass
  }

  /** A moderator holding Kick Members but not Ban Members is refused by the
      check as written, with a message saying that either would do, and
      passes the check that message describes. */
  lemma WarnCheckRefusesKickOnly(ctx: Ctx)
    requires ctx.user.perms.kickMembers && !ctx.user.perms.banMembers
    ensures WarnPermsCheck(ctx) == CheckFailure(WarnFailure)
    ensures WarnPermsCheckEither(ctx) == Pass
  {
  }

  function ClearPermsCheck(ctx: Ctx): (r: CheckResult)
    ensures r == Pass <==> ctx.guild.me.perms.manageMessages && ctx.user.perms.manageMessages
  {
    BotThenUser(ctx.guild.me.perms.manageMessages, ctx.user.perms.manageMessages, "Manage Messages")
  }

  function AnnouncePermsCheck(ctx: Ctx): (r: CheckResult)
    ensures r == Pass <==> ctx.user.perms.manageGuild
  {
    UserOnly(ctx.user.perms.manageGuild, "Manage Server")
  }

  function RolesPermsCheck(ctx: Ctx): (r: CheckResult)
    ensures r == Pass <==> ctx.guild.me.perms.manageRoles && ctx.user.perms.manageRoles
  {
    BotThenUser(ctx.guild.me.perms.manageRoles, ctx.user.perms.manageRoles, "Manage Roles")
  }

  function SettingsPermsCheck(ctx: Ctx): (r: CheckResult)
    ensures r == Pass <==> ctx.user.perms.manageGuild
  {
    UserOnly(ctx.user.perms.manageGuild, "Manage Server")
  }

  /** The channel-mute, announce and settings checks give the same answer
      for any two invocations by users with the same permissions, whatever
      the bot may do; the AFK check, for any two with the same bot
      permission, whoever invokes it. */
  lemma ChecksLookOnlyWhereTheySay(a: Ctx, b: Ctx)
    ensures a.user.perms == b.user.perms ==>
      ChannelMutePermsCheck(a) == ChannelMutePermsCheck(b) &&
      AnnouncePermsCheck(a) == AnnouncePermsCheck(b) &&
      SettingsPermsCheck(a) == SettingsPermsCheck(b) &&
      WarnPermsCheck(a) == WarnPermsCheck(b)
    ensures a.guild.me.perms.manageNicknames == b.guild.me.perms.manageNicknames ==>
      AfkPermsCheck(a) == AfkPermsCheck(b)
  {
  }

  /** When neither holds the permission, the bot's message is the one
      raised, because the bot is checked first. */
  lemma BotCheckedFirst(ctx: Ctx)
    requires !ctx.guild.me.perms.kickMembers && !ctx.user.perms.kickMembers
    ensures KickPermsCheck(ctx) == CheckFailure(BotNeeds("Kick Members"))
  {
  }
}
