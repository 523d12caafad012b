/** The Discord objects the handlers read, as plain values, and the side
    effects they cause, as entries of an event log. Every call into the Discord
    client library becomes one `Effect`; an exception that escapes a handler
    ends its log with `Raise`. */
module Discord {
  import opened Base

  /** The guild-level permission flags the checks and handlers consult. */
  datatype Perms = Perms(
    kickMembers: bool,
    banMembers: bool,
    moderateMembers: bool,
    manageMessages: bool,
    manageGuild: bool,
    manageRoles: bool,
    manageNicknames: bool)

  /** A user account; `displayName` is the account-wide display name. */
  datatype User = User(id: Id, name: string, displayName: string)

  /** A member of one guild: `displayName` is the guild nickname if set,
      `roles` the ids of the roles held, `topRole` the position of the
      highest of them. */
  datatype Member = Member(user: User, displayName: string, roles: set<Id>, topRole: int, perms: Perms)

  /** A member's own permission overwrite in a channel: for View Channel
      and Send Messages, an explicit allow (`Some(true)`), an explicit deny
      (`Some(false)`) or no setting (`None`). */
  datatype MemberOverwrite = MemberOverwrite(viewChannel: Option<bool>, sendMessages: Option<bool>)

  /** A guild channel. Whether a member may send there is decided in three
      layers: `exempt` holds the members no overwrite restricts (the owner
      and holders of Administrator); otherwise the member's own overwrite in
      `overwrites` decides when it sets Send Messages; otherwise `roleSend`
      holds the members whom their roles, with the role and @everyone
      overwrites of the channel, let send. */
  datatype Channel = Channel(id: Id, name: string, isText: bool, exempt: set<Id>,
                             overwrites: map<Id, MemberOverwrite>, roleSend: set<Id>)

  /** `channel.permissions_for(member).send_messages` */
  predicate CanSend(c: Channel, memberId: Id) {
    if memberId in c.exempt then true
    else if memberId in c.overwrites && c.overwrites[memberId].sendMessages.Some? then
      c.overwrites[memberId].sendMessages.value
    else memberId in c.roleSend
  }

  /** A role; `str(role)` is its name. */
  datatype Role = Role(id: Id, name: string)

  /** A guild as the bot's cache sees it: `me` is the bot's own member. */
  datatype Guild = Guild(
    id: Id,
    ownerId: Id,
    me: Member,
    channels: map<Id, Channel>,
    roles: set<Id>,
    members: map<Id, Member>,
    memberCount: nat)

  /** An application-command interaction: who invoked it, where. */
  datatype Ctx = Ctx(guild: Guild, user: Member, channel: Channel)

  /** A message delivered to the gateway listeners; `hasUrl` is the outcome
      of searching its content with the automod URL pattern. */
  datatype Message = Message(author: Member, mentions: seq<Member>, hasUrl: bool)

  /** A ban entry of the guild's ban list. */
  datatype BanEntry = BanEntry(user: User)

  /** Outcome of a library call whose exception the source catches. */
  datatype Api = Done | Fails(exc: Exc)

  /** A role colour: a named `discord.Colour` preset such as `dark_red`, or
      the 24-bit value parsed from a hex code. */
  datatype Colour = Preset(name: string) | Hex(value: nat)

  datatype Field = Field(name: string, value: string)

  datatype Embed = Embed(title: string, description: Option<string>, fields: seq<Field>)

  datatype Effect =
    | Reply(text: string)                  // the interaction's response, or a reply to a message
    | Send(channel: Id, text: string)      // a message sent to a channel
    | Post(channel: Id, embed: Embed)      // an embed sent to a channel
    | DirectMessage(user: Id, text: string)
    | DeleteMessage                        // `message.delete()`
    | SuppressEmbeds                       // `message.edit(suppress=True)`
    | Rename(user: Id, nick: string)       // `member.edit(nick=...)`
    | Kick(user: Id)
    | Ban(user: Id)
    | Unban(user: Id)
    | Timeout(user: Id)
    | ClearTimeout(user: Id)
    | DenySend(channel: Id, user: Id)      // `set_permissions(member, read_messages=True, send_messages=False)`
    | ClearOverwrite(channel: Id, user: Id)  // `set_permissions(member, overwrite=None)`
    | DeleteResponse
    | Purge(channel: Id, limit: int)
    | CreateRole(name: string, colour: Colour, hoist: bool, mentionable: bool)
    | AddRole(user: Id, role: Id)
    | RemoveRole(user: Id, role: Id)
    | DeleteRole(role: Id)
    | Raise(exc: Exc)                      // an exception escapes the handler here

  /** `member.mention`, `channel.mention` and `role.mention`. */
  function UserMention(id: Id): string {
    "<@" + NatToString(id) + ">"
  }

  function ChannelMention(id: Id): string {
    "<#" + NatToString(id) + ">"
  }

  function RoleMention(id: Id): string {
    "<@&" + NatToString(id) + ">"
  }

  /** `f"**{member}** ({member.mention})"`, as the log embeds show a user. */
  function UserLabel(u: User): string {
    "**" + u.name + "** (" + UserMention(u.id) + ")"
  }

  /** `ctx.user == ctx.guild.owner`: users compare by id. */
  predicate IsOwner(ctx: Ctx) {
    ctx.user.user.id == ctx.guild.ownerId
  }
}
