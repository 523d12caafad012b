/** The automatic moderation cog (cogs/automod.py): the per-message
    decision to delete a link or suppress its embeds, and the commands that
    switch the system on and off and edit the two role allowlists. The
    commands carry `automod_perms_check`, which cogs/automod.py:21 imports
    but utils/checks.py does not define; they are modelled as if that check
    had passed. Long reply texts are written as concatenations of short
    literals, each defined once. */
module Automod {
  import opened Base
  import opened Discord
  import opened Db

  // ---------------------------------------------------------------------
  // The message decision
  // ---------------------------------------------------------------------

  /** `message.guild.get_role(id) in message.author.roles`: `get_role` gives
      `None` for an id the guild does not have, and `None` is in no role
      list, so the test holds exactly when the guild has the role and the
      author holds it. */
  predicate HoldsRole(guild: Guild, author: Member, id: nat) {
    id in guild.roles && id in author.roles
  }

  /** How the `for` loop over an allowlist ends: `return` at entry `at`
      because the author holds that role, the `else` clause because no
      entry matched, or `int()` raising `ValueError` on entry `at`. */
  datatype Scan = Held(at: nat) | NoneHeld | BadId(at: nat)

  /** The loop from entry `k` on. */
  function ScanFrom(guild: Guild, author: Member, roles: seq<string>, k: nat): Scan
    requires k <= |roles|
    decreases |roles| - k
  {
    if k == |roles| then NoneHeld
    else match ParseInt(roles[k])
      case None => BadId(k)
      case Some(id) => if HoldsRole(guild, author, id) then Held(k) else ScanFrom(guild, author, roles, k + 1)
  }

  function ScanRoles(guild: Guild, author: Member, roles: seq<string>): Scan {
    ScanFrom(guild, author, roles, 0)
  }

  /** The first `n` entries are ids that parse and that the author does not
      hold: the loop went past them. */
  predicate PassedOver(guild: Guild, author: Member, roles: seq<string>, n: nat)
    requires n <= |roles|
  {
    forall j :: 0 <= j < n ==> ParseInt(roles[j]).Some? && !HoldsRole(guild, author, ParseInt(roles[j]).value)
  }

  lemma {:induction false} ScanFromMeaning(guild: Guild, author: Member, roles: seq<string>, k: nat)
    requires k <= |roles| && PassedOver(guild, author, roles, k)
    ensures match ScanFrom(guild, author, roles, k)
      case Held(i) => k <= i < |roles| && PassedOver(guild, author, roles, i) &&
                      ParseInt(roles[i]).Some? && HoldsRole(guild, author, ParseInt(roles[i]).value)
      case BadId(i) => k <= i < |roles| && PassedOver(guild, author, roles, i) && ParseInt(roles[i]).None?
      case NoneHeld => PassedOver(guild, author, roles, |roles|)
    decreases |roles| - k
  {
    if k < |roles| && ParseInt(roles[k]).Some? && !HoldsRole(guild, author, ParseInt(roles[k]).value) {
      ScanFromMeaning(guild, author, roles, k + 1);
    }
  }

  /** The loop stops at the first entry that is unparsable or held, and
      reaches its `else` clause exactly when every entry parses and none is
      held. */
  lemma ScanMeaning(guild: Guild, author: Member, roles: seq<string>)
    ensures match ScanRoles(guild, author, roles)
      case Held(i) => i < |roles| && PassedOver(guild, author, roles, i) &&
                      ParseInt(roles[i]).Some? && HoldsRole(guild, author, ParseInt(roles[i]).value)
      case BadId(i) => i < |roles| && PassedOver(guild, author, roles, i) && ParseInt(roles[i]).None?
      case NoneHeld => PassedOver(guild, author, roles, |roles|)
    ensures ScanRoles(guild, author, roles) == NoneHeld <==> PassedOver(guild, author, roles, |roles|)
  {
    ScanFromMeaning(guild, author, roles, 0);
  }

  /** The notice sent after a link is deleted. */
  function LinkNotice(author: Member): string {
    UserMention(author.user.id) + ", you are not allowed to send links in this server."
  }

  /** The second half of `_process_message`: the embed allowlist, when
      truthy, suppresses the embeds of an author who holds none of its
      roles. */
  function EmbedEffects(guild: Guild, author: Member, embed: Option<seq<string>>): seq<Effect> {
    if embed.None? || embed.value == [] then []
    else match ScanRoles(guild, author, embed.value)
      case Held(_) => []
      case BadId(_) => [Raise(ValueError)]
      case NoneHeld => [SuppressEmbeds]
  }

  /** Everything `_process_message` does, given what the two allowlists
      decode to. A held link role returns from the whole handler, so the
      embed list is not consulted; a deleted link is followed by the embed
      check. */
  function MessageEffects(guild: Guild, msg: Message, channel: Id, link: seq<string>, embed: Option<seq<string>>): seq<Effect> {
    if link == [] then EmbedEffects(guild, msg.author, embed)
    else match ScanRoles(guild, msg.author, link)
      case Held(_) => []
      case BadId(_) => [Raise(ValueError)]
      case NoneHeld => [DeleteMessage, Send(channel, LinkNotice(msg.author))] + EmbedEffects(guild, msg.author, embed)
  }

  /** `_process_message`. Both `for` loops end in an `else` clause, and a
      `return` inside either ends the handler. */
  method ProcessMessage(store: Store, guild: Guild, msg: Message, channel: Id) returns (effects: seq<Effect>)
    ensures guild.id !in store.guilds ==> effects == [Raise(TypeError)]
    ensures guild.id in store.guilds ==>
      effects == MessageEffects(guild, msg, channel,
                                DecodeLinkRoles(store.guilds[guild.id].linkSendRoles),
                                DecodeEmbedRoles(store.guilds[guild.id].embedRoles))
  {
    var link := store.GetLinkRoles(guild.id);
    if link.Raised? {
      return [Raise(link.exc)];
    }
    effects := [];
    if link.value != [] {
      // the list is fetched again for the loop and reads the same
      var roles := link.value;
      var i := 0;
      while i < |roles|
        invariant 0 <= i <= |roles|
        invariant ScanFrom(guild, msg.author, roles, i) == ScanRoles(guild, msg.author, roles)
        decreases |roles| - i
      {
        var id := ParseInt(roles[i]);
        if id.None? {
          return [Raise(ValueError)];
        }
        if HoldsRole(guild, msg.author, id.value) {
          return [];
        }
        i := i + 1;
      }
      effects := [DeleteMessage, Send(channel, LinkNotice(msg.author))];
    }
    var embed := store.GetEmbedRoles(guild.id);
    if embed.value.Some? && embed.value.value != [] {
      var roles := embed.value.value;
      var i := 0;
      while i < |roles|
        invariant 0 <= i <= |roles|
        invariant ScanFrom(guild, msg.author, roles, i) == ScanRoles(guild, msg.author, roles)
        decreases |roles| - i
      {
        var id := ParseInt(roles[i]);
        if id.None? {
          return effects + [Raise(ValueError)];
        }
        if HoldsRole(guild, msg.author, id.value) {
          return effects;
        }
        i := i + 1;
      }
      effects := effects + [SuppressEmbeds];
    }
  }

  /** `on_message`: a message outside a guild fails at `message.guild.id`;
      otherwise it is processed only when automod is on for the guild and
      the message contains a URL. */
  method OnMessage(store: Store, guild: Option<Guild>, msg: Message, channel: Id) returns (effects: seq<Effect>)
    ensures guild.None? ==> effects == [Raise(AttributeError)]
    ensures guild.Some? && guild.value.id !in store.guilds ==> effects == [Raise(TypeError)]
    ensures guild.Some? && guild.value.id in store.guilds ==>
      if store.guilds[guild.value.id].automod && msg.hasUrl then
        effects == MessageEffects(guild.value, msg, channel,
                                  DecodeLinkRoles(store.guilds[guild.value.id].linkSendRoles),
                                  DecodeEmbedRoles(store.guilds[guild.value.id].embedRoles))
      else effects == []
  {
    if guild.None? {
      return [Raise(AttributeError)];
    }
    var status := store.AutomodStatus(guild.value.id);
    if status.Raised? {
      return [Raise(status.exc)];
    }
    if status.value && msg.hasUrl {
      effects := ProcessMessage(store, guild.value, msg, channel);
    } else {
      effects := [];
    }
  }

  /** An author who holds a role of a non-empty link allowlist, every
      earlier entry of which parses, is left alone entirely: the early
      `return` skips the embed check too. */
  lemma {:induction false} HeldLinkRoleSkipsEverything(guild: Guild, msg: Message, channel: Id,
                                                       link: seq<string>, embed: Option<seq<string>>, i: nat)
    requires i < |link| && PassedOver(guild, msg.author, link, i)
    requires ParseInt(link[i]).Some? && HoldsRole(guild, msg.author, ParseInt(link[i]).value)
    ensures MessageEffects(guild, msg, channel, link, embed) == []
  {
    ScanMeaning(guild, msg.author, link);
    match ScanRoles(guild, msg.author, link)
    case Held(k) =>
    case BadId(k) =>
    case NoneHeld =>
  }

  /** An author who holds none of the roles of a non-empty, well-formed link
      allowlist has the message deleted and is told so, and then the embed
      check runs. */
  lemma UnlistedAuthorLoses(guild: Guild, msg: Message, channel: Id, link: seq<string>, embed: Option<seq<string>>)
    requires link != [] && PassedOver(guild, msg.author, link, |link|)
    ensures MessageEffects(guild, msg, channel, link, embed) ==
      [DeleteMessage, Send(channel, LinkNotice(msg.author))] + EmbedEffects(guild, msg.author, embed)
  {
    ScanMeaning(guild, msg.author, link);
  }

  /** An empty link allowlist never deletes a message: the only things that
      can happen are the embed check's. */
  lemma EmptyLinkListNeverDeletes(guild: Guild, msg: Message, channel: Id, embed: Option<seq<string>>)
    ensures var eff := MessageEffects(guild, msg, channel, [], embed);
      DeleteMessage !in eff && |eff| <= 1 &&
      (|eff| == 1 ==> eff[0] == SuppressEmbeds || eff[0] == Raise(ValueError))
  {
  }

  /** Embeds are suppressed exactly when the link check let the message
      through to the embed check, the embed list is non-empty and the
      author holds none of its roles. */
  lemma SuppressedExactlyWhen(guild: Guild, msg: Message, channel: Id, link: seq<string>, embed: Option<seq<string>>)
    ensures SuppressEmbeds in MessageEffects(guild, msg, channel, link, embed) <==>
      (link == [] || ScanRoles(guild, msg.author, link) == NoneHeld) &&
      embed.Some? && embed.value != [] && ScanRoles(guild, msg.author, embed.value) == NoneHeld
  {
  }

  // ---------------------------------------------------------------------
  // Enable and disable
  // ---------------------------------------------------------------------

  /** `automod enable`: turns the flag on if it is off; when it is already
      on it only replies. */
  method EnableCommand(store: Store, g: Id) returns (effects: seq<Effect>)
    modifies store
    ensures g !in old(store.guilds) ==> effects == [Raise(TypeError)] && store.guilds == old(store.guilds)
    ensures g in old(store.guilds) && !old(store.guilds)[g].automod ==>
      store.guilds == old(store.guilds)[g := old(store.guilds)[g].(automod := true)] &&
      effects == [Reply("Automatic moderation system has been enabled.")]
    ensures g in old(store.guilds) && old(store.guilds)[g].automod ==>
      store.guilds == old(store.guilds) && effects == [Reply("Automatic moderation system is already enabled.")]
    ensures g in store.guilds ==> store.guilds[g].automod
    ensures store.afk == old(store.afk)
  {
    var status := store.AutomodStatus(g);
    if status.Raised? {
      return [Raise(status.exc)];
    }
    if !status.value {
      store.AutomodEnable(g);
      effects := [Reply("Automatic moderation system has been enabled.")];
    } else {
      effects := [Reply("Automatic moderation system is already enabled.")];
    }
  }

  /** `automod disable` */
  method DisableCommand(store: Store, g: Id) returns (effects: seq<Effect>)
    modifies store
    ensures g !in old(store.guilds) ==> effects == [Raise(TypeError)] && store.guilds == old(store.guilds)
    ensures g in old(store.guilds) && old(store.guilds)[g].automod ==>
      store.guilds == old(store.guilds)[g := old(store.guilds)[g].(automod := false)] &&
      effects == [Reply("Automatic moderation system has been disabled.")]
    ensures g in old(store.guilds) && !old(store.guilds)[g].automod ==>
      store.guilds == old(store.guilds) && effects == [Reply("Automatic moderation system is already disabled.")]
    ensures g in store.guilds ==> !store.guilds[g].automod
    ensures store.afk == old(store.afk)
  {
    var status := store.AutomodStatus(g);
    if status.Raised? {
      return [Raise(status.exc)];
    }
    if status.value {
      store.AutomodDisable(g);
      effects := [Reply("Automatic moderation system has been disabled.")];
    } else {
      effects := [Reply("Automatic moderation system is already disabled.")];
    }
  }

  // ---------------------------------------------------------------------
  // The allowlist commands
  // ---------------------------------------------------------------------

  /** A Python value as the membership tests see it. */
  datatype PyValue = PyInt(i: int) | PyStr(s: string)

  /** A list of strings as Python values. */
  function Strs(xs: seq<string>): (r: seq<PyValue>)
    ensures |r| == |xs| && forall i :: 0 <= i < |xs| ==> r[i] == PyStr(xs[i])
  {
    if xs == [] then [] else [PyStr(xs[0])] + Strs(xs[1..])
  }

  /** Python's `v in xs` on a list: some element is `==` to `v`, where values
      of different types are never equal. */
  predicate PyIn(v: PyValue, xs: seq<PyValue>) {
    exists i :: 0 <= i < |xs| && xs[i] == v
  }

  /** `role.id in roles`, an int against the strings the store holds, is
      never true. */
  lemma IntNeverInStrings(n: int, xs: seq<string>)
    ensures !PyIn(PyInt(n), Strs(xs))
  {
  }

  function AllowlistReply(role: Role, now: bool, allow: bool, embeds: bool): string {
    "Role " + RoleMention(role.id) + (if now then " is now " else " is already ") +
    (if allow then "allowed" else "disallowed") + " to send " + (if embeds then "embeds" else "links") +
    " in the server."
  }

  /** The allowlist a command reads; a link list is always a list, an embed
      list may be `None`. */
  function CommandList(row: GuildRow, embeds: bool): Option<seq<string>> {
    if embeds then DecodeEmbedRoles(row.embedRoles) else Some(DecodeLinkRoles(row.linkSendRoles))
  }

  /** The new row after the `update` call, which every one of the four
      commands makes with the default `add=True`. */
  function AppendedRow(row: GuildRow, embeds: bool, list: seq<string>, roleId: string): GuildRow {
    if embeds then row.(embedRoles := Some(Join(list + [roleId], Delim)))
    else row.(linkSendRoles := Some(Join(list + [roleId], Delim)))
  }

  /** What `allow_link_send`, `disallow_link_send`, `allow_link_embed` and
      `disallow_link_embed` do to the table and what they reply, as written:
      the allow commands update when `role.id not in` the list, the disallow
      commands when `role.id in` it; `in` on `None` raises `TypeError`. */
  function AllowlistOutcome(guilds: map<Id, GuildRow>, g: Id, role: Role, embeds: bool, allow: bool): (map<Id, GuildRow>, seq<Effect>) {
    if g !in guilds then (guilds, [Raise(TypeError)])
    else
      var list := CommandList(guilds[g], embeds);
      if list.None? then (guilds, [Raise(TypeError)])
      else
        var listed := PyIn(PyInt(role.id), Strs(list.value));
        if (if allow then !listed else listed) then
          (guilds[g := AppendedRow(guilds[g], embeds, list.value, NatToString(role.id))],
           [Reply(AllowlistReply(role, true, allow, embeds))])
        else (guilds, [Reply(AllowlistReply(role, false, allow, embeds))])
  }

  /** The body shared by the four allowlist commands. */
  method RunAllowlistCommand(store: Store, g: Id, role: Role, embeds: bool, allow: bool) returns (effects: seq<Effect>)
    modifies store
    ensures (store.guilds, effects) == AllowlistOutcome(old(store.guilds), g, role, embeds, allow)
    ensures store.afk == old(store.afk)
  {
    var list: Option<seq<string>>;
    if embeds {
      var r := store.GetEmbedRoles(g);
      if r.Raised? {
        return [Raise(r.exc)];
      }
      list := r.value;
    } else {
      var r := store.GetLinkRoles(g);
      if r.Raised? {
        return [Raise(r.exc)];
      }
      list := Some(r.value);
    }
    if list.None? {
      // `role.id in None`
      return [Raise(TypeError)];
    }
    var listed := PyIn(PyInt(role.id), Strs(list.value));
    if (if allow then !listed else listed) {
      // the row exists, so the update succeeds
      if embeds {
        var _ := store.UpdateEmbedRoles(g, NatToString(role.id), true);
      } else {
        var _ := store.UpdateLinkRoles(g, NatToString(role.id), true);
      }
      effects := [Reply(AllowlistReply(role, true, allow, embeds))];
    } else {
      effects := [Reply(AllowlistReply(role, false, allow, embeds))];
    }
  }

  /** `automod allow_link_send` */
  method AllowLinkSend(store: Store, g: Id, role: Role) returns (effects: seq<Effect>)
    modifies store
    ensures (store.guilds, effects) == AllowlistOutcome(old(store.guilds), g, role, false, true)
    ensures store.afk == old(store.afk)
  {
    effects := RunAllowlistCommand(store, g, role, false, true);
  }

  /** `automod disallow_link_send` */
  method DisallowLinkSend(store: Store, g: Id, role: Role) returns (effects: seq<Effect>)
    modifies store
    ensures (store.guilds, effects) == AllowlistOutcome(old(store.guilds), g, role, false, false)
    ensures store.afk == old(store.afk)
  {
    effects := RunAllowlistCommand(store, g, role, false, false);
  }

  /** `automod allow_link_embed` */
  method AllowLinkEmbed(store: Store, g: Id, role: Role) returns (effects: seq<Effect>)
    modifies store
    ensures (store.guilds, effects) == AllowlistOutcome(old(store.guilds), g, role, true, true)
    ensures store.afk == old(store.afk)
  {
    effects := RunAllowlistCommand(store, g, role, true, true);
  }

  /** `automod disallow_link_embed` */
  method DisallowLinkEmbed(store: Store, g: Id, role: Role) returns (effects: seq<Effect>)
    modifies store
    ensures (store.guilds, effects) == AllowlistOutcome(old(store.guilds), g, role, true, false)
    ensures store.afk == old(store.afk)
  {
    effects := RunAllowlistCommand(store, g, role, true, false);
  }

  /** An allow command on a readable list always takes the add branch and
      replies "is now allowed", even for a role already listed. */
  lemma AllowAlwaysAppends(guilds: map<Id, GuildRow>, g: Id, role: Role, embeds: bool)
    requires g in guilds && CommandList(guilds[g], embeds).Some?
    ensures var list := CommandList(guilds[g], embeds).value;
      AllowlistOutcome(guilds, g, role, embeds, true) ==
        (guilds[g := AppendedRow(guilds[g], embeds, list, NatToString(role.id))],
         [Reply(AllowlistReply(role, true, true, embeds))])
  {
    IntNeverInStrings(role.id, CommandList(guilds[g], embeds).value);
  }

  /** So allowing a role twice lists it twice. */
  lemma AllowTwiceListsTwice(guilds: map<Id, GuildRow>, g: Id, role: Role)
    requires g in guilds && WellFormedRoles(DecodeLinkRoles(guilds[g].linkSendRoles))
    ensures var once := AllowlistOutcome(guilds, g, role, false, true).0;
      var twice := AllowlistOutcome(once, g, role, false, true).0;
      g in twice &&
      DecodeLinkRoles(twice[g].linkSendRoles) ==
        DecodeLinkRoles(guilds[g].linkSendRoles) + [NatToString(role.id), NatToString(role.id)]
  {
    var list := DecodeLinkRoles(guilds[g].linkSendRoles);
    var id := NatToString(role.id);
    AllowAlwaysAppends(guilds, g, role, false);
    var once := AllowlistOutcome(guilds, g, role, false, true).0;
    assert Delim !in id by {
      assert AllDigits(id);
    }
    LinkRolesAfterAdd(list, id);
    assert DecodeLinkRoles(once[g].linkSendRoles) == list + [id];
    AllowAlwaysAppends(once, g, role, false);
    assert NoDelim(list + [id], Delim) by {
      assert forall i :: 0 <= i < |list + [id]| ==> Delim !in (list + [id])[i];
    }
    LinkRolesAfterAdd(list + [id], id);
    assert list + [id] + [id] == list + [id, id];
  }

  /** A disallow command never changes the table: on a list, the `in` test
      is always false and the reply is "is already disallowed". */
  lemma DisallowNeverChanges(guilds: map<Id, GuildRow>, g: Id, role: Role, embeds: bool)
    ensures AllowlistOutcome(guilds, g, role, embeds, false).0 == guilds
    ensures g in guilds && CommandList(guilds[g], embeds).Some? ==>
      AllowlistOutcome(guilds, g, role, embeds, false).1 == [Reply(AllowlistReply(role, false, false, embeds))]
  {
    if g in guilds && CommandList(guilds[g], embeds).Some? {
      IntNeverInStrings(role.id, CommandList(guilds[g], embeds).value);
    }
  }

  /** An embed command on an empty embed list fails at the `in` test, before
      the store is asked to append to `None`. */
  lemma EmbedCommandOnEmptyListRaises(guilds: map<Id, GuildRow>, g: Id, role: Role, allow: bool)
    requires g in guilds && !TruthyStr(guilds[g].embedRoles)
    ensures AllowlistOutcome(guilds, g, role, true, allow) == (guilds, [Raise(TypeError)])
  {
  }

  /** `allow_link_send` as its reply describes it: test the string form of
      the id, and append only a role that is not yet listed. */
  function AllowLinkIntended(guilds: map<Id, GuildRow>, g: Id, role: Role): (map<Id, GuildRow>, seq<Effect>) {
    if g !in guilds then (guilds, [Raise(TypeError)])
    else
      var list := DecodeLinkRoles(guilds[g].linkSendRoles);
      var id := NatToString(role.id);
      if id !in list then
        (guilds[g := AppendedRow(guilds[g], false, list, id)], [Reply(AllowlistReply(role, true, true, false))])
      else (guilds, [Reply(AllowlistReply(role, false, true, false))])
  }

  /** The intended command lists a role once: the first call appends it, the
      second finds it and only replies "is already allowed". */
  lemma AllowLinkIntendedListsOnce(guilds: map<Id, GuildRow>, g: Id, role: Role)
    requires g in guilds && WellFormedRoles(DecodeLinkRoles(guilds[g].linkSendRoles))
    requires NatToString(role.id) !in DecodeLinkRoles(guilds[g].linkSendRoles)
    ensures var once := AllowLinkIntended(guilds, g, role).0;
      var twice := AllowLinkIntended(once, g, role);
      g in once &&
      DecodeLinkRoles(once[g].linkSendRoles) == DecodeLinkRoles(guilds[g].linkSendRoles) + [NatToString(role.id)] &&
      twice == (once, [Reply(AllowlistReply(role, false, true, false))])
  {
    var list := DecodeLinkRoles(guilds[g].linkSendRoles);
    var id := NatToString(role.id);
    assert Delim !in id by {
      assert AllDigits(id);
    }
    LinkRolesAfterAdd(list, id);
    var once := AllowLinkIntended(guilds, g, role).0;
    assert DecodeLinkRoles(once[g].linkSendRoles) == list + [id];
    assert (list + [id])[|list|] == id;
  }

  /** `disallow_link_send` as its reply describes it: test the string form of
      the id and remove its first occurrence (`add=False`). */
  function DisallowLinkIntended(guilds: map<Id, GuildRow>, g: Id, role: Role): (map<Id, GuildRow>, seq<Effect>) {
    if g !in guilds then (guilds, [Raise(TypeError)])
    else
      var list := DecodeLinkRoles(guilds[g].linkSendRoles);
      var id := NatToString(role.id);
      if id in list then
        (guilds[g := guilds[g].(linkSendRoles := Some(Join(RemoveFirst(list, id).value, Delim)))],
         [Reply(AllowlistReply(role, true, false, false))])
      else (guilds, [Reply(AllowlistReply(role, false, false, false))])
  }

  /** The intended command takes a listed role off the list, and the list
      then reads as before with that one entry gone. */
  lemma DisallowLinkIntendedRemoves(guilds: map<Id, GuildRow>, g: Id, role: Role)
    requires g in guilds
    requires WellFormedRoles(DecodeLinkRoles(guilds[g].linkSendRoles))
    requires NatToString(role.id) in DecodeLinkRoles(guilds[g].linkSendRoles)
    ensures var list := DecodeLinkRoles(guilds[g].linkSendRoles);
      var i := IndexOf(list, NatToString(role.id));
      var after := DisallowLinkIntended(guilds, g, role).0;
      g in after && DecodeLinkRoles(after[g].linkSendRoles) == list[..i] + list[i + 1..]
  {
    LinkRolesAfterRemove(DecodeLinkRoles(guilds[g].linkSendRoles), NatToString(role.id));
  }

  /** As written, the same listed role stays on the list. */
  lemma DisallowLinkAsWrittenKeepsRole(guilds: map<Id, GuildRow>, g: Id, role: Role)
    requires g in guilds && NatToString(role.id) in DecodeLinkRoles(guilds[g].linkSendRoles)
    ensures var after := AllowlistOutcome(guilds, g, role, false, false).0;
      g in after && NatToString(role.id) in DecodeLinkRoles(after[g].linkSendRoles)
  {
    DisallowNeverChanges(guilds, g, role, false);
  }
}
