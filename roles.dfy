/** The `role` command group: create, add, remove and delete. Each command
    runs once `Checks.RolesPermsCheck` has passed. The outcome of the library
    call is a parameter. The only store access is `LogRoleAction` reading the
    moderation log channel, so no command here modifies the store. Long
    reply texts are written as concatenations of short literals, which keeps
    the verifier's reasoning about them cheap; each is defined once. */
module Roles {
  import opened Base
  import opened Discord
  import opened Db
  import opened Logger

  /** How many log embeds a run of a handler posts. */
  function Posts(eff: seq<Effect>): nat {
    if eff == [] then 0 else (if eff[0].Post? then 1 else 0) + Posts(eff[1..])
  }

  lemma {:induction false} PostsAppend(a: seq<Effect>, b: seq<Effect>)
    ensures Posts(a + b) == Posts(a) + Posts(b)
    decreases |a|
  {
    if a == [] {
      assert a + b == b;
    } else {
      assert (a + b)[1..] == a[1..] + b;
      PostsAppend(a[1..], b);
    }
  }

  /** Whether `log_role_action` posts at all: a moderation log channel is
      set and still exists. */
  predicate RoleLogPosts(guilds: map<Id, GuildRow>, guild: Guild) {
    var ch := ModLogOf(guilds, guild.id);
    TruthyId(ch) && ch.value in guild.channels
  }

  /** The shape of every successful role command: the library call, the
      reply, then one `log_role_action`. The log is the only thing posted,
      and it comes after the reply. */
  lemma {:induction false} LoggedOnceAfterReply(guilds: map<Id, GuildRow>, guild: Guild, call: Effect, reply: string, a: RoleAction)
    requires !call.Post?
    ensures var eff := [call, Reply(reply)] + RoleLogEffects(guilds, guild, a);
      Posts(eff) == (if RoleLogPosts(guilds, guild) then 1 else 0) &&
      forall i :: 0 <= i < |eff| && eff[i].Post? ==> i == 2 && eff[i].embed == RoleEmbed(a)
  {
    var log := RoleLogEffects(guilds, guild, a);
    PostsAppend([call, Reply(reply)], log);
    assert Posts([call, Reply(reply)]) == 0 by {
      assert [call, Reply(reply)][1..] == [Reply(reply)];
      assert [Reply(reply)][1..] == [];
    }
    if log != [] {
      assert log[1..] == [];
    }
  }

  // ---------------------------------------------------------------------
  // create
  // ---------------------------------------------------------------------

  /** The values the `color` option offers. */
  const ColourChoices := ["default", "random", "custom", "red", "dark_red",
    "blue", "dark_blue", "green", "dark_green", "yellow", "orange", "pink",
    "purple", "light_grey", "dark_grey", "magenta", "gold", "teal",
    "fuchsia", "og_blurple", "blurple", "greyple"]

  const InvalidColourText := ("Invalid " + "hexadecimal " + "color code.")

  const CreatedText := ("The role has " + "been created.")

  /** What `role create` does. `parsed` is what `Colour.from_str` makes of
      the text typed into the colour modal (`None`: it raised `ValueError`).
      `create` is the outcome of `create_role`, and `created` is the role it
      returns. */
  function CreateEffects(guilds: map<Id, GuildRow>, ctx: Ctx, name: string, choice: string, parsed: Option<nat>,
                         hoist: bool, mentionable: bool, reason: Option<string>, create: Api, created: Role): seq<Effect> {
    if choice == "custom" && parsed.None? then [Reply(InvalidColourText)]
    else
      var colour := if choice == "custom" then Hex(parsed.value) else Preset(choice);
      if create.Fails? then [Raise(create.exc)]
      else
        [CreateRole(name, colour, hoist, mentionable), Reply(CreatedText)] +
        RoleLogEffects(guilds, ctx.guild, RoleAction(created, ctx.user.user, "Role Created", None, reason))
  }

  /** `role create` */
  method RoleCreate(store: Store, ctx: Ctx, name: string, choice: string, parsed: Option<nat>,
                    hoist: bool, mentionable: bool, reason: Option<string>, create: Api, created: Role) returns (effects: seq<Effect>)
    requires choice in ColourChoices
    ensures effects == CreateEffects(store.guilds, ctx, name, choice, parsed, hoist, mentionable, reason, create, created)
  {
    var colour: Colour;
    if choice == "custom" {
      if parsed.None? {
        return [Reply(InvalidColourText)];
      }
      colour := Hex(parsed.value);
    } else {
      colour := Preset(choice);
    }
    if create.Fails? {
      return [Raise(create.exc)];
    }
    var logged := LogRoleAction(store, ctx.guild, RoleAction(created, ctx.user.user, "Role Created", None, reason));
    effects := [CreateRole(name, colour, hoist, mentionable), Reply(CreatedText)] + logged;
  }

  /** An unreadable custom colour ends the command before `create_role`:
      the only effect is the error reply, and nothing is logged. */
  lemma InvalidColourAbortsBeforeCreate(guilds: map<Id, GuildRow>, ctx: Ctx, name: string, parsed: Option<nat>,
                                        hoist: bool, mentionable: bool, reason: Option<string>, create: Api, created: Role)
    requires parsed.None?
    ensures var eff := CreateEffects(guilds, ctx, name, "custom", parsed, hoist, mentionable, reason, create, created);
      eff == [Reply(InvalidColourText)] && Posts(eff) == 0
  {
  }

  /** A created role carries the chosen colour: the preset of that name, or
      the parsed hex value; a successful creation logs once, after the reply. */
  lemma CreateUsesChosenColour(guilds: map<Id, GuildRow>, ctx: Ctx, name: string, choice: string, parsed: Option<nat>,
                               hoist: bool, mentionable: bool, reason: Option<string>, created: Role)
    requires choice in ColourChoices
    requires choice == "custom" ==> parsed.Some?
    ensures var eff := CreateEffects(guilds, ctx, name, choice, parsed, hoist, mentionable, reason, Done, created);
      eff[0] == CreateRole(name, if choice == "custom" then Hex(parsed.value) else Preset(choice), hoist, mentionable) &&
      eff[1] == Reply(CreatedText) &&
      Posts(eff) == (if RoleLogPosts(guilds, ctx.guild) then 1 else 0)
  {
    var colour := if choice == "custom" then Hex(parsed.value) else Preset(choice);
    LoggedOnceAfterReply(guilds, ctx.guild, CreateRole(name, colour, hoist, mentionable), CreatedText,
      RoleAction(created, ctx.user.user, "Role Created", None, reason));
  }

  // ---------------------------------------------------------------------
  // add
  // ---------------------------------------------------------------------

  function AlreadyHasText(m: User, r: Role): string {
    UserMention(m.id) + (" already has " + "the role ") + RoleMention(r.id) + "."
  }

  function NoAddText(r: Role, m: User): string {
    ("I do not have " + "permission to " + "add ") + RoleMention(r.id) + " to " + UserMention(m.id) + "."
  }

  function AddedText(r: Role, m: User): string {
    RoleMention(r.id) + (" has been added " + "to ") + UserMention(m.id) + "."
  }

  /** What `role add` does; `call` is the outcome of `add_roles`. */
  function AddEffects(guilds: map<Id, GuildRow>, ctx: Ctx, target: Member, role: Role, reason: Option<string>, call: Api): seq<Effect> {
    var m := target.user;
    if role.id in target.roles then [Reply(AlreadyHasText(m, role))]
    else if call.Fails? then [if call.exc == Forbidden then Reply(NoAddText(role, m)) else Raise(call.exc)]
    else
      [AddRole(m.id, role.id), Reply(AddedText(role, m))] +
      RoleLogEffects(guilds, ctx.guild, RoleAction(role, ctx.user.user, "Role Added", Some(m), reason))
  }

  /** `role add` */
  method RoleAdd(store: Store, ctx: Ctx, target: Member, role: Role, reason: Option<string>, call: Api) returns (effects: seq<Effect>)
    ensures effects == AddEffects(store.guilds, ctx, target, role, reason, call)
  {
    var m := target.user;
    if role.id in target.roles {
      return [Reply(AlreadyHasText(m, role))];
    }
    if call.Fails? {
      if call.exc == Forbidden {
        return [Reply(NoAddText(role, m))];
      }
      return [Raise(call.exc)];
    }
    var logged := LogRoleAction(store, ctx.guild, RoleAction(role, ctx.user.user, "Role Added", Some(m), reason));
    effects := [AddRole(m.id, role.id), Reply(AddedText(role, m))] + logged;
  }

  /** Adding a role the member already has only replies: no call, no log. */
  lemma AddGuardIsInert(guilds: map<Id, GuildRow>, ctx: Ctx, target: Member, role: Role, reason: Option<string>, call: Api)
    requires role.id in target.roles
    ensures var eff := AddEffects(guilds, ctx, target, role, reason, call);
      eff == [Reply(AlreadyHasText(target.user, role))] && Posts(eff) == 0
  {
  }

  /** A missing role is added exactly when the call succeeds, and only then
      logged, once and after the reply; a failed call logs nothing. */
  lemma AddLoggedOnlyOnSuccess(guilds: map<Id, GuildRow>, ctx: Ctx, target: Member, role: Role, reason: Option<string>, call: Api)
    requires role.id !in target.roles
    ensures var eff := AddEffects(guilds, ctx, target, role, reason, call);
      (AddRole(target.user.id, role.id) in eff <==> call == Done) &&
      Posts(eff) == (if call == Done && RoleLogPosts(guilds, ctx.guild) then 1 else 0)
  {
    if call == Done {
      LoggedOnceAfterReply(guilds, ctx.guild, AddRole(target.user.id, role.id), AddedText(role, target.user),
        RoleAction(role, ctx.user.user, "Role Added", Some(target.user), reason));
    }
  }

  // ---------------------------------------------------------------------
  // remove
  // ---------------------------------------------------------------------

  function LacksText(m: User, r: Role): string {
    UserMention(m.id) + (" does not have " + "the role ") + RoleMention(r.id) + "."
  }

  const NoRemoveText := ("I do not have " + "permission to " + "remove that " + "role.")

  function NoRemoveFromText(r: Role, m: User): string {
    ("I do not have " + "permission to " + "remove ") + RoleMention(r.id) + " from " + UserMention(m.id) + "."
  }

  function RemovedText(r: Role, m: User): string {
    RoleMention(r.id) + (" has been " + "removed from ") + UserMention(m.id) + "."
  }

  /** The `except` clauses of `role remove` as written: `HTTPException` is
      tried first and, `Forbidden` being one of its subclasses, catches a
      `Forbidden` too, so the second clause never applies. */
  function RemoveFailure(r: Role, m: User, e: Exc): Effect {
    if IsHttpException(e) then Reply(NoRemoveText)
    else if e == Forbidden then Reply(NoRemoveFromText(r, m))
    else Raise(e)
  }

  /** A missing permission is reported with the generic text, never with
      the one that names the role and the member. */
  lemma RemoveForbiddenGetsGenericText(r: Role, m: User)
    ensures RemoveFailure(r, m, Forbidden) == Reply(NoRemoveText)
    ensures forall e :: RemoveFailure(r, m, e) != Reply(NoRemoveFromText(r, m))
  {
    assert NoRemoveText[35] == 't';
    assert NoRemoveFromText(r, m)[35] == '<';
  }

  /** The clauses in the evidently intended order: `Forbidden` first. */
  function RemoveFailureIntended(r: Role, m: User, e: Exc): Effect {
    if e == Forbidden then Reply(NoRemoveFromText(r, m))
    else if IsHttpException(e) then Reply(NoRemoveText)
    else Raise(e)
  }

  /** With the intended order a missing permission names the role and the
      member, and every other exception is handled as written. */
  lemma RemoveIntendedNamesForbidden(r: Role, m: User)
    ensures RemoveFailureIntended(r, m, Forbidden) == Reply(NoRemoveFromText(r, m))
    ensures forall e :: e != Forbidden ==> RemoveFailureIntended(r, m, e) == RemoveFailure(r, m, e)
  {
  }

  /** What `role remove` does; `call` is the outcome of `remove_roles`. */
  function RemoveEffects(guilds: map<Id, GuildRow>, ctx: Ctx, target: Member, role: Role, reason: Option<string>, call: Api): seq<Effect> {
    var m := target.user;
    if role.id !in target.roles then [Reply(LacksText(m, role))]
    else if call.Fails? then [RemoveFailure(role, m, call.exc)]
    else
      [RemoveRole(m.id, role.id), Reply(RemovedText(role, m))] +
      RoleLogEffects(guilds, ctx.guild, RoleAction(role, ctx.user.user, "Role Removed", Some(m), reason))
  }

  /** `role remove` */
  method RoleRemove(store: Store, ctx: Ctx, target: Member, role: Role, reason: Option<string>, call: Api) returns (effects: seq<Effect>)
    ensures effects == RemoveEffects(store.guilds, ctx, target, role, reason, call)
  {
    var m := target.user;
    if role.id !in target.roles {
      return [Reply(LacksText(m, role))];
    }
    if call.Fails? {
      return [RemoveFailure(role, m, call.exc)];
    }
    var logged := LogRoleAction(store, ctx.guild, RoleAction(role, ctx.user.user, "Role Removed", Some(m), reason));
    effects := [RemoveRole(m.id, role.id), Reply(RemovedText(role, m))] + logged;
  }

  /** Removing a role the member does not have only replies. */
  lemma RemoveGuardIsInert(guilds: map<Id, GuildRow>, ctx: Ctx, target: Member, role: Role, reason: Option<string>, call: Api)
    requires role.id !in target.roles
    ensures var eff := RemoveEffects(guilds, ctx, target, role, reason, call);
      eff == [Reply(LacksText(target.user, role))] && Posts(eff) == 0
  {
  }

  /** A held role is removed exactly when the call succeeds, and only then
      logged, once and after the reply. */
  lemma RemoveLoggedOnlyOnSuccess(guilds: map<Id, GuildRow>, ctx: Ctx, target: Member, role: Role, reason: Option<string>, call: Api)
    requires role.id in target.roles
    ensures var eff := RemoveEffects(guilds, ctx, target, role, reason, call);
      (RemoveRole(target.user.id, role.id) in eff <==> call == Done) &&
      Posts(eff) == (if call == Done && RoleLogPosts(guilds, ctx.guild) then 1 else 0)
  {
    if call == Done {
      LoggedOnceAfterReply(guilds, ctx.guild, RemoveRole(target.user.id, role.id), RemovedText(role, target.user),
        RoleAction(role, ctx.user.user, "Role Removed", Some(target.user), reason));
    }
  }

  // ---------------------------------------------------------------------
  // delete
  // ---------------------------------------------------------------------

  const CannotDeleteText := ("I cannot " + "delete that " + "role.")

  const NoDeleteText := ("I do not have " + "permission to " + "delete that " + "role.")

  function DeletedText(r: Role): string {
    "The role **" + r.name + ("** has been " + "deleted.")
  }

  /** The `except` clauses of `role delete` as written: as in `role
      remove`, the `HTTPException` clause takes `Forbidden` as well. */
  function DeleteFailure(e: Exc): Effect {
    if IsHttpException(e) then Reply(CannotDeleteText)
    else if e == Forbidden then Reply(NoDeleteText)
    else Raise(e)
  }

  /** A missing permission is reported as "I cannot delete that role.", and
      the permission text is never shown. */
  lemma DeleteForbiddenGetsGenericText()
    ensures DeleteFailure(Forbidden) == Reply(CannotDeleteText)
    ensures forall e :: DeleteFailure(e) != Reply(NoDeleteText)
  {
    assert CannotDeleteText[2] == 'c';
    assert NoDeleteText[2] == 'd';
  }

  /** The clauses in the evidently intended order: `Forbidden` first. */
  function DeleteFailureIntended(e: Exc): Effect {
    if e == Forbidden then Reply(NoDeleteText)
    else if IsHttpException(e) then Reply(CannotDeleteText)
    else Raise(e)
  }

  /** With the intended order a missing permission gets its own text, and
      every other exception is handled as written. */
  lemma DeleteIntendedNamesForbidden()
    ensures DeleteFailureIntended(Forbidden) == Reply(NoDeleteText)
    ensures forall e :: e != Forbidden ==> DeleteFailureIntended(e) == DeleteFailure(e)
  {
  }

  /** What `role delete` does; `call` is the outcome of `role.delete()`. */
  function DeleteEffects(guilds: map<Id, GuildRow>, ctx: Ctx, role: Role, reason: Option<string>, call: Api): seq<Effect> {
    if call.Fails? then [DeleteFailure(call.exc)]
    else
      [DeleteRole(role.id), Reply(DeletedText(role))] +
      RoleLogEffects(guilds, ctx.guild, RoleAction(role, ctx.user.user, "Role Deleted", None, reason))
  }

  /** `role delete` */
  method RoleDelete(store: Store, ctx: Ctx, role: Role, reason: Option<string>, call: Api) returns (effects: seq<Effect>)
    ensures effects == DeleteEffects(store.guilds, ctx, role, reason, call)
  {
    if call.Fails? {
      return [DeleteFailure(call.exc)];
    }
    var logged := LogRoleAction(store, ctx.guild, RoleAction(role, ctx.user.user, "Role Deleted", None, reason));
    effects := [DeleteRole(role.id), Reply(DeletedText(role))] + logged;
  }

  /** A role is deleted exactly when the call succeeds, and only then
      logged, once and after the reply. */
  lemma DeleteLoggedOnlyOnSuccess(guilds: map<Id, GuildRow>, ctx: Ctx, role: Role, reason: Option<string>, call: Api)
    ensures var eff := DeleteEffects(guilds, ctx, role, reason, call);
      (DeleteRole(role.id) in eff <==> call == Done) &&
      Posts(eff) == (if call == Done && RoleLogPosts(guilds, ctx.guild) then 1 else 0)
  {
    if call == Done {
      LoggedOnceAfterReply(guilds, ctx.guild, DeleteRole(role.id), DeletedText(role),
        RoleAction(role, ctx.user.user, "Role Deleted", None, reason));
    }
  }
}
