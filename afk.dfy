/** The AFK cog (cogs/afk.py): setting and resetting one's own AFK status,
    with the `"[AFK] "` nickname prefix, the replies to messages that
    mention AFK members, and the check and list commands. The start time of
    a status is the integer timestamp the replies show. Long reply texts are
    written as concatenations of short literals, which keeps the verifier's
    reasoning about them cheap; each is defined once. */
module Afk {
  import opened Base
  import opened Discord
  import opened Db

  const Prefix: string := "[AFK] "

  /** `afk_details['reason'] or 'Unspecified.'` */
  function ReasonText(reason: Option<string>): (t: string)
    ensures TruthyStr(reason) ==> t == reason.value
    ensures !TruthyStr(reason) ==> t == "Unspecified."
  {
    if TruthyStr(reason) then reason.value else "Unspecified."
  }

  /** `<t:...:t>`, Discord's short-time markup for a timestamp. */
  function TimeMarkup(start: int): string {
    "<t:" + IntToString(start) + ":t>"
  }

  /** The text that reports a member as AFK, in mention replies and in
      `afk check`. */
  function AfkNotice(user: Id, rec: AfkRecord): string {
    UserMention(user) + " is afk since " + TimeMarkup(rec.start) + ".\n**Reason:** " + ReasonText(rec.reason)
  }

  const PermsMessage: string := "I need the **Manage Nicknames** permission in this server to set your AFK status."

  /** The outcome of a nickname edit whose `Forbidden` the handler
      swallows. */
  function RenameEffects(user: Id, nick: string, edit: Api): (eff: seq<Effect>)
    ensures edit == Done ==> eff == [Rename(user, nick)]
    ensures edit.Fails? && edit.exc == Forbidden ==> eff == []
    ensures edit.Fails? && edit.exc != Forbidden ==> eff == [Raise(edit.exc)]
  {
    match edit
    case Done => [Rename(user, nick)]
    case Fails(e) => if e == Forbidden then [] else [Raise(e)]
  }

  /** A handler's log ends at the first `Raise`. */
  function Then(first: seq<Effect>, rest: seq<Effect>): (eff: seq<Effect>)
    ensures (exists i :: 0 <= i < |first| && first[i].Raise?) ==> eff == first
    ensures (forall i :: 0 <= i < |first| ==> !first[i].Raise?) ==> eff == first + rest
  {
    if exists i :: 0 <= i < |first| && first[i].Raise? then first else first + rest
  }

  /** `afk set`. `edit` is the outcome of the nickname edit, if one is made;
      `start` is the current time. */
  method AfkSet(store: Store, ctx: Ctx, reason: Option<string>, start: int, edit: Api) returns (effects: seq<Effect>)
    modifies store
    ensures var u := ctx.user.user.id;
      var g := ctx.guild.id;
      var name := ctx.user.displayName;
      if !ctx.guild.me.perms.manageNicknames then
        store.afk == old(store.afk) && effects == [Reply(PermsMessage)]
      else if (u, g) in old(store.afk) then
        store.afk == old(store.afk) && effects == [Reply("You are already afk.")]
      else
        store.afk == old(store.afk)[(u, g) := AfkRecord(start, reason)] &&
        effects == Then(if StartsWith(name, "[AFK]") then [] else RenameEffects(u, Prefix + name, edit),
                        [Reply("**You are now AFK!**")])
    ensures store.guilds == old(store.guilds)
  {
    if !ctx.guild.me.perms.manageNicknames {
      return [Reply(PermsMessage)];
    }
    var u := ctx.user.user.id;
    var g := ctx.guild.id;
    if !store.IsAfk(u, g) {
      store.SetAfk(u, g, start, reason);
      effects := [];
      if !StartsWith(ctx.user.displayName, "[AFK]") {
        effects := RenameEffects(u, Prefix + ctx.user.displayName, edit);
        if edit.Fails? && edit.exc != Forbidden {
          assert effects[0].Raise?;
          return effects;
        }
      }
      effects := effects + [Reply("**You are now AFK!**")];
    } else {
      effects := [Reply("You are already afk.")];
    }
  }

  /** `afk reset`: the nickname loses its first five characters when it
      starts with `"[AFK]"`. */
  method AfkReset(store: Store, ctx: Ctx, edit: Api) returns (effects: seq<Effect>)
    modifies store
    ensures var u := ctx.user.user.id;
      var g := ctx.guild.id;
      var name := ctx.user.displayName;
      if !ctx.guild.me.perms.manageNicknames then
        store.afk == old(store.afk) && effects == [Reply(PermsMessage)]
      else if (u, g) !in old(store.afk) then
        store.afk == old(store.afk) && effects == [Reply("You are not afk.")]
      else
        store.afk == old(store.afk) - {(u, g)} &&
        effects == Then(if StartsWith(name, "[AFK]") then RenameEffects(u, Drop(name, 5), edit) else [],
                        [Reply("**Welcome back!** Your AFK status has been removed.")])
    ensures store.guilds == old(store.guilds)
  {
    if !ctx.guild.me.perms.manageNicknames {
      return [Reply(PermsMessage)];
    }
    var u := ctx.user.user.id;
    var g := ctx.guild.id;
    if store.IsAfk(u, g) {
      store.RemoveAfk(u, g);
      effects := [];
      if StartsWith(ctx.user.displayName, "[AFK]") {
        effects := RenameEffects(u, Drop(ctx.user.displayName, 5), edit);
        if edit.Fails? && edit.exc != Forbidden {
          assert effects[0].Raise?;
          return effects;
        }
      }
      effects := effects + [Reply("**Welcome back!** Your AFK status has been removed.")];
    } else {
      effects := [Reply("You are not afk.")];
    }
  }

  /** `[5:]` undoes the six-character prefix only up to its space: a
      nickname set from `x` comes back as `" " + x`. */
  lemma {:induction false} ResetLeavesLeadingSpace(x: string)
    ensures StartsWith(Prefix + x, "[AFK]")
    ensures Drop(Prefix + x, 5) == " " + x
  {
    var n := Prefix + x;
    assert n[..5] == "[AFK]";
    assert n[5..] == " " + x by {
      assert |n[5..]| == |" " + x|;
      forall i | 0 <= i < |n[5..]|
        ensures n[5..][i] == (" " + x)[i]
      {
        if i == 0 {
          assert n[5] == Prefix[5];
        } else {
          assert n[5 + i] == x[i - 1];
        }
      }
    }
  }

  /** A set on a name without the prefix renames to the prefixed name, and
      the reset that follows renames to `" " + name`, not to `name`. */
  lemma SetThenResetNames(name: string)
    requires !StartsWith(name, "[AFK]")
    ensures StartsWith(Prefix + name, "[AFK]") && Drop(Prefix + name, 5) != name
  {
    ResetLeavesLeadingSpace(name);
    assert |Drop(Prefix + name, 5)| == |name| + 1;
  }

  /** The reset the prefix evidently calls for: strip the whole `"[AFK] "`
      when it is there, and otherwise drop five characters as written. */
  function ResetNickIntended(n: string): string {
    if StartsWith(n, Prefix) then n[|Prefix|..] else Drop(n, 5)
  }

  /** With that reset, a set followed by a reset gives the name back. */
  lemma {:induction false} SetThenResetIntendedRestores(name: string)
    ensures ResetNickIntended(Prefix + name) == name
  {
    assert (Prefix + name)[..|Prefix|] == Prefix;
    assert (Prefix + name)[|Prefix|..] == name;
  }

  /** A `Forbidden` nickname edit leaves the AFK change in place and still
      gets the success reply. */
  lemma ForbiddenRenameIsHarmless(u: Id, nick: string, reply: Effect)
    ensures Then(RenameEffects(u, nick, Fails(Forbidden)), [reply]) == [reply]
  {
  }

  // ---------------------------------------------------------------------
  // Mentions
  // ---------------------------------------------------------------------

  /** Whether a mention resolves to a guild `Member`. In a direct message
      every mention is a bare `User`, and inside a guild so is a mentioned
      user who is not a member; `member.guild.id` raises `AttributeError`
      on a `User`. */
  predicate IsMemberMention(guild: Option<Guild>, m: Member) {
    guild.Some? && m.user.id in guild.value.members
  }

  /** One reply per mentioned member who is AFK in the guild, in mention
      order, up to the first mention that is not a guild member, which
      raises `AttributeError`. */
  function MentionReplies(afk: map<AfkKey, AfkRecord>, guild: Option<Guild>, mentions: seq<Member>): (r: seq<Effect>)
    ensures forall i :: 0 <= i < |r| ==> r[i].Reply? || (i == |r| - 1 && r[i] == Raise(AttributeError))
    ensures |r| <= |mentions|
  {
    if mentions == [] then []
    else if !IsMemberMention(guild, mentions[0]) then [Raise(AttributeError)]
    else
      var m := mentions[0].user.id;
      var g := guild.value.id;
      (if (m, g) in afk then [Reply(AfkNotice(m, afk[(m, g)]))] else []) + MentionReplies(afk, guild, mentions[1..])
  }

  /** The listener raises exactly when some mention is not a guild member,
      and then as its last effect. */
  lemma {:induction false} MentionRaisesIff(afk: map<AfkKey, AfkRecord>, guild: Option<Guild>, mentions: seq<Member>)
    ensures var r := MentionReplies(afk, guild, mentions);
      (r != [] && r[|r| - 1] == Raise(AttributeError)) <==>
      exists i :: 0 <= i < |mentions| && !IsMemberMention(guild, mentions[i])
    decreases |mentions|
  {
    if mentions != [] && IsMemberMention(guild, mentions[0]) {
      MentionRaisesIff(afk, guild, mentions[1..]);
      assert (exists i :: 0 <= i < |mentions| && !IsMemberMention(guild, mentions[i])) <==>
             (exists i :: 0 <= i < |mentions[1..]| && !IsMemberMention(guild, mentions[1..][i])) by {
        forall i | 1 <= i < |mentions| ensures mentions[i] == mentions[1..][i - 1] { }
      }
    }
  }

  /** The replies to a prefix of members are followed by those to the rest. */
  lemma {:induction false} MentionRepliesAppend(afk: map<AfkKey, AfkRecord>, guild: Option<Guild>, a: seq<Member>, b: seq<Member>)
    requires forall i :: 0 <= i < |a| ==> IsMemberMention(guild, a[i])
    ensures MentionReplies(afk, guild, a + b) == MentionReplies(afk, guild, a) + MentionReplies(afk, guild, b)
    decreases |a|
  {
    if a != [] {
      assert (a + b)[0] == a[0];
      assert (a + b)[1..] == a[1..] + b;
      MentionRepliesAppend(afk, guild, a[1..], b);
    } else {
      assert a + b == b;
    }
  }

  /** A message in a guild that mentions nobody who is AFK gets no reply;
      one that mentions only AFK members gets one reply per mention. */
  lemma {:induction false} MentionRepliesCount(afk: map<AfkKey, AfkRecord>, guild: Guild, mentions: seq<Member>)
    requires forall i :: 0 <= i < |mentions| ==> mentions[i].user.id in guild.members
    ensures (forall i :: 0 <= i < |mentions| ==> (mentions[i].user.id, guild.id) !in afk) ==> MentionReplies(afk, Some(guild), mentions) == []
    ensures (forall i :: 0 <= i < |mentions| ==> (mentions[i].user.id, guild.id) in afk) ==> |MentionReplies(afk, Some(guild), mentions)| == |mentions|
    decreases |mentions|
  {
    if mentions != [] {
      assert forall i :: 0 <= i < |mentions[1..]| ==> mentions[1..][i] == mentions[i + 1];
      MentionRepliesCount(afk, guild, mentions[1..]);
    }
  }

  /** In a direct message the first mention already raises: no reply is
      sent, whoever is mentioned. */
  lemma DirectMessageMentionRaises(afk: map<AfkKey, AfkRecord>, mentions: seq<Member>)
    requires mentions != []
    ensures MentionReplies(afk, None, mentions) == [Raise(AttributeError)]
  {
  }

  /** Mentions past the first non-member are never looked at. */
  lemma MentionRaisesAt(afk: map<AfkKey, AfkRecord>, guild: Option<Guild>, mentions: seq<Member>, i: nat)
    requires i < |mentions| && !IsMemberMention(guild, mentions[i])
    requires forall j :: 0 <= j < i ==> IsMemberMention(guild, mentions[j])
    ensures MentionReplies(afk, guild, mentions) == MentionReplies(afk, guild, mentions[..i]) + [Raise(AttributeError)]
  {
    var rest := mentions[i..];
    assert mentions == mentions[..i] + rest;
    assert forall j :: 0 <= j < |mentions[..i]| ==> mentions[..i][j] == mentions[j];
    MentionRepliesAppend(afk, guild, mentions[..i], rest);
    assert rest[0] == mentions[i];
  }

  /** `_process_mentions`, run by `on_message` when the message mentions
      anyone; `guild` is `message.guild`, None in a direct message. */
  method ProcessMentions(store: Store, guild: Option<Guild>, msg: Message) returns (effects: seq<Effect>)
    ensures effects == MentionReplies(store.afk, guild, msg.mentions)
  {
    effects := [];
    var i := 0;
    while i < |msg.mentions|
      invariant 0 <= i <= |msg.mentions|
      invariant forall j :: 0 <= j < i ==> IsMemberMention(guild, msg.mentions[j])
      invariant effects == MentionReplies(store.afk, guild, msg.mentions[..i])
    {
      var member := msg.mentions[i];
      if !IsMemberMention(guild, member) {
        MentionRaisesAt(store.afk, guild, msg.mentions, i);
        return effects + [Raise(AttributeError)];
      }
      var g := guild.value.id;
      var one: seq<Effect> := [];
      if store.IsAfk(member.user.id, g) {
        var details := store.GetAfkDetails(member.user.id, g);
        one := [Reply(AfkNotice(member.user.id, details.value))];
      }
      MentionRepliesAppend(store.afk, guild, msg.mentions[..i], [member]);
      assert msg.mentions[..i + 1] == msg.mentions[..i] + [member];
      effects := effects + one;
      i := i + 1;
    }
    assert msg.mentions[..i] == msg.mentions;
  }

  // ---------------------------------------------------------------------
  // Check and list
  // ---------------------------------------------------------------------

  /** `afk check` */
  function AfkCheck(afk: map<AfkKey, AfkRecord>, g: Id, member: Id): (eff: seq<Effect>)
    ensures (member, g) in afk ==> eff == [Reply(AfkNotice(member, afk[(member, g)]))]
    ensures (member, g) !in afk ==> eff == [Reply(UserMention(member) + " is not afk.")]
  {
    if (member, g) in afk then [Reply(AfkNotice(member, afk[(member, g)]))]
    else [Reply(UserMention(member) + " is not afk.")]
  }

  /** `afk check` reads back what `set` and `reset` store: the notice with
      the start and reason just recorded, "is not afk." after a reset, and
      the same answer as before for every other member. */
  lemma AfkCheckReadsStore(afk: map<AfkKey, AfkRecord>, g: Id, u: Id, rec: AfkRecord, v: Id)
    requires v != u
    ensures AfkCheck(afk[(u, g) := rec], g, u) == [Reply(AfkNotice(u, rec))]
    ensures AfkCheck(afk - {(u, g)}, g, u) == [Reply(UserMention(u) + " is not afk.")]
    ensures AfkCheck(afk[(u, g) := rec], g, v) == AfkCheck(afk, g, v)
    ensures AfkCheck(afk - {(u, g)}, g, v) == AfkCheck(afk, g, v)
  {
  }

  /** One line of `afk list`, for the member at 1-based position `index`. */
  function ListLine(index: nat, user: Id, rec: AfkRecord): string {
    "`" + NatToString(index) + ".` " + UserMention(user) + " - since " + TimeMarkup(rec.start) +
    " - **Reason:** " + ReasonText(rec.reason)
  }

  /** `"\n".join(lines)` */
  function JoinLines(lines: seq<string>): string {
    if lines == [] then "" else if |lines| == 1 then lines[0] else lines[0] + "\n" + JoinLines(lines[1..])
  }

  /** The lines of the list, numbered from 1 in the order the store gives. */
  function ListLines(afk: map<AfkKey, AfkRecord>, g: Id, users: seq<Id>): (lines: seq<string>)
    requires forall i :: 0 <= i < |users| ==> (users[i], g) in afk
    ensures |lines| == |users|
    ensures forall i :: 0 <= i < |users| ==> lines[i] == ListLine(i + 1, users[i], afk[(users[i], g)])
  {
    seq(|users|, i requires 0 <= i < |users| => ListLine(i + 1, users[i], afk[(users[i], g)]))
  }

  lemma ListLinesSnoc(afk: map<AfkKey, AfkRecord>, g: Id, users: seq<Id>, k: nat)
    requires k < |users| && forall i :: 0 <= i < |users| ==> (users[i], g) in afk
    ensures ListLines(afk, g, users[..k + 1]) ==
      ListLines(afk, g, users[..k]) + [ListLine(k + 1, users[k], afk[(users[k], g)])]
  {
    var a := ListLines(afk, g, users[..k + 1]);
    var b := ListLines(afk, g, users[..k]) + [ListLine(k + 1, users[k], afk[(users[k], g)])];
    assert |a| == k + 1 == |b|;
    forall i | 0 <= i < k + 1 ensures a[i] == b[i] {
      if i < k {
        assert users[..k + 1][i] == users[i] == users[..k][i];
        assert b[i] == ListLines(afk, g, users[..k])[i];
      } else {
        assert users[..k + 1][k] == users[k];
      }
    }
  }

  /** `afk list`. `users` is what `get_afk_members` returned: every member
      AFK in the guild, once each, in the order the database chose. */
  method AfkList(store: Store, guild: Guild, users: seq<Id>) returns (effects: seq<Effect>)
    requires forall i :: 0 <= i < |users| ==> (users[i], guild.id) in store.afk
    requires forall u: Id :: (u, guild.id) in store.afk ==> u in users
    ensures users == [] ==> effects == [Reply("No members are afk.")]
    ensures users != [] && (forall i :: 0 <= i < |users| ==> users[i] in guild.members) ==>
      effects == [Reply(JoinLines(ListLines(store.afk, guild.id, users)))]
    ensures (exists i :: 0 <= i < |users| && users[i] !in guild.members) ==> effects == [Raise(AttributeError)]
  {
    if users == [] {
      return [Reply("No members are afk.")];
    }
    var lines: seq<string> := [];
    var index := 0;
    while index < |users|
      invariant 0 <= index <= |users|
      invariant forall j :: 0 <= j < index ==> users[j] in guild.members
      invariant lines == ListLines(store.afk, guild.id, users[..index])
    {
      var u := users[index];
      if u !in guild.members {
        // `get_member` gave None and `member.id` fails
        assert !(forall i :: 0 <= i < |users| ==> users[i] in guild.members);
        return [Raise(AttributeError)];
      }
      var details := store.GetAfkDetails(u, guild.id);
      ListLinesSnoc(store.afk, guild.id, users, index);
      lines := lines + [ListLine(index + 1, u, details.value)];
      index := index + 1;
    }
    assert users[..index] == users;
    assert !(exists i :: 0 <= i < |users| && users[i] !in guild.members);
    effects := [Reply(JoinLines(lines))];
  }
}
