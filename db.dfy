/** The per-guild settings table and the AFK table (utils/db.py), as a class
    whose two fields are maps that the write operations reassign. Each read
    is a function over the maps, each write a method whose postcondition
    gives the whole new state. The two role allowlists are stored as one
    `|`-delimited string each; `Split` and `Join` are Python's `str.split`
    and `str.join` on a one-character separator. */
module Db {
  import opened Base

  /** One row of the `guilds` table. Every column but the automod flag may
      be NULL (`None`). */
  datatype GuildRow = GuildRow(
    modLogChannel: Option<Id>,
    memberLogChannel: Option<Id>,
    welcomeMessage: Option<string>,
    automod: bool,
    linkSendRoles: Option<string>,
    embedRoles: Option<string>,
    caseNumber: Option<int>)

  /** One row of the `afk` table, keyed by (user id, guild id); `start` is the
      moment the status was set, as an opaque timestamp. */
  datatype AfkRecord = AfkRecord(start: int, reason: Option<string>)

  type AfkKey = (Id, Id)

  // ---------------------------------------------------------------------
  // The `|` codec
  // ---------------------------------------------------------------------

  const Delim: char := '|'

  /** `s.split(d)`: always at least one part, and no part holds `d`. */
  function Split(s: string, d: char): (parts: seq<string>)
    ensures |parts| >= 1
    ensures forall i :: 0 <= i < |parts| ==> d !in parts[i]
    decreases |s|
  {
    if s == [] then [""]
    else if s[0] == d then [""] + Split(s[1..], d)
    else
      var rest := Split(s[1..], d);
      [[s[0]] + rest[0]] + rest[1..]
  }

  /** `d.join(parts)` */
  function Join(parts: seq<string>, d: char): string
    decreases |parts|
  {
    if |parts| == 0 then ""
    else if |parts| == 1 then parts[0]
    else parts[0] + [d] + Join(parts[1..], d)
  }

  predicate NoDelim(parts: seq<string>, d: char) {
    forall i :: 0 <= i < |parts| ==> d !in parts[i]
  }

  lemma {:induction false} SplitWithoutDelim(a: string, d: char)
    requires d !in a
    ensures Split(a, d) == [a]
    decreases |a|
  {
    if a != [] {
      SplitWithoutDelim(a[1..], d);
      assert [a[0]] + a[1..] == a;
    }
  }

  lemma {:induction false} SplitAfterPart(a: string, d: char, s: string)
    requires d !in a
    ensures Split(a + [d] + s, d) == [a] + Split(s, d)
    decreases |a|
  {
    var t := a + [d] + s;
    if a == [] {
      assert t[1..] == s;
    } else {
      assert t[1..] == a[1..] + [d] + s;
      SplitAfterPart(a[1..], d, s);
      assert [a[0]] + a[1..] == a;
    }
  }

  /** Splitting what `Join` produced gives back the parts, provided no part
      holds the separator. */
  lemma {:induction false} SplitJoin(parts: seq<string>, d: char)
    requires |parts| >= 1 && NoDelim(parts, d)
    ensures Split(Join(parts, d), d) == parts
    decreases |parts|
  {
    if |parts| == 1 {
      SplitWithoutDelim(parts[0], d);
    } else {
      SplitJoin(parts[1..], d);
      SplitAfterPart(parts[0], d, Join(parts[1..], d));
      assert [parts[0]] + parts[1..] == parts;
    }
  }

  /** Joining the parts of a split gives back the string. */
  lemma {:induction false} JoinSplit(s: string, d: char)
    ensures Join(Split(s, d), d) == s
    decreases |s|
  {
    if s != [] {
      JoinSplit(s[1..], d);
      var rest := Split(s[1..], d);
      if s[0] == d {
        assert Split(s, d)[1..] == rest;
      } else {
        var parts := Split(s, d);
        assert parts[1..] == rest[1..];
        assert [s[0]] + s[1..] == s;
      }
    }
  }

  /** `Join` yields the empty string only for no parts or a single empty one. */
  lemma JoinEmpty(parts: seq<string>, d: char)
    requires Join(parts, d) == ""
    ensures parts == [] || parts == [""]
  {
  }

  /** `automod_get_allowed_link_roles`: `res[0].split("|") if res[0] else []`. */
  function DecodeLinkRoles(col: Option<string>): seq<string> {
    if TruthyStr(col) then Split(col.value, Delim) else []
  }

  /** `automod_get_allowed_embed_roles`: `res[0].split("|") if res[0] else None`. */
  function DecodeEmbedRoles(col: Option<string>): Option<seq<string>> {
    if TruthyStr(col) then Some(Split(col.value, Delim)) else None
  }

  /** The asymmetry between the two columns: the same stored string decodes
      to `[]` as a link list exactly when it decodes to `None` as an embed
      list; otherwise both give the same non-empty list. */
  lemma DecodeAsymmetry(col: Option<string>)
    ensures DecodeLinkRoles(col) == [] <==> DecodeEmbedRoles(col) == None
    ensures DecodeEmbedRoles(col).Some? ==> DecodeEmbedRoles(col).value == DecodeLinkRoles(col)
    ensures DecodeLinkRoles(None) == [] && DecodeLinkRoles(Some("")) == []
    ensures DecodeEmbedRoles(None) == None && DecodeEmbedRoles(Some("")) == None
  {
  }

  /** Decoding the `|`-joined encoding of a role list gives the list back,
      for entries free of `|`; the only list that does not survive is `[""]`,
      whose encoding is the empty string. */
  lemma LinkRolesRoundTrip(roles: seq<string>)
    requires NoDelim(roles, Delim) && roles != [""]
    ensures DecodeLinkRoles(Some(Join(roles, Delim))) == roles
  {
    if roles != [] {
      SplitJoin(roles, Delim);
      if Join(roles, Delim) == "" {
        JoinEmpty(roles, Delim);
      }
    }
  }

  /** The embed list round-trips for non-empty lists; the empty list comes
      back as `None`. */
  lemma EmbedRolesRoundTrip(roles: seq<string>)
    requires NoDelim(roles, Delim) && roles != [""]
    ensures DecodeEmbedRoles(Some(Join(roles, Delim))) == if roles == [] then None else Some(roles)
  {
    LinkRolesRoundTrip(roles);
  }

  /** Encoding a decoded list reproduces the stored column, unless the column
      was NULL (an encoding is never NULL). */
  lemma EncodeDecode(col: Option<string>)
    requires col.Some?
    ensures Join(DecodeLinkRoles(col), Delim) == col.value
  {
    if TruthyStr(col) {
      JoinSplit(col.value, Delim);
    }
  }

  /** The index of the first occurrence of `x` in `xs`. */
  function IndexOf<T(==)>(xs: seq<T>, x: T): (i: nat)
    requires x in xs
    ensures i < |xs| && xs[i] == x && x !in xs[..i]
  {
    if xs[0] == x then 0
    else
      var j := IndexOf(xs[1..], x);
      assert xs[1..][..j] == xs[1..j + 1];
      j + 1
  }

  /** `list.remove(x)`: drops the first occurrence of `x`; `None` when `x` is
      absent (Python raises `ValueError`). */
  function RemoveFirst<T(==)>(xs: seq<T>, x: T): (r: Option<seq<T>>)
    ensures r.None? <==> x !in xs
    ensures r.Some? ==> r.value == xs[..IndexOf(xs, x)] + xs[IndexOf(xs, x) + 1..]
  {
    if xs == [] then None
    else if xs[0] == x then Some(xs[1..])
    else
      match RemoveFirst(xs[1..], x)
      case None => None
      case Some(rest) =>
        var j := IndexOf(xs[1..], x);
        assert xs[..j + 1] == [xs[0]] + xs[1..][..j];
        assert xs[j + 2..] == xs[1..][j + 1..];
        Some([xs[0]] + rest)
  }

  /** `list.remove` takes exactly one copy of `x` out of the list. */
  lemma RemoveFirstMultiset<T>(xs: seq<T>, x: T)
    requires x in xs
    ensures multiset(RemoveFirst(xs, x).value) == multiset(xs) - multiset{x}
  {
    var i := IndexOf(xs, x);
    assert xs == xs[..i] + [x] + xs[i + 1..];
  }

  // ---------------------------------------------------------------------
  // The case counter
  // ---------------------------------------------------------------------

  /** `get_case_number` on a stored column: `1 if not res[0] else res[0]`. */
  function CaseNumberOf(col: Option<int>): int {
    if TruthyInt(col) then col.value else 1
  }

  /** `CASE_NUMBER = CASE_NUMBER + 1`; in SQL `NULL + 1` is `NULL`. */
  function Bump(col: Option<int>): Option<int> {
    match col
    case None => None
    case Some(v) => Some(v + 1)
  }

  /** The case numbers that `n` consecutive logged actions read, starting
      from the stored column `col`. */
  function CaseNumbers(col: Option<int>, n: nat): (cases: seq<int>)
    ensures |cases| == n
    decreases n
  {
    if n == 0 then [] else [CaseNumberOf(col)] + CaseNumbers(Bump(col), n - 1)
  }

  /** From a positive counter, consecutive actions get consecutive case
      numbers, so no number is used twice. */
  lemma {:induction false} CaseNumbersFromPositive(c: int, n: nat, k: nat)
    requires c >= 1 && k < n
    ensures CaseNumbers(Some(c), n)[k] == c + k
    decreases n
  {
    if k > 0 {
      CaseNumbersFromPositive(c + 1, n - 1, k - 1);
    }
  }

  /** A NULL counter never advances: every action is case 1. */
  lemma {:induction false} CaseNumbersFromNull(n: nat, k: nat)
    requires k < n
    ensures CaseNumbers(None, n)[k] == 1
    decreases n
  {
    if k > 0 {
      CaseNumbersFromNull(n - 1, k - 1);
    }
  }

  /** A counter of 0 reads as 1 and is then bumped to 1: the first two
      actions share case number 1. */
  lemma CaseNumbersFromZero()
    ensures CaseNumbers(Some(0), 2) == [1, 1]
  {
  }

  /** After `n` increments a positive counter holds `c + n`. */
  function BumpTimes(col: Option<int>, n: nat): Option<int>
    decreases n
  {
    if n == 0 then col else BumpTimes(Bump(col), n - 1)
  }

  lemma {:induction false} BumpTimesAdds(c: int, n: nat)
    ensures BumpTimes(Some(c), n) == Some(c + n)
    ensures BumpTimes(None, n) == None
    decreases n
  {
    if n > 0 {
      BumpTimesAdds(c + 1, n - 1);
    }
  }

  // ---------------------------------------------------------------------
  // The store
  // ---------------------------------------------------------------------

  /** The column reads on a snapshot of the table; a guild without a row
      reads as NULL. */
  function ModLogOf(guilds: map<Id, GuildRow>, g: Id): Option<Id> {
    if g in guilds then guilds[g].modLogChannel else None
  }

  function MemberLogOf(guilds: map<Id, GuildRow>, g: Id): Option<Id> {
    if g in guilds then guilds[g].memberLogChannel else None
  }

  function WelcomeOf(guilds: map<Id, GuildRow>, g: Id): Option<string> {
    if g in guilds then guilds[g].welcomeMessage else None
  }

  /** The column writes on a snapshot: `update ... where GUILD_ID = g`
      changes that row only, and nothing when there is no row. */
  function WithModLog(guilds: map<Id, GuildRow>, g: Id, c: Option<Id>): (r: map<Id, GuildRow>)
    ensures r.Keys == guilds.Keys
    ensures g in guilds ==> r[g] == guilds[g].(modLogChannel := c)
    ensures forall h :: h in guilds && h != g ==> r[h] == guilds[h]
  {
    if g in guilds then guilds[g := guilds[g].(modLogChannel := c)] else guilds
  }

  function WithMemberLog(guilds: map<Id, GuildRow>, g: Id, c: Option<Id>): (r: map<Id, GuildRow>)
    ensures r.Keys == guilds.Keys
    ensures g in guilds ==> r[g] == guilds[g].(memberLogChannel := c)
    ensures forall h :: h in guilds && h != g ==> r[h] == guilds[h]
  {
    if g in guilds then guilds[g := guilds[g].(memberLogChannel := c)] else guilds
  }

  function WithWelcome(guilds: map<Id, GuildRow>, g: Id, m: Option<string>): (r: map<Id, GuildRow>)
    ensures r.Keys == guilds.Keys
    ensures g in guilds ==> r[g] == guilds[g].(welcomeMessage := m)
    ensures forall h :: h in guilds && h != g ==> r[h] == guilds[h]
  {
    if g in guilds then guilds[g := guilds[g].(welcomeMessage := m)] else guilds
  }

  /** `CASE_NUMBER = CASE_NUMBER + 1` on that guild's row. */
  function WithCaseBump(guilds: map<Id, GuildRow>, g: Id): (r: map<Id, GuildRow>)
    ensures r.Keys == guilds.Keys
    ensures g in guilds ==> r[g] == guilds[g].(caseNumber := Bump(guilds[g].caseNumber))
    ensures forall h :: h in guilds && h != g ==> r[h] == guilds[h]
  {
    if g in guilds then guilds[g := guilds[g].(caseNumber := Bump(guilds[g].caseNumber))] else guilds
  }

  class Store {
    var guilds: map<Id, GuildRow>
    var afk: map<AfkKey, AfkRecord>

    constructor (guilds0: map<Id, GuildRow>, afk0: map<AfkKey, AfkRecord>)
      ensures guilds == guilds0 && afk == afk0
    {
      guilds := guilds0;
      afk := afk0;
    }

    /** `guild_exists` */
    predicate GuildExists(g: Id)
      reads this
    {
      g in guilds
    }

    /** `get_mod_log_channel`: `None if not res else res[0]`. */
    function ModLogChannel(g: Id): Option<Id>
      reads this
    {
      ModLogOf(guilds, g)
    }

    /** `get_member_log_channel` */
    function MemberLogChannel(g: Id): Option<Id>
      reads this
    {
      MemberLogOf(guilds, g)
    }

    /** `get_welcome_message` */
    function WelcomeMessage(g: Id): Option<string>
      reads this
    {
      WelcomeOf(guilds, g)
    }

    /** `update_mod_log_channel`: an UPDATE of that guild's column only; a
        guild without a row is left without one. */
    method UpdateModLogChannel(g: Id, c: Option<Id>)
      modifies this
      ensures guilds == WithModLog(old(guilds), g, c)
      ensures afk == old(afk)
    {
      if g in guilds {
        guilds := guilds[g := guilds[g].(modLogChannel := c)];
      }
    }

    /** `update_member_log_channel` */
    method UpdateMemberLogChannel(g: Id, c: Option<Id>)
      modifies this
      ensures guilds == WithMemberLog(old(guilds), g, c)
      ensures afk == old(afk)
    {
      if g in guilds {
        guilds := guilds[g := guilds[g].(memberLogChannel := c)];
      }
    }

    /** `update_welcome_message` */
    method UpdateWelcomeMessage(g: Id, m: Option<string>)
      modifies this
      ensures guilds == WithWelcome(old(guilds), g, m)
      ensures afk == old(afk)
    {
      if g in guilds {
        guilds := guilds[g := guilds[g].(welcomeMessage := m)];
      }
    }

    /** `get_case_number`: `res[0]` on a missing row raises `TypeError`. */
    function GetCaseNumber(g: Id): (r: Result<int>)
      reads this
      ensures r.Raised? <==> g !in guilds
      ensures r.Raised? ==> r.exc == TypeError
      ensures g in guilds && TruthyInt(guilds[g].caseNumber) ==> r == Ok(guilds[g].caseNumber.value)
      ensures g in guilds && !TruthyInt(guilds[g].caseNumber) ==> r == Ok(1)
      ensures r.Ok? ==> r.value != 0
    {
      if g in guilds then Ok(CaseNumberOf(guilds[g].caseNumber)) else Raised(TypeError)
    }

    /** `increment_case_number`: adds one to that guild's counter only. */
    method IncrementCaseNumber(g: Id)
      modifies this
      ensures guilds == WithCaseBump(old(guilds), g)
      ensures afk == old(afk)
    {
      if g in guilds {
        guilds := guilds[g := guilds[g].(caseNumber := Bump(guilds[g].caseNumber))];
      }
    }

    /** `is_afk`: the existence of the row is the AFK status. */
    predicate IsAfk(u: Id, g: Id)
      reads this
    {
      (u, g) in afk
    }

    /** `set_afk` */
    method SetAfk(u: Id, g: Id, start: int, reason: Option<string>)
      modifies this
      ensures afk == old(afk)[(u, g) := AfkRecord(start, reason)]
      ensures IsAfk(u, g) && afk[(u, g)].reason == reason
      ensures guilds == old(guilds)
    {
      afk := afk[(u, g) := AfkRecord(start, reason)];
    }

    /** `remove_afk` */
    method RemoveAfk(u: Id, g: Id)
      modifies this
      ensures afk == old(afk) - {(u, g)}
      ensures !IsAfk(u, g)
      ensures guilds == old(guilds)
    {
      afk := afk - {(u, g)};
    }

    /** `get_afk_details`: subscripting the missing row raises `TypeError`. */
    function GetAfkDetails(u: Id, g: Id): (r: Result<AfkRecord>)
      reads this
      ensures r.Ok? <==> IsAfk(u, g)
      ensures r.Ok? ==> r.value == afk[(u, g)]
    {
      if (u, g) in afk then Ok(afk[(u, g)]) else Raised(TypeError)
    }

    /** `get_afk_members`: the users AFK in a guild, each once, in an order
        the database chooses. */
    method GetAfkMembers(g: Id) returns (users: seq<Id>)
      ensures forall u :: u in users <==> IsAfk(u, g)
      ensures forall i, j :: 0 <= i < j < |users| ==> users[i] != users[j]
    {
      var all := set k | k in afk.Keys && k.1 == g :: k.0;
      var pending := all;
      users := [];
      while pending != {}
        invariant pending <= all
        invariant forall u :: u in users <==> u in all && u !in pending
        invariant forall i, j :: 0 <= i < j < |users| ==> users[i] != users[j]
        decreases pending
      {
        var u :| u in pending;
        users := users + [u];
        pending := pending - {u};
      }
      forall u: Id | IsAfk(u, g)
        ensures u in all
      {
        var k := (u, g);
        assert k in afk.Keys && k.1 == g;
      }
    }

    /** `automod_status`: `res[0]` on a missing row raises `TypeError`. */
    function AutomodStatus(g: Id): (r: Result<bool>)
      reads this
      ensures r.Raised? <==> g !in guilds
    {
      if g in guilds then Ok(guilds[g].automod) else Raised(TypeError)
    }

    /** `automod_enable`: idempotent, since it writes a constant. */
    method AutomodEnable(g: Id)
      modifies this
      ensures g in old(guilds) ==> guilds == old(guilds)[g := old(guilds)[g].(automod := true)]
      ensures g !in old(guilds) ==> guilds == old(guilds)
      ensures g in guilds ==> AutomodStatus(g) == Ok(true)
      ensures afk == old(afk)
    {
      if g in guilds {
        guilds := guilds[g := guilds[g].(automod := true)];
      }
    }

    /** `automod_disable` */
    method AutomodDisable(g: Id)
      modifies this
      ensures g in old(guilds) ==> guilds == old(guilds)[g := old(guilds)[g].(automod := false)]
      ensures g !in old(guilds) ==> guilds == old(guilds)
      ensures g in guilds ==> AutomodStatus(g) == Ok(false)
      ensures afk == old(afk)
    {
      if g in guilds {
        guilds := guilds[g := guilds[g].(automod := false)];
      }
    }

    /** `automod_get_allowed_link_roles` */
    function GetLinkRoles(g: Id): (r: Result<seq<string>>)
      reads this
      ensures r.Raised? <==> g !in guilds
    {
      if g in guilds then Ok(DecodeLinkRoles(guilds[g].linkSendRoles)) else Raised(TypeError)
    }

    /** `automod_get_allowed_embed_roles` */
    function GetEmbedRoles(g: Id): (r: Result<Option<seq<string>>>)
      reads this
      ensures r.Raised? <==> g !in guilds
    {
      if g in guilds then Ok(DecodeEmbedRoles(guilds[g].embedRoles)) else Raised(TypeError)
    }

    /** `automod_update_allowed_link_roles`: decode, append or remove the
        first occurrence, re-join with `|`, write that guild's column. */
    method UpdateLinkRoles(g: Id, roleId: string, add: bool) returns (r: Result<()>)
      modifies this
      ensures g !in old(guilds) ==> r == Raised(TypeError) && guilds == old(guilds)
      ensures g in old(guilds) && add ==>
        var current := DecodeLinkRoles(old(guilds)[g].linkSendRoles);
        r == Ok(()) &&
        guilds == old(guilds)[g := old(guilds)[g].(linkSendRoles := Some(Join(current + [roleId], Delim)))]
      ensures g in old(guilds) && !add ==>
        var current := DecodeLinkRoles(old(guilds)[g].linkSendRoles);
        if roleId in current then
          r == Ok(()) &&
          guilds == old(guilds)[g := old(guilds)[g].(linkSendRoles := Some(Join(RemoveFirst(current, roleId).value, Delim)))]
        else
          r == Raised(ValueError) && guilds == old(guilds)
      ensures afk == old(afk)
    {
      var current := GetLinkRoles(g);
      if current.Raised? {
        return Raised(current.exc);
      }
      var updated := current.value;
      if add {
        updated := updated + [roleId];
      } else {
        var removed := RemoveFirst(updated, roleId);
        if removed.None? {
          return Raised(ValueError);
        }
        updated := removed.value;
      }
      guilds := guilds[g := guilds[g].(linkSendRoles := Some(Join(updated, Delim)))];
      r := Ok(());
    }

    /** `automod_update_allowed_embed_roles`: as for links, except that an
        empty column decodes to `None`, on which `append` and `remove` raise
        `AttributeError` before anything is written. */
    method UpdateEmbedRoles(g: Id, roleId: string, add: bool) returns (r: Result<()>)
      modifies this
      ensures g !in old(guilds) ==> r == Raised(TypeError) && guilds == old(guilds)
      ensures g in old(guilds) && DecodeEmbedRoles(old(guilds)[g].embedRoles).None? ==>
        r == Raised(AttributeError) && guilds == old(guilds)
      ensures g in old(guilds) && add && DecodeEmbedRoles(old(guilds)[g].embedRoles).Some? ==>
        var current := DecodeEmbedRoles(old(guilds)[g].embedRoles).value;
        r == Ok(()) &&
        guilds == old(guilds)[g := old(guilds)[g].(embedRoles := Some(Join(current + [roleId], Delim)))]
      ensures g in old(guilds) && !add && DecodeEmbedRoles(old(guilds)[g].embedRoles).Some? ==>
        var current := DecodeEmbedRoles(old(guilds)[g].embedRoles).value;
        if roleId in current then
          r == Ok(()) &&
          guilds == old(guilds)[g := old(guilds)[g].(embedRoles := Some(Join(RemoveFirst(current, roleId).value, Delim)))]
        else
          r == Raised(ValueError) && guilds == old(guilds)
      ensures afk == old(afk)
    {
      var current := GetEmbedRoles(g);
      if current.Raised? {
        return Raised(current.exc);
      }
      if current.value.None? {
        return Raised(AttributeError);
      }
      var updated := current.value.value;
      if add {
        updated := updated + [roleId];
      } else {
        var removed := RemoveFirst(updated, roleId);
        if removed.None? {
          return Raised(ValueError);
        }
        updated := removed.value;
      }
      guilds := guilds[g := guilds[g].(embedRoles := Some(Join(updated, Delim)))];
      r := Ok(());
    }
  }

  /** What the link list reads after a successful add: the old list with the
      new id at the end. */
  lemma LinkRolesAfterAdd(current: seq<string>, roleId: string)
    requires NoDelim(current, Delim) && Delim !in roleId && roleId != ""
    ensures DecodeLinkRoles(Some(Join(current + [roleId], Delim))) == current + [roleId]
  {
    var roles := current + [roleId];
    forall i | 0 <= i < |roles|
      ensures Delim !in roles[i]
    {
      if i < |current| {
        assert roles[i] == current[i];
      }
    }
    assert roles[|roles| - 1] == roleId;
    LinkRolesRoundTrip(roles);
  }

  /** Entries as the commands write them: `str(role.id)`, never empty and
      free of `|`. */
  predicate WellFormedRoles(roles: seq<string>) {
    forall i :: 0 <= i < |roles| ==> roles[i] != "" && Delim !in roles[i]
  }

  /** What the link list reads after a successful remove: the old list with
      the first occurrence of the id dropped. */
  lemma LinkRolesAfterRemove(current: seq<string>, roleId: string)
    requires WellFormedRoles(current) && roleId in current
    ensures DecodeLinkRoles(Some(Join(RemoveFirst(current, roleId).value, Delim)))
         == current[..IndexOf(current, roleId)] + current[IndexOf(current, roleId) + 1..]
  {
    var rest := RemoveFirst(current, roleId).value;
    RemoveFirstMultiset(current, roleId);
    forall i | 0 <= i < |rest|
      ensures rest[i] != "" && Delim !in rest[i]
    {
      assert rest[i] in multiset(rest);
      assert rest[i] in current;
    }
    LinkRolesRoundTrip(rest);
  }
}
