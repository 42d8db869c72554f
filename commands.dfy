/** The command layer of the terminal client: roster lookups by id and by
    name, channel switching, and the argument parsing of the history and
    upload commands and of the command dispatcher. */
module Commands {
  import opened Common
  import opened Rtm

  // ---------------------------------------------------------------------------
  // Lookups by id

  /** findChannel, findGroup and findUser: the first entry with exactly this
      id, or nothing. */
  function FindNamed(xs: seq<Named>, id: string): (r: Option<Named>)
    ensures r.None? <==> forall j | 0 <= j < |xs| :: xs[j].id != id
    ensures r.Some? ==> exists i | 0 <= i < |xs| :: xs[i] == r.value && r.value.id == id && forall j | 0 <= j < i :: xs[j].id != id
  {
    var i := IndexByID(xs, id, 0);
    if i == -1 then None else Some(xs[i])
  }

  function IMIndexByID(ims: seq<IM>, id: string, k: nat): (i: int)
    requires k <= |ims|
    decreases |ims| - k
    ensures i == -1 || (k <= i < |ims| && ims[i].id == id && forall j | k <= j < i :: ims[j].id != id)
    ensures i == -1 ==> forall j | k <= j < |ims| :: ims[j].id != id
  {
    if k == |ims| then -1 else if ims[k].id == id then k else IMIndexByID(ims, id, k + 1)
  }

  /** findIM: the first direct-message channel with exactly this id. */
  function FindIM(ims: seq<IM>, id: string): (r: Option<IM>)
    ensures r.None? <==> forall j | 0 <= j < |ims| :: ims[j].id != id
    ensures r.Some? ==> exists i | 0 <= i < |ims| :: ims[i] == r.value && r.value.id == id && forall j | 0 <= j < i :: ims[j].id != id
  {
    var i := IMIndexByID(ims, id, 0);
    if i == -1 then None else Some(ims[i])
  }

  /** userNameByID: the user's name when the id is known, the id otherwise. */
  function UserNameByID(info: StartReply, id: string): (r: string)
    ensures FindNamed(info.users, id).Some? ==> r == FindNamed(info.users, id).value.name
    ensures FindNamed(info.users, id).None? ==> r == id
  {
    match FindNamed(info.users, id)
    case Some(u) => u.name
    case None => id
  }

  // ---------------------------------------------------------------------------
  // Lookups by name, ignoring case

  function IndexByName(xs: seq<Named>, name: string, k: nat): (i: int)
    requires k <= |xs|
    decreases |xs| - k
    ensures i == -1 || (k <= i < |xs| && EqualFold(xs[i].name, name) && forall j | k <= j < i :: !EqualFold(xs[j].name, name))
    ensures i == -1 ==> forall j | k <= j < |xs| :: !EqualFold(xs[j].name, name)
  {
    if k == |xs| then -1 else if EqualFold(xs[k].name, name) then k else IndexByName(xs, name, k + 1)
  }

  /** The first entry whose name equals `name` up to case. */
  function FindByName(xs: seq<Named>, name: string): (r: Option<Named>)
    ensures r.None? <==> forall j | 0 <= j < |xs| :: !EqualFold(xs[j].name, name)
    ensures r.Some? ==> exists i | 0 <= i < |xs| ::
      (xs[i] == r.value && EqualFold(r.value.name, name) && forall j | 0 <= j < i :: !EqualFold(xs[j].name, name))
  {
    var i := IndexByName(xs, name, 0);
    if i == -1 then None else Some(xs[i])
  }

  function IMIndexByPartner(info: StartReply, name: string, k: nat): (i: int)
    requires k <= |info.ims|
    decreases |info.ims| - k
    ensures i == -1 || (k <= i < |info.ims| && EqualFold(UserNameByID(info, info.ims[i].user), name) &&
      forall j | k <= j < i :: !EqualFold(UserNameByID(info, info.ims[j].user), name))
    ensures i == -1 ==> forall j | k <= j < |info.ims| :: !EqualFold(UserNameByID(info, info.ims[j].user), name)
  {
    if k == |info.ims| then -1
    else if EqualFold(UserNameByID(info, info.ims[k].user), name) then k
    else IMIndexByPartner(info, name, k + 1)
  }

  /** The first direct-message channel whose partner's user name equals
      `name` up to case. */
  function FindIMByPartner(info: StartReply, name: string): (r: Option<IM>)
    ensures r.None? <==> forall j | 0 <= j < |info.ims| :: !EqualFold(UserNameByID(info, info.ims[j].user), name)
    ensures r.Some? ==> r.value in info.ims && EqualFold(UserNameByID(info, r.value.user), name)
  {
    var i := IMIndexByPartner(info, name, 0);
    if i == -1 then None else Some(info.ims[i])
  }

  // ---------------------------------------------------------------------------
  // Names and ids of conversations

  /** channelName of the command file: the name of a 'C' or 'G' id, the
      partner's user name for a 'D' id, "" otherwise. */
  function ChannelName(info: StartReply, ch: string): (r: string)
    ensures ch == "" || (ch[0] != 'C' && ch[0] != 'G' && ch[0] != 'D') ==> r == ""
    ensures ch != "" && ch[0] == 'C' ==> r == (match FindNamed(info.channels, ch) case Some(c) => c.name case None => "")
    ensures ch != "" && ch[0] == 'G' ==> r == (match FindNamed(info.groups, ch) case Some(g) => g.name case None => "")
    ensures ch != "" && ch[0] == 'D' ==> r == (match FindIM(info.ims, ch) case Some(m) => UserNameByID(info, m.user) case None => "")
  {
    if ch == "" then ""
    else if ch[0] == 'C' then (match FindNamed(info.channels, ch) case Some(c) => c.name case None => "")
    else if ch[0] == 'G' then (match FindNamed(info.groups, ch) case Some(g) => g.name case None => "")
    else if ch[0] == 'D' then (match FindIM(info.ims, ch) case Some(m) => UserNameByID(info, m.user) case None => "")
    else ""
  }

  /** channelID: an argument that already names a conversation by id is kept;
      otherwise the id of the first channel, then group, then direct-message
      partner whose name matches up to case; "" when nothing matches. */
  function ChannelID(info: StartReply, ch: string): (r: string)
    ensures ChannelName(info, ch) != "" ==> r == ch
    ensures ChannelName(info, ch) == "" && FindByName(info.channels, ch).Some? ==> r == FindByName(info.channels, ch).value.id
    ensures ChannelName(info, ch) == "" && FindByName(info.channels, ch).None? && FindByName(info.groups, ch).Some? ==>
      r == FindByName(info.groups, ch).value.id
    ensures ChannelName(info, ch) == "" && FindByName(info.channels, ch).None? && FindByName(info.groups, ch).None? ==>
      r == (match FindIMByPartner(info, ch) case Some(m) => m.id case None => "")
  {
    if ChannelName(info, ch) != "" then ch
    else match FindByName(info.channels, ch)
      case Some(c) => c.id
      case None =>
        match FindByName(info.groups, ch)
        case Some(g) => g.id
        case None =>
          match FindIMByPartner(info, ch)
          case Some(m) => m.id
          case None => ""
  }

  /** userID: a known user id is kept; otherwise the id of the first user
      whose name matches up to case, or "". */
  function UserID(info: StartReply, u: string): (r: string)
    ensures FindNamed(info.users, u).Some? ==> r == u
    ensures FindNamed(info.users, u).None? ==> r == (match FindByName(info.users, u) case Some(x) => x.id case None => "")
  {
    if FindNamed(info.users, u).Some? then u
    else match FindByName(info.users, u)
      case Some(x) => x.id
      case None => ""
  }

  /** The roster as the server sends it: channel ids start with 'C', group
      ids with 'G', direct-message ids with 'D', and no id is repeated
      within a list. */
  ghost predicate WellFormedRoster(info: StartReply)
  {
    (forall i | 0 <= i < |info.channels| :: info.channels[i].id != [] && info.channels[i].id[0] == 'C') &&
    (forall i | 0 <= i < |info.groups| :: info.groups[i].id != [] && info.groups[i].id[0] == 'G') &&
    (forall i | 0 <= i < |info.ims| :: info.ims[i].id != [] && info.ims[i].id[0] == 'D') &&
    UniqueIDs(info.channels) && UniqueIDs(info.groups) && UniqueIDs(info.users) &&
    (forall i, j | 0 <= i < j < |info.ims| :: info.ims[i].id != info.ims[j].id)
  }

  ghost predicate UniqueIDs(xs: seq<Named>)
  {
    forall i, j | 0 <= i < j < |xs| :: xs[i].id != xs[j].id
  }

  lemma FindNamedUnique(xs: seq<Named>, i: nat)
    requires UniqueIDs(xs) && i < |xs|
    ensures FindNamed(xs, xs[i].id) == Some(xs[i])
  {
    var r := FindNamed(xs, xs[i].id);
    var k :| 0 <= k < |xs| && xs[k] == r.value && r.value.id == xs[i].id && forall j | 0 <= j < k :: xs[j].id != xs[i].id;
    assert k == i;
  }

  /** A name resolved to an id names that id back: the conversation channelID
      picks for a name has, per channelName, that name up to case. */
  lemma ChannelNameOfChannelID(info: StartReply, ch: string)
    requires WellFormedRoster(info)
    requires ChannelName(info, ch) == "" && ChannelID(info, ch) != ""
    ensures EqualFold(ChannelName(info, ChannelID(info, ch)), ch)
  {
    var id := ChannelID(info, ch);
    if FindByName(info.channels, ch).Some? {
      var i :| 0 <= i < |info.channels| && info.channels[i] == FindByName(info.channels, ch).value;
      FindNamedUnique(info.channels, i);
    } else if FindByName(info.groups, ch).Some? {
      var i :| 0 <= i < |info.groups| && info.groups[i] == FindByName(info.groups, ch).value;
      FindNamedUnique(info.groups, i);
    } else {
      var m := FindIMByPartner(info, ch).value;
      var i :| 0 <= i < |info.ims| && info.ims[i] == m;
      var found := FindIM(info.ims, m.id).value;
      var k :| 0 <= k < |info.ims| && info.ims[k] == found && found.id == m.id;
      assert k == i;
    }
  }

  /** A user name resolved by userID names that id back. */
  lemma UserNameOfUserID(info: StartReply, u: string)
    requires UniqueIDs(info.users)
    requires FindNamed(info.users, u).None? && UserID(info, u) != ""
    ensures EqualFold(UserNameByID(info, UserID(info, u)), u)
  {
    var i :| 0 <= i < |info.users| && info.users[i] == FindByName(info.users, u).value;
    FindNamedUnique(info.users, i);
  }

  /** The state the commands share: the team roster and the current
      conversation. */
  class Session {
    const info: StartReply
    var currChannelID: string

    constructor (info: StartReply, currChannelID: string)
      ensures this.info == info && this.currChannelID == currChannelID
    {
      this.info := info;
      this.currChannelID := currChannelID;
    }

    /** switchChannel of the command file: moves to channelID(ch) when that
        is non-empty. */
    method SwitchChannel(ch: string) returns (ok: bool)
      modifies this
      ensures ok <==> ChannelID(info, ch) != ""
      ensures currChannelID == if ok then ChannelID(info, ch) else old(currChannelID)
    {
      var id := ChannelID(info, ch);
      if id != "" {
        currChannelID := id;
        return true;
      }
      return false;
    }
  }

  // ---------------------------------------------------------------------------
  // handleHistory

  /** An argument of at least five characters is a timestamp. */
  predicate IsLong(arg: string)
  {
    |arg| >= 5
  }

  /** The timestamp arguments, in order. */
  function Longs(args: seq<string>): (r: seq<string>)
    ensures forall k | 0 <= k < |r| :: IsLong(r[k])
  {
    if args == [] then []
    else Longs(args[..|args| - 1]) + (if IsLong(args[|args| - 1]) then [args[|args| - 1]] else [])
  }

  /** The count arguments, in order. */
  function Shorts(args: seq<string>): (r: seq<string>)
    ensures forall k | 0 <= k < |r| :: !IsLong(r[k])
  {
    if args == [] then []
    else Shorts(args[..|args| - 1]) + (if IsLong(args[|args| - 1]) then [] else [args[|args| - 1]])
  }

  /** strconv.Atoi with the error ignored: a syntax error gives 0. */
  function AtoiOrZero(s: string): (n: int)
    ensures Atoi(s).Some? ==> n == Atoi(s).value
    ensures Atoi(s).None? ==> n == 0
  {
    match Atoi(s)
    case Some(v) => v
    case None => 0
  }

  datatype HistoryCall = HistoryCall(id: string, latest: string, oldest: string, count: int)

  /** The argument loop of handleHistory: the last short argument sets the
      count, the first long one `latest`, any later long one `oldest`. */
  method HistoryArgs(args: seq<string>) returns (latest: string, oldest: string, count: int)
    ensures latest == (if Longs(args) == [] then "" else Longs(args)[0])
    ensures oldest == (if |Longs(args)| < 2 then "" else Longs(args)[|Longs(args)| - 1])
    ensures count == (if Shorts(args) == [] then 0 else AtoiOrZero(Shorts(args)[|Shorts(args)| - 1]))
  {
    latest, oldest, count := "", "", 0;
    var i := 0;
    while i < |args|
      invariant 0 <= i <= |args|
      invariant (latest, oldest, count) == HistoryFold(args[..i])
    {
      assert args[..i + 1][..i] == args[..i];
      var arg := args[i];
      if |arg| < 5 {
        count := AtoiOrZero(arg);
      } else {
        if latest == "" {
          latest := arg;
        } else {
          oldest := arg;
        }
      }
      i := i + 1;
    }
    HistoryFoldArgs(args);
    assert args[..|args|] == args;
  }

  /** The three values handleHistory's loop leaves after `args`. */
  function HistoryFold(args: seq<string>): (string, string, int)
  {
    if args == [] then ("", "", 0)
    else
      var (latest, oldest, count) := HistoryFold(args[..|args| - 1]);
      var arg := args[|args| - 1];
      if |arg| < 5 then (latest, oldest, AtoiOrZero(arg))
      else if latest == "" then (arg, oldest, count)
      else (latest, arg, count)
  }

  /** The loop keeps the first long argument as latest, the last of two or
      more as oldest, and the last short one, read as a number, as count. */
  lemma {:induction false} HistoryFoldArgs(args: seq<string>)
    ensures var (latest, oldest, count) := HistoryFold(args);
      latest == (if Longs(args) == [] then "" else Longs(args)[0]) &&
      oldest == (if |Longs(args)| < 2 then "" else Longs(args)[|Longs(args)| - 1]) &&
      count == (if Shorts(args) == [] then 0 else AtoiOrZero(Shorts(args)[|Shorts(args)| - 1]))
    decreases |args|
  {
    if args != [] {
      var n := |args| - 1;
      HistoryFoldArgs(args[..n]);
      ArgsStep(args, n);
      assert args[..n + 1] == args;
    }
  }

  lemma ArgsStep(args: seq<string>, i: nat)
    requires i < |args|
    ensures Longs(args[..i + 1]) == Longs(args[..i]) + (if IsLong(args[i]) then [args[i]] else [])
    ensures Shorts(args[..i + 1]) == Shorts(args[..i]) + (if IsLong(args[i]) then [] else [args[i]])
  {
    assert args[..i + 1][..i] == args[..i];
  }

  /** handleHistory up to the call: the conversation is the current one, or
      the one the first argument names; nothing is asked for when it is
      unknown. The call passes `inclusive` as false. */
  method HandleHistory(s: Session, parts: seq<string>) returns (call: Option<HistoryCall>)
    ensures var id := if parts == [] then s.currChannelID else ChannelID(s.info, parts[0]);
      (call.Some? <==> id != "") && (call.Some? ==> call.value.id == id)
    ensures call.Some? && |parts| > 1 ==>
      var args := parts[1..];
      call.value.latest == (if Longs(args) == [] then "" else Longs(args)[0]) &&
      call.value.oldest == (if |Longs(args)| < 2 then "" else Longs(args)[|Longs(args)| - 1]) &&
      call.value.count == (if Shorts(args) == [] then 0 else AtoiOrZero(Shorts(args)[|Shorts(args)| - 1]))
    ensures call.Some? && |parts| <= 1 ==> call.value.latest == "" && call.value.oldest == "" && call.value.count == 0
  {
    var id := s.currChannelID;
    if |parts| > 0 {
      id := ChannelID(s.info, parts[0]);
    }
    if id == "" {
      return None;
    }
    var latest, oldest, count := "", "", 0;
    if |parts| > 1 {
      latest, oldest, count := HistoryArgs(parts[1..]);
    }
    call := Some(HistoryCall(id, latest, oldest, count));
  }

  // ---------------------------------------------------------------------------
  // handleFileUpload

  /** The number of leading white-space characters. */
  function LeadingSpaces(l: string): (n: nat)
    ensures n <= |l|
    ensures forall j | 0 <= j < n :: IsSpace(l[j])
    ensures n < |l| ==> !IsSpace(l[n])
  {
    if l == [] || !IsSpace(l[0]) then 0 else 1 + LeadingSpaces(l[1..])
  }

  /** A white-space character at `j` that is not escaped by a backslash. */
  predicate Separator(l: string, j: int)
  {
    0 < j < |l| && IsSpace(l[j]) && l[j - 1] != '\\'
  }

  /** The position of the first separator from `i` on, or |l|. */
  function NameEnd(l: string, i: nat): (e: nat)
    requires i <= |l|
    decreases |l| - i
    ensures i <= e <= |l|
    ensures e < |l| ==> Separator(l, e)
    ensures forall j | i <= j < e :: !Separator(l, j)
  {
    if i == |l| then |l| else if Separator(l, i) then i else NameEnd(l, i + 1)
  }

  /** The scanning of handleFileUpload over the text after the command word:
      leading white space is skipped; the file name runs to the first white
      space not preceded by '\', and its backslashes then become spaces; the
      comment is what follows that one separator. */
  method ParseUpload(line: string, cmd: string, prefix: string) returns (fname: string, comment: string)
    requires |cmd| + |prefix| <= |line|
    ensures var l0 := line[|cmd| + |prefix|..];
      var l := l0[LeadingSpaces(l0)..];
      var e := NameEnd(l, 0);
      fname == UploadName(l) &&
      comment == (if e + 1 < |l| then l[e + 1..] else "")
  {
    var l := line[|cmd| + |prefix|..];
    var i := 0;
    while i < |l| && IsSpace(l[i])
      invariant 0 <= i <= |l|
      invariant forall j | 0 <= j < i :: IsSpace(l[j])
    {
      i := i + 1;
    }
    assert i == LeadingSpaces(l) by { LeadingSpacesUnique(l, i); }
    l := l[i..];
    i := 0;
    while i < |l|
      invariant 0 <= i <= |l|
      invariant NameEnd(l, 0) == NameEnd(l, i)
    {
      if IsSpace(l[i]) && i > 0 && l[i - 1] != '\\' {
        break;
      }
      i := i + 1;
    }
    fname := ReplaceChar(l[..i], '\\', ' ');
    comment := "";
    if i + 1 < |l| {
      comment := l[i + 1..];
    }
  }

  /** The file name as handleFileUpload takes it: up to the first separator,
      every backslash turned into a space. */
  function UploadName(l: string): (fname: string)
    ensures |fname| == NameEnd(l, 0)
    ensures forall j | 0 <= j < |fname| :: fname[j] == (if l[j] == '\\' then ' ' else l[j])
  {
    ReplaceChar(l[..NameEnd(l, 0)], '\\', ' ')
  }

  /** How file-name completion writes a name: each space preceded by a
      backslash. */
  function EscapeSpaces(n: string): (r: string)
    ensures |r| >= |n|
  {
    if n == [] then [] else (if n[0] == ' ' then "\\ " else [n[0]]) + EscapeSpaces(n[1..])
  }

  /** The inverse of the completion's escaping: every backslash-space pair
      becomes one space. */
  function UnescapeSpaces(s: string): (r: string)
  {
    if s == [] then []
    else if |s| >= 2 && s[0] == '\\' && s[1] == ' ' then " " + UnescapeSpaces(s[2..])
    else [s[0]] + UnescapeSpaces(s[1..])
  }

  /** The file name as evidently intended: up to the first separator, each
      escaped space unescaped. */
  function UploadNameCorrected(l: string): (fname: string)
  {
    UnescapeSpaces(l[..NameEnd(l, 0)])
  }

  /** Names completion can produce: no backslash, and no white space other
      than the plain space. */
  predicate PlainName(n: string)
  {
    forall c | c in n :: c != '\\' && (IsSpace(c) ==> c == ' ')
  }

  /** Every white space is a plain space right after a backslash. */
  predicate SpacesEscaped(e: string)
  {
    forall j | 0 <= j < |e| && IsSpace(e[j]) :: e[j] == ' ' && j > 0 && e[j - 1] == '\\'
  }

  /** Every backslash is right before a space. */
  predicate BackslashesEscape(e: string)
  {
    forall j | 0 <= j < |e| && e[j] == '\\' :: j + 1 < |e| && e[j + 1] == ' '
  }

  lemma EscapedConcat(h: string, t: string)
    requires SpacesEscaped(h) && BackslashesEscape(h) && SpacesEscaped(t) && BackslashesEscape(t)
    ensures SpacesEscaped(h + t) && BackslashesEscape(h + t)
  {
    var e := h + t;
    forall j | 0 <= j < |e| && IsSpace(e[j])
      ensures e[j] == ' ' && j > 0 && e[j - 1] == '\\'
    {
      if j >= |h| {
        assert e[j] == t[j - |h|];
        assert e[j - 1] == t[j - |h| - 1];
      }
    }
    forall j | 0 <= j < |e| && e[j] == '\\'
      ensures j + 1 < |e| && e[j + 1] == ' '
    {
      if j >= |h| {
        assert e[j] == t[j - |h|];
        assert e[j + 1] == t[j + 1 - |h|];
      }
    }
  }

  /** An escaped name has each white space right after a backslash, and each
      backslash right before a space. */
  lemma {:induction false} EscapeSpacesShape(n: string)
    requires PlainName(n)
    ensures SpacesEscaped(EscapeSpaces(n)) && BackslashesEscape(EscapeSpaces(n))
    decreases |n|
  {
    if n != [] {
      assert n[0] in n;
      assert forall c | c in n[1..] :: c in n;
      EscapeSpacesShape(n[1..]);
      var head: string := if n[0] == ' ' then "\\ " else [n[0]];
      EscapedConcat(head, EscapeSpaces(n[1..]));
    }
  }

  lemma {:induction false} UnescapeEscapeSpaces(n: string)
    requires PlainName(n)
    ensures UnescapeSpaces(EscapeSpaces(n)) == n
    decreases |n|
  {
    if n != [] {
      assert n[0] in n;
      assert forall c | c in n[1..] :: c in n;
      UnescapeEscapeSpaces(n[1..]);
      var e := EscapeSpaces(n);
      if n[0] == ' ' {
        assert e[2..] == EscapeSpaces(n[1..]);
      } else {
        assert e[1..] == EscapeSpaces(n[1..]);
      }
      assert n == [n[0]] + n[1..];
    }
  }

  /** The name of an escaped, non-empty name ends where the escaped name ends,
      whatever white space and comment follow. */
  lemma NameEndEscaped(n: string, rest: string)
    requires n != [] && PlainName(n)
    requires rest == [] || IsSpace(rest[0])
    ensures NameEnd(EscapeSpaces(n) + rest, 0) == |EscapeSpaces(n)|
  {
    var e := EscapeSpaces(n);
    var l := e + rest;
    EscapeSpacesShape(n);
    forall j | 0 <= j < |e| ensures !Separator(l, j) {
      assert l[j] == e[j];
      if j > 0 {
        assert l[j - 1] == e[j - 1];
      }
    }
    if rest != [] {
      assert |e| > 0 by { assert n[0] in n; }
      assert l[|e|] == rest[0];
      assert l[|e| - 1] == e[|e| - 1];
      assert Separator(l, |e|);
    }
    NameEndFirst(l, |e|);
  }

  lemma NameEndFirst(l: string, e: nat)
    requires e <= |l|
    requires forall j | 0 <= j < e :: !Separator(l, j)
    requires e == |l| || Separator(l, e)
    ensures NameEnd(l, 0) == e
  {
  }

  /** As written, a completed name with a space does not come back: the
      escaping backslash becomes a second space, so "a b", completed as
      "a\ b", is opened as "a  b". */
  lemma UploadNameDoublesSpace()
    ensures EscapeSpaces("a b") == "a\\ b"
    ensures UploadName(EscapeSpaces("a b")) == "a  b"
    ensures UploadName(EscapeSpaces("a b")) != "a b"
  {
    var e := EscapeSpaces("a b");
    assert EscapeSpaces("b") == "b";
    assert EscapeSpaces(" b") == "\\ b";
    assert e == "a\\ b";
    NameEndEscaped("a b", []);
    assert UploadName(e)[1] == ' ';
  }

  /** Corrected, every name completion can produce comes back unchanged,
      whatever comment follows it. */
  lemma UploadNameCorrectedRoundTrip(n: string, rest: string)
    requires n != [] && PlainName(n)
    requires rest == [] || IsSpace(rest[0])
    ensures UploadNameCorrected(EscapeSpaces(n) + rest) == n
  {
    NameEndEscaped(n, rest);
    var e := EscapeSpaces(n);
    assert (e + rest)[..|e|] == e;
    UnescapeEscapeSpaces(n);
  }

  lemma LeadingSpacesUnique(l: string, n: nat)
    requires n <= |l|
    requires forall j | 0 <= j < n :: IsSpace(l[j])
    requires n == |l| || !IsSpace(l[n])
    ensures LeadingSpaces(l) == n
  {
    if n > 0 {
      LeadingSpacesUnique(l[1..], n - 1);
    }
  }

  // ---------------------------------------------------------------------------
  // handleCommand

  /** The handler handleCommand picks. */
  datatype Handler =
    | Exit | SwitchTo | Archive | Create | History | Info | InviteKick | JoinLeave | List | Rename
    | PurposeTopic | Close | Open | FileUpload | NoAction | Emoji | UsersList | Unknown

  /** The command word: the first field without the prefix, lower-cased. It
      matches that text up to case, holds no upper-case letter and no white
      space, so a case label with an upper-case letter never matches it. */
  function CommandOf(line: string, prefix: string): (cmd: string)
    requires Fields(line) != [] && |prefix| <= |Fields(line)[0]|
    ensures |cmd| == |Fields(line)[0]| - |prefix|
    ensures EqualFold(cmd, Fields(line)[0][|prefix|..])
    ensures forall i | 0 <= i < |cmd| :: !('A' <= cmd[i] <= 'Z') && !IsSpace(cmd[i])
  {
    var word := Fields(line)[0][|prefix|..];
    var cmd := ToLower(word);
    assert forall i | 0 <= i < |cmd| :: !('A' <= cmd[i] <= 'Z') && !IsSpace(cmd[i]) by {
      forall i | 0 <= i < |cmd| ensures !('A' <= cmd[i] <= 'Z') && !IsSpace(cmd[i]) {
        LowerNotUpper(word[i]);
        assert word[i] in Fields(line)[0];
      }
    }
    cmd
  }

  /** The switch of handleCommand. */
  function Dispatch(cmd: string): (h: Handler)
    ensures h == Exit <==> cmd == "exit"
    ensures h == Create <==> cmd in {"c-create", "g-create", "g-createChild"}
  {
    if cmd == "exit" then Exit
    else if cmd in {"c", "g", "d"} then SwitchTo
    else if cmd in {"c-archive", "g-archive", "c-unarchive", "g-unarchive"} then Archive
    else if cmd in {"c-create", "g-create", "g-createChild"} then Create
    else if cmd in {"c-history", "g-history", "d-history", "hist"} then History
    else if cmd in {"c-info", "g-info", "info"} then Info
    else if cmd in {"c-invite", "c-kick", "g-invite", "g-kick"} then InviteKick
    else if cmd in {"c-join", "c-leave", "g-leave"} then JoinLeave
    else if cmd in {"c-list", "g-list", "d-list", "list"} then List
    else if cmd in {"c-rename", "g-rename"} then Rename
    else if cmd in {"c-purpose", "g-purpose", "c-topic", "g-topic", "purpose", "topic"} then PurposeTopic
    else if cmd in {"g-close", "d-close"} then Close
    else if cmd in {"g-open", "d-open"} then Open
    else if cmd == "f" then FileUpload
    else if cmd in {"f-delete", "f-info", "f-list", "f-c"} then NoAction
    else if cmd == "e-list" then Emoji
    else if cmd == "u-list" then UsersList
    else Unknown
  }

  /** handleCommand: true exactly for the exit command. The line must have a
      first field at least as long as the prefix. */
  function HandleCommand(line: string, prefix: string): (exit: bool)
    requires Fields(line) != [] && |prefix| <= |Fields(line)[0]|
    ensures exit <==> ToLower(Fields(line)[0][|prefix|..]) == "exit"
  {
    Dispatch(CommandOf(line, prefix)) == Exit
  }

  /** The command word is lower-cased before the switch, so the case label
      "g-createChild" is never taken: the create handler only ever sees
      "c-create" or "g-create". */
  lemma CreateChildUnreachable(line: string, prefix: string)
    requires Fields(line) != [] && |prefix| <= |Fields(line)[0]|
    ensures Dispatch(CommandOf(line, prefix)) == Create ==> CommandOf(line, prefix) in {"c-create", "g-create"}
  {
    var word := Fields(line)[0][|prefix|..];
    if CommandOf(line, prefix) == "g-createChild" {
      LowerNotUpper(word[8]);
      assert false;
    }
  }

  lemma LowerNotUpper(c: char)
    ensures !('A' <= LowerChar(c) <= 'Z')
  {
  }
}
