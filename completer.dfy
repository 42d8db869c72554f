/** Tab completion of the terminal client: completing a command word from
    the command table, and completing an argument from a list of names. */
module Completer {
  import opened Common
  import opened Rtm
  import Commands

  /** The command table, in its order. */
  const CommandTable: seq<string> := [
    "c", "c-archive", "c-create", "c-history", "c-info", "c-invite", "c-join", "c-kick", "c-leave", "c-list",
    "c-rename", "c-purpose", "c-topic", "c-unarchive",
    "g", "g-archive", "g-close", "g-create", "g-createChild", "g-history", "g-info", "g-invite", "g-kick",
    "g-leave", "g-list", "g-open", "g-rename", "g-purpose", "g-topic", "g-unarchive",
    "d", "d-close", "d-history", "d-list", "d-open",
    "f-delete", "f-info", "f-list", "f",
    "r-add", "r-get", "r-list", "r-remove",
    "s", "s-files", "s-messages",
    "t-info", "t-logs",
    "u-presence", "u-info", "u-list"]

  /** endsSpace: the line ends with a plain space. */
  predicate EndsSpace(s: string)
  {
    HasSuffix(s, " ")
  }

  /** in: a linear search for `v`. */
  function In(s: seq<string>, v: string): (r: bool)
    ensures r <==> v in s
  {
    if s == [] then false else s[0] == v || In(s[1..], v)
  }

  /** What one name contributes. After a space, a name not yet among the
      parts is offered whole; otherwise a name that extends the last part,
      and is not among the earlier parts, is offered as its missing rest. */
  function Offer(line: string, parts: seq<string>, name: string): (r: seq<string>)
    requires EndsSpace(line) || |parts| >= 1
    ensures |r| <= 1
    ensures forall c | c in r :: HasPrefix(c, line)
  {
    if EndsSpace(line) then
      (if !In(parts, name) then [line + name] else [])
    else
      var last := parts[|parts| - 1];
      if HasPrefix(name, last) then
        (if !In(parts[..|parts| - 1], name) then [line + name[|last|..]] else [])
      else []
  }

  /** The completions of a line over a list of names, in the names' order. */
  function Completions(line: string, parts: seq<string>, names: seq<string>): (r: seq<string>)
    requires EndsSpace(line) || |parts| >= 1
    ensures |r| <= |names|
  {
    if names == [] then []
    else Completions(line, parts, names[..|names| - 1]) + Offer(line, parts, names[|names| - 1])
  }

  /** Every completion extends the line. */
  lemma {:induction false} CompletionsExtendLine(line: string, parts: seq<string>, names: seq<string>)
    requires EndsSpace(line) || |parts| >= 1
    ensures forall c | c in Completions(line, parts, names) :: HasPrefix(c, line)
    decreases |names|
  {
    if names != [] {
      CompletionsExtendLine(line, parts, names[..|names| - 1]);
    }
  }

  /** A completion is offered exactly when some name offers it. */
  lemma {:induction false} CompletionsMember(line: string, parts: seq<string>, names: seq<string>, c: string)
    requires EndsSpace(line) || |parts| >= 1
    ensures c in Completions(line, parts, names) <==> exists i | 0 <= i < |names| :: c in Offer(line, parts, names[i])
    decreases |names|
  {
    if names != [] {
      var init := names[..|names| - 1];
      CompletionsMember(line, parts, init, c);
      if exists i | 0 <= i < |names| :: c in Offer(line, parts, names[i]) {
        var i :| 0 <= i < |names| && c in Offer(line, parts, names[i]);
        if i < |names| - 1 {
          assert init[i] == names[i];
        }
      }
      if exists i | 0 <= i < |init| :: c in Offer(line, parts, init[i]) {
        var i :| 0 <= i < |init| && c in Offer(line, parts, init[i]);
        assert names[i] == init[i];
      }
    }
  }

  /** After a space, exactly the names not yet given are offered, each as
      the line followed by the name. */
  lemma CompletionsAfterSpace(line: string, parts: seq<string>, names: seq<string>, name: string)
    requires EndsSpace(line) && name in names
    ensures line + name in Completions(line, parts, names) <==> name !in parts
  {
    var i :| 0 <= i < |names| && names[i] == name;
    CompletionsMember(line, parts, names, line + name);
    if line + name in Completions(line, parts, names) {
      var j :| 0 <= j < |names| && line + name in Offer(line, parts, names[j]);
      assert (line + name)[|line|..] == name && (line + names[j])[|line|..] == names[j];
    }
  }

  /** findCompletions: one pass over the names, appending what each offers. */
  method FindCompletions(line: string, parts: seq<string>, names: seq<string>) returns (completions: seq<string>)
    requires EndsSpace(line) || |parts| >= 1
    ensures completions == Completions(line, parts, names)
  {
    completions := [];
    var l := |parts|;
    var i := 0;
    while i < |names|
      invariant 0 <= i <= |names|
      invariant completions == Completions(line, parts, names[..i])
    {
      var name := names[i];
      assert names[..i + 1][..i] == names[..i];
      if EndsSpace(line) {
        if !In(parts, name) {
          completions := completions + [line + name];
        }
      } else if HasPrefix(name, parts[l - 1]) {
        if !In(parts[..l - 1], name) {
          completions := completions + [line + name[|parts[l - 1]|..]];
        }
      }
      i := i + 1;
    }
    assert names[..|names|] == names;
  }

  // ---------------------------------------------------------------------------
  // completer

  /** The table commands the token completes to, each with the prefix. */
  function CommandCompletions(prefix: string, token: string, table: seq<string>): (r: seq<string>)
    ensures |r| <= |table|
    ensures forall c | c in r :: HasPrefix(c, token) && HasPrefix(c, prefix)
  {
    if table == [] then []
    else
      CommandCompletions(prefix, token, table[..|table| - 1]) +
      (if HasPrefix(prefix + table[|table| - 1], token) then [prefix + table[|table| - 1]] else [])
  }

  /** A command completes the token exactly when, with the prefix, it starts
      with the token. */
  lemma {:induction false} CommandCompletionsMember(prefix: string, token: string, table: seq<string>, c: string)
    requires c in table
    ensures prefix + c in CommandCompletions(prefix, token, table) <==> HasPrefix(prefix + c, token)
    decreases |table|
  {
    var init := table[..|table| - 1];
    var last := table[|table| - 1];
    if c in init {
      CommandCompletionsMember(prefix, token, init, c);
    } else {
      assert table == init + [last];
      if HasPrefix(prefix + c, token) {
        assert prefix + c in CommandCompletions(prefix, token, table);
      } else {
        assert prefix + c !in CommandCompletions(prefix, token, init);
      }
    }
  }

  /** The name list an argument is completed from, and the parts it is
      completed against (those after the first `from`). */
  datatype Source =
    | Nothing
    | ChannelNames(from: nat)
    | GroupNames(from: nat)
    | IMNames(from: nat)
    | UserNames(from: nat)
    | FileNames(from: nat)
    | OsFiles

  /** The switch of completer, once the first word is a command: which names
      complete which parts, given the number of fields and whether the line
      ends with a space. */
  function SourceOf(cmd: string, l: nat, endsWithSpace: bool): (src: Source)
    ensures src.ChannelNames? || src.GroupNames? || src.IMNames? || src.FileNames? ==> src.from == 1
    ensures src.UserNames? ==> src.from == 2 && (cmd in {"c-invite", "c-kick", "g-invite", "g-kick"})
    ensures src.UserNames? ==> (l == 2 && endsWithSpace) || (l >= 3 && !endsWithSpace)
  {
    if cmd in {"c-archive", "c-create", "c-info", "c-join", "c-leave", "c-unarchive"} then ChannelNames(1)
    else if cmd in {"c", "c-history", "c-invite", "c-kick", "c-rename", "c-purpose", "c-topic"} then
      if l == 1 || (l == 2 && !endsWithSpace) then ChannelNames(1)
      else if (cmd == "c-invite" || cmd == "c-kick") && ((l == 2 && endsWithSpace) || (l >= 3 && !endsWithSpace)) then UserNames(2)
      else Nothing
    else if cmd in {"g-archive", "g-close", "g-create", "g-createChild", "g-info", "g-leave", "g-open", "g-unarchive"} then GroupNames(1)
    else if cmd in {"g", "g-history", "g-invite", "g-kick", "g-rename", "g-purpose", "g-topic"} then
      if l == 1 || (l == 2 && !endsWithSpace) then GroupNames(1)
      else if (cmd == "g-invite" || cmd == "g-kick") && ((l == 2 && endsWithSpace) || (l >= 3 && !endsWithSpace)) then UserNames(2)
      else Nothing
    else if cmd in {"d-close", "d-open"} then IMNames(1)
    else if cmd in {"d", "d-history", "d-list"} then
      if l == 1 || (l == 2 && !endsWithSpace) then IMNames(1) else Nothing
    else if cmd in {"f-delete", "f-info"} then FileNames(1)
    else if cmd == "f" then OsFiles
    else Nothing
  }

  function NamesOf(xs: seq<Named>): (r: seq<string>)
    ensures |r| == |xs| && forall i | 0 <= i < |xs| :: r[i] == xs[i].name
  {
    seq(|xs|, i requires 0 <= i < |xs| => xs[i].name)
  }

  /** Every direct-message partner is a known user; imCompletions reads the
      name of the user it finds and fails on one it does not. */
  predicate PartnersKnown(info: StartReply)
  {
    forall i | 0 <= i < |info.ims| :: Commands.FindNamed(info.users, info.ims[i].user).Some?
  }

  function PartnerNames(info: StartReply): (r: seq<string>)
    requires PartnersKnown(info)
    ensures |r| == |info.ims|
    ensures forall i | 0 <= i < |info.ims| :: r[i] == Commands.FindNamed(info.users, info.ims[i].user).value.name
  {
    seq(|info.ims|, i requires 0 <= i < |info.ims| => Commands.FindNamed(info.users, info.ims[i].user).value.name)
  }

  /** The command prefix has no white space, so a line that starts with it
      has a first field, and that field starts with the prefix. */
  lemma PrefixedFirstField(line: string, prefix: string)
    requires prefix != [] && forall c | c in prefix :: !IsSpace(c)
    requires HasPrefix(line, prefix)
    ensures Fields(line) != [] && HasPrefix(Fields(line)[0], prefix)
  {
    assert line[0] == prefix[0] && prefix[0] in prefix;
    var n := WordLength(line);
    assert Fields(line)[0] == line[..n];
  }

  /** completer: nothing unless the line starts with the command prefix; a
      lone word is completed from the command table; after a command, the
      argument is completed from the list of names the command takes.
      `fileNames` are the names of the cached file list and `osFiles` what the
      directory listing completes to. */
  method Complete(line: string, prefix: string, info: StartReply, fileNames: seq<string>, osFiles: seq<string>)
    returns (completions: seq<string>)
    requires HasPrefix(line, prefix) && (|Fields(line)| != 1 || EndsSpace(line)) ==>
      Fields(line) != [] && |prefix| <= |Fields(line)[0]| &&
      (SourceOf(ToLower(Fields(line)[0][|prefix|..]), |Fields(line)|, EndsSpace(line)).IMNames? ==> PartnersKnown(info))
    ensures !HasPrefix(line, prefix) ==> completions == []
    ensures HasPrefix(line, prefix) && |Fields(line)| == 1 && !EndsSpace(line) ==>
      completions == CommandCompletions(prefix, Fields(line)[0], CommandTable)
    ensures HasPrefix(line, prefix) && (|Fields(line)| != 1 || EndsSpace(line)) ==>
      var parts := Fields(line);
      var src := SourceOf(ToLower(parts[0][|prefix|..]), |parts|, EndsSpace(line));
      (src.Nothing? ==> completions == []) &&
      (src.ChannelNames? ==> completions == Completions(line, parts[src.from..], NamesOf(info.channels))) &&
      (src.GroupNames? ==> completions == Completions(line, parts[src.from..], NamesOf(info.groups))) &&
      (src.IMNames? ==> completions == Completions(line, parts[src.from..], PartnerNames(info))) &&
      (src.UserNames? ==> completions == Completions(line, parts[src.from..], NamesOf(info.users))) &&
      (src.FileNames? ==> completions == Completions(line, parts[src.from..], fileNames)) &&
      (src.OsFiles? ==> completions == osFiles)
  {
    completions := [];
    if !HasPrefix(line, prefix) {
      return;
    }
    var parts := Fields(line);
    var l := |parts|;
    var endsWithSpace := EndsSpace(line);
    if l == 1 && !endsWithSpace {
      completions := CompleteCommand(prefix, parts[0], CommandTable);
    } else {
      var cmd := ToLower(parts[0][|prefix|..]);
      match SourceOf(cmd, l, endsWithSpace) {
        case Nothing =>
        case ChannelNames(k) => completions := FindCompletions(line, parts[k..], NamesOf(info.channels));
        case GroupNames(k) => completions := FindCompletions(line, parts[k..], NamesOf(info.groups));
        case IMNames(k) => completions := FindCompletions(line, parts[k..], PartnerNames(info));
        case UserNames(k) => completions := FindCompletions(line, parts[k..], NamesOf(info.users));
        case FileNames(k) => completions := FindCompletions(line, parts[k..], fileNames);
        case OsFiles => completions := osFiles;
      }
    }
  }

  /** The completer's loop over the command table for a lone word. */
  method CompleteCommand(prefix: string, word: string, table: seq<string>) returns (completions: seq<string>)
    ensures completions == CommandCompletions(prefix, word, table)
  {
    completions := [];
    var i := 0;
    while i < |table|
      invariant 0 <= i <= |table|
      invariant completions == CommandCompletions(prefix, word, table[..i])
    {
      assert table[..i + 1][..i] == table[..i];
      var cmd := prefix + table[i];
      if HasPrefix(cmd, word) {
        completions := completions + [cmd];
      }
      i := i + 1;
    }
    assert table[..|table|] == table;
  }
}
