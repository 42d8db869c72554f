/** Reactions: the argument check of reactions.add and reactions.remove, and
    the parameters of the four reaction calls. */
module Reaction {
  import opened Common
  import opened Slack

  const MissingName := "Please provide the emoji name"
  const MissingTarget := "Please provide file or fileComment or both channel and timestamp"

  /** A reaction needs an emoji name, and a target: a file, a file comment,
      or a channel together with a timestamp. The name is checked first. */
  function ReactionCheck(name: string, file: string, fileComment: string, channel: string, timestamp: string)
    : (r: Option<string>)
    ensures r.None? <==> name != "" && (file != "" || fileComment != "" || (channel != "" && timestamp != ""))
    ensures name == "" ==> r == Some(MissingName)
    ensures name != "" && r.Some? ==> r == Some(MissingTarget)
  {
    if name == "" then Some(MissingName)
    else if file == "" && fileComment == "" && (channel == "" || timestamp == "") then Some(MissingTarget)
    else None
  }

  /** The target keys file, file_comment, channel and timestamp, each added to
      `m` only when its value is non-empty. */
  function TargetParams(m: map<string, seq<string>>, file: string, fileComment: string, channel: string, timestamp: string)
    : (r: map<string, seq<string>>)
    requires "file" !in m && "file_comment" !in m && "channel" !in m && "timestamp" !in m
    ensures r.Keys <= m.Keys + {"file", "file_comment", "channel", "timestamp"}
    ensures ("file" in r <==> file != "") && (file != "" ==> r["file"] == [file])
    ensures ("file_comment" in r <==> fileComment != "") && (fileComment != "" ==> r["file_comment"] == [fileComment])
    ensures ("channel" in r <==> channel != "") && (channel != "" ==> r["channel"] == [channel])
    ensures ("timestamp" in r <==> timestamp != "") && (timestamp != "" ==> r["timestamp"] == [timestamp])
    ensures forall k | k in m :: k in r && r[k] == m[k]
  {
    var a := WithBothNotEmpty(m, "file", file, "file_comment", fileComment);
    WithBothNotEmpty(a, "channel", channel, "timestamp", timestamp)
  }

  /** The parameters of reactions.add and reactions.remove, token excluded. */
  function ReactionParams(name: string, file: string, fileComment: string, channel: string, timestamp: string)
    : (r: map<string, seq<string>>)
    ensures "name" in r && r["name"] == [name]
    ensures r == TargetParams(map["name" := [name]], file, fileComment, channel, timestamp)
  {
    TargetParams(map["name" := [name]], file, fileComment, channel, timestamp)
  }

  /** Whatever passes the check names its target in the parameters it sends:
      a file, a file comment, or both a channel and a timestamp, all as given. */
  lemma ReactionTargetSent(name: string, file: string, fileComment: string, channel: string, timestamp: string)
    requires ReactionCheck(name, file, fileComment, channel, timestamp).None?
    ensures var p := ReactionParams(name, file, fileComment, channel, timestamp);
      ("file" in p && p["file"] == [file]) || ("file_comment" in p && p["file_comment"] == [fileComment]) ||
      ("channel" in p && "timestamp" in p && p["channel"] == [channel] && p["timestamp"] == [timestamp])
  {
    var p := ReactionParams(name, file, fileComment, channel, timestamp);
    if file != "" {
      assert "file" in p;
    } else if fileComment != "" {
      assert "file_comment" in p;
    } else {
      assert "channel" in p && "timestamp" in p;
    }
  }

  /** reactionsAction: a rejected call sends nothing; otherwise the request
      goes to `action` with the reaction parameters and the token. */
  method ReactionsAction(s: Client, name: string, file: string, fileComment: string, channel: string, timestamp: string,
                         action: string, reply: HttpReply)
    returns (sent: Option<Request>, ok: bool, err: Option<ApiError>)
    ensures var check := ReactionCheck(name, file, fileComment, channel, timestamp);
      check.Some? ==> sent == None && !ok && err == Some(Plain(check.value))
    ensures ReactionCheck(name, file, fileComment, channel, timestamp).None? ==>
      sent == Some(Request(s.url + action, WithNotEmpty(ReactionParams(name, file, fileComment, channel, timestamp), "token", s.token))) &&
      err == ReplyError(reply) && (ok <==> err.None?)
  {
    if name == "" {
      return None, false, Some(Plain(MissingName));
    }
    if file == "" && fileComment == "" && (channel == "" || timestamp == "") {
      return None, false, Some(Plain(MissingTarget));
    }
    var params := new Values(map["name" := [name]]);
    AppendNotEmpty("file", file, params);
    AppendNotEmpty("file_comment", fileComment, params);
    AppendNotEmpty("channel", channel, params);
    AppendNotEmpty("timestamp", timestamp, params);
    var r;
    r, err := s.Do(action, params, reply);
    sent := Some(r);
    ok := err.None?;
  }

  method ReactionsAdd(s: Client, name: string, file: string, fileComment: string, channel: string, timestamp: string,
                      reply: HttpReply)
    returns (sent: Option<Request>, ok: bool, err: Option<ApiError>)
    ensures var check := ReactionCheck(name, file, fileComment, channel, timestamp);
      check.Some? ==> sent == None && !ok && err == Some(Plain(check.value))
    ensures ReactionCheck(name, file, fileComment, channel, timestamp).None? ==>
      sent == Some(Request(s.url + "reactions.add", WithNotEmpty(ReactionParams(name, file, fileComment, channel, timestamp), "token", s.token))) &&
      err == ReplyError(reply) && (ok <==> err.None?)
  {
    sent, ok, err := ReactionsAction(s, name, file, fileComment, channel, timestamp, "reactions.add", reply);
  }

  method ReactionsRemove(s: Client, name: string, file: string, fileComment: string, channel: string, timestamp: string,
                         reply: HttpReply)
    returns (sent: Option<Request>, ok: bool, err: Option<ApiError>)
    ensures var check := ReactionCheck(name, file, fileComment, channel, timestamp);
      check.Some? ==> sent == None && !ok && err == Some(Plain(check.value))
    ensures ReactionCheck(name, file, fileComment, channel, timestamp).None? ==>
      sent == Some(Request(s.url + "reactions.remove", WithNotEmpty(ReactionParams(name, file, fileComment, channel, timestamp), "token", s.token))) &&
      err == ReplyError(reply) && (ok <==> err.None?)
  {
    sent, ok, err := ReactionsAction(s, name, file, fileComment, channel, timestamp, "reactions.remove", reply);
  }

  /** The parameters of reactions.get: the target keys that are non-empty,
      and full=true only when asked. */
  function GetParams(file: string, fileComment: string, channel: string, timestamp: string, full: bool)
    : (r: map<string, seq<string>>)
    ensures ("full" in r <==> full) && (full ==> r["full"] == ["true"])
    ensures var t := TargetParams(map[], file, fileComment, channel, timestamp);
      forall k | k != "full" :: (k in r <==> k in t) && (k in t ==> r[k] == t[k])
  {
    var t := TargetParams(map[], file, fileComment, channel, timestamp);
    if full then t["full" := ["true"]] else t
  }

  /** ReactionsGet checks nothing: even a call with no target is sent. */
  method ReactionsGet(s: Client, file: string, fileComment: string, channel: string, timestamp: string, full: bool,
                      reply: HttpReply)
    returns (sent: Request, ok: bool, err: Option<ApiError>)
    ensures sent == Request(s.url + "reactions.get", WithNotEmpty(GetParams(file, fileComment, channel, timestamp, full), "token", s.token))
    ensures err == ReplyError(reply) && (ok <==> err.None?)
  {
    var params := new Values(map[]);
    AppendNotEmpty("file", file, params);
    AppendNotEmpty("file_comment", fileComment, params);
    AppendNotEmpty("channel", channel, params);
    AppendNotEmpty("timestamp", timestamp, params);
    if full {
      params.Set("full", "true");
    }
    sent, err := s.Do("reactions.get", params, reply);
    ok := err.None?;
  }

  /** The parameters of reactions.list: the user when non-empty and full=true
      when asked; the count and the page are not sent. */
  function ListParams(user: string, full: bool): (r: map<string, seq<string>>)
    ensures r.Keys <= {"user", "full"}
    ensures ("user" in r <==> user != "") && (user != "" ==> r["user"] == [user])
    ensures ("full" in r <==> full) && (full ==> r["full"] == ["true"])
  {
    var u := WithNotEmpty(map[], "user", user);
    if full then u["full" := ["true"]] else u
  }

  method ReactionsList(s: Client, user: string, full: bool, count: int, page: int, reply: HttpReply)
    returns (sent: Request, ok: bool, err: Option<ApiError>)
    ensures sent == Request(s.url + "reactions.list", WithNotEmpty(ListParams(user, full), "token", s.token))
    ensures err == ReplyError(reply) && (ok <==> err.None?)
  {
    var params := new Values(map[]);
    AppendNotEmpty("user", user, params);
    if full {
      params.Set("full", "true");
    }
    sent, err := s.Do("reactions.list", params, reply);
    ok := err.None?;
  }
}
