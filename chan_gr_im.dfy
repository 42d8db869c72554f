/** Channel, group and direct-message calls: the id-based routing of the
    method name and the parameters each call sends. */
module ChanGrIm {
  import opened Common
  import opened Slack

  /** The method family of an id: "groups." for 'G', "im." for 'D', and
      "channels." for anything else. An empty id has no first character. */
  function PrefixByID(id: string): (r: string)
    requires id != []
    ensures r in {"channels.", "groups.", "im."}
    ensures r == "groups." <==> id[0] == 'G'
    ensures r == "im." <==> id[0] == 'D'
  {
    match id[0]
    case 'G' => "groups."
    case 'D' => "im."
    case _ => "channels."
  }

  /** Sends one request built from `init` plus the token, as `do` does. */
  method Call(s: Client, path: string, init: map<string, seq<string>>, reply: HttpReply)
    returns (sent: Request, ok: bool, err: Option<ApiError>)
    requires WellFormed(init)
    ensures sent == Request(s.url + path, WithNotEmpty(init, "token", s.token))
    ensures err == ReplyError(reply) && (ok <==> err.None?)
  {
    var params := new Values(init);
    sent, err := s.Do(path, params, reply);
    ok := err.None?;
  }

  /** The parameters of an id-routed call, token excluded. */
  function ChannelParams(channel: string): (m: map<string, seq<string>>)
    ensures m.Keys == {"channel"} && m["channel"] == [channel]
  {
    map["channel" := [channel]]
  }

  method Archive(s: Client, channel: string, reply: HttpReply) returns (sent: Request, ok: bool, err: Option<ApiError>)
    requires channel != []
    ensures sent.endpoint == s.url + PrefixByID(channel) + "archive"
    ensures sent.params == WithNotEmpty(ChannelParams(channel), "token", s.token)
    ensures err == ReplyError(reply) && (ok <==> err.None?)
  {
    sent, ok, err := Call(s, PrefixByID(channel) + "archive", ChannelParams(channel), reply);
  }

  method Unarchive(s: Client, channel: string, reply: HttpReply) returns (sent: Request, ok: bool, err: Option<ApiError>)
    requires channel != []
    ensures sent.endpoint == s.url + PrefixByID(channel) + "unarchive"
    ensures sent.params == WithNotEmpty(ChannelParams(channel), "token", s.token)
    ensures err == ReplyError(reply) && (ok <==> err.None?)
  {
    sent, ok, err := Call(s, PrefixByID(channel) + "unarchive", ChannelParams(channel), reply);
  }

  /** The history parameters: the channel always; latest and oldest when
      non-empty; inclusive=1 when asked; the count when non-zero. */
  function HistoryParams(channel: string, latest: string, oldest: string, inclusive: bool, count: int)
    : (m: map<string, seq<string>>)
    ensures m.Keys <= {"channel", "latest", "oldest", "inclusive", "count"}
    ensures "channel" in m && m["channel"] == [channel]
    ensures ("latest" in m <==> latest != "") && (latest != "" ==> m["latest"] == [latest])
    ensures ("oldest" in m <==> oldest != "") && (oldest != "" ==> m["oldest"] == [oldest])
    ensures ("inclusive" in m <==> inclusive) && (inclusive ==> m["inclusive"] == ["1"])
    ensures ("count" in m <==> count != 0) && (count != 0 ==> |m["count"]| == 1 && Atoi(m["count"][0]) == Some(count))
  {
    AtoiItoa(count);
    var m0 := WithNotEmpty(WithNotEmpty(ChannelParams(channel), "latest", latest), "oldest", oldest);
    var m1 := if inclusive then m0["inclusive" := ["1"]] else m0;
    if count != 0 then m1["count" := [Itoa(count)]] else m1
  }

  method History(s: Client, channel: string, latest: string, oldest: string, inclusive: bool, count: int, reply: HttpReply)
    returns (sent: Request, ok: bool, err: Option<ApiError>)
    requires channel != []
    ensures sent.endpoint == s.url + PrefixByID(channel) + "history"
    ensures sent.params == WithNotEmpty(HistoryParams(channel, latest, oldest, inclusive, count), "token", s.token)
    ensures err == ReplyError(reply) && (ok <==> err.None?)
  {
    var params := BuildHistoryParams(channel, latest, oldest, inclusive, count);
    sent, err := s.Do(PrefixByID(channel) + "history", params, reply);
    ok := err.None?;
  }

  /** The request builder of history: the optional bounds, then inclusive
      and count when set. */
  method BuildHistoryParams(channel: string, latest: string, oldest: string, inclusive: bool, count: int)
    returns (params: Values)
    ensures fresh(params) && params.Valid()
    ensures params.entries == HistoryParams(channel, latest, oldest, inclusive, count)
  {
    params := new Values(ChannelParams(channel));
    AppendNotEmpty("latest", latest, params);
    AppendNotEmpty("oldest", oldest, params);
    if inclusive {
      params.Set("inclusive", "1");
    }
    if count != 0 {
      params.Set("count", Itoa(count));
    }
  }

  method Kick(s: Client, channel: string, user: string, reply: HttpReply) returns (sent: Request, ok: bool, err: Option<ApiError>)
    requires channel != []
    ensures sent.endpoint == s.url + PrefixByID(channel) + "kick"
    ensures sent.params == WithNotEmpty(map["channel" := [channel], "user" := [user]], "token", s.token)
    ensures err == ReplyError(reply) && (ok <==> err.None?)
  {
    sent, ok, err := Call(s, PrefixByID(channel) + "kick", map["channel" := [channel], "user" := [user]], reply);
  }

  /** Leave posts to the family's "join" method, as written. */
  method Leave(s: Client, channel: string, reply: HttpReply) returns (sent: Request, ok: bool, err: Option<ApiError>)
    requires channel != []
    ensures sent.endpoint == s.url + PrefixByID(channel) + "join"
    ensures sent.params == WithNotEmpty(ChannelParams(channel), "token", s.token)
    ensures err == ReplyError(reply) && (ok <==> err.None?)
  {
    sent, ok, err := Call(s, PrefixByID(channel) + "join", ChannelParams(channel), reply);
  }

  /** Mark reports only the error. */
  method Mark(s: Client, channel: string, ts: string, reply: HttpReply) returns (sent: Request, err: Option<ApiError>)
    requires channel != []
    ensures sent.endpoint == s.url + PrefixByID(channel) + "mark"
    ensures sent.params == WithNotEmpty(map["channel" := [channel], "ts" := [ts]], "token", s.token)
    ensures err == ReplyError(reply)
  {
    var ok;
    sent, ok, err := Call(s, PrefixByID(channel) + "mark", map["channel" := [channel], "ts" := [ts]], reply);
  }

  method Rename(s: Client, channel: string, name: string, reply: HttpReply) returns (sent: Request, ok: bool, err: Option<ApiError>)
    requires channel != []
    ensures sent.endpoint == s.url + PrefixByID(channel) + "rename"
    ensures sent.params == WithNotEmpty(map["channel" := [channel], "name" := [name]], "token", s.token)
    ensures err == ReplyError(reply) && (ok <==> err.None?)
  {
    sent, ok, err := Call(s, PrefixByID(channel) + "rename", map["channel" := [channel], "name" := [name]], reply);
  }

  method SetPurpose(s: Client, channel: string, purpose: string, reply: HttpReply) returns (sent: Request, ok: bool, err: Option<ApiError>)
    requires channel != []
    ensures sent.endpoint == s.url + PrefixByID(channel) + "setPurpose"
    ensures sent.params == WithNotEmpty(map["channel" := [channel], "purpose" := [purpose]], "token", s.token)
    ensures err == ReplyError(reply) && (ok <==> err.None?)
  {
    sent, ok, err := Call(s, PrefixByID(channel) + "setPurpose", map["channel" := [channel], "purpose" := [purpose]], reply);
  }

  method SetTopic(s: Client, channel: string, topic: string, reply: HttpReply) returns (sent: Request, ok: bool, err: Option<ApiError>)
    requires channel != []
    ensures sent.endpoint == s.url + PrefixByID(channel) + "setTopic"
    ensures sent.params == WithNotEmpty(map["channel" := [channel], "topic" := [topic]], "token", s.token)
    ensures err == ReplyError(reply) && (ok <==> err.None?)
  {
    sent, ok, err := Call(s, PrefixByID(channel) + "setTopic", map["channel" := [channel], "topic" := [topic]], reply);
  }

  method CloseGroupOrIM(s: Client, id: string, reply: HttpReply) returns (sent: Request, ok: bool, err: Option<ApiError>)
    requires id != []
    ensures sent.endpoint == s.url + PrefixByID(id) + "close"
    ensures sent.params == WithNotEmpty(ChannelParams(id), "token", s.token)
    ensures err == ReplyError(reply) && (ok <==> err.None?)
  {
    sent, ok, err := Call(s, PrefixByID(id) + "close", ChannelParams(id), reply);
  }

  method OpenGroupOrIM(s: Client, id: string, reply: HttpReply) returns (sent: Request, ok: bool, err: Option<ApiError>)
    requires id != []
    ensures sent.endpoint == s.url + PrefixByID(id) + "open"
    ensures sent.params == WithNotEmpty(ChannelParams(id), "token", s.token)
    ensures err == ReplyError(reply) && (ok <==> err.None?)
  {
    sent, ok, err := Call(s, PrefixByID(id) + "open", ChannelParams(id), reply);
  }

  /** The list parameters: exclude_archived=1 exactly when asked. */
  function ListParams(excludeArchived: bool): (m: map<string, seq<string>>)
    ensures m.Keys <= {"exclude_archived"}
    ensures ("exclude_archived" in m <==> excludeArchived)
    ensures excludeArchived ==> m["exclude_archived"] == ["1"]
  {
    if excludeArchived then map["exclude_archived" := ["1"]] else map[]
  }

  method ChannelList(s: Client, excludeArchived: bool, reply: HttpReply) returns (sent: Request, ok: bool, err: Option<ApiError>)
    ensures sent == Request(s.url + "channels.list", WithNotEmpty(ListParams(excludeArchived), "token", s.token))
    ensures err == ReplyError(reply) && (ok <==> err.None?)
  {
    var params := new Values(map[]);
    if excludeArchived {
      params.Set("exclude_archived", "1");
    }
    sent, err := s.Do("channels.list", params, reply);
    ok := err.None?;
  }

  method GroupList(s: Client, excludeArchived: bool, reply: HttpReply) returns (sent: Request, ok: bool, err: Option<ApiError>)
    ensures sent == Request(s.url + "groups.list", WithNotEmpty(ListParams(excludeArchived), "token", s.token))
    ensures err == ReplyError(reply) && (ok <==> err.None?)
  {
    var params := new Values(map[]);
    if excludeArchived {
      params.Set("exclude_archived", "1");
    }
    sent, err := s.Do("groups.list", params, reply);
    ok := err.None?;
  }

  /** IMList sends nothing but the token, to the fixed "ims.list". */
  method IMList(s: Client, reply: HttpReply) returns (sent: Request, ok: bool, err: Option<ApiError>)
    ensures sent.endpoint == s.url + "ims.list"
    ensures sent.params.Keys <= {"token"} && ("token" in sent.params <==> s.token != "")
    ensures err == ReplyError(reply) && (ok <==> err.None?)
  {
    sent, ok, err := Call(s, "ims.list", map[], reply);
  }

  /** Every id-routed method name names the family of the id: a channel, a
      group or an IM id never reaches another family. */
  lemma RoutedFamily(id: string, suffix: string)
    requires id != []
    ensures id[0] == 'G' ==> HasPrefix(PrefixByID(id) + suffix, "groups.")
    ensures id[0] == 'D' ==> HasPrefix(PrefixByID(id) + suffix, "im.")
    ensures id[0] != 'G' && id[0] != 'D' ==> HasPrefix(PrefixByID(id) + suffix, "channels.")
  {
    var p := PrefixByID(id);
    assert (p + suffix)[..|p|] == p;
  }
}
