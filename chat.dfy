/** chat.postMessage: the optional escaping of the text and the parameters
    the call sends. */
module Chat {
  import opened Common
  import opened Slack

  /** A post request. Each attachment is given already in its JSON form. */
  datatype PostMessageRequest = PostMessageRequest(
    channel: string,
    text: string,
    username: string,
    asUser: bool,
    parse: string,
    linkNames: int,
    attachments: seq<string>,
    unfurlLinks: bool,
    unfurlMedia: bool,
    iconURL: string,
    iconEmoji: string,
    threadID: string)

  function EscapeChar(c: char): (r: string)
    ensures '<' !in r && '>' !in r
  {
    if c == '&' then "&amp;" else if c == '<' then "&lt;" else if c == '>' then "&gt;" else [c]
  }

  /** The replacer's single left-to-right pass: '&', '<' and '>' become
      "&amp;", "&lt;" and "&gt;"; the '&' it writes is not looked at again. */
  function Escape(s: string): (r: string)
    ensures '<' !in r && '>' !in r
    ensures |r| >= |s|
  {
    if s == [] then [] else EscapeChar(s[0]) + Escape(s[1..])
  }

  /** The three replacements taken back, in one left-to-right pass. */
  function Unescape(s: string): (r: string)
  {
    if s == [] then []
    else if HasPrefix(s, "&amp;") then "&" + Unescape(s[5..])
    else if HasPrefix(s, "&lt;") then "<" + Unescape(s[4..])
    else if HasPrefix(s, "&gt;") then ">" + Unescape(s[4..])
    else [s[0]] + Unescape(s[1..])
  }

  /** Escaping loses nothing: reversing the replacements gives the text back. */
  lemma {:induction false} UnescapeEscape(s: string)
    ensures Unescape(Escape(s)) == s
    decreases |s|
  {
    if s != [] {
      UnescapeEscape(s[1..]);
      UnescapeEscapeChar(s[0], Escape(s[1..]));
      assert s == [s[0]] + s[1..];
    }
  }

  lemma UnescapeEscapeChar(c: char, rest: string)
    ensures Unescape(EscapeChar(c) + rest) == [c] + Unescape(rest)
  {
    if c == '&' {
      UnescapeEntity("&amp;", rest);
    } else if c == '<' {
      UnescapeEntity("&lt;", rest);
    } else if c == '>' {
      UnescapeEntity("&gt;", rest);
    } else {
      var e := [c] + rest;
      assert e[0] == c && e[1..] == rest;
      assert !HasPrefix(e, "&amp;") && !HasPrefix(e, "&lt;") && !HasPrefix(e, "&gt;") by {
        assert "&amp;"[0] == '&' && "&lt;"[0] == '&' && "&gt;"[0] == '&';
      }
    }
  }

  /** One entity at the head of the text is read back as its character. */
  lemma UnescapeEntity(entity: string, rest: string)
    requires entity in {"&amp;", "&lt;", "&gt;"}
    ensures Unescape(entity + rest) ==
      [if entity == "&amp;" then '&' else if entity == "&lt;" then '<' else '>'] + Unescape(rest)
  {
    var e := entity + rest;
    assert e[..|entity|] == entity && e[|entity|..] == rest;
    assert e[0] == '&' && e[1] == entity[1];
  }

  /** The text that is sent. */
  function PostText(m: PostMessageRequest, escape: bool): (r: string)
    ensures escape ==> '<' !in r && '>' !in r && Unescape(r) == m.text
    ensures !escape ==> r == m.text
  {
    if escape then
      UnescapeEscape(m.text);
      Escape(m.text)
    else m.text
  }

  /** `r` is `p` with only the keys in `ks` possibly changed. */
  ghost predicate Elsewhere(p: map<string, seq<string>>, r: map<string, seq<string>>, ks: set<string>)
  {
    forall k | k !in ks :: (k in r <==> k in p) && (k in p ==> r[k] == p[k])
  }

  function SetIf(p: map<string, seq<string>>, cond: bool, key: string, val: string): (r: map<string, seq<string>>)
    ensures (key in r <==> cond || key in p) && (cond ==> r[key] == [val])
    ensures Elsewhere(p, r, {key})
  {
    if cond then p[key := [val]] else p
  }

  /** The channel, the text and the optional user name. */
  function HeadParams(m: PostMessageRequest, escape: bool): (r: map<string, seq<string>>)
    ensures "channel" in r && r["channel"] == [m.channel]
    ensures "text" in r && r["text"] == [PostText(m, escape)]
    ensures ("username" in r <==> m.username != "") && (m.username != "" ==> r["username"] == [m.username])
    ensures r.Keys <= {"channel", "text", "username"}
  {
    SetIf(map["channel" := [m.channel], "text" := [PostText(m, escape)]], m.username != "", "username", m.username)
  }

  /** The parameters every post carries besides the channel and the text. */
  function FixedParams(m: PostMessageRequest, p: map<string, seq<string>>): (r: map<string, seq<string>>)
    ensures "as_user" in r && r["as_user"] == [FormatBool(m.asUser)]
    ensures "parse" in r && r["parse"] == [m.parse]
    ensures "link_names" in r && r["link_names"] == [Itoa(m.linkNames)]
    ensures "thread_id" in r && r["thread_id"] == [m.threadID]
    ensures Elsewhere(p, r, {"as_user", "parse", "link_names", "thread_id"})
  {
    p["as_user" := [FormatBool(m.asUser)]]["parse" := [m.parse]]
     ["link_names" := [Itoa(m.linkNames)]]["thread_id" := [m.threadID]]
  }

  /** The attachments when there are some, then both unfurl flags. */
  function TailParams(m: PostMessageRequest, p: map<string, seq<string>>): (r: map<string, seq<string>>)
    ensures ("attachments" in r <==> m.attachments != [] || "attachments" in p)
    ensures m.attachments != [] ==> r["attachments"] == ["[" + Join(m.attachments, ",") + "]"]
    ensures "unfurl_links" in r && r["unfurl_links"] == [FormatBool(m.unfurlLinks)]
    ensures "unfurl_media" in r && r["unfurl_media"] == [FormatBool(m.unfurlMedia)]
    ensures Elsewhere(p, r, {"attachments", "unfurl_links", "unfurl_media"})
  {
    SetIf(p, m.attachments != [], "attachments", "[" + Join(m.attachments, ",") + "]")
      ["unfurl_links" := [FormatBool(m.unfurlLinks)]]["unfurl_media" := [FormatBool(m.unfurlMedia)]]
  }

  /** The icon URL and the icon emoji, each when non-empty. */
  function IconParams(m: PostMessageRequest, p: map<string, seq<string>>): (r: map<string, seq<string>>)
    ensures ("icon_url" in r <==> m.iconURL != "" || "icon_url" in p) && (m.iconURL != "" ==> r["icon_url"] == [m.iconURL])
    ensures ("icon_emoji" in r <==> m.iconEmoji != "" || "icon_emoji" in p)
    ensures m.iconEmoji != "" ==> r["icon_emoji"] == [m.iconEmoji]
    ensures Elsewhere(p, r, {"icon_url", "icon_emoji"})
  {
    SetIf(SetIf(p, m.iconURL != "", "icon_url", m.iconURL), m.iconEmoji != "", "icon_emoji", m.iconEmoji)
  }

  /** The parameters of chat.postMessage, token excluded: the channel and the
      (possibly escaped) text; username, icon_url and icon_emoji only when
      non-empty; as_user, parse, link_names, thread_id and both unfurl flags
      always, booleans as "true"/"false"; the attachments only when there are
      some. */
  function PostParams(m: PostMessageRequest, escape: bool): (p: map<string, seq<string>>)
  {
    IconParams(m, TailParams(m, FixedParams(m, HeadParams(m, escape))))
  }

  /** The channel and the text are always sent as given (the text escaped when
      asked). */
  lemma PostParamsContent(m: PostMessageRequest, escape: bool)
    ensures var p := PostParams(m, escape);
      "channel" in p && p["channel"] == [m.channel] &&
      "text" in p && p["text"] == [PostText(m, escape)]
  {
    var h := HeadParams(m, escape);
    var f := FixedParams(m, h);
    var t := TailParams(m, f);
    assert t["channel"] == [m.channel] && t["text"] == [PostText(m, escape)];
  }

  /** as_user, parse, link_names and thread_id are always sent, the boolean as
      "true" or "false" and the number in decimal. */
  lemma PostParamsFixed(m: PostMessageRequest, escape: bool)
    ensures var p := PostParams(m, escape);
      "as_user" in p && p["as_user"] == [FormatBool(m.asUser)] &&
      "parse" in p && p["parse"] == [m.parse] &&
      "link_names" in p && p["link_names"] == [Itoa(m.linkNames)] &&
      "thread_id" in p && p["thread_id"] == [m.threadID]
  {
    var h := HeadParams(m, escape);
    var f := FixedParams(m, h);
    var t := TailParams(m, f);
    assert t["as_user"] == [FormatBool(m.asUser)] && t["parse"] == [m.parse];
    assert t["link_names"] == [Itoa(m.linkNames)] && t["thread_id"] == [m.threadID];
  }

  /** Both unfurl flags are always sent. */
  lemma PostParamsUnfurl(m: PostMessageRequest, escape: bool)
    ensures var p := PostParams(m, escape);
      "unfurl_links" in p && p["unfurl_links"] == [FormatBool(m.unfurlLinks)] &&
      "unfurl_media" in p && p["unfurl_media"] == [FormatBool(m.unfurlMedia)]
  {
  }

  /** The optional user name and attachments of a post appear exactly when
      they are given. */
  lemma PostParamsOptional(m: PostMessageRequest, escape: bool)
    ensures var p := PostParams(m, escape);
      ("username" in p <==> m.username != "") && (m.username != "" ==> p["username"] == [m.username]) &&
      ("attachments" in p <==> m.attachments != []) &&
      (m.attachments != [] ==> p["attachments"] == ["[" + Join(m.attachments, ",") + "]"])
  {
    var h := HeadParams(m, escape);
    var f := FixedParams(m, h);
    var t := TailParams(m, f);
    assert "username" in t <==> "username" in h;
    assert "attachments" !in h;
    assert "attachments" in t <==> m.attachments != [];
  }

  /** The icon URL and the icon emoji of a post appear exactly when they are
      given. */
  lemma PostParamsIcons(m: PostMessageRequest, escape: bool)
    ensures var p := PostParams(m, escape);
      ("icon_url" in p <==> m.iconURL != "") && (m.iconURL != "" ==> p["icon_url"] == [m.iconURL]) &&
      ("icon_emoji" in p <==> m.iconEmoji != "") && (m.iconEmoji != "" ==> p["icon_emoji"] == [m.iconEmoji])
  {
    var t := TailParams(m, FixedParams(m, HeadParams(m, escape)));
    assert "icon_url" !in t && "icon_emoji" !in t;
  }

  /** The request builder of PostMessage: successive conditional Sets. */
  method BuildPostParams(m: PostMessageRequest, escape: bool) returns (params: Values)
    ensures fresh(params) && params.Valid()
    ensures params.entries == PostParams(m, escape)
  {
    var text := "";
    if escape {
      text := Escape(m.text);
    } else {
      text := m.text;
    }
    params := new Values(map["channel" := [m.channel], "text" := [text]]);
    if m.username != "" {
      params.Set("username", m.username);
    }
    assert params.entries == HeadParams(m, escape);
    SetFixed(m, params);
    SetTail(m, params);
    SetIcons(m, params);
  }

  method SetTail(m: PostMessageRequest, params: Values)
    requires params.Valid()
    modifies params
    ensures params.Valid()
    ensures params.entries == TailParams(m, old(params.entries))
  {
    if |m.attachments| > 0 {
      params.Set("attachments", "[" + Join(m.attachments, ",") + "]");
    }
    params.Set("unfurl_links", FormatBool(m.unfurlLinks));
    params.Set("unfurl_media", FormatBool(m.unfurlMedia));
  }

  method SetIcons(m: PostMessageRequest, params: Values)
    requires params.Valid()
    modifies params
    ensures params.Valid()
    ensures params.entries == IconParams(m, old(params.entries))
  {
    if m.iconURL != "" {
      params.Set("icon_url", m.iconURL);
    }
    if m.iconEmoji != "" {
      params.Set("icon_emoji", m.iconEmoji);
    }
  }

  method SetFixed(m: PostMessageRequest, params: Values)
    requires params.Valid()
    modifies params
    ensures params.Valid()
    ensures params.entries == FixedParams(m, old(params.entries))
  {
    params.Set("as_user", FormatBool(m.asUser));
    params.Set("parse", m.parse);
    params.Set("link_names", Itoa(m.linkNames));
    params.Set("thread_id", m.threadID);
  }

  method PostMessage(s: Client, m: PostMessageRequest, escape: bool, reply: HttpReply)
    returns (sent: Request, ok: bool, err: Option<ApiError>)
    ensures sent == Request(s.url + "chat.postMessage", WithNotEmpty(PostParams(m, escape), "token", s.token))
    ensures err == ReplyError(reply) && (ok <==> err.None?)
  {
    var params := BuildPostParams(m, escape);
    sent, err := s.Do("chat.postMessage", params, reply);
    ok := err.None?;
  }
}
