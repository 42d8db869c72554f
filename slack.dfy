/** The API client: its configuration options, the request invoker's
    token and success-flag rules, and the real-time connection state
    (connection reference and message counter) that RTMStart, RTMSend and
    RTMStop update. */
module Slack {
  import opened Common

  const DefaultURL: string := "https://slack.com/api/"

  /** A known condition error: an id and a human readable detail. */
  datatype Error = Error(id: string, detail: string)

  const ErrBadToken: Error := Error("bad_token", "Bad token was provided to the API")
  const ErrNoToken: Error := Error("no_token", "You must provide a Slack token to use the API")
  const ErrBadOAuth: Error := Error("bad_oauth", "Bad OAuth credentuals provided")

  /** Error.Error(): the id, a colon and a space, then the detail. */
  function Render(e: Error): (r: string)
    ensures |r| == |e.id| + 2 + |e.detail|
    ensures HasPrefix(r, e.id) && r[|e.id|..|e.id| + 2] == ": " && r[|e.id| + 2..] == e.detail
  {
    e.id + ": " + e.detail
  }

  /** Two errors whose ids hold no colon render alike only when they are the
      same error: the rendered text identifies the error. */
  lemma RenderInjective(a: Error, b: Error)
    requires ':' !in a.id && ':' !in b.id
    requires Render(a) == Render(b)
    ensures a == b
  {
    RenderColon(a);
    RenderColon(b);
    var r := Render(a);
    assert a.id == r[..|a.id|] == b.id;
    assert a.detail == r[|a.id| + 2..] == b.detail;
  }

  /** For an id without a colon, the first colon of the rendered text ends
      the id. */
  lemma RenderColon(e: Error)
    requires ':' !in e.id
    ensures Index(Render(e), ":") == |e.id|
  {
    var r := Render(e);
    assert OccursAt(r, ":", |e.id|);
    forall j | 0 <= j < |e.id|
      ensures !OccursAt(r, ":", j)
    {
      assert r[j] == e.id[j];
      assert e.id[j] in e.id;
    }
  }

  /** Every Go `error` value the client produces. */
  datatype ApiError =
    | Known(err: Error)          // an *Error value
    | Server(message: string)    // a decoded reply whose ok flag is false
    | Transport(message: string) // the HTTP or WebSocket layer failed
    | Decode(message: string)    // the reply body is not valid JSON for the result
    | Plain(message: string)     // errors.New / fmt.Errorf raised before any request

  /** err.Error() */
  function Text(e: ApiError): string
  {
    match e
    case Known(k) => Render(k)
    case Server(m) => m
    case Transport(m) => m
    case Decode(m) => m
    case Plain(m) => m
  }

  // ---------------------------------------------------------------------------
  // Options

  /** The configuration that the options write. The loggers and the HTTP
      client carry no state this model follows. */
  datatype Settings = Settings(
    token: string,
    url: string,
    clientID: string,
    clientSecret: string,
    code: string,
    redirectURI: string)

  const Initial: Settings := Settings("", "", "", "", "", "")

  datatype OptionFunc =
    | SetToken(token: string)
    | SetOAuthCredentials(clientID: string, clientSecret: string, code: string, redirectURI: string)
    | SetURL(rawurl: string)
    | SetHTTPClient
    | SetErrorLog
    | SetTraceLog

  predicate IsControl(c: char)
  {
    c as int < 0x20 || c as int == 0x7f
  }

  predicate IsLetter(c: char)
  {
    'a' <= c <= 'z' || 'A' <= c <= 'Z'
  }

  /** The scheme scan of url.Parse from position `i` on: letters continue the
      scheme; a digit, '+', '-' or '.' continues it except at the start; a
      ':' ends it (an error at the start); anything else means no scheme. */
  function SchemeFrom(s: string, i: nat): (r: Result<string, string>)
    requires i <= |s|
    decreases |s| - i
    ensures r.Ok? && r.value != [] ==> i < |s| && OccursAt(s, r.value + ":", 0)
  {
    if i == |s| then Ok("")
    else
      var c := s[i];
      if IsLetter(c) then SchemeFrom(s, i + 1)
      else if IsDigit(c) || c == '+' || c == '-' || c == '.' then
        (if i == 0 then Ok("") else SchemeFrom(s, i + 1))
      else if c == ':' then
        (if i == 0 then Err("missing protocol scheme") else Ok(s[..i]))
      else Ok("")
  }

  /** The part of a URL before its first '#': url.Parse cuts the fragment
      off before it parses the rest. */
  function BeforeFragment(raw: string): (u: string)
    ensures |u| <= |raw| && u == raw[..|u|] && '#' !in u
    ensures |u| < |raw| ==> raw[|u|] == '#'
  {
    if raw == [] || raw[0] == '#' then [] else [raw[0]] + BeforeFragment(raw[1..])
  }

  /** Cutting a concatenation: a '#' in the first part decides the cut;
      otherwise the first part is kept whole and the second is cut. */
  lemma {:induction false} BeforeFragmentAppend(u: string, tail: string)
    ensures BeforeFragment(u + tail) ==
      if |BeforeFragment(u)| < |u| then BeforeFragment(u) else u + BeforeFragment(tail)
  {
    if u != [] && u[0] != '#' {
      assert (u + tail)[1..] == u[1..] + tail;
      BeforeFragmentAppend(u[1..], tail);
    } else if u == [] {
      assert u + tail == tail;
    }
  }

  /** A text without '#' is its own fragment-free part. */
  lemma BeforeFragmentWhole(u: string)
    requires '#' !in u
    ensures BeforeFragment(u) == u
  {
    if |BeforeFragment(u)| < |u| {
      assert u[|BeforeFragment(u)|] == '#';
    }
  }

  /** strconv.Quote of one ASCII character: '"' and '\' are escaped, the
      seven C escapes are used where they exist, and every other control
      character is written as \x and two lower-case hex digits. */
  function QuoteChar(c: char): (r: string)
    ensures r != [] && forall k | 0 <= k < |r| :: !IsControl(r[k])
    ensures !IsControl(c) && c != '"' && c != '\\' ==> r == [c]
  {
    if c == '"' then "\\\""
    else if c == '\\' then "\\\\"
    else if c as int == 7 then "\\a"
    else if c as int == 8 then "\\b"
    else if c as int == 12 then "\\f"
    else if c as int == 10 then "\\n"
    else if c as int == 13 then "\\r"
    else if c as int == 9 then "\\t"
    else if c as int == 11 then "\\v"
    else if IsControl(c) then "\\x" + [HexDigit(c as int / 16), HexDigit(c as int % 16)]
    else [c]
  }

  function HexDigit(n: nat): (c: char)
    requires n < 16
    ensures !IsControl(c)
  {
    "0123456789abcdef"[n]
  }

  /** The escaped body of a quoted string. */
  function QuoteBody(s: string): (r: string)
    ensures |r| >= |s| && forall k | 0 <= k < |r| :: !IsControl(r[k])
  {
    if s == [] then [] else QuoteChar(s[0]) + QuoteBody(s[1..])
  }

  /** What url.Error prints for a failed parse of `u`: the operation, the
      URL quoted as %q quotes it, then the cause. */
  function ParseErrorText(u: string, cause: string): (r: string)
    ensures HasPrefix(r, "parse \"") && HasSuffix(r, "\": " + cause)
    ensures forall k | 7 <= k < |r| - |cause| :: !IsControl(r[k])
  {
    var r := "parse \"" + QuoteBody(u) + "\": " + cause;
    assert r[..7] == "parse \"";
    assert r[|r| - |cause| - 3..] == "\": " + cause;
    r
  }

  /** The scheme url.Parse reports for `raw`, lower-cased, or the text of its
      error. The fragment after the first '#' is cut off first; of the rest
      only the control-character and scheme checks are modelled. */
  function ParseScheme(raw: string): (r: Result<string, string>)
    ensures var u := BeforeFragment(raw);
      (exists k | 0 <= k < |u| :: IsControl(u[k])) ==>
        r == Err(ParseErrorText(u, "net/url: invalid control character in URL"))
    ensures r.Err? ==> HasPrefix(r.error, "parse \"")
    ensures r.Ok? && r.value != [] ==> |r.value| < |raw| && raw[|r.value|] == ':'
  {
    var u := BeforeFragment(raw);
    if exists k | 0 <= k < |u| :: IsControl(u[k]) then
      Err(ParseErrorText(u, "net/url: invalid control character in URL"))
    else match SchemeFrom(u, 0)
      case Err(m) => Err(ParseErrorText(u, m))
      case Ok(scheme) =>
        assert scheme != [] ==> u[..|scheme| + 1] == scheme + ":";
        assert scheme != [] ==> raw[|scheme|] == u[|scheme|];
        Ok(ToLower(scheme))
  }

  /** The fragment plays no part in the check: control characters or
      anything else after the first '#' change neither the scheme nor the
      error. */
  lemma ParseIgnoresFragment(u: string, frag: string)
    requires '#' !in u
    ensures ParseScheme(u + "#" + frag) == ParseScheme(u)
  {
    BeforeFragmentWhole(u);
    BeforeFragmentAppend(u, "#" + frag);
    assert u + "#" + frag == u + ("#" + frag);
  }

  /** The stored form of an accepted URL: the default for "", and always with
      a trailing slash. */
  function NormalizeURL(raw: string): (r: string)
    ensures HasSuffix(r, "/")
    ensures raw != "" ==> HasPrefix(r, raw)
    ensures HasSuffix(raw, "/") ==> r == raw
    ensures raw == "" ==> r == DefaultURL
    ensures raw != "" && !HasSuffix(raw, "/") ==> r == raw + "/"
  {
    var u := if raw == "" then DefaultURL else raw;
    if HasSuffix(u, "/") then u else u + "/"
  }

  function URLError(raw: string): (r: Option<Error>)
    ensures r.Some? ==> r.value.id == "bad_url"
    ensures r.None? <==> ParseScheme(raw).Ok? && ParseScheme(raw).value in {"http", "https"}
  {
    match ParseScheme(raw)
    case Err(m) => Some(Error("bad_url", "Invalid URL [" + raw + "] - " + m + "\n"))
    case Ok(scheme) =>
      if scheme != "http" && scheme != "https" then Some(Error("bad_url", "Invalid schema specified [" + raw + "]"))
      else None
  }

  /** What one option does to the configuration. */
  function ApplyOption(st: Settings, o: OptionFunc): (r: Result<Settings, Error>)
    ensures o.SetToken? ==> (r.Err? <==> o.token == "")
    ensures o.SetToken? && o.token == "" ==> r == Err(ErrBadToken)
    ensures o.SetToken? && o.token != "" ==> r == Ok(st.(token := o.token))
    ensures o.SetOAuthCredentials? ==>
      (r.Err? <==> o.clientID == "" || o.clientSecret == "" || o.code == "")
    ensures o.SetOAuthCredentials? && r.Err? ==> r.error == ErrBadOAuth
    ensures o.SetOAuthCredentials? && r.Ok? ==>
      r.value == st.(clientID := o.clientID, clientSecret := o.clientSecret, code := o.code, redirectURI := o.redirectURI)
    ensures o.SetURL? ==>
      var u := if o.rawurl == "" then DefaultURL else o.rawurl;
      (r.Err? <==> URLError(u).Some?) && (r.Err? ==> r.error == URLError(u).value) &&
      (r.Ok? <==> ParseScheme(u).Ok? && ParseScheme(u).value in {"http", "https"})
    ensures o.SetURL? && r.Err? ==> r.error.id == "bad_url"
    ensures o.SetURL? && r.Ok? ==> r.value == st.(url := NormalizeURL(o.rawurl)) && HasSuffix(r.value.url, "/")
    ensures o.SetHTTPClient? || o.SetErrorLog? || o.SetTraceLog? ==> r == Ok(st)
  {
    match o
    case SetToken(t) => if t == "" then Err(ErrBadToken) else Ok(st.(token := t))
    case SetOAuthCredentials(id, secret, code, redirect) =>
      if id == "" || secret == "" || code == "" then Err(ErrBadOAuth)
      else Ok(st.(clientID := id, clientSecret := secret, code := code, redirectURI := redirect))
    case SetURL(raw) =>
      var u := if raw == "" then DefaultURL else raw;
      if URLError(u).Some? then Err(URLError(u).value)
      else Ok(st.(url := NormalizeURL(raw)))
    case _ => Ok(st)
  }

  /** The options run in order; the first failing one decides the error. */
  function ApplyAll(st: Settings, options: seq<OptionFunc>): (r: Result<Settings, Error>)
    decreases |options|
    ensures r.Ok? && (st.url == "" || HasSuffix(st.url, "/")) ==> r.value.url == "" || HasSuffix(r.value.url, "/")
    ensures r.Ok? && st.token != "" ==> r.value.token != ""
    ensures r.Err? ==> options != []
  {
    if options == [] then Ok(st)
    else match ApplyOption(st, options[0])
      case Err(e) => Err(e)
      case Ok(st') => ApplyAll(st', options[1..])
  }

  lemma {:induction false} ApplyAllFirstFailure(st: Settings, options: seq<OptionFunc>)
    requires ApplyAll(st, options).Err?
    ensures exists i | 0 <= i < |options| ::
      ApplyAll(st, options[..i]).Ok? &&
      ApplyOption(ApplyAll(st, options[..i]).value, options[i]) == Err(ApplyAll(st, options).error)
    decreases |options|
  {
    assert options[..0] == [];
    match ApplyOption(st, options[0])
    case Err(e) =>
    case Ok(st') =>
      ApplyAllFirstFailure(st', options[1..]);
      var j :| 0 <= j < |options| - 1 &&
        ApplyAll(st', options[1..][..j]).Ok? &&
        ApplyOption(ApplyAll(st', options[1..][..j]).value, options[1..][j]) == Err(ApplyAll(st', options[1..]).error);
      assert options[..j + 1][1..] == options[1..][..j];
      assert ApplyAll(st, options[..j + 1]) == ApplyAll(st', options[1..][..j]);
  }

  /** An option list that succeeds runs each option on the result of the
      previous ones. */
  lemma {:induction false} ApplyAllSnoc(st: Settings, options: seq<OptionFunc>, o: OptionFunc)
    requires ApplyAll(st, options).Ok?
    ensures ApplyAll(st, options + [o]) == ApplyOption(ApplyAll(st, options).value, o)
    decreases |options|
  {
    if options == [] {
      assert options + [o] == [o];
    } else {
      assert (options + [o])[1..] == options[1..] + [o];
      ApplyAllSnoc(ApplyOption(st, options[0]).value, options[1..], o);
    }
  }

  /** New without its OAuth exchange: the options, the default URL, and the
      check that a token or OAuth client id was given. */
  function NewSettings(options: seq<OptionFunc>): (r: Result<Settings, ApiError>)
    ensures r.Ok? ==> r.value.url != "" && (r.value.token != "" || r.value.clientID != "")
    ensures ApplyAll(Initial, options).Err? ==> r == Err(Known(ApplyAll(Initial, options).error))
    ensures ApplyAll(Initial, options).Ok? && ApplyAll(Initial, options).value.url == "" && r.Ok? ==>
      r.value.url == DefaultURL
    ensures ApplyAll(Initial, options).Ok? ==>
      (r == Err(Known(ErrNoToken)) <==>
        ApplyAll(Initial, options).value.token == "" && ApplyAll(Initial, options).value.clientID == "")
    ensures ApplyAll(Initial, options).Ok? &&
            (ApplyAll(Initial, options).value.token != "" || ApplyAll(Initial, options).value.clientID != "") ==>
      var st := ApplyAll(Initial, options).value;
      r == Ok(if st.url == "" then st.(url := DefaultURL) else st)
  {
    match ApplyAll(Initial, options)
    case Err(e) => Err(Known(e))
    case Ok(st) =>
      var st' := if st.url == "" then st.(url := DefaultURL) else st;
      if st'.token == "" && st'.clientID == "" then Err(Known(ErrNoToken)) else Ok(st')
  }

  /** Applying SetURL to the URL it stored changes nothing. */
  lemma SetURLIdempotent(st: Settings, raw: string)
    requires ApplyOption(st, SetURL(raw)).Ok?
    ensures var st' := ApplyOption(st, SetURL(raw)).value;
      ApplyOption(st', SetURL(st'.url)) == Ok(st')
  {
    NormalizeAccepted(raw);
    var n := NormalizeURL(raw);
    assert NormalizeURL(n) == n;
  }

  /** The stored form of an accepted URL is accepted too. */
  lemma NormalizeAccepted(raw: string)
    requires URLError(if raw == "" then DefaultURL else raw).None?
    ensures URLError(NormalizeURL(raw)).None?
  {
    var u := if raw == "" then DefaultURL else raw;
    if NormalizeURL(raw) != u {
      SchemeAppend(u, "/");
    }
  }

  /** Text added after a complete scheme does not change the scheme. */
  lemma SchemeAppend(u: string, tail: string)
    requires ParseScheme(u).Ok? && ParseScheme(u).value != []
    requires forall k | 0 <= k < |tail| :: !IsControl(tail[k])
    ensures ParseScheme(u + tail) == ParseScheme(u)
  {
    var v := BeforeFragment(u);
    BeforeFragmentAppend(u, tail);
    if |v| == |u| {
      assert v == u;
      assert SchemeFrom(u, 0).Ok? && |SchemeFrom(u, 0).value| == |ParseScheme(u).value|;
      var d := BeforeFragment(tail);
      var w := u + d;
      SchemeFromAppend(u, d, 0);
      assert forall k | 0 <= k < |w| :: !IsControl(w[k]) by {
        forall k | 0 <= k < |w| ensures !IsControl(w[k]) {
          if k < |u| { assert w[k] == v[k]; } else { assert w[k] == tail[k - |u|]; }
        }
      }
    }
  }

  lemma {:induction false} SchemeFromAppend(u: string, tail: string, i: nat)
    requires i <= |u|
    requires SchemeFrom(u, i).Ok? && SchemeFrom(u, i).value != []
    ensures SchemeFrom(u + tail, i) == SchemeFrom(u, i)
    decreases |u| - i
  {
    assert (u + tail)[i] == u[i];
    var c := u[i];
    if IsLetter(c) || ((IsDigit(c) || c == '+' || c == '-' || c == '.') && i != 0) {
      SchemeFromAppend(u, tail, i + 1);
    } else {
      assert (u + tail)[..i] == u[..i];
    }
  }

  // ---------------------------------------------------------------------------
  // The request invoker

  /** One form-encoded POST: the full endpoint URL and its parameters. */
  datatype Request = Request(endpoint: string, params: map<string, seq<string>>)

  /** The reply body as the JSON decoder sees it. */
  datatype Body =
    | Malformed(reason: string)
    | Envelope(ok: bool, error: string)

  /** What the HTTP layer hands back for one request. */
  datatype HttpReply =
    | NoReply(reason: string)
    | Reply(status: int, statusText: string, body: Body)

  /** handleError: no error exactly for the 2xx status class (section 15.3 of
      RFC 9110), an "http_error" otherwise. */
  function HandleError(status: int, statusText: string): (r: Option<Error>)
    ensures r.None? <==> 200 <= status <= 299
    ensures r.Some? ==> r.value.id == "http_error"
  {
    if status < 200 || status >= 300 then
      Some(Error("http_error", "Unexpected status code: " + Itoa(status) + " (" + statusText + ")"))
    else None
  }

  /** The error `do` returns for a reply decoded into a Response result. */
  function ReplyError(reply: HttpReply): (r: Option<ApiError>)
    ensures r.None? <==> reply.Reply? && 200 <= reply.status <= 299 && reply.body.Envelope? && reply.body.ok
    ensures reply.NoReply? ==> r == Some(Transport(reply.reason))
    ensures reply.Reply? && !(200 <= reply.status <= 299) ==> r.Some? && r.value.Known? && r.value.err.id == "http_error"
    ensures reply.Reply? && 200 <= reply.status <= 299 && reply.body.Envelope? && !reply.body.ok ==>
      r == Some(Server(reply.body.error)) && Text(r.value) == reply.body.error
  {
    match reply
    case NoReply(reason) => Some(Transport(reason))
    case Reply(status, statusText, body) =>
      match HandleError(status, statusText)
      case Some(e) => Some(Known(e))
      case None =>
        match body
        case Malformed(reason) => Some(Decode(reason))
        case Envelope(ok, error) => if !ok then Some(Server(error)) else None
  }

  /** The parameter map after appendNotEmpty(name, val, _). */
  function WithNotEmpty(m: map<string, seq<string>>, name: string, val: string): (r: map<string, seq<string>>)
    ensures val == "" ==> r == m
    ensures r.Keys == if val == "" then m.Keys else m.Keys + {name}
    ensures val != "" ==> r[name] == (if name in m then m[name] else []) + [val]
    ensures forall k | k in m && k != name :: r[k] == m[k]
    ensures WellFormed(m) ==> WellFormed(r)
  {
    if val == "" then m else m[name := (if name in m then m[name] else []) + [val]]
  }

  /** Two appendNotEmpty calls for keys the parameters do not hold yet. */
  function WithBothNotEmpty(m: map<string, seq<string>>, k1: string, v1: string, k2: string, v2: string)
    : (r: map<string, seq<string>>)
    requires k1 != k2 && k1 !in m && k2 !in m
    ensures r.Keys <= m.Keys + {k1, k2}
    ensures (k1 in r <==> v1 != "") && (v1 != "" ==> r[k1] == [v1])
    ensures (k2 in r <==> v2 != "") && (v2 != "" ==> r[k2] == [v2])
    ensures forall k | k in m :: k in r && r[k] == m[k]
    ensures WellFormed(m) ==> WellFormed(r)
  {
    WithNotEmpty(WithNotEmpty(m, k1, v1), k2, v2)
  }

  /** appendNotEmpty: adds name=val to the caller's parameters only when val
      is non-empty. */
  method AppendNotEmpty(name: string, val: string, params: Values)
    requires params.Valid()
    modifies params
    ensures params.Valid()
    ensures params.entries == WithNotEmpty(old(params.entries), name, val)
  {
    if val != "" {
      params.Add(name, val);
    }
  }

  // ---------------------------------------------------------------------------
  // The client

  /** An RTM frame written by RTMSend. */
  datatype RTMMessage = RTMMessage(id: int, kind: string, channel: string, text: string)

  class Client {
    var token: string
    var url: string
    var clientID: string
    var clientSecret: string
    var code: string
    var redirectURI: string
    /** Whether the WebSocket connection reference is set. */
    var connected: bool
    /** The id of the last RTM message sent. */
    var mid: int

    function Config(): Settings
      reads this
    {
      Settings(token, url, clientID, clientSecret, code, redirectURI)
    }

    constructor ()
      ensures Config() == Initial && !connected && mid == 0
    {
      token, url, clientID, clientSecret, code, redirectURI := "", "", "", "", "", "";
      connected, mid := false, 0;
    }

    /** Runs one option closure on the client. */
    method Apply(o: OptionFunc) returns (err: Option<Error>)
      modifies this
      ensures ApplyOption(old(Config()), o).Err? ==>
        err == Some(ApplyOption(old(Config()), o).error) && Config() == old(Config())
      ensures ApplyOption(old(Config()), o).Ok? ==>
        err == None && Config() == ApplyOption(old(Config()), o).value
      ensures connected == old(connected) && mid == old(mid)
    {
      err := None;
      ghost var before := Config();
      match o
      case SetToken(t) =>
        if t == "" {
          err := Some(ErrBadToken);
        } else {
          token := t;
        }
      case SetOAuthCredentials(id, secret, c, redirect) =>
        if id == "" || secret == "" || c == "" {
          err := Some(ErrBadOAuth);
        } else {
          clientID, clientSecret, code, redirectURI := id, secret, c, redirect;
        }
      case SetURL(raw) =>
        err := ApplyURL(raw);
      case SetHTTPClient =>
      case SetErrorLog =>
      case SetTraceLog =>
    }

    /** The closure SetURL returns: "" stands for the default URL; a URL
        that does not parse or has another scheme is refused; otherwise it
        is stored with a trailing slash. */
    method ApplyURL(raw: string) returns (err: Option<Error>)
      modifies this
      ensures ApplyOption(old(Config()), SetURL(raw)).Err? ==>
        err == Some(ApplyOption(old(Config()), SetURL(raw)).error) && Config() == old(Config())
      ensures ApplyOption(old(Config()), SetURL(raw)).Ok? ==>
        err == None && Config() == ApplyOption(old(Config()), SetURL(raw)).value
      ensures connected == old(connected) && mid == old(mid)
    {
      ghost var before := Config();
      var u := if raw == "" then DefaultURL else raw;
      var e := URLError(u);
      if e.Some? {
        err := e;
      } else {
        err := None;
        url := u;
        if !HasSuffix(url, "/") {
          url := url + "/";
        }
        assert Config() == before.(url := NormalizeURL(raw));
      }
    }

    /** The option loop of New: applies the options in order and stops at
        the first one that fails. */
    method ApplyEach(options: seq<OptionFunc>) returns (err: Option<Error>)
      modifies this
      ensures ApplyAll(old(Config()), options).Err? ==> err == Some(ApplyAll(old(Config()), options).error)
      ensures ApplyAll(old(Config()), options).Ok? ==> err == None && Config() == ApplyAll(old(Config()), options).value
      ensures connected == old(connected) && mid == old(mid)
    {
      ghost var start := Config();
      var i := 0;
      while i < |options|
        invariant 0 <= i <= |options|
        invariant ApplyAll(start, options[..i]).Ok?
        invariant Config() == ApplyAll(start, options[..i]).value
        invariant connected == old(connected) && mid == old(mid)
      {
        ghost var before := Config();
        err := Apply(options[i]);
        ApplyEachStep(start, options, i, before, err, Config());
        if err.Some? {
          return;
        }
        i := i + 1;
      }
      assert options[..i] == options;
      err := None;
    }

    /** New: runs the options in order, stops at the first failure, fills in
        the default URL, demands a token or an OAuth client id, and exchanges
        the OAuth code (whose outcome is given as `oauth`) when no token was
        given. */
    static method New(options: seq<OptionFunc>, oauth: Result<string, ApiError>) returns (s: Client?, err: Option<ApiError>)
      ensures NewSettings(options).Err? ==> s == null && err == Some(NewSettings(options).error)
      ensures NewSettings(options).Ok? && NewSettings(options).value.token != "" ==>
        s != null && fresh(s) && err == None && s.Config() == NewSettings(options).value &&
        !s.connected && s.mid == 0
      ensures NewSettings(options).Ok? && NewSettings(options).value.token == "" ==>
        match oauth
        case Err(e) => s == null && err == Some(e)
        case Ok(t) =>
          s != null && fresh(s) && err == None && s.Config() == NewSettings(options).value.(token := t) &&
          !s.connected && s.mid == 0
    {
      var c := new Client();
      var e := c.ApplyEach(options);
      if e.Some? {
        return null, Some(Known(e.value));
      }
      if c.url == "" {
        c.url := DefaultURL;
      }
      if c.token == "" && c.clientID == "" {
        return null, Some(Known(ErrNoToken));
      }
      if c.token == "" {
        match oauth
        case Err(e) => return null, Some(e);
        case Ok(t) => c.token := t;
      }
      return c, None;
    }

    /** `do`: adds the token to the caller's parameters when it is set, posts
        them to url + path, and turns the reply into an error as ReplyError
        says. */
    method Do(path: string, params: Values, reply: HttpReply) returns (sent: Request, err: Option<ApiError>)
      requires params.Valid()
      modifies params
      ensures params.Valid()
      ensures params.entries == WithNotEmpty(old(params.entries), "token", token)
      ensures sent == Request(url + path, params.entries)
      ensures err == ReplyError(reply)
    {
      AppendNotEmpty("token", token, params);
      sent := Request(url + path, params.entries);
      err := ReplyError(reply);
    }

    /** RTMStart up to the point where the reader starts: the "rtm.start"
        call, then the dial. A failed call leaves the connection reference
        alone; a failed dial overwrites it with nothing. */
    method RTMStart(reply: HttpReply, dial: Option<string>) returns (sent: Request, err: Option<ApiError>)
      modifies this`connected
      ensures sent == Request(url + "rtm.start", WithNotEmpty(map[], "token", token))
      ensures ReplyError(reply).Some? ==> err == ReplyError(reply) && connected == old(connected)
      ensures ReplyError(reply).None? && dial.Some? ==> err == Some(Transport(dial.value)) && !connected
      ensures ReplyError(reply).None? && dial.None? ==> err == None && connected
    {
      var params := new Values(map[]);
      sent, err := Do("rtm.start", params, reply);
      if err.Some? {
        return;
      }
      connected := dial.None?;
      if dial.Some? {
        err := Some(Transport(dial.value));
      }
    }

    /** RTMSend, one locked section: fails without a connection; otherwise
        takes the next id and writes the frame (whose write error, if any, is
        `writeErr`). */
    method RTMSend(channel: string, text: string, writeErr: Option<string>)
      returns (id: int, frame: Option<RTMMessage>, err: Option<ApiError>)
      modifies this`mid
      ensures !old(connected) ==>
        id == 0 && frame == None && err == Some(Plain("RTM channel is not open")) && mid == old(mid)
      ensures old(connected) ==>
        mid == old(mid) + 1 && id == mid && frame == Some(RTMMessage(mid, "message", channel, text)) &&
        err == (if writeErr.Some? then Some(Transport(writeErr.value)) else None)
    {
      if !connected {
        return 0, None, Some(Plain("RTM channel is not open"));
      }
      mid := mid + 1;
      frame := Some(RTMMessage(mid, "message", channel, text));
      err := if writeErr.Some? then Some(Transport(writeErr.value)) else None;
      id := mid;
    }

    /** RTMStop: closes and clears the connection reference if it is set. */
    method RTMStop(closeErr: Option<string>) returns (err: Option<ApiError>)
      modifies this`connected
      ensures !connected
      ensures err == (if old(connected) && closeErr.Some? then Some(Transport(closeErr.value)) else None)
    {
      err := None;
      if connected {
        if closeErr.Some? {
          err := Some(Transport(closeErr.value));
        }
        connected := false;
      }
    }
  }

  /** One turn of New's option loop: a failing option decides the outcome of
      the whole list, a succeeding one extends the prefix applied so far. */
  lemma ApplyEachStep(start: Settings, options: seq<OptionFunc>, i: nat, before: Settings, err: Option<Error>, after: Settings)
    requires i < |options| && ApplyAll(start, options[..i]) == Ok(before)
    requires ApplyOption(before, options[i]).Err? ==> err == Some(ApplyOption(before, options[i]).error)
    requires ApplyOption(before, options[i]).Ok? ==> err == None && after == ApplyOption(before, options[i]).value
    ensures err.Some? ==> ApplyAll(start, options).Err? && err.value == ApplyAll(start, options).error
    ensures err.None? ==> ApplyAll(start, options[..i + 1]) == Ok(after)
  {
    ApplyAllSnoc(start, options[..i], options[i]);
    assert options[..i + 1] == options[..i] + [options[i]];
    if err.Some? {
      ApplyAllPrefixFailure(start, options, i + 1);
    }
  }

  /** Once an option list fails at position k, the whole list fails with the
      same error. */
  lemma {:induction false} ApplyAllPrefixFailure(st: Settings, options: seq<OptionFunc>, k: nat)
    requires k <= |options|
    requires ApplyAll(st, options[..k]).Err?
    ensures ApplyAll(st, options) == ApplyAll(st, options[..k])
    decreases k
  {
    assert k > 0;
    match ApplyOption(st, options[0])
    case Err(e) =>
    case Ok(st') =>
      assert options[..k][1..] == options[1..][..k - 1];
      ApplyAllPrefixFailure(st', options[1..], k - 1);
  }
}
