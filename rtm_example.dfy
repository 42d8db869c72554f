/** The reputation bot: it watches channel messages for a link, an IP
    address or an MD5 hash, looks each up with reputation services, and
    answers with coloured attachments. Modelled here: how map contents are
    listed, where the link is cut out of the text, the VirusTotal colour
    thresholds, and which messages trigger which lookup. */
module RtmExample {
  import opened Common
  import opened Rtm
  import opened Mentions

  // ---------------------------------------------------------------------------
  // Listing maps

  /** `order` lists every key of `keys` exactly once (a map's range order
      is unspecified, so any such order may come out). */
  predicate Enumerates(order: seq<string>, keys: set<string>)
  {
    NoDup(order) && (forall k | k in order :: k in keys) && (forall k | k in keys :: k in order)
  }

  /** The keys whose value is true. */
  function TrueKeys(m: map<string, bool>): (r: set<string>)
    ensures forall k :: k in r <==> k in m && m[k]
  {
    set k | k in m && m[k]
  }

  /** Each piece followed by a comma. */
  function Trail(pieces: seq<string>): (r: string)
  {
    if pieces == [] then [] else pieces[0] + "," + Trail(pieces[1..])
  }

  lemma {:induction false} TrailSnoc(pieces: seq<string>, p: string)
    ensures Trail(pieces + [p]) == Trail(pieces) + p + ","
    decreases |pieces|
  {
    if pieces == [] {
      assert Trail([p]) == p + "," + Trail([]);
    } else {
      assert (pieces + [p])[1..] == pieces[1..] + [p];
      TrailSnoc(pieces[1..], p);
    }
  }

  /** With the last comma cut off, the pieces read as joined by commas. */
  lemma {:induction false} TrailJoin(pieces: seq<string>)
    requires pieces != []
    ensures |Trail(pieces)| > 0 && Trail(pieces)[..|Trail(pieces)| - 1] == Join(pieces, ",")
    decreases |pieces|
  {
    var t := Trail(pieces);
    if |pieces| == 1 {
      assert t == pieces[0] + "," + [];
    } else {
      TrailJoin(pieces[1..]);
      var u := Trail(pieces[1..]);
      assert t == pieces[0] + "," + u;
      assert t[..|t| - 1] == pieces[0] + "," + u[..|u| - 1];
    }
  }

  /** Adding a fresh key keeps a listing free of duplicates. */
  lemma NoDupSnoc(order: seq<string>, k: string)
    requires NoDup(order) && k !in order
    ensures NoDup(order + [k])
  {
    forall a, b | 0 <= a < b < |order| + 1 ensures (order + [k])[a] != (order + [k])[b] {
      if b == |order| {
        assert order[a] in order;
      }
    }
  }

  /** joinMap: the keys whose value is true, joined by commas in some order,
      without a trailing comma; "" when there are none. */
  method JoinMap(m: map<string, bool>) returns (res: string)
    ensures exists order :: Enumerates(order, TrueKeys(m)) && res == Join(order, ",")
    ensures TrueKeys(m) == {} ==> res == ""
  {
    res := "";
    var keys := m.Keys;
    ghost var order: seq<string> := [];
    while keys != {}
      invariant keys <= m.Keys
      invariant NoDup(order) && res == Trail(order)
      invariant forall k | k in order :: k in m && k !in keys && m[k]
      invariant forall k | k in m && k !in keys && m[k] :: k in order
      decreases |keys|
    {
      var k :| k in keys;
      if m[k] {
        TrailSnoc(order, k);
        NoDupSnoc(order, k);
        res := res + k + ",";
        order := order + [k];
      }
      keys := keys - {k};
    }
    assert TrueKeys(m) == {} ==> order == [] by {
      if order != [] {
        assert order[0] in TrueKeys(m);
      }
    }
    if |res| > 0 {
      TrailJoin(order);
      res := res[0..|res| - 1];
    }
    assert Enumerates(order, TrueKeys(m));
  }

  /** One entry of joinMapInt: "k (v)". */
  function Entry(k: string, v: int): string
  {
    k + " (" + Itoa(v) + ")"
  }

  /** The entries of the listed keys, in the listed order. */
  function Entries(order: seq<string>, m: map<string, int>): (r: seq<string>)
    requires forall k | k in order :: k in m
    ensures |r| == |order|
  {
    if order == [] then []
    else
      assert forall k | k in order[..|order| - 1] :: k in order;
      Entries(order[..|order| - 1], m) + [Entry(order[|order| - 1], m[order[|order| - 1]])]
  }

  lemma EntriesSnoc(order: seq<string>, m: map<string, int>, k: string)
    requires (forall x | x in order :: x in m) && k in m
    ensures Entries(order + [k], m) == Entries(order, m) + [Entry(k, m[k])]
  {
    assert (order + [k])[..|order|] == order;
  }

  /** joinMapInt: every entry as "k (v)", joined by commas in some order of
      the keys, without a trailing comma. */
  method JoinMapInt(m: map<string, int>) returns (res: string)
    ensures exists order :: Enumerates(order, m.Keys) && res == Join(Entries(order, m), ",")
  {
    res := "";
    var keys := m.Keys;
    ghost var order: seq<string> := [];
    while keys != {}
      invariant keys <= m.Keys
      invariant forall k | k in order :: k in m && k !in keys
      invariant forall k | k in m && k !in keys :: k in order
      invariant NoDup(order) && res == Trail(Entries(order, m))
      decreases |keys|
    {
      var k :| k in keys;
      EntriesSnoc(order, m, k);
      TrailSnoc(Entries(order, m), Entry(k, m[k]));
      NoDupSnoc(order, k);
      res := res + Entry(k, m[k]) + ",";
      order := order + [k];
      keys := keys - {k};
    }
    if |res| > 0 {
      TrailJoin(Entries(order, m));
      res := res[0..|res| - 1];
    }
    assert Enumerates(order, m.Keys);
  }

  // ---------------------------------------------------------------------------
  // The link in a message

  /** handleURL's cut: from just after the '<' of the first "<http" to the
      next '>', or to a '|' before it. Called only on texts that contain
      "<http"; without a closing '>' nothing is taken. */
  function ExtractURL(text: string): (r: Option<string>)
    requires Contains(text, "<http")
    ensures var start := Index(text, "<http");
      0 <= start < |text| && (r.None? <==> '>' !in text[start..])
    ensures var start := Index(text, "<http");
      r.Some? ==> HasPrefix(r.value, "http") && exists e | start < e < |text| ::
        (text[e] == '>' || text[e] == '|') && '>' !in text[start..e] && '|' !in text[start..e] &&
        r.value == text[start + 1..e]
  {
    URLFrom(text, Index(text, "<http"))
  }

  /** The cut once the "<http" is found at `start`. */
  function URLFrom(text: string, start: int): (r: Option<string>)
    requires OccursAt(text, "<http", start)
    ensures r.None? <==> '>' !in text[start..]
    ensures r.Some? ==> HasPrefix(r.value, "http") && exists e | start < e < |text| ::
      (text[e] == '>' || text[e] == '|') && '>' !in text[start..e] && '|' !in text[start..e] &&
      r.value == text[start + 1..e]
  {
    URLCut(text, start);
    if Index(text[start..], ">") > 0 then Some(text[start + 1..CutOf(text, start)]) else None
  }

  /** Where the link ends: at the first '>' after `start`, or at a '|'
      before it. */
  function CutOf(text: string, start: int): int
    requires 0 <= start <= |text| && 0 < Index(text[start..], ">")
  {
    var e := Index(text[start..], ">") + start;
    var filter := Index(text[start..e], "|");
    if filter > 0 then start + filter else e
  }

  /** A '>' follows the "<http" exactly when the search for it returns a
      positive offset, and then the cut stops at a '>' or '|' with neither
      before it and "http" right after the '<'. */
  lemma URLCut(text: string, start: int)
    requires OccursAt(text, "<http", start)
    ensures Index(text[start..], ">") > 0 <==> '>' in text[start..]
    ensures Index(text[start..], ">") > 0 ==>
      var cut := CutOf(text, start);
      start + 5 <= cut < |text| && (text[cut] == '>' || text[cut] == '|') &&
      '>' !in text[start..cut] && '|' !in text[start..cut] && HasPrefix(text[start + 1..cut], "http")
  {
    var t := text[start..];
    assert t[..5] == "<http";
    assert t[0] == '<' && t[1] == 'h' && t[2] == 't' && t[3] == 't' && t[4] == 'p';
    var end := Index(t, ">");
    IndexChar(t, '>');
    if end > 0 {
      var e := end + start;
      assert text[e] == t[end];
      assert end >= 5;
      assert t[..end] == text[start..e];
      var filter := Index(text[start..e], "|");
      IndexChar(text[start..e], '|');
      var cut := CutOf(text, start);
      assert cut == if filter > 0 then start + filter else e;
      assert filter == -1 || filter >= 5 by {
        if filter != -1 {
          assert text[start..e][filter] == t[filter];
        }
      }
      assert '|' !in text[start..cut] && '>' !in text[start..cut] by {
        if filter > 0 {
          assert text[start..cut] == text[start..e][..filter];
        }
      }
      assert text[cut] == '>' || text[cut] == '|' by {
        if filter > 0 {
          assert text[cut] == text[start..e][filter];
        }
      }
      assert text[start + 1..cut][..4] == t[1..5];
    }
  }

  // ---------------------------------------------------------------------------
  // VirusTotal colours

  /** A URL report: the response code and each scanner's verdict. */
  datatype UrlReport = UrlReport(responseCode: int, detected: seq<bool>)

  /** An IP report: the response code and the positives of each detected
      URL on that address. */
  datatype IpReport = IpReport(responseCode: int, positives: seq<int>)

  /** How many scanners flagged the URL. */
  function Detected(scans: seq<bool>): (n: nat)
    ensures n <= |scans|
  {
    if scans == [] then 0 else Detected(scans[..|scans| - 1]) + (if scans[|scans| - 1] then 1 else 0)
  }

  /** Some scanner flagged the URL exactly when the count is positive. */
  lemma {:induction false} DetectedSome(scans: seq<bool>)
    ensures Detected(scans) >= 1 <==> true in scans
    decreases |scans|
  {
    if scans != [] {
      var init := scans[..|scans| - 1];
      DetectedSome(init);
      assert scans == init + [scans[|scans| - 1]];
    }
  }

  /** The positives summed over the detected URLs. */
  function Positives(ps: seq<int>): int
  {
    if ps == [] then 0 else Positives(ps[..|ps| - 1]) + ps[|ps| - 1]
  }

  /** How alarming a colour is: good, warning, danger. */
  function Severity(color: string): (n: nat)
    ensures n <= 2
  {
    if color == "danger" then 2 else if color == "warning" then 1 else 0
  }

  /** The URL colour once the report arrived with response code 1. */
  function UrlColor(detected: nat): (color: string)
  {
    if detected >= 5 then "danger" else if detected >= 1 then "warning" else "good"
  }

  /** The IP colour once the report arrived with response code 1. */
  function IpColor(positives: int): (color: string)
  {
    if positives >= 10 then "danger" else if positives >= 5 then "warning" else "good"
  }

  /** More detections never give a milder colour, and any detection at all
      gives at least a warning. */
  lemma ColorsMonotone(a: int, b: int)
    ensures 0 <= a <= b ==> Severity(UrlColor(a)) <= Severity(UrlColor(b))
    ensures a <= b ==> Severity(IpColor(a)) <= Severity(IpColor(b))
    ensures a >= 1 ==> Severity(UrlColor(a)) >= 1
    ensures a < 5 ==> Severity(IpColor(a)) == 0
  {
  }

  /** The VirusTotal colour of handleURL: a failed lookup warns; a reply
      with another response code stays "good"; otherwise the number of
      flagging scanners decides. */
  method UrlVtColor(report: Result<UrlReport, string>) returns (color: string)
    ensures report.Err? ==> color == "warning"
    ensures report.Ok? && report.value.responseCode != 1 ==> color == "good"
    ensures report.Ok? && report.value.responseCode == 1 ==> color == UrlColor(Detected(report.value.detected))
  {
    color := "good";
    if report.Err? {
      color := "warning";
      return;
    }
    var r := report.value;
    if r.responseCode != 1 {
      return;
    }
    var detected := 0;
    var i := 0;
    while i < |r.detected|
      invariant 0 <= i <= |r.detected|
      invariant detected == Detected(r.detected[..i])
    {
      assert r.detected[..i + 1][..i] == r.detected[..i];
      if r.detected[i] {
        detected := detected + 1;
      }
      i := i + 1;
    }
    assert r.detected[..i] == r.detected;
    if detected >= 5 {
      color := "danger";
    } else if detected >= 1 {
      color := "warning";
    }
  }

  /** The VirusTotal colour of handleIP: a failed lookup or another response
      code warns; otherwise the summed positives decide. */
  method IpVtColor(report: Result<IpReport, string>) returns (color: string)
    ensures report.Err? || report.value.responseCode != 1 ==> color == "warning"
    ensures report.Ok? && report.value.responseCode == 1 ==> color == IpColor(Positives(report.value.positives))
  {
    color := "good";
    if report.Err? {
      color := "warning";
      return;
    }
    var r := report.value;
    if r.responseCode != 1 {
      color := "warning";
      return;
    }
    var detected := 0;
    var i := 0;
    while i < |r.positives|
      invariant 0 <= i <= |r.positives|
      invariant detected == Positives(r.positives[..i])
    {
      assert r.positives[..i + 1][..i] == r.positives[..i];
      detected := detected + r.positives[i];
      i := i + 1;
    }
    assert r.positives[..i] == r.positives;
    if detected >= 10 {
      color := "danger";
    } else if detected >= 5 {
      color := "warning";
    }
  }

  // ---------------------------------------------------------------------------
  // Which messages are looked at

  /** A lookup started for a message. */
  datatype Action = CheckURL | CheckIP(ip: string) | CheckMD5(md5: string)

  /** The main loop's dispatch: only "message" events that are not from a
      bot, and then a link lookup when the text holds "<http", an IP lookup
      for the first IP-like match and an MD5 lookup for the first hash-like
      match (the matches are given, "" when there is none). */
  function Actions(msg: Message, ip: string, md5: string): (r: seq<Action>)
    ensures msg.kind != "message" || msg.subtype == "bot_message" ==> r == []
    ensures msg.kind == "message" && msg.subtype != "bot_message" ==>
      (CheckURL in r <==> Contains(msg.text, "<http")) &&
      (CheckIP(ip) in r <==> ip != "") && (CheckMD5(md5) in r <==> md5 != "") && |r| <= 3
    ensures forall a | a in r :: a == CheckURL || a == CheckIP(ip) || a == CheckMD5(md5)
  {
    if msg.kind != "message" || msg.subtype == "bot_message" then []
    else
      (if Contains(msg.text, "<http") then [CheckURL] else []) +
      (if ip != "" then [CheckIP(ip)] else []) +
      (if md5 != "" then [CheckMD5(md5)] else [])
  }
}
