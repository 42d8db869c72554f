/** files.upload: the argument check and parameters of Upload, and the rule by
    which doUpload turns the parameters into multipart form fields. */
module File {
  import opened Common
  import opened Slack

  const MissingFilename := "You must specify the filename for the upload"

  /** One multipart body: the endpoint, the file part's file name, and the
      text fields written after the file part, in writing order. */
  datatype Form = Form(endpoint: string, filename: string, fields: seq<(string, string)>)

  /** The keys of a list of form fields. */
  function FieldKeys(fields: seq<(string, string)>): (r: set<string>)
    ensures forall i | 0 <= i < |fields| :: fields[i].0 in r
    ensures forall k | k in r :: exists i | 0 <= i < |fields| :: fields[i].0 == k
  {
    if fields == [] then {} else {fields[0].0} + FieldKeys(fields[1..])
  }

  /** No key is written twice. */
  predicate DistinctKeys(fields: seq<(string, string)>)
  {
    forall i, j | 0 <= i < j < |fields| :: fields[i].0 != fields[j].0
  }

  /** The fields written so far carry the first values of exactly the keys
      no longer remaining, each once. */
  ghost predicate Written(entries: map<string, seq<string>>, fields: seq<(string, string)>, remaining: set<string>)
  {
    WellFormed(entries) &&
    remaining <= entries.Keys &&
    FieldKeys(fields) == entries.Keys - remaining &&
    DistinctKeys(fields) &&
    |fields| + |remaining| == |entries.Keys| &&
    forall i | 0 <= i < |fields| :: fields[i].0 in entries && fields[i].1 == entries[fields[i].0][0]
  }

  lemma WrittenStep(entries: map<string, seq<string>>, fields: seq<(string, string)>, remaining: set<string>, k: string)
    requires Written(entries, fields, remaining) && k in remaining
    ensures Written(entries, fields + [(k, entries[k][0])], remaining - {k})
  {
    assert k !in FieldKeys(fields);
    FieldKeysSnoc(fields, (k, entries[k][0]));
  }

  /** The field-writing loop of doUpload: one field per key, carrying the
      key's first value, in the map's iteration order (any order). */
  method FormFields(entries: map<string, seq<string>>) returns (fields: seq<(string, string)>)
    requires WellFormed(entries)
    ensures FieldKeys(fields) == entries.Keys
    ensures DistinctKeys(fields)
    ensures |fields| == |entries.Keys|
    ensures forall i | 0 <= i < |fields| :: fields[i].0 in entries && fields[i].1 == entries[fields[i].0][0]
  {
    fields := [];
    var remaining := entries.Keys;
    while remaining != {}
      invariant Written(entries, fields, remaining)
      decreases remaining
    {
      var k :| k in remaining;
      WrittenStep(entries, fields, remaining, k);
      fields := fields + [(k, entries[k][0])];
      remaining := remaining - {k};
    }
  }

  lemma {:induction false} FieldKeysSnoc(fields: seq<(string, string)>, f: (string, string))
    ensures FieldKeys(fields + [f]) == FieldKeys(fields) + {f.0}
    decreases |fields|
  {
    if fields != [] {
      assert (fields + [f])[1..] == fields[1..] + [f];
      FieldKeysSnoc(fields[1..], f);
    } else {
      assert FieldKeys([f]) == {f.0} + FieldKeys([]);
    }
  }

  /** The parameters of Upload, token excluded: title, filetype, filename and
      initial_comment when non-empty, and the channels joined by "," when
      there are some. */
  function UploadParams(title: string, filetype: string, filename: string, initialComment: string, channels: seq<string>)
    : (r: map<string, seq<string>>)
    ensures WellFormed(r)
    ensures r.Keys <= {"title", "filetype", "filename", "initial_comment", "channels"}
    ensures ("title" in r <==> title != "") && (title != "" ==> r["title"] == [title])
    ensures ("filetype" in r <==> filetype != "") && (filetype != "" ==> r["filetype"] == [filetype])
    ensures ("filename" in r <==> filename != "") && (filename != "" ==> r["filename"] == [filename])
    ensures ("initial_comment" in r <==> initialComment != "") && (initialComment != "" ==> r["initial_comment"] == [initialComment])
    ensures ("channels" in r <==> channels != []) && (channels != [] ==> r["channels"] == [Join(channels, ",")])
  {
    var a := WithBothNotEmpty(map[], "title", title, "filetype", filetype);
    var d := WithBothNotEmpty(a, "filename", filename, "initial_comment", initialComment);
    WithChannels(d, channels)
  }

  /** The channels, joined with commas, when there are some. */
  function WithChannels(m: map<string, seq<string>>, channels: seq<string>): (r: map<string, seq<string>>)
    requires "channels" !in m
    ensures r.Keys <= m.Keys + {"channels"}
    ensures ("channels" in r <==> channels != []) && (channels != [] ==> r["channels"] == [Join(channels, ",")])
    ensures forall k | k in m :: k in r && r[k] == m[k]
    ensures WellFormed(m) ==> WellFormed(r)
  {
    if |channels| > 0 then m["channels" := [Join(channels, ",")]] else m
  }

  /** The error doUpload reports: a failure while streaming the body comes
      first, then the reply is judged as `do` judges it. */
  function UploadError(streamErr: Option<string>, reply: HttpReply): (r: Option<ApiError>)
    ensures streamErr.Some? ==> r == Some(Transport(streamErr.value))
    ensures streamErr.None? ==> r == ReplyError(reply)
    ensures r.None? <==> streamErr.None? && reply.Reply? && 200 <= reply.status <= 299 && reply.body.Envelope? && reply.body.ok
  {
    if streamErr.Some? then Some(Transport(streamErr.value)) else ReplyError(reply)
  }

  /** doUpload: the token is added when set, then the file part and one field
      per parameter key are written. `streamErr` is the outcome of writing the
      body. */
  method DoUpload(s: Client, path: string, filename: string, params: Values, streamErr: Option<string>, reply: HttpReply)
    returns (sent: Form, err: Option<ApiError>)
    requires params.Valid()
    modifies params
    ensures params.Valid()
    ensures params.entries == WithNotEmpty(old(params.entries), "token", s.token)
    ensures sent.endpoint == s.url + path && sent.filename == filename
    ensures FieldKeys(sent.fields) == params.entries.Keys && DistinctKeys(sent.fields)
    ensures forall i | 0 <= i < |sent.fields| :: sent.fields[i].1 == params.entries[sent.fields[i].0][0]
    ensures err == UploadError(streamErr, reply)
  {
    AppendNotEmpty("token", s.token, params);
    var fields := FormFields(params.entries);
    sent := Form(s.url + path, filename, fields);
    err := UploadError(streamErr, reply);
  }

  /** Upload: an empty file name is refused before anything is sent. */
  method Upload(s: Client, title: string, filetype: string, filename: string, initialComment: string,
                channels: seq<string>, streamErr: Option<string>, reply: HttpReply)
    returns (sent: Option<Form>, ok: bool, err: Option<ApiError>)
    ensures filename == "" ==> sent == None && !ok && err == Some(Plain(MissingFilename))
    ensures filename != "" ==>
      var p := WithNotEmpty(UploadParams(title, filetype, filename, initialComment, channels), "token", s.token);
      sent.Some? && sent.value.endpoint == s.url + "files.upload" && sent.value.filename == filename &&
      FieldKeys(sent.value.fields) == p.Keys && DistinctKeys(sent.value.fields) &&
      (forall i | 0 <= i < |sent.value.fields| :: sent.value.fields[i].1 == p[sent.value.fields[i].0][0]) &&
      err == UploadError(streamErr, reply) && (ok <==> err.None?)
  {
    if filename == "" {
      return None, false, Some(Plain(MissingFilename));
    }
    var params := new Values(map[]);
    AppendNotEmpty("title", title, params);
    AppendNotEmpty("filetype", filetype, params);
    AppendNotEmpty("filename", filename, params);
    AppendNotEmpty("initial_comment", initialComment, params);
    if |channels| > 0 {
      params.Set("channels", Join(channels, ","));
    }
    var form;
    form, err := DoUpload(s, "files.upload", filename, params, streamErr, reply);
    sent := Some(form);
    ok := err.None?;
  }
}
