/** The real-time reader: how one inbound WebSocket frame becomes the flat
    `Message` record delivered to the caller, and the loop that delivers one
    record per frame until the connection fails. Also the team roster that
    rtm.start returns, which the example programs search. */
module Rtm {
  import opened Common

  /** The error sub-record of a delivered message. */
  datatype ErrorInfo = ErrorInfo(code: int, msg: string, unmarshall: bool)

  /** The flat event record (the fields of message.go the model follows). */
  datatype Message = Message(
    kind: string,
    channel: string,
    user: string,
    text: string,
    ts: string,
    subtype: string,
    name: string,
    error: ErrorInfo,
    context: string)

  const Blank: Message := Message("", "", "", "", "", "", "", ErrorInfo(0, "", false), "")

  /** The nested channel object of a channel-like event. */
  datatype ChannelInfo = ChannelInfo(id: string, creator: string, name: string)

  /** The nested user object of a user-like event. */
  datatype UserInfo = UserInfo(id: string, name: string)

  /** One frame as the reader sees it: either the read failed, or a payload
      arrived together with the outcome of decoding it into each target
      shape (the type tag alone, a channel event, a user event, a message).
      The decoding itself is not modelled. */
  datatype Frame =
    | ReadFailed(reason: string)
    | Received(
        tag: Result<string, string>,
        asChannel: Result<ChannelInfo, string>,
        asUser: Result<UserInfo, string>,
        asMessage: Result<Message, string>)

  const ChannelTags: set<string> :=
    {"channel_created", "channel_joined", "channel_rename", "im_created", "group_joined", "group_left", "group_rename"}

  const UserTags: set<string> := {"user_change", "team_join"}

  /** A JSON error reported as a bare end of input is turned into
      "unexpected EOF". */
  function ParseFailure(reason: string): (r: string)
    ensures r != "EOF"
  {
    if reason == "EOF" then "unexpected EOF" else reason
  }

  function ErrorEvent(msg: string, unmarshall: bool, context: string): (r: Message)
    ensures r.kind == "error" && r.error == ErrorInfo(0, msg, unmarshall) && r.context == context
  {
    Blank.(kind := "error", error := ErrorInfo(0, msg, unmarshall), context := context)
  }

  /** The record delivered for one frame. */
  function Decode(f: Frame, context: string): (r: Message)
    ensures r.context == context
    ensures f.ReadFailed? ==> r == ErrorEvent(f.reason, false, context)
    ensures f.Received? && f.tag.Err? ==> r == ErrorEvent(ParseFailure(f.tag.error), true, context)
    ensures f.Received? && f.tag.Ok? && f.tag.value in ChannelTags ==>
      match f.asChannel
      case Ok(c) => r == Blank.(kind := f.tag.value, channel := c.id, user := c.creator, name := c.name, context := context)
      case Err(e) => r == ErrorEvent(ParseFailure(e), true, context)
    ensures f.Received? && f.tag.Ok? && f.tag.value in UserTags ==>
      match f.asUser
      case Ok(u) => r == Blank.(kind := f.tag.value, user := u.id, name := u.name, context := context)
      case Err(e) => r == ErrorEvent(ParseFailure(e), true, context)
    ensures f.Received? && f.tag.Ok? && f.tag.value !in ChannelTags && f.tag.value !in UserTags ==>
      match f.asMessage
      case Ok(m) => r == m.(context := context)
      case Err(e) => r == ErrorEvent(ParseFailure(e), true, context)
    ensures r.kind == "error" && r.error.unmarshall ==> f.Received?
    ensures f.ReadFailed? ==> r.kind == "error" && !r.error.unmarshall
  {
    match f
    case ReadFailed(reason) => ErrorEvent(reason, false, context)
    case Received(tag, asChannel, asUser, asMessage) =>
      match tag
      case Err(e) => ErrorEvent(ParseFailure(e), true, context)
      case Ok(t) =>
        if t in ChannelTags then
          (match asChannel
           case Ok(c) => Blank.(kind := t, channel := c.id, user := c.creator, name := c.name, context := context)
           case Err(e) => ErrorEvent(ParseFailure(e), true, context))
        else if t in UserTags then
          (match asUser
           case Ok(u) => Blank.(kind := t, user := u.id, name := u.name, context := context)
           case Err(e) => ErrorEvent(ParseFailure(e), true, context))
        else
          (match asMessage
           case Ok(m) => m.(context := context)
           case Err(e) => ErrorEvent(ParseFailure(e), true, context))
  }

  /** The reader goroutine over the frames it reads, in order: one record per
      frame; a parse failure is delivered and reading goes on; a read failure
      is delivered and ends the loop. */
  method ReadLoop(frames: seq<Frame>, context: string) returns (delivered: seq<Message>)
    ensures |delivered| <= |frames|
    ensures forall i | 0 <= i < |delivered| :: delivered[i] == Decode(frames[i], context)
    ensures forall i | 0 <= i < |delivered| - 1 :: !frames[i].ReadFailed?
    ensures |delivered| == |frames| || (|delivered| > 0 && frames[|delivered| - 1].ReadFailed?)
    ensures forall i | 0 <= i < |delivered| :: delivered[i].context == context
  {
    delivered := [];
    var i := 0;
    while i < |frames|
      invariant 0 <= i <= |frames| && |delivered| == i
      invariant forall k | 0 <= k < i :: delivered[k] == Decode(frames[k], context)
      invariant forall k | 0 <= k < i :: !frames[k].ReadFailed?
    {
      var msg := Decode(frames[i], context);
      delivered := delivered + [msg];
      if frames[i].ReadFailed? {
        return;
      }
      i := i + 1;
    }
  }

  // ---------------------------------------------------------------------------
  // The team roster returned by rtm.start

  /** A channel, group or user: an id and a name. */
  datatype Named = Named(id: string, name: string)

  /** A direct-message channel: its id, its name and the partner's user id. */
  datatype IM = IM(id: string, name: string, user: string)

  datatype StartReply = StartReply(
    selfID: string,
    channels: seq<Named>,
    groups: seq<Named>,
    ims: seq<IM>,
    users: seq<Named>)

  /** The position of the first entry from `k` on whose id is `id`, or -1:
      the search by id over a roster list that the terminal client, the web
      viewer and the archiver each write out, shared here because all three
      search the roster lists this module decodes. */
  function IndexByID(xs: seq<Named>, id: string, k: nat): (i: int)
    requires k <= |xs|
    decreases |xs| - k
    ensures i == -1 || (k <= i < |xs| && xs[i].id == id && forall j | k <= j < i :: xs[j].id != id)
    ensures i == -1 ==> forall j | k <= j < |xs| :: xs[j].id != id
  {
    if k == |xs| then -1 else if xs[k].id == id then k else IndexByID(xs, id, k + 1)
  }
}
