/** The web viewer: it follows the team's real-time events, keeps the most
    recent messages of the channels it is interested in, pushes each new one
    to the connected browsers, and answers the colour and invitation
    requests. */
module Frame {
  import opened Common
  import opened Rtm
  import opened Ws
  import opened Mentions

  /** lastMessagesSize: the capacity of the recent-messages buffer. */
  const LastMessagesSize: nat := 1000

  /** translateUser and translateChannel: the name of the first roster entry
      with this id, or the id itself when there is none. */
  function TranslateName(xs: seq<Named>, id: string): (r: string)
    ensures (forall j | 0 <= j < |xs| :: xs[j].id != id) ==> r == id
    ensures (exists j | 0 <= j < |xs| :: xs[j].id == id) ==>
      exists i | 0 <= i < |xs| :: xs[i].id == id && r == xs[i].name && forall j | 0 <= j < i :: xs[j].id != id
  {
    var i := IndexByID(xs, id, 0);
    if i == -1 then id else xs[i].name
  }

  /** A roster as the name lookup translateMessage uses. */
  function Namer(xs: seq<Named>): string -> string
  {
    id => TranslateName(xs, id)
  }

  /** A later entry for an id already on the roster changes no name. */
  lemma TranslateNameAppend(xs: seq<Named>, e: Named, id: string)
    requires e.id == id ==> exists j | 0 <= j < |xs| :: xs[j].id == e.id
    ensures TranslateName(xs + [e], id) == TranslateName(xs, id)
  {
    var i := IndexByID(xs, id, 0);
    if i == -1 {
      assert forall j | 0 <= j < |xs| :: (xs + [e])[j] == xs[j];
    } else {
      assert forall j | 0 <= j <= i :: (xs + [e])[j] == xs[j];
    }
  }

  /** translateMessage: the mentions in the text rewritten, the author's
      name looked up, the given channel name and time attached. */
  method TranslateMessage(users: seq<Named>, channels: seq<Named>, msg: Message, ch: string, ts: int)
    returns (w: WsMessage)
    requires exists n :: Run(msg.text, Namer(users), Namer(channels), n).Some?
    ensures w.user == TranslateName(users, msg.user) && w.channel == ch && w.ts == ts
    ensures w.text == Finished(msg.text, Namer(users), Namer(channels))
    ensures MentionAt(w.text).None?
  {
    var text := Translate(msg.text, Namer(users), Namer(channels));
    w := WsMessage(TranslateName(users, msg.user), ch, text, ts);
  }

  // ---------------------------------------------------------------------------
  // Colours

  /** One item of the colour option: "field:colour" with exactly one ':',
      both sides lower-cased and trimmed, neither empty. An item with one
      ':' gives an entry exactly when both sides hold something other than
      white space, and the entry is each side lower-cased with the white
      space at its ends cut off. */
  function ColorEntry(item: string): (r: Option<(string, string)>)
    ensures |Split(item, ':')| != 2 ==> r.None?
    ensures |Split(item, ':')| == 2 ==>
      (r.Some? <==> !AllSpace(Split(item, ':')[0]) && !AllSpace(Split(item, ':')[1]))
    ensures r.Some? ==>
      TrimsTo(ToLower(Split(item, ':')[0]), r.value.0) && TrimsTo(ToLower(Split(item, ':')[1]), r.value.1)
    ensures r.Some? ==> r.value.0 != "" && r.value.1 != "" && !IsSpace(r.value.0[0]) && !IsSpace(r.value.1[0])
    ensures r.Some? ==> Normalized(r.value.0) && Normalized(r.value.1)
  {
    var param := Split(item, ':');
    if |param| == 2 then
      var field := TrimSpace(ToLower(param[0]));
      var color := TrimSpace(ToLower(param[1]));
      LowerTrimmed(param[0]);
      LowerTrimmed(param[1]);
      TrimSpaceTrims(ToLower(param[0]));
      TrimSpaceTrims(ToLower(param[1]));
      TrimSpaceEmpty(ToLower(param[0]));
      TrimSpaceEmpty(ToLower(param[1]));
      LowerAllSpace(param[0]);
      LowerAllSpace(param[1]);
      if color != "" && field != "" then Some((field, color)) else None
    else None
  }

  /** Already lower-cased and trimmed: both steps leave the text as it is. */
  predicate Normalized(s: string)
  {
    ToLower(s) == s && TrimSpace(s) == s
  }

  /** Trimming a lower-cased text gives a normalized one. */
  lemma LowerTrimmed(s: string)
    ensures Normalized(TrimSpace(ToLower(s)))
  {
    var t := TrimSpace(ToLower(s));
    forall i | 0 <= i < |t| ensures LowerChar(t[i]) == t[i] {
      assert t[i] in ToLower(s);
    }
  }

  /** The colour map the items build, later items overwriting earlier ones.
      Every field and every colour in it is non-empty and trimmed at the
      front. */
  function ColorMap(items: seq<string>): (r: map<string, string>)
    ensures forall field | field in r :: field != "" && r[field] != "" && !IsSpace(field[0]) && !IsSpace(r[field][0])
  {
    var r := Overwrite(items, ColorEntry);
    assert forall field | field in r :: field != "" && r[field] != "" && !IsSpace(field[0]) && !IsSpace(r[field][0]) by {
      forall field | field in r
        ensures field != "" && r[field] != "" && !IsSpace(field[0]) && !IsSpace(r[field][0])
      {
        OverwriteLast(items, ColorEntry, field);
      }
    }
    r
  }

  /** The map that a list of items builds when each item may set one key,
      later items overwriting earlier ones. */
  function Overwrite(items: seq<string>, entry: string -> Option<(string, string)>): map<string, string>
  {
    if items == [] then map[]
    else
      var m := Overwrite(items[..|items| - 1], entry);
      match entry(items[|items| - 1])
      case Some((field, color)) => m[field := color]
      case None => m
  }

  /** A key is set exactly when some item sets it, to the value the last such
      item gives. */
  lemma OverwriteLastWins(items: seq<string>, entry: string -> Option<(string, string)>, field: string)
    ensures field in Overwrite(items, entry) <==>
      exists i | 0 <= i < |items| :: entry(items[i]).Some? && entry(items[i]).value.0 == field
    ensures field in Overwrite(items, entry) ==>
      exists i | 0 <= i < |items| :: entry(items[i]) == Some((field, Overwrite(items, entry)[field])) &&
        forall j | i < j < |items| :: entry(items[j]).None? || entry(items[j]).value.0 != field
  {
    OverwriteSets(items, entry, field);
    if field in Overwrite(items, entry) {
      OverwriteLast(items, entry, field);
    }
  }

  /** A key is set exactly when some item sets it. */
  lemma {:induction false} OverwriteSets(items: seq<string>, entry: string -> Option<(string, string)>, field: string)
    ensures field in Overwrite(items, entry) <==>
      exists i | 0 <= i < |items| :: entry(items[i]).Some? && entry(items[i]).value.0 == field
    decreases |items|
  {
    if items != [] {
      var init := items[..|items| - 1];
      OverwriteSets(init, entry, field);
      OverwriteSnoc(items, entry, field);
      assert forall i | 0 <= i < |init| :: items[i] == init[i];
    }
  }

  /** Item i sets `field` to `v`, and no later item sets `field`. */
  predicate LastSetter(items: seq<string>, entry: string -> Option<(string, string)>, field: string, i: nat, v: string)
  {
    i < |items| && entry(items[i]) == Some((field, v)) &&
    forall j | i < j < |items| :: entry(items[j]).None? || entry(items[j]).value.0 != field
  }

  /** A set key holds the value of the last item that sets it. */
  lemma {:induction false} OverwriteLast(items: seq<string>, entry: string -> Option<(string, string)>, field: string)
    requires field in Overwrite(items, entry)
    ensures exists i | 0 <= i < |items| :: LastSetter(items, entry, field, i, Overwrite(items, entry)[field])
    decreases |items|
  {
    var init := items[..|items| - 1];
    OverwriteSnoc(items, entry, field);
    var e := entry(items[|items| - 1]);
    if e.Some? && e.value.0 == field {
      assert LastSetter(items, entry, field, |items| - 1, Overwrite(items, entry)[field]);
    } else {
      OverwriteLast(init, entry, field);
      var i :| 0 <= i < |init| && LastSetter(init, entry, field, i, Overwrite(init, entry)[field]);
      LastSetterSnoc(items, entry, field, i, Overwrite(init, entry)[field]);
    }
  }

  /** An item that does not set `field` keeps the last setter of it. */
  lemma LastSetterSnoc(items: seq<string>, entry: string -> Option<(string, string)>, field: string, i: nat, v: string)
    requires items != [] && LastSetter(items[..|items| - 1], entry, field, i, v)
    requires entry(items[|items| - 1]).None? || entry(items[|items| - 1]).value.0 != field
    ensures LastSetter(items, entry, field, i, v)
  {
    assert forall j | 0 <= j < |items| - 1 :: items[..|items| - 1][j] == items[j];
  }

  /** The last item decides the key it sets; any other key keeps what the
      earlier items gave it. */
  lemma OverwriteSnoc(items: seq<string>, entry: string -> Option<(string, string)>, field: string)
    requires items != []
    ensures var e := entry(items[|items| - 1]);
      var before := Overwrite(items[..|items| - 1], entry);
      if e.Some? && e.value.0 == field then field in Overwrite(items, entry) && Overwrite(items, entry)[field] == e.value.1
      else ((field in Overwrite(items, entry) <==> field in before) &&
        (field in before ==> Overwrite(items, entry)[field] == before[field]))
  {
  }

  /** A field has a colour exactly when some item sets it, and the colour is
      the one the last such item gives. */
  lemma ColorMapLastWins(items: seq<string>, field: string)
    ensures field in ColorMap(items) <==>
      exists i | 0 <= i < |items| :: ColorEntry(items[i]).Some? && ColorEntry(items[i]).value.0 == field
    ensures field in ColorMap(items) ==>
      exists i | 0 <= i < |items| :: ColorEntry(items[i]) == Some((field, ColorMap(items)[field])) &&
        forall j | i < j < |items| :: ColorEntry(items[j]).None? || ColorEntry(items[j]).value.0 != field
  {
    OverwriteLastWins(items, ColorEntry, field);
  }

  /** handleState: the colour map of the comma-separated option. */
  method HandleState(colors: string) returns (colObj: map<string, string>)
    ensures colObj == ColorMap(Split(colors, ','))
  {
    var params := Split(colors, ',');
    colObj := map[];
    var i := 0;
    while i < |params|
      invariant 0 <= i <= |params|
      invariant colObj == Overwrite(params[..i], ColorEntry)
    {
      assert params[..i + 1][..i] == params[..i];
      var param := Split(params[i], ':');
      if |param| == 2 {
        var field := TrimSpace(ToLower(param[0]));
        var color := TrimSpace(ToLower(param[1]));
        if color != "" && field != "" {
          colObj := colObj[field := color];
        }
      }
      i := i + 1;
    }
    assert params[..i] == params;
  }

  // ---------------------------------------------------------------------------
  // Invitations

  /** The invitation request handed to the team admin call. */
  datatype Invite = Invite(email: string, first: string, last: string, channels: seq<string>)

  const StatusOK: int := 200
  const StatusBadRequest: int := 400
  const StatusInternalServerError: int := 500

  /** Every listed id belongs to one of the first `n` channels, whose name
      is configured. */
  ghost predicate Chosen(channels: seq<Named>, configured: seq<string>, n: nat, invCh: seq<string>)
    requires n <= |channels|
  {
    forall id | id in invCh :: exists k | 0 <= k < n :: channels[k].id == id && AnyFold(configured, channels[k].name)
  }

  lemma ChosenAdd(channels: seq<Named>, configured: seq<string>, i: nat, invCh: seq<string>, j: nat)
    requires i < |channels| && j < |configured| && Chosen(channels, configured, i + 1, invCh)
    requires EqualFold(channels[i].name, configured[j]) && channels[i].id !in invCh
    ensures Chosen(channels, configured, i + 1, invCh + [channels[i].id])
    ensures NoDup(invCh) ==> NoDup(invCh + [channels[i].id])
  {
    assert configured[j] in configured;
  }

  lemma ChosenWiden(channels: seq<Named>, configured: seq<string>, i: nat, invCh: seq<string>)
    requires i < |channels| && Chosen(channels, configured, i, invCh)
    ensures Chosen(channels, configured, i + 1, invCh)
  {
  }

  /** The channels an invitee joins: ids of the channels whose name equals a
      configured name up to case, each once. */
  method InviteChannels(channels: seq<Named>, configured: seq<string>) returns (invCh: seq<string>)
    ensures NoDup(invCh)
    ensures forall id | id in invCh :: exists i | 0 <= i < |channels| :: channels[i].id == id && AnyFold(configured, channels[i].name)
    ensures forall i | 0 <= i < |channels| && AnyFold(configured, channels[i].name) :: channels[i].id in invCh
  {
    invCh := [];
    var i := 0;
    while i < |channels|
      invariant 0 <= i <= |channels|
      invariant NoDup(invCh) && Chosen(channels, configured, i, invCh)
      invariant forall k | 0 <= k < i && AnyFold(configured, channels[k].name) :: channels[k].id in invCh
    {
      ChosenWiden(channels, configured, i, invCh);
      var j := 0;
      while j < |configured|
        invariant 0 <= j <= |configured|
        invariant NoDup(invCh) && Chosen(channels, configured, i + 1, invCh)
        invariant forall k | 0 <= k < i && AnyFold(configured, channels[k].name) :: channels[k].id in invCh
        invariant AnyFold(configured[..j], channels[i].name) ==> channels[i].id in invCh
      {
        assert configured[..j + 1] == configured[..j] + [configured[j]];
        if EqualFold(channels[i].name, configured[j]) && channels[i].id !in invCh {
          ChosenAdd(channels, configured, i, invCh, j);
          invCh := invCh + [channels[i].id];
        }
        j := j + 1;
      }
      assert configured[..j] == configured;
      i := i + 1;
    }
  }

  /** handleInvite: the three form values are checked first, then the
      secret header; then the invitation is sent (`outcome` is the error text
      the call reports, if any), and an invitee already in the team or
      already invited counts as a success. */
  method HandleInvite(first: string, last: string, email: string, header: string, secret: string,
                      channels: seq<Named>, inviteChannels: string, outcome: Option<string>)
    returns (status: int, reply: string, call: Option<Invite>)
    ensures first == "" || last == "" || email == "" ==>
      status == StatusBadRequest && reply == "Missing parameters" && call == None
    ensures first != "" && last != "" && email != "" && header != secret ==>
      status == StatusBadRequest && reply == "Missing secret" && call == None
    ensures first != "" && last != "" && email != "" && header == secret ==>
      call.Some? && call.value.email == email && call.value.first == first && call.value.last == last &&
      (forall id | id in call.value.channels ::
        exists i | 0 <= i < |channels| :: channels[i].id == id && AnyFold(Split(inviteChannels, ','), channels[i].name)) &&
      (forall i | 0 <= i < |channels| && AnyFold(Split(inviteChannels, ','), channels[i].name) :: channels[i].id in call.value.channels)
    ensures first != "" && last != "" && email != "" && header == secret ==>
      if outcome.None? || outcome.value == "already_in_team" || outcome.value == "already_invited"
      then status == StatusOK && reply == "OK"
      else status == StatusInternalServerError && reply == outcome.value
  {
    if first == "" || last == "" || email == "" {
      return StatusBadRequest, "Missing parameters", None;
    }
    if header != secret {
      return StatusBadRequest, "Missing secret", None;
    }
    var invCh := InviteChannels(channels, Split(inviteChannels, ','));
    call := Some(Invite(email, first, last, invCh));
    if outcome.None? || outcome.value == "already_in_team" || outcome.value == "already_invited" {
      status, reply := StatusOK, "OK";
    } else {
      status, reply := StatusInternalServerError, outcome.value;
    }
  }

  // ---------------------------------------------------------------------------
  // The event loop

  /** The viewer's state: the team roster it names things by, the recent
      messages, the messages handed to the WebSocket side, and how many times
      it reconnected. `filter` is the channel option. */
  class Viewer {
    var users: seq<Named>
    var channels: seq<Named>
    var lastMessages: seq<WsMessage>
    var outbox: seq<WsMessage>
    var restarts: nat
    const filter: string

    /** The buffer is within its capacity. The history loader, which is not
        part of this model, may leave it above; the first buffered live
        message brings it back within, and no event takes it out again. */
    ghost predicate Valid()
      reads this
    {
      |lastMessages| <= LastMessagesSize
    }

    constructor(info: StartReply, filter: string)
      ensures Valid()
      ensures users == info.users && channels == info.channels && this.filter == filter
      ensures lastMessages == [] && outbox == [] && restarts == 0
    {
      users := info.users;
      channels := info.channels;
      lastMessages := [];
      outbox := [];
      restarts := 0;
      this.filter := filter;
    }

    /** The buffer update: append below capacity; at capacity (or above it,
        as the history loader may leave it) the copy into a zero-length slice
        copies nothing, so only the new message is left. */
    method Remember(w: WsMessage)
      modifies this`lastMessages
      ensures Valid()
      ensures |old(lastMessages)| < LastMessagesSize ==> lastMessages == old(lastMessages) + [w]
      ensures |old(lastMessages)| >= LastMessagesSize ==> lastMessages == [w]
    {
      if |lastMessages| < LastMessagesSize {
        lastMessages := lastMessages + [w];
      } else {
        var newLastMessages: seq<WsMessage> := [];
        lastMessages := newLastMessages + [w];
      }
    }

    /** One event of receiveMessages. The event must be present: a closed
        inbound channel yields nil, which the error branch dereferences. A
        connection error other than a parse failure reconnects, which ends
        only once an attempt succeeds; the mentions of a message whose channel
        passes the filter must be rewritable to the end. `ts` is the message's
        time as formatTime gives it. */
    method Receive(msg: Option<Message>, ts: int, attempts: seq<Option<StartReply>>)
      requires msg.Some?
      requires msg.value.kind == "error" && !msg.value.error.unmarshall ==>
        exists j | 0 <= j < |attempts| :: attempts[j].Some?
      requires msg.value.kind == "message" && InterestedIn(filter, TranslateName(channels, msg.value.channel)) ==>
        exists n :: Run(msg.value.text, Namer(users), Namer(channels), n).Some?
      modifies this`users, this`channels, this`lastMessages, this`outbox, this`restarts
      ensures old(Valid()) ==> Valid()
      ensures var m := msg.value;
        m.kind == "error" && m.error.unmarshall ==>
          users == old(users) && channels == old(channels) && lastMessages == old(lastMessages) &&
          outbox == old(outbox) && restarts == old(restarts)
      ensures var m := msg.value;
        m.kind == "error" && !m.error.unmarshall ==>
          var info := attempts[FirstStart(attempts)].value;
          users == info.users && channels == info.channels && restarts == old(restarts) + 1 &&
          lastMessages == old(lastMessages) && outbox == old(outbox)
      ensures var m := msg.value;
        m.kind == "message" ==>
          users == old(users) && channels == old(channels) && restarts == old(restarts)
      ensures var m := msg.value;
        m.kind == "message" && !InterestedIn(filter, TranslateName(old(channels), m.channel)) ==>
          outbox == old(outbox) && lastMessages == old(lastMessages)
      ensures var m := msg.value;
        m.kind == "message" && InterestedIn(filter, TranslateName(old(channels), m.channel)) ==>
          var w := WsMessage(TranslateName(old(users), m.user), TranslateName(old(channels), m.channel),
                             Finished(m.text, Namer(old(users)), Namer(old(channels))), ts);
          if w.text != "" then
            outbox == old(outbox) + [w] &&
            lastMessages == (if |old(lastMessages)| < LastMessagesSize then old(lastMessages) + [w] else [w])
          else
            outbox == old(outbox) && lastMessages == old(lastMessages)
      ensures var m := msg.value;
        m.kind == "channel_created" ==>
          channels == old(channels) + [Named(m.channel, m.name)] && users == old(users) &&
          lastMessages == old(lastMessages) && outbox == old(outbox) && restarts == old(restarts)
      ensures var m := msg.value;
        m.kind == "team_join" ==>
          users == old(users) + [Named(m.user, m.name)] && channels == old(channels) &&
          lastMessages == old(lastMessages) && outbox == old(outbox) && restarts == old(restarts)
      ensures var m := msg.value;
        m.kind !in {"error", "message", "channel_created", "team_join"} ==>
          users == old(users) && channels == old(channels) && lastMessages == old(lastMessages) &&
          outbox == old(outbox) && restarts == old(restarts)
    {
      var m := msg.value;
      if m.kind == "error" {
        if m.error.unmarshall {
          return;
        }
        var info, tries := Reconnect(attempts);
        users := info.users;
        channels := info.channels;
        restarts := restarts + 1;
        return;
      }
      if m.kind == "message" {
        var ch := TranslateName(channels, m.channel);
        if InterestedIn(filter, ch) {
          var w := TranslateMessage(users, channels, m, ch, ts);
          if w.text != "" {
            Remember(w);
            outbox := outbox + [w];
          }
        }
      } else if m.kind == "channel_created" {
        channels := channels + [Named(m.channel, m.name)];
      } else if m.kind == "team_join" {
        users := users + [Named(m.user, m.name)];
      }
    }
  }
}
