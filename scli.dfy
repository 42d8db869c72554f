/** The main file of the terminal client: its own naming of a conversation,
    its own channel switch, and the read-marker loop that remembers the last
    message seen per channel and marks it read on every tick. */
module Scli {
  import opened Common
  import opened Rtm
  import Commands

  /** The position of the first direct-message channel from `k` on whose own
      name equals `name` up to case, or -1. */
  function IMIndexByName(ims: seq<IM>, name: string, k: nat): (i: int)
    requires k <= |ims|
    decreases |ims| - k
    ensures i == -1 || (k <= i < |ims| && EqualFold(ims[i].name, name) && forall j | k <= j < i :: !EqualFold(ims[j].name, name))
    ensures i == -1 ==> forall j | k <= j < |ims| :: !EqualFold(ims[j].name, name)
  {
    if k == |ims| then -1 else if EqualFold(ims[k].name, name) then k else IMIndexByName(ims, name, k + 1)
  }

  /** channelName of the main file: like the command file's, except that a
      'D' id is named by the direct-message channel's own name. */
  function ChannelName(info: StartReply, ch: string): (r: string)
    ensures ch == "" || (ch[0] != 'C' && ch[0] != 'G' && ch[0] != 'D') ==> r == ""
    ensures ch != "" && ch[0] == 'C' ==> r == (match Commands.FindNamed(info.channels, ch) case Some(c) => c.name case None => "")
    ensures ch != "" && ch[0] == 'G' ==> r == (match Commands.FindNamed(info.groups, ch) case Some(g) => g.name case None => "")
    ensures ch != "" && ch[0] == 'D' ==> r == (match Commands.FindIM(info.ims, ch) case Some(m) => m.name case None => "")
  {
    if ch == "" then ""
    else if ch[0] == 'C' then (match Commands.FindNamed(info.channels, ch) case Some(c) => c.name case None => "")
    else if ch[0] == 'G' then (match Commands.FindNamed(info.groups, ch) case Some(g) => g.name case None => "")
    else if ch[0] == 'D' then (match Commands.FindIM(info.ims, ch) case Some(m) => m.name case None => "")
    else ""
  }

  /** Where a switch by name lands: the first channel, then group, then
      direct-message channel whose own name matches up to case. */
  function SwitchTarget(info: StartReply, ch: string): (r: Option<string>)
    ensures Commands.IndexByName(info.channels, ch, 0) != -1 ==> r == Some(info.channels[Commands.IndexByName(info.channels, ch, 0)].id)
    ensures Commands.IndexByName(info.channels, ch, 0) == -1 && Commands.IndexByName(info.groups, ch, 0) != -1 ==>
      r == Some(info.groups[Commands.IndexByName(info.groups, ch, 0)].id)
    ensures Commands.IndexByName(info.channels, ch, 0) == -1 && Commands.IndexByName(info.groups, ch, 0) == -1 ==>
      r == (if IMIndexByName(info.ims, ch, 0) == -1 then None else Some(info.ims[IMIndexByName(info.ims, ch, 0)].id))
  {
    var c := Commands.IndexByName(info.channels, ch, 0);
    if c != -1 then Some(info.channels[c].id)
    else
      var g := Commands.IndexByName(info.groups, ch, 0);
      if g != -1 then Some(info.groups[g].id)
      else
        var d := IMIndexByName(info.ims, ch, 0);
        if d != -1 then Some(info.ims[d].id) else None
  }

  /** A switch fails exactly when no channel, group or direct-message channel
      carries the name, up to case. */
  lemma SwitchTargetNone(info: StartReply, ch: string)
    ensures SwitchTarget(info, ch).None? <==>
      (forall j | 0 <= j < |info.channels| :: !EqualFold(info.channels[j].name, ch)) &&
      (forall j | 0 <= j < |info.groups| :: !EqualFold(info.groups[j].name, ch)) &&
      (forall j | 0 <= j < |info.ims| :: !EqualFold(info.ims[j].name, ch))
  {
  }

  /** The first match of a name at `i` is the one the search returns. */
  lemma IndexByNameAt(xs: seq<Named>, name: string, i: nat)
    requires i < |xs| && EqualFold(xs[i].name, name)
    requires forall j | 0 <= j < i :: !EqualFold(xs[j].name, name)
    ensures Commands.IndexByName(xs, name, 0) == i
  {
  }

  lemma IMIndexByNameAt(ims: seq<IM>, name: string, i: nat)
    requires i < |ims| && EqualFold(ims[i].name, name)
    requires forall j | 0 <= j < i :: !EqualFold(ims[j].name, name)
    ensures IMIndexByName(ims, name, 0) == i
  {
  }

  /** switchChannel of the main file: three searches by name, in order; the
      first match becomes the current conversation. */
  method SwitchChannel(s: Commands.Session, ch: string) returns (ok: bool)
    modifies s
    ensures ok <==> SwitchTarget(s.info, ch).Some?
    ensures s.currChannelID == if ok then SwitchTarget(s.info, ch).value else old(s.currChannelID)
  {
    var info := s.info;
    var i := 0;
    while i < |info.channels|
      invariant 0 <= i <= |info.channels|
      invariant forall j | 0 <= j < i :: !EqualFold(info.channels[j].name, ch)
    {
      if ToLower(info.channels[i].name) == ToLower(ch) {
        IndexByNameAt(info.channels, ch, i);
        s.currChannelID := info.channels[i].id;
        return true;
      }
      i := i + 1;
    }
    i := 0;
    while i < |info.groups|
      invariant 0 <= i <= |info.groups|
      invariant forall j | 0 <= j < i :: !EqualFold(info.groups[j].name, ch)
    {
      if ToLower(info.groups[i].name) == ToLower(ch) {
        IndexByNameAt(info.groups, ch, i);
        s.currChannelID := info.groups[i].id;
        return true;
      }
      i := i + 1;
    }
    i := 0;
    while i < |info.ims|
      invariant 0 <= i <= |info.ims|
      invariant forall j | 0 <= j < i :: !EqualFold(info.ims[j].name, ch)
    {
      if ToLower(info.ims[i].name) == ToLower(ch) {
        IMIndexByNameAt(info.ims, ch, i);
        s.currChannelID := info.ims[i].id;
        return true;
      }
      i := i + 1;
    }
    return false;
  }

  // ---------------------------------------------------------------------------
  // The read-marker loop

  /** What the loop waits for: the ticker, or an inbound message. */
  datatype Event = Tick | Inbound(msg: Message)

  /** A message from someone else moves the read marker of its channel. */
  predicate Moves(selfID: string, e: Event)
  {
    e.Inbound? && e.msg.kind == "message" && e.msg.user != selfID
  }

  /** The pending map after a run of events, starting from `start`. */
  function Pending(selfID: string, start: map<string, string>, events: seq<Event>): (m: map<string, string>)
    ensures start.Keys <= m.Keys
  {
    if events == [] then start
    else
      var p := Pending(selfID, start, events[..|events| - 1]);
      var e := events[|events| - 1];
      if Moves(selfID, e) then p[e.msg.channel := e.msg.ts] else p
  }

  /** The map is never cleared: a channel once pending stays pending. */
  lemma {:induction false} PendingGrows(selfID: string, start: map<string, string>, events: seq<Event>, i: nat)
    requires i <= |events|
    ensures Pending(selfID, start, events[..i]).Keys <= Pending(selfID, start, events).Keys
    decreases |events|
  {
    if i < |events| {
      assert events[..|events| - 1][..i] == events[..i];
      PendingGrows(selfID, start, events[..|events| - 1], i);
    } else {
      assert events[..i] == events;
    }
  }

  /** Last write wins: a channel's pending timestamp is the one of the last
      moving message to that channel. */
  lemma {:induction false} PendingLastWrite(selfID: string, start: map<string, string>, events: seq<Event>, i: nat)
    requires i < |events| && Moves(selfID, events[i])
    requires forall j | i < j < |events| :: Moves(selfID, events[j]) ==> events[j].msg.channel != events[i].msg.channel
    ensures var ch := events[i].msg.channel;
      ch in Pending(selfID, start, events) && Pending(selfID, start, events)[ch] == events[i].msg.ts
    decreases |events|
  {
    if i < |events| - 1 {
      var init := events[..|events| - 1];
      assert init[i] == events[i];
      PendingLastWrite(selfID, start, init, i);
    }
  }

  /** Only moving messages change the map: a channel no such message names
      keeps its starting entry, or stays absent. */
  lemma {:induction false} PendingUntouched(selfID: string, start: map<string, string>, events: seq<Event>, ch: string)
    requires forall j | 0 <= j < |events| :: Moves(selfID, events[j]) ==> events[j].msg.channel != ch
    ensures (ch in Pending(selfID, start, events) <==> ch in start)
    ensures ch in start ==> Pending(selfID, start, events)[ch] == start[ch]
    decreases |events|
  {
    if events != [] {
      PendingUntouched(selfID, start, events[..|events| - 1], ch);
    }
  }

  /** The marks sent so far cover exactly the keys no longer remaining, each
      once, with the pending timestamp. */
  ghost predicate Marked(latest: map<string, string>, marks: seq<(string, string)>, remaining: set<string>)
  {
    remaining <= latest.Keys &&
    (forall i | 0 <= i < |marks| :: marks[i].0 in latest && marks[i].0 !in remaining && marks[i].1 == latest[marks[i].0]) &&
    (forall k | k in latest && k !in remaining :: exists i | 0 <= i < |marks| :: marks[i].0 == k) &&
    (forall i, j | 0 <= i < j < |marks| :: marks[i].0 != marks[j].0)
  }

  /** One more event extends the pending map by that event alone. */
  lemma PendingSnoc(selfID: string, start: map<string, string>, events: seq<Event>, i: nat)
    requires i < |events|
    ensures Pending(selfID, start, events[..i + 1]) ==
      var p := Pending(selfID, start, events[..i]);
      if Moves(selfID, events[i]) then p[events[i].msg.channel := events[i].msg.ts] else p
  {
    assert events[..i + 1][..i] == events[..i];
  }

  /** The marks of each tick so far cover the channels pending at that tick;
      a message marks nothing. */
  ghost predicate TicksFor(selfID: string, start: map<string, string>, events: seq<Event>, ticks: seq<seq<(string, string)>>)
    requires |ticks| <= |events|
  {
    forall t | 0 <= t < |ticks| ::
      (events[t].Tick? ==> MarksPending(Pending(selfID, start, events[..t]), ticks[t])) &&
      (events[t].Inbound? ==> ticks[t] == [])
  }

  lemma TicksForSnoc(selfID: string, start: map<string, string>, events: seq<Event>,
                     ticks: seq<seq<(string, string)>>, marks: seq<(string, string)>)
    requires |ticks| < |events| && TicksFor(selfID, start, events, ticks)
    requires events[|ticks|].Tick? ==> MarksPending(Pending(selfID, start, events[..|ticks|]), marks)
    requires events[|ticks|].Inbound? ==> marks == []
    ensures TicksFor(selfID, start, events, ticks + [marks])
  {
    var n := ticks + [marks];
    assert forall t | 0 <= t < |ticks| :: n[t] == ticks[t];
  }

  /** Each mark names a pending channel with its pending timestamp, and
      every pending channel is marked. */
  ghost predicate MarksPending(pending: map<string, string>, marks: seq<(string, string)>)
  {
    (forall i | 0 <= i < |marks| :: marks[i].0 in pending && marks[i].1 == pending[marks[i].0]) &&
    (forall c | c in pending :: exists i | 0 <= i < |marks| :: marks[i].0 == c)
  }

  lemma MarkedStep(latest: map<string, string>, marks: seq<(string, string)>, remaining: set<string>, k: string)
    requires Marked(latest, marks, remaining) && k in remaining
    ensures Marked(latest, marks + [(k, latest[k])], remaining - {k})
  {
    var next := marks + [(k, latest[k])];
    forall c | c in latest && c !in remaining - {k}
      ensures exists i | 0 <= i < |next| :: next[i].0 == c
    {
      if c == k {
        assert next[|marks|].0 == c;
      } else {
        var i :| 0 <= i < |marks| && marks[i].0 == c;
        assert next[i].0 == c;
      }
    }
  }

  /** The state of receiveMessages: the roster (for naming channels), the
      pending read markers, and the lines injected into the prompt. */
  class ReadMarker {
    const info: StartReply
    var latest: map<string, string>
    var injected: seq<string>

    constructor (info: StartReply)
      ensures this.info == info && latest == map[] && injected == []
    {
      this.info := info;
      latest := map[];
      injected := [];
    }

    /** An inbound message: a message from someone else is shown and becomes
      its channel's pending marker; anything else is ignored. */
    method OnMessage(msg: Message)
      modifies this
      ensures Moves(info.selfID, Inbound(msg)) ==>
        latest == old(latest)[msg.channel := msg.ts] &&
        injected == old(injected) + [ChannelName(info, msg.channel) + ": " + msg.text]
      ensures !Moves(info.selfID, Inbound(msg)) ==> latest == old(latest) && injected == old(injected)
    {
      if msg.kind == "message" && msg.user != info.selfID {
        injected := injected + [ChannelName(info, msg.channel) + ": " + msg.text];
        latest := latest[msg.channel := msg.ts];
      }
    }

    /** A tick: one mark per pending channel with its stored timestamp, in
      the map's iteration order (any order); the map is kept as it is. */
    method OnTick() returns (marks: seq<(string, string)>)
      ensures MarksPending(latest, marks)
      ensures forall i, j | 0 <= i < j < |marks| :: marks[i].0 != marks[j].0
    {
      marks := [];
      var remaining := latest.Keys;
      while remaining != {}
        invariant Marked(latest, marks, remaining)
        decreases remaining
      {
        var k :| k in remaining;
        MarkedStep(latest, marks, remaining, k);
        marks := marks + [(k, latest[k])];
        remaining := remaining - {k};
      }
    }

    /** One turn of receiveMessages' select: a tick marks the pending
      channels, a message goes to OnMessage and marks nothing. */
    method OnEvent(e: Event) returns (marks: seq<(string, string)>)
      modifies this
      ensures latest == (if Moves(info.selfID, e) then old(latest)[e.msg.channel := e.msg.ts] else old(latest))
      ensures e.Tick? ==> MarksPending(old(latest), marks)
      ensures e.Inbound? ==> marks == []
    {
      match e {
        case Tick =>
          marks := OnTick();
        case Inbound(msg) =>
          OnMessage(msg);
          marks := [];
      }
    }

    /** receiveMessages over a run of events: the pending map follows
      Pending, and each tick marks every channel pending at that moment. */
    method Receive(events: seq<Event>) returns (ticks: seq<seq<(string, string)>>)
      modifies this
      ensures latest == Pending(info.selfID, old(latest), events)
      ensures |ticks| == |events|
      ensures forall i | 0 <= i < |events| && events[i].Tick? ::
        MarksPending(Pending(info.selfID, old(latest), events[..i]), ticks[i])
      ensures forall i | 0 <= i < |events| && events[i].Inbound? :: ticks[i] == []
    {
      ghost var start := latest;
      ticks := [];
      var i := 0;
      while i < |events|
        invariant 0 <= i <= |events| && |ticks| == i
        invariant latest == Pending(info.selfID, start, events[..i])
        invariant TicksFor(info.selfID, start, events, ticks)
      {
        PendingSnoc(info.selfID, start, events, i);
        var marks := OnEvent(events[i]);
        TicksForSnoc(info.selfID, start, events, ticks, marks);
        ticks := ticks + [marks];
        i := i + 1;
      }
      assert events[..|events|] == events;
    }
  }
}
