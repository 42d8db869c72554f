/** The archiver: it follows the real-time feed, rewrites the mentions of
    each channel message, and hands the resulting record to a handler that
    stores it in a key-value database under a key that sorts by time. User
    and channel names come from the team roster, extended on demand by
    remote lookups. */
module Archive {
  import opened Common
  import opened Rtm
  import opened Mentions

  // ---------------------------------------------------------------------------
  // Times and keys

  /** A wall-clock time in the zone `offset` minutes east of UTC. */
  datatype Time = Time(year: nat, month: nat, day: nat, hour: nat, minute: nat, second: nat, offset: int)

  /** The ranges a time.Time's fields stay in. */
  predicate ValidTime(t: Time)
  {
    1 <= t.month <= 12 && 1 <= t.day <= 31 && t.hour < 24 && t.minute < 60 && t.second < 60
  }

  /** Strictly earlier, field by field from the year down, within one zone. */
  predicate TimeLess(a: Time, b: Time)
  {
    a.year < b.year || (a.year == b.year &&
    (a.month < b.month || (a.month == b.month &&
    (a.day < b.day || (a.day == b.day &&
    (a.hour < b.hour || (a.hour == b.hour &&
    (a.minute < b.minute || (a.minute == b.minute && a.second < b.second)))))))))
  }

  /** A number written with at least two digits. */
  function Pad2(n: nat): (r: string)
    ensures n < 100 ==> |r| == 2
    ensures forall c | c in r :: IsDigit(c)
  {
    if n < 100 then [DigitChar(n / 10), DigitChar(n % 10)] else NatToString(n)
  }

  /** A number written with at least four digits. */
  function Pad4(n: nat): (r: string)
    ensures n < 10000 ==> |r| == 4
    ensures forall c | c in r :: IsDigit(c)
  {
    if n < 10000 then Pad2(n / 100) + Pad2(n % 100) else NatToString(n)
  }

  /** The zone designator: "Z" for UTC, otherwise the signed hours and
      minutes. */
  function Zone(offset: int): (r: string)
    ensures |r| >= 1 && '|' !in r
  {
    if offset == 0 then "Z"
    else
      var a := if offset < 0 then -offset else offset;
      (if offset < 0 then "-" else "+") + Pad2(a / 60) + ":" + Pad2(a % 60)
  }

  /** A time in the layout of section 5.6 of RFC 3339,
      "YYYY-MM-DDTHH:MM:SS" followed by the zone. */
  function Format(t: Time): (r: string)
    ensures ValidTime(t) && t.year < 10000 ==> |r| == 19 + |Zone(t.offset)|
    ensures '|' !in r
  {
    Pad4(t.year) + ("-" + (Pad2(t.month) + ("-" + (Pad2(t.day) + ("T" +
      (Pad2(t.hour) + (":" + (Pad2(t.minute) + (":" + (Pad2(t.second) + Zone(t.offset)))))))))))
  }

  /** A message as the archive stores it. */
  datatype ArchivedMessage = ArchivedMessage(user: string, channel: string, text: string, ts: Time)

  /** message.Key: the formatted time, a bar, and the user. The time text
      holds no bar, so the key splits at its first bar into the time and the
      user. */
  function Key(m: ArchivedMessage): (r: string)
    ensures var n := |Format(m.ts)|;
      n < |r| && r[n] == '|' && '|' !in r[..n] &&
      r[..n] == Format(m.ts) && r[n + 1..] == m.user
  {
    Format(m.ts) + ("|" + m.user)
  }

  /** The order in which the database keeps keys: bytes.Compare. Comparing
      code points gives the same order as comparing their UTF-8 bytes. */
  predicate LexLess(a: string, b: string)
    decreases |a|
  {
    if a == [] then b != []
    else if b == [] then false
    else if a[0] != b[0] then a[0] < b[0]
    else LexLess(a[1..], b[1..])
  }

  /** A common prefix does not change the order. */
  lemma {:induction false} LexPrefix(p: string, a: string, b: string)
    ensures LexLess(p + a, p + b) == LexLess(a, b)
    decreases |p|
  {
    if p != [] {
      assert (p + a)[0] == (p + b)[0];
      assert (p + a)[1..] == p[1..] + a && (p + b)[1..] == p[1..] + b;
      LexPrefix(p[1..], a, b);
    } else {
      assert p + a == a && p + b == b;
    }
  }

  /** Between two strings of one length, whatever follows does not change
      the order. */
  lemma {:induction false} LexLonger(a: string, b: string, c: string, d: string)
    requires |a| == |b| && LexLess(a, b)
    ensures LexLess(a + c, b + d)
    decreases |a|
  {
    if a[0] == b[0] {
      assert (a + c)[1..] == a[1..] + c && (b + d)[1..] == b[1..] + d;
      LexLonger(a[1..], b[1..], c, d);
    }
  }

  /** Padded numbers below the padding width sort like the numbers. */
  lemma Pad2Order(x: nat, y: nat)
    requires x < y < 100
    ensures LexLess(Pad2(x), Pad2(y))
  {
    var a, b := Pad2(x), Pad2(y);
    if a[0] == b[0] {
      assert a[1..] == [a[1]] && b[1..] == [b[1]];
    }
  }

  lemma Pad4Order(x: nat, y: nat)
    requires x < y < 10000
    ensures LexLess(Pad4(x), Pad4(y))
  {
    if x / 100 < y / 100 {
      Pad2Order(x / 100, y / 100);
      LexLonger(Pad2(x / 100), Pad2(y / 100), Pad2(x % 100), Pad2(y % 100));
    } else {
      assert x % 100 < y % 100;
      Pad2Order(x % 100, y % 100);
      LexPrefix(Pad2(x / 100), Pad2(x % 100), Pad2(y % 100));
    }
  }

  /** Two-digit fields: a smaller field, or an equal field followed by a
      smaller remainder, gives the smaller string. */
  lemma Field2(sep: string, x: nat, y: nat, r: string, s: string)
    requires x < 100 && y < 100
    requires x < y || (x == y && LexLess(r, s))
    ensures LexLess(sep + (Pad2(x) + r), sep + (Pad2(y) + s))
  {
    LexPrefix(sep, Pad2(x) + r, Pad2(y) + s);
    if x < y {
      Pad2Order(x, y);
      LexLonger(Pad2(x), Pad2(y), r, s);
    } else {
      LexPrefix(Pad2(x), r, s);
    }
  }

  /** The time, formatted, from the month on. */
  function FromMonth(t: Time): string
  {
    "-" + (Pad2(t.month) + ("-" + (Pad2(t.day) + FromHour(t))))
  }

  /** The time, formatted, from the hour on. */
  function FromHour(t: Time): string
  {
    "T" + (Pad2(t.hour) + (":" + (Pad2(t.minute) + (":" + (Pad2(t.second) + Zone(t.offset))))))
  }

  /** The time of day of `a` is before that of `b`. */
  predicate ClockLess(a: Time, b: Time)
  {
    a.hour < b.hour || (a.hour == b.hour && (a.minute < b.minute || (a.minute == b.minute && a.second < b.second)))
  }

  /** Within one zone, earlier times of day format to smaller strings. */
  lemma ClockOrder(a: Time, b: Time)
    requires ValidTime(a) && ValidTime(b) && a.offset == b.offset
    requires ClockLess(a, b)
    ensures LexLess(FromHour(a), FromHour(b))
  {
    var z := Zone(a.offset);
    var sa := ":" + (Pad2(a.second) + z);
    var sb := ":" + (Pad2(b.second) + z);
    if a.second < b.second {
      Field2(":", a.second, b.second, z, z);
    }
    var ma := ":" + (Pad2(a.minute) + sa);
    var mb := ":" + (Pad2(b.minute) + sb);
    if a.minute < b.minute || (a.minute == b.minute && a.second < b.second) {
      Field2(":", a.minute, b.minute, sa, sb);
    }
    Field2("T", a.hour, b.hour, ma, mb);
  }

  /** Within one zone, earlier times format to smaller strings. */
  lemma FormatOrder(a: Time, b: Time)
    requires ValidTime(a) && ValidTime(b) && a.year < 10000 && b.year < 10000 && a.offset == b.offset
    requires TimeLess(a, b)
    ensures LexLess(Format(a), Format(b))
  {
    var ha := FromHour(a);
    var hb := FromHour(b);
    if ClockLess(a, b) {
      ClockOrder(a, b);
    }
    var da := "-" + (Pad2(a.day) + ha);
    var db := "-" + (Pad2(b.day) + hb);
    if a.day < b.day || (a.day == b.day && LexLess(ha, hb)) {
      Field2("-", a.day, b.day, ha, hb);
    }
    assert FromMonth(a) == "-" + (Pad2(a.month) + da);
    assert FromMonth(b) == "-" + (Pad2(b.month) + db);
    if a.month < b.month || (a.month == b.month && LexLess(da, db)) {
      Field2("-", a.month, b.month, da, db);
    }
    assert Format(a) == Pad4(a.year) + FromMonth(a) && Format(b) == Pad4(b.year) + FromMonth(b);
    if a.year < b.year {
      Pad4Order(a.year, b.year);
      LexLonger(Pad4(a.year), Pad4(b.year), FromMonth(a), FromMonth(b));
    } else {
      LexPrefix(Pad4(a.year), FromMonth(a), FromMonth(b));
    }
  }

  /** Keys sort by time first and, at the same time, by user: within one
      zone and before the year 10000, an earlier message has the smaller key,
      and two messages of the same time are ordered by their users. */
  lemma KeyOrder(m: ArchivedMessage, n: ArchivedMessage)
    requires ValidTime(m.ts) && ValidTime(n.ts) && m.ts.year < 10000 && n.ts.year < 10000
    requires m.ts.offset == n.ts.offset
    ensures TimeLess(m.ts, n.ts) ==> LexLess(Key(m), Key(n))
    ensures m.ts == n.ts ==> (LexLess(Key(m), Key(n)) <==> LexLess(m.user, n.user))
  {
    if TimeLess(m.ts, n.ts) {
      FormatOrder(m.ts, n.ts);
      LexLonger(Format(m.ts), Format(n.ts), "|" + m.user, "|" + n.user);
    }
    if m.ts == n.ts {
      LexPrefix(Format(m.ts) + "|", m.user, n.user);
      assert Key(m) == Format(m.ts) + "|" + m.user && Key(n) == Format(m.ts) + "|" + n.user;
    }
  }

  // ---------------------------------------------------------------------------
  // Name caches

  /** The name of `id`: the first cached entry for it, otherwise what the
      remote lookup answers, otherwise the id itself. */
  function Resolve(cache: seq<Named>, remote: string -> Option<string>, id: string): (r: string)
    ensures IndexByID(cache, id, 0) != -1 ==> r == cache[IndexByID(cache, id, 0)].name
    ensures IndexByID(cache, id, 0) == -1 ==> r == (if remote(id).Some? then remote(id).value else id)
  {
    var i := IndexByID(cache, id, 0);
    if i != -1 then cache[i].name
    else match remote(id)
      case Some(name) => name
      case None => id
  }

  /** The cache after resolving `id`: a miss that the remote lookup answers
      appends the answer; a hit or a failed lookup leaves it as it was. */
  function CacheAfter(cache: seq<Named>, remote: string -> Option<string>, id: string): (r: seq<Named>)
    ensures IndexByID(cache, id, 0) != -1 || remote(id).None? ==> r == cache
    ensures IndexByID(cache, id, 0) == -1 && remote(id).Some? ==> r == cache + [Named(id, remote(id).value)]
  {
    if IndexByID(cache, id, 0) == -1 && remote(id).Some? then cache + [Named(id, remote(id).value)] else cache
  }

  /** A channel id not starting with 'C' is its own name; no lookup is made. */
  function ChannelResolve(cache: seq<Named>, remote: string -> Option<string>, id: string): (r: string)
  {
    if id == [] || id[0] != 'C' then id else Resolve(cache, remote, id)
  }

  function ChannelCacheAfter(cache: seq<Named>, remote: string -> Option<string>, id: string): (r: seq<Named>)
  {
    if id == [] || id[0] != 'C' then cache else CacheAfter(cache, remote, id)
  }

  /** The user names a cache gives, as a function. */
  function Resolver(cache: seq<Named>, remote: string -> Option<string>): (f: string -> string)
  {
    id => Resolve(cache, remote, id)
  }

  function ChannelResolver(cache: seq<Named>, remote: string -> Option<string>): (f: string -> string)
  {
    id => ChannelResolve(cache, remote, id)
  }

  /** `cache` is `cache0` followed by entries the remote lookup confirms. */
  ghost predicate Grows(cache0: seq<Named>, cache: seq<Named>, remote: string -> Option<string>)
  {
    cache0 <= cache && forall j | |cache0| <= j < |cache| :: remote(cache[j].id) == Some(cache[j].name)
  }

  /** Resolving through the cache never changes any later answer: after a
      lookup, every id resolves to what it resolved to before. */
  lemma ResolveStable(cache: seq<Named>, remote: string -> Option<string>, id: string, x: string)
    ensures Resolve(CacheAfter(cache, remote, id), remote, x) == Resolve(cache, remote, x)
  {
    GrowsSameNames(cache, CacheAfter(cache, remote, id), remote, x);
  }

  /** A grown cache resolves every id as the original one did. */
  lemma GrowsSameNames(cache0: seq<Named>, cache: seq<Named>, remote: string -> Option<string>, x: string)
    requires Grows(cache0, cache, remote)
    ensures Resolve(cache, remote, x) == Resolve(cache0, remote, x)
  {
    var i := IndexByID(cache0, x, 0);
    assert forall j | 0 <= j < |cache0| :: cache[j] == cache0[j];
    if i != -1 {
      IndexByIDSkip(cache, x, 0, i);
    } else {
      IndexByIDSkip(cache, x, 0, |cache0|);
    }
  }

  /** Growing by one lookup keeps a cache growing. */
  lemma GrowsAfter(cache0: seq<Named>, cache: seq<Named>, remote: string -> Option<string>, id: string)
    requires Grows(cache0, cache, remote)
    ensures Grows(cache0, CacheAfter(cache, remote, id), remote)
    ensures Grows(cache0, ChannelCacheAfter(cache, remote, id), remote)
  {
  }

  // ---------------------------------------------------------------------------
  // The database handler

  /** handler: the queue of messages to save, the database they go to, and
      how often the queue and the database were closed. */
  class Handler {
    var open: bool
    var queue: seq<ArchivedMessage>
    var db: map<string, ArchivedMessage>
    var queueCloses: nat
    var dbCloses: nat

    /** The queue is closed at most once, and only once it is no longer
        open. */
    ghost predicate Valid()
      reads this
    {
      queueCloses <= 1 && (open ==> queueCloses == 0)
    }

    /** NewHandler, once the database is open: an open, empty queue. */
    constructor()
      ensures Valid() && open && queue == [] && db == map[] && queueCloses == 0 && dbCloses == 0
    {
      open := true;
      queue := [];
      db := map[];
      queueCloses := 0;
      dbCloses := 0;
    }

    /** Handle: the message joins the end of the queue. Sending on a queue
        that Stop has taken away blocks forever, so the queue must be open. */
    method Handle(m: ArchivedMessage)
      requires open
      modifies this`queue
      ensures queue == old(queue) + [m]
    {
      queue := queue + [m];
    }

    /** One turn of Loop: the oldest queued message is saved under its key,
        replacing whatever that key held. */
    method SaveNext()
      requires queue != []
      modifies this`queue, this`db
      ensures queue == old(queue)[1..]
      ensures db == old(db)[Key(old(queue)[0]) := old(queue)[0]]
    {
      var m := queue[0];
      queue := queue[1..];
      db := db[Key(m) := m];
    }

    /** Stop: the queue is closed and dropped only while it is still there,
        so a second call does not close it again; the database is closed
        every time. */
    method Stop()
      requires Valid()
      modifies this`open, this`queueCloses, this`dbCloses
      ensures Valid() && !open
      ensures queueCloses == old(queueCloses) + (if old(open) then 1 else 0)
      ensures dbCloses == old(dbCloses) + 1
    {
      if open {
        queueCloses := queueCloses + 1;
        open := false;
      }
      dbCloses := dbCloses + 1;
    }
  }

  // ---------------------------------------------------------------------------
  // The receiving side

  /** The archiver's state: the team's user and channel caches, how often it
      reconnected, the remote user and channel lookups (users.info,
      channels.info: a name, or None when the call fails) and the channel
      filter. */
  class Archiver {
    var users: seq<Named>
    var channels: seq<Named>
    var restarts: nat
    const remoteUser: string -> Option<string>
    const remoteChannel: string -> Option<string>
    const filter: string

    constructor(info: StartReply, remoteUser: string -> Option<string>, remoteChannel: string -> Option<string>,
                filter: string)
      ensures users == info.users && channels == info.channels && restarts == 0
      ensures this.remoteUser == remoteUser && this.remoteChannel == remoteChannel && this.filter == filter
    {
      users := info.users;
      channels := info.channels;
      restarts := 0;
      this.remoteUser := remoteUser;
      this.remoteChannel := remoteChannel;
      this.filter := filter;
    }

    /** translateUser: the cached name, otherwise the remote answer, which is
        then cached, otherwise the id. */
    method TranslateUser(id: string) returns (name: string)
      modifies this`users
      ensures name == Resolve(old(users), remoteUser, id)
      ensures users == CacheAfter(old(users), remoteUser, id)
    {
      var i := 0;
      while i < |users|
        invariant 0 <= i <= |users|
        invariant forall j | 0 <= j < i :: users[j].id != id
      {
        if users[i].id == id {
          assert IndexByID(users, id, 0) == i by {
            assert IndexByID(users, id, i) == i;
            IndexByIDSkip(users, id, 0, i);
          }
          return users[i].name;
        }
        i := i + 1;
      }
      assert IndexByID(users, id, 0) == -1;
      var u := remoteUser(id);
      if u.None? {
        return id;
      }
      users := users + [Named(id, u.value)];
      name := u.value;
    }

    /** translateChannel: an id not starting with 'C' is returned as it is;
        otherwise as translateUser, over the channel cache. The id must not
        be empty (its first byte is read). */
    method TranslateChannel(id: string) returns (name: string)
      requires id != ""
      modifies this`channels
      ensures name == ChannelResolve(old(channels), remoteChannel, id)
      ensures channels == ChannelCacheAfter(old(channels), remoteChannel, id)
    {
      if id[0] != 'C' {
        return id;
      }
      var i := 0;
      while i < |channels|
        invariant 0 <= i <= |channels|
        invariant forall j | 0 <= j < i :: channels[j].id != id
      {
        if channels[i].id == id {
          assert IndexByID(channels, id, 0) == i by {
            assert IndexByID(channels, id, i) == i;
            IndexByIDSkip(channels, id, 0, i);
          }
          return channels[i].name;
        }
        i := i + 1;
      }
      assert IndexByID(channels, id, 0) == -1;
      var c := remoteChannel(id);
      if c.None? {
        return id;
      }
      channels := channels + [Named(id, c.value)];
      name := c.value;
    }

    /** translateMessage: the mentions rewritten to the end, with names as
        the caches gave them when the message arrived (`users0`,
        `channels0`; later lookups only confirm those), then the record of
        the sender's name, the channel, the text and the time. */
    method TranslateMessage(msg: Message, ch: string, ts: Time, ghost users0: seq<Named>, ghost channels0: seq<Named>)
      returns (a: ArchivedMessage)
      requires Grows(users0, users, remoteUser) && Grows(channels0, channels, remoteChannel)
      requires exists n :: Run(msg.text, Resolver(users0, remoteUser), ChannelResolver(channels0, remoteChannel), n).Some?
      modifies this`users, this`channels
      ensures Grows(users0, users, remoteUser) && Grows(channels0, channels, remoteChannel)
      ensures a == ArchivedMessage(Resolve(users0, remoteUser, msg.user), ch,
        Finished(msg.text, Resolver(users0, remoteUser), ChannelResolver(channels0, remoteChannel)), ts)
    {
      ghost var user := Resolver(users0, remoteUser);
      ghost var channel := ChannelResolver(channels0, remoteChannel);
      ghost var fuel: nat :| Run(msg.text, user, channel, fuel).Some?;
      ghost var trace := TraceSteps(msg.text, Stepper(user, channel), fuel);
      ghost var i := 0;
      var text := msg.text;
      while true
        invariant 0 <= i < |trace| && text == trace[i]
        invariant Grows(users0, users, remoteUser) && Grows(channels0, channels, remoteChannel)
        decreases |trace| - i
      {
        var m := MentionAt(text);
        StepperAt(user, channel, text);
        TraceAt(msg.text, Stepper(user, channel), fuel, i);
        if m.None? {
          break;
        }
        text := RewriteFirst(text, m.value.0, m.value.1, users0, channels0);
        i := i + 1;
      }
      assert text == Run(msg.text, user, channel, fuel).value;
      GrowsSameNames(users0, users, remoteUser, msg.user);
      GrowsAfter(users0, users, remoteUser, msg.user);
      var name := TranslateUser(msg.user);
      a := ArchivedMessage(name, ch, text, ts);
    }

    /** One event of receiveMessages. The event must be present: a closed
        inbound channel yields nil, which the error branch dereferences. A
        connection error other than a parse failure reconnects, which ends
        only once an attempt succeeds. A message's channel id must not be
        empty (its first byte is read), the mentions of a message whose
        channel passes the filter must be rewritable to the end, and the handler's queue must still be open when a record
        is handed to it. `ts` is the message's time as formatTime gives it. */
    method Receive(msg: Option<Message>, ts: Time, attempts: seq<Option<StartReply>>, h: Handler)
      requires msg.Some?
      requires msg.value.kind == "error" && !msg.value.error.unmarshall ==>
        exists j | 0 <= j < |attempts| :: attempts[j].Some?
      requires msg.value.kind == "message" ==> msg.value.channel != ""
      requires msg.value.kind == "message" && msg.value.channel[0] == 'C' &&
               InterestedIn(filter, Resolve(channels, remoteChannel, msg.value.channel)) ==>
        exists n :: Run(msg.value.text, Resolver(users, remoteUser), ChannelResolver(channels, remoteChannel), n).Some?
      requires (msg.value.kind == "message" && msg.value.channel[0] == 'C' &&
        InterestedIn(filter, Resolve(channels, remoteChannel, msg.value.channel)) &&
        Finished(msg.value.text, Resolver(users, remoteUser), ChannelResolver(channels, remoteChannel)) != "") ==>
        h.open
      modifies this`users, this`channels, this`restarts, h`queue
      ensures var m := msg.value;
        m.kind == "error" && m.error.unmarshall ==>
          users == old(users) && channels == old(channels) && restarts == old(restarts) && h.queue == old(h.queue)
      ensures var m := msg.value;
        m.kind == "error" && !m.error.unmarshall ==>
          var info := attempts[FirstStart(attempts)].value;
          users == info.users && channels == info.channels && restarts == old(restarts) + 1 &&
          h.queue == old(h.queue)
      ensures var m := msg.value;
        m.kind == "message" && m.channel[0] != 'C' ==>
          users == old(users) && channels == old(channels) && restarts == old(restarts) && h.queue == old(h.queue)
      ensures var m := msg.value;
        m.kind == "message" && m.channel[0] == 'C' ==>
          Grows(old(users), users, remoteUser) && Grows(old(channels), channels, remoteChannel) &&
          restarts == old(restarts)
      ensures var m := msg.value;
        m.kind == "message" && m.channel[0] == 'C' &&
        !InterestedIn(filter, Resolve(old(channels), remoteChannel, m.channel)) ==>
          h.queue == old(h.queue)
      ensures var m := msg.value;
        m.kind == "message" && m.channel[0] == 'C' &&
        InterestedIn(filter, Resolve(old(channels), remoteChannel, m.channel)) ==>
          var a := ArchivedMessage(Resolve(old(users), remoteUser, m.user), Resolve(old(channels), remoteChannel, m.channel),
            Finished(m.text, Resolver(old(users), remoteUser), ChannelResolver(old(channels), remoteChannel)), ts);
          h.queue == (if a.text != "" then old(h.queue) + [a] else old(h.queue))
      ensures var m := msg.value;
        m.kind == "channel_created" ==>
          channels == old(channels) + [Named(m.channel, m.name)] && users == old(users) &&
          restarts == old(restarts) && h.queue == old(h.queue)
      ensures var m := msg.value;
        m.kind == "team_join" ==>
          users == old(users) + [Named(m.user, m.name)] && channels == old(channels) &&
          restarts == old(restarts) && h.queue == old(h.queue)
      ensures var m := msg.value;
        m.kind !in {"error", "message", "channel_created", "team_join"} ==>
          users == old(users) && channels == old(channels) && restarts == old(restarts) && h.queue == old(h.queue)
    {
      var m := msg.value;
      if m.kind == "error" {
        if m.error.unmarshall {
          return;
        }
        var info, tries := Reconnect(attempts);
        users := info.users;
        channels := info.channels;
        restarts := restarts + 1;
        return;
      }
      if m.kind == "message" {
        if m.channel[0] != 'C' {
          return;
        }
        ghost var users0, channels0 := users, channels;
        var ch := TranslateChannel(m.channel);
        GrowsAfter(channels0, channels0, remoteChannel, m.channel);
        if InterestedIn(filter, ch) {
          var a := TranslateMessage(m, ch, ts, users0, channels0);
          if a.text != "" {
            h.Handle(a);
          }
        }
      } else if m.kind == "channel_created" {
        channels := channels + [Named(m.channel, m.name)];
      } else if m.kind == "team_join" {
        users := users + [Named(m.user, m.name)];
      }
    }

    /** The body of translateMessage's loop once a mention has been found:
        the text after one rewriting turn, looking names up as it goes. */
    method RewriteFirst(text: string, index: nat, end: nat, ghost users0: seq<Named>, ghost channels0: seq<Named>)
      returns (r: string)
      requires MentionAt(text) == Some((index, end))
      requires StepOf(text, Resolver(users0, remoteUser), ChannelResolver(channels0, remoteChannel)).Next?
      requires Grows(users0, users, remoteUser) && Grows(channels0, channels, remoteChannel)
      modifies this`users, this`channels
      ensures r == StepOf(text, Resolver(users0, remoteUser), ChannelResolver(channels0, remoteChannel)).text
      ensures Grows(users0, users, remoteUser) && Grows(channels0, channels, remoteChannel)
    {
      var parts := Split(text[index + 2..index + 2 + end], '|');
      var rest := text[end + index + 3..];
      assert StepOf(text, Resolver(users0, remoteUser), ChannelResolver(channels0, remoteChannel)) ==
        StepAt(text, index, end, Resolver(users0, remoteUser), ChannelResolver(channels0, remoteChannel));
      if |parts| == 2 {
        if parts[0][0] == 'U' {
          r := "@" + parts[1] + rest;
        } else {
          r := "#" + parts[1] + rest;
        }
      } else if |parts| == 1 && |parts[0]| > 0 && parts[0][0] == 'U' {
        GrowsSameNames(users0, users, remoteUser, parts[0]);
        GrowsAfter(users0, users, remoteUser, parts[0]);
        var name := TranslateUser(parts[0]);
        r := "@" + name + rest;
      } else if |parts| == 1 && |parts[0]| > 0 && parts[0][0] == 'C' {
        GrowsSameNames(channels0, channels, remoteChannel, parts[0]);
        GrowsAfter(channels0, channels, remoteChannel, parts[0]);
        var name := TranslateChannel(parts[0]);
        r := "#" + name + rest;
      } else {
        assert false;
      }
    }
  }

  /** Skipping entries that do not carry the id does not change the first
      index of it. */
  lemma {:induction false} IndexByIDSkip(xs: seq<Named>, id: string, k: nat, i: nat)
    requires k <= i <= |xs|
    requires forall j | k <= j < i :: xs[j].id != id
    ensures IndexByID(xs, id, k) == IndexByID(xs, id, i)
    decreases i - k
  {
    if k < i {
      IndexByIDSkip(xs, id, k + 1, i);
    }
  }
}
