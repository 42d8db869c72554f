/** The browser side of the web viewer: the clock text shown beside each
    message, the bounded list of messages the page holds, and the list of
    elements it renders, with a date separator wherever the day changes. */
module MainJs {
  import opened Common
  import opened Ws

  /** MAX_MESSAGES. */
  const MaxMessages: nat := 1000

  // ---------------------------------------------------------------------------
  // The clock text

  /** The hour as the 12-hour clock shows it. */
  function ShownHour(hours: nat): (h: nat)
    requires hours < 24
    ensures 1 <= h <= 12
  {
    if hours > 12 then hours - 12 else if hours == 0 then 12 else hours
  }

  /** A number below 100 written with at least two digits, as
      `(n < 10) ? '0' + n : '' + n` does. */
  function TwoDigits(n: nat): (r: string)
    requires n < 100
    ensures |r| == 2 && IsDigit(r[0]) && IsDigit(r[1]) && DigitsValue(r) == n
  {
    if n < 10 then
      assert NatToString(n) == [DigitChar(n)];
      var r := "0" + NatToString(n);
      assert r[..1] == "0" && r[..1][..0] == [];
      assert DigitsValue(r[..1]) == 0;
      r
    else
      assert NatToString(n) == [DigitChar(n / 10), DigitChar(n % 10)] by {
        assert NatToString(n / 10) == [DigitChar(n / 10)];
      }
      var r := NatToString(n);
      assert r[..1] == [DigitChar(n / 10)] && r[..1][..0] == [];
      assert DigitsValue(r[..1]) == n / 10;
      r
  }

  /** getFormattedTime: "HH:MM AM" or "HH:MM PM" on the 12-hour clock. */
  function FormattedTime(hours: nat, minutes: nat): (r: string)
    requires hours < 24 && minutes < 60
    ensures |r| == 8 && r[2] == ':' && r[5] == ' ' && r[7] == 'M' && (r[6] == 'A' || r[6] == 'P')
  {
    var ap := if hours >= 12 then "PM" else "AM";
    TwoDigits(ShownHour(hours)) + ":" + TwoDigits(minutes) + " " + ap
  }

  /** The text determines the time: the shown hour is in 1..12, the minutes
      read back, and the hour modulo 12 plus twelve in the afternoon gives
      the hour of the day. */
  lemma FormattedTimeReadsBack(hours: nat, minutes: nat)
    requires hours < 24 && minutes < 60
    ensures var r := FormattedTime(hours, minutes);
      var shown := DigitsValue(r[..2]);
      1 <= shown <= 12 && DigitsValue(r[3..5]) == minutes &&
      shown % 12 + (if r[6] == 'P' then 12 else 0) == hours
  {
    var r := FormattedTime(hours, minutes);
    assert r[..2] == TwoDigits(ShownHour(hours));
    assert r[3..5] == TwoDigits(minutes);
  }

  // ---------------------------------------------------------------------------
  // The page state

  /** The messages with the new one pushed, and the oldest shifted out when
      that exceeds the limit. Only one is shifted out, so a page that starts
      above the limit keeps its length. */
  function Pushed(messages: seq<WsMessage>, msg: WsMessage): (r: seq<WsMessage>)
    ensures |r| > 0 && r[|r| - 1] == msg
    ensures |messages| <= MaxMessages ==> |r| <= MaxMessages
    ensures |messages| >= MaxMessages ==> |r| == |messages|
  {
    var n := messages + [msg];
    if |n| > MaxMessages then n[1..] else n
  }

  /** The page never holds more than the limit, keeps the newest message
      last, and keeps every older one it still holds in order. */
  lemma PushedBounded(messages: seq<WsMessage>, msg: WsMessage)
    requires |messages| <= MaxMessages
    ensures var r := Pushed(messages, msg);
      |r| <= MaxMessages && r[|r| - 1] == msg &&
      r[..|r| - 1] == messages[|messages| + 1 - |r|..] &&
      (|messages| < MaxMessages ==> r == messages + [msg])
  {
    var r := Pushed(messages, msg);
    if |messages| == MaxMessages {
      assert r[..|r| - 1] == messages[1..];
    } else {
      assert r[..|r| - 1] == messages;
    }
  }

  /** Frame: the state object holding the message array. */
  class Frame {
    var messages: array<WsMessage>

    /** The page is within the limit. The history fetch may install a longer
        page, and a push then keeps it at that length. */
    ghost predicate Valid()
      reads this
    {
      messages.Length <= MaxMessages
    }

    constructor()
      ensures Valid() && messages.Length == 0
    {
      messages := new WsMessage[0];
    }

    /** handler: a fresh copy of the array with the message pushed and, past
        the limit, the oldest shifted out; the array the old state held is
        left as it was. */
    method Handler(msg: WsMessage)
      modifies this`messages
      ensures old(Valid()) ==> Valid()
      ensures fresh(messages)
      ensures messages[..] == Pushed(old(messages[..]), msg)
      ensures old(messages)[..] == old(messages[..])
    {
      var n := Appended(messages, msg);
      if n.Length > MaxMessages {
        n := Shifted(n);
      }
      messages := n;
    }

    /** The reply of the history fetch: its array becomes the page as it
        is, whatever its length. */
    method LoadHistory(hist: seq<WsMessage>)
      modifies this`messages
      ensures fresh(messages) && messages[..] == hist
      ensures Valid() <==> |hist| <= MaxMessages
    {
      messages := new WsMessage[|hist|](i requires 0 <= i < |hist| => hist[i]);
    }
  }

  /** A fresh array: the elements of `a` followed by `msg` (the spread copy
      and push of handler). */
  method Appended(a: array<WsMessage>, msg: WsMessage) returns (n: array<WsMessage>)
    ensures fresh(n) && n[..] == a[..] + [msg]
  {
    n := new WsMessage[a.Length + 1](i => msg);
    var i := 0;
    while i < a.Length
      invariant 0 <= i <= a.Length
      invariant n[..i] == a[..i] && n[a.Length] == msg
    {
      n[i] := a[i];
      i := i + 1;
    }
    assert n[..] == n[..a.Length] + [n[a.Length]];
  }

  /** A fresh array without the first element of `a` (handler's shift). */
  method Shifted(a: array<WsMessage>) returns (n: array<WsMessage>)
    requires a.Length > 0
    ensures fresh(n) && n[..] == a[1..]
  {
    var first := a[0];
    n := new WsMessage[a.Length - 1](i => first);
    var j := 0;
    while j < n.Length
      invariant 0 <= j <= n.Length
      invariant n[..j] == a[1..j + 1]
    {
      n[j] := a[j + 1];
      j := j + 1;
    }
    assert n[..] == n[..j] && a[1..] == a[1..j + 1];
  }

  // ---------------------------------------------------------------------------
  // Rendering

  /** A rendered element: a date separator for a message, or the message
      line with its position. */
  datatype Element = Separator(msg: WsMessage) | Line(msg: WsMessage, index: nat)

  /** Message i starts a day: it is the first, or its day differs from the
      previous message's (`day` gives the calendar day of a time). */
  predicate NewDay(ms: seq<WsMessage>, i: nat, day: int -> int)
    requires i < |ms|
  {
    i == 0 || day(ms[i - 1].ts) != day(ms[i].ts)
  }

  /** The elements of message i: a separator when it starts a day, then its
      line. */
  function Group(ms: seq<WsMessage>, i: nat, day: int -> int): seq<Element>
    requires i < |ms|
  {
    (if NewDay(ms, i, day) then [Separator(ms[i])] else []) + [Line(ms[i], i)]
  }

  /** What render produces for the messages. */
  function Rendered(ms: seq<WsMessage>, day: int -> int): (r: seq<Element>)
  {
    if ms == [] then [] else Rendered(ms[..|ms| - 1], day) + Group(ms, |ms| - 1, day)
  }

  /** The message lines among the elements, in order. */
  function Lines(es: seq<Element>): seq<WsMessage>
  {
    if es == [] then []
    else Lines(es[..|es| - 1]) + (if es[|es| - 1].Line? then [es[|es| - 1].msg] else [])
  }

  lemma {:induction false} LinesAppend(a: seq<Element>, b: seq<Element>)
    ensures Lines(a + b) == Lines(a) + Lines(b)
    decreases |b|
  {
    if b == [] {
      assert a + b == a;
    } else {
      assert (a + b)[..|a + b| - 1] == a + b[..|b| - 1];
      LinesAppend(a, b[..|b| - 1]);
    }
  }

  lemma LinesSingle(e: Element)
    ensures Lines([e]) == (if e.Line? then [e.msg] else [])
  {
    assert [e][..0] == [];
  }

  /** Exactly one line per message, in the messages' order. */
  lemma {:induction false} RenderedLines(ms: seq<WsMessage>, day: int -> int)
    ensures Lines(Rendered(ms, day)) == ms
    decreases |ms|
  {
    if ms != [] {
      var init := ms[..|ms| - 1];
      RenderedLines(init, day);
      LinesAppend(Rendered(init, day), Group(ms, |ms| - 1, day));
      GroupLines(ms, |ms| - 1, day);
      assert ms == init + [ms[|ms| - 1]];
    }
  }

  /** A message's group holds its line and no other. */
  lemma GroupLines(ms: seq<WsMessage>, i: nat, day: int -> int)
    requires i < |ms|
    ensures Lines(Group(ms, i, day)) == [ms[i]]
  {
    var line := Line(ms[i], i);
    LinesSingle(line);
    if NewDay(ms, i, day) {
      LinesSingle(Separator(ms[i]));
      LinesAppend([Separator(ms[i])], [line]);
    } else {
      assert Group(ms, i, day) == [line];
    }
  }

  /** Rendering a prefix of the messages renders a prefix of the elements,
      the group of message i following it. */
  lemma {:induction false} RenderedPrefix(ms: seq<WsMessage>, i: nat, day: int -> int)
    requires i < |ms|
    ensures Rendered(ms[..i], day) + Group(ms, i, day) <= Rendered(ms, day)
    decreases |ms| - i
  {
    assert ms[..i + 1][..i] == ms[..i];
    assert Group(ms[..i + 1], i, day) == Group(ms, i, day);
    if i + 1 < |ms| {
      RenderedPrefix(ms, i + 1, day);
    } else {
      assert ms[..i + 1] == ms;
    }
  }

  /** A separator stands right before message i's line exactly when i
      starts a day, and nowhere else. */
  lemma SeparatorPlacement(ms: seq<WsMessage>, i: nat, day: int -> int)
    requires i < |ms|
    ensures var p := |Rendered(ms[..i], day)|;
      var r := Rendered(ms, day);
      if NewDay(ms, i, day) then p + 1 < |r| && r[p] == Separator(ms[i]) && r[p + 1] == Line(ms[i], i)
      else p < |r| && r[p] == Line(ms[i], i)
  {
    RenderedPrefix(ms, i, day);
    var p := |Rendered(ms[..i], day)|;
    var r := Rendered(ms, day);
    assert r[p..p + |Group(ms, i, day)|] == Group(ms, i, day);
  }

  lemma RenderedSnoc(ms: seq<WsMessage>, i: nat, day: int -> int)
    requires i < |ms|
    ensures Rendered(ms[..i + 1], day) == Rendered(ms[..i], day) + Group(ms, i, day)
  {
    assert ms[..i + 1][..i] == ms[..i];
    assert Group(ms[..i + 1], i, day) == Group(ms, i, day);
  }

  /** render: the elements built one message at a time. */
  method Render(messages: array<WsMessage>, day: int -> int) returns (elements: seq<Element>)
    ensures elements == Rendered(messages[..], day)
  {
    var ms := messages[..];
    elements := [];
    var i := 0;
    while i < |ms|
      invariant 0 <= i <= |ms|
      invariant elements == Rendered(ms[..i], day)
    {
      RenderedSnoc(ms, i, day);
      if i == 0 || day(ms[i - 1].ts) != day(ms[i].ts) {
        elements := elements + [Separator(ms[i])];
      }
      elements := elements + [Line(ms[i], i)];
      i := i + 1;
    }
    assert ms[..i] == ms;
  }
}
