/** What the web viewer and the archiver share: the channel filter, and the
    loop that rewrites "<@…>" mentions in a message text into readable
    "@user" and "#channel" names. The two programs carry identical copies of
    both; the name lookups they use differ and are parameters here. */
module Mentions {
  import opened Common
  import opened Rtm

  /** interestedIn: no filter lets every channel through; otherwise the name
      must equal one of the comma-separated filter items up to case. */
  function InterestedIn(filter: string, ch: string): (r: bool)
    ensures filter == "" ==> r
    ensures filter != "" ==> (r <==> exists c | c in Split(filter, ',') :: EqualFold(ch, c))
  {
    filter == "" || AnyFold(Split(filter, ','), ch)
  }

  /** The filter loop: some item equals `ch` up to case. */
  function AnyFold(list: seq<string>, ch: string): (r: bool)
    ensures r <==> exists c | c in list :: EqualFold(ch, c)
  {
    if list == [] then false
    else EqualFold(ch, list[0]) || (assert forall c | c in list[1..] :: c in list; AnyFold(list[1..], ch))
  }

  /** Every channel passes a filter that names it, whatever the case of
      either. */
  lemma InterestedInListed(filter: string, ch: string)
    requires filter != "" && ch in Split(filter, ',')
    ensures InterestedIn(filter, ToLower(ch))
  {
    ToLowerIdempotent(ch);
  }

  lemma ToLowerIdempotent(s: string)
    ensures ToLower(ToLower(s)) == ToLower(s)
  {
  }

  /** One turn of the rewriting loop. */
  datatype Step =
    | Done            // no "<@" with a '>' after it: the loop ends
    | Next(text: string)
    | Stuck           // the text is left as it is and the loop turns forever
    | Panic           // "<@|…>": the first character of an empty id is read

  /** The position of the first "<@" and, counted from just after it, of the
      next '>'; the mention is what lies between. */
  function MentionAt(text: string): (r: Option<(nat, nat)>)
    ensures r.Some? ==> var (index, end) := r.value;
      index + 2 + end < |text| && text[index..index + 2] == "<@" && text[index + 2 + end] == '>' &&
      '>' !in text[index + 2..index + 2 + end]
    ensures r.None? <==> Index(text, "<@") == -1 || Index(text[Index(text, "<@") + 2..], ">") == -1
  {
    var index := Index(text, "<@");
    if index == -1 then None
    else
      var end := Index(text[index + 2..], ">");
      if end == -1 then None
      else
        IndexChar(text[index + 2..], '>');
        assert text[index + 2..][..end] == text[index + 2..index + 2 + end];
        assert text[index..index + 2] == "<@" by { assert OccursAt(text, "<@", index); }
        Some((index, end))
  }

  /** One turn: "<@X|name>" becomes "@name" when X starts with 'U' and
      "#name" otherwise; a bare "<@U…>" becomes "@" and the user's name, a
      bare "<@C…>" "#" and the channel's name; what stood before "<@" is
      dropped and what follows '>' is kept. */
  function StepOf(text: string, user: string -> string, channel: string -> string): (r: Step)
    ensures r.Done? <==> MentionAt(text).None?
  {
    match MentionAt(text)
    case None => Done
    case Some((index, end)) => StepAt(text, index, end, user, channel)
  }

  /** The turn for the mention found `end` characters after the "<@" at
      `index`. */
  function StepAt(text: string, index: nat, end: nat, user: string -> string, channel: string -> string): Step
    requires index + 2 + end < |text|
  {
    Rewrite(Split(text[index + 2..index + 2 + end], '|'), text[end + index + 3..], user, channel)
  }

  /** The rewrite of one mention, split at '|', followed by `rest`. */
  function Rewrite(parts: seq<string>, rest: string, user: string -> string, channel: string -> string): (r: Step)
    ensures r.Panic? <==> |parts| == 2 && parts[0] == []
    ensures r.Next? <==> parts != [] && parts[0] != [] && (|parts| == 2 || (|parts| == 1 && parts[0][0] in "UC"))
    ensures r.Next? ==> HasSuffix(r.text, rest) && |r.text| > 0 && (r.text[0] == '@' || r.text[0] == '#')
    ensures r.Next? ==> (r.text[0] == '@' <==> parts[0][0] == 'U')
  {
    if |parts| == 2 then
      if parts[0] == [] then Panic
      else if parts[0][0] == 'U' then Next("@" + parts[1] + rest)
      else Next("#" + parts[1] + rest)
    else if |parts| == 1 && parts[0] != [] && parts[0][0] == 'U' then Next("@" + user(parts[0]) + rest)
    else if |parts| == 1 && parts[0] != [] && parts[0][0] == 'C' then Next("#" + channel(parts[0]) + rest)
    else Stuck
  }

  /** A turn that rewrites replaces everything up to the mention's '>' by
      a sigil and a name and keeps exactly the text after it: "<@X|name>"
      gives "@name" for a user id X and "#name" otherwise, a bare user id
      the user's name behind '@', and a bare channel id the channel's name
      behind '#'. */
  lemma StepKeepsRest(text: string, user: string -> string, channel: string -> string)
    requires StepOf(text, user, channel).Next?
    ensures var index := MentionAt(text).value.0;
      var end := MentionAt(text).value.1;
      var parts := Split(text[index + 2..index + 2 + end], '|');
      var rest := text[index + end + 3..];
      var t := StepOf(text, user, channel).text;
      parts != [] && parts[0] != [] &&
      (|parts| == 2 ==> t == (if parts[0][0] == 'U' then "@" else "#") + parts[1] + rest) &&
      (|parts| == 1 ==> parts[0][0] in "UC") &&
      (|parts| == 1 && parts[0][0] == 'U' ==> t == "@" + user(parts[0]) + rest) &&
      (|parts| == 1 && parts[0][0] == 'C' ==> t == "#" + channel(parts[0]) + rest)
  {
  }

  /** One turn as a function of the text alone, the lookups fixed. */
  function Stepper(user: string -> string, channel: string -> string): (step: string -> Step)
  {
    t => StepOf(t, user, channel)
  }

  lemma StepperAt(user: string -> string, channel: string -> string, t: string)
    ensures Stepper(user, channel)(t) == StepOf(t, user, channel)
  {
  }

  /** The rewriting loop with a bound on its turns, over any turn function:
      the final text, or None when the bound runs out, the loop would turn
      forever, or it would fail. */
  function RunSteps(text: string, step: string -> Step, fuel: nat): (r: Option<string>)
    ensures r.Some? ==> step(r.value).Done?
    decreases fuel
  {
    if fuel == 0 then None
    else match step(text)
      case Done => Some(text)
      case Next(t) => RunSteps(t, step, fuel - 1)
      case Stuck => None
      case Panic => None
  }

  /** translateMessage's loop with a bound on its turns. */
  function Run(text: string, user: string -> string, channel: string -> string, fuel: nat): (r: Option<string>)
  {
    RunSteps(text, Stepper(user, channel), fuel)
  }

  /** More turns never change a finished result. */
  lemma {:induction false} RunMonotone(text: string, step: string -> Step, n: nat, m: nat)
    requires n <= m && RunSteps(text, step, n).Some?
    ensures RunSteps(text, step, m) == RunSteps(text, step, n)
    decreases n
  {
    if step(text).Next? {
      RunMonotone(step(text).text, step, n - 1, m - 1);
    }
  }

  /** A text with no mention is returned as it is. */
  lemma RunNoMention(text: string, user: string -> string, channel: string -> string, n: nat)
    requires n >= 1 && MentionAt(text).None?
    ensures Run(text, user, channel, n) == Some(text)
  {
    StepperAt(user, channel, text);
  }

  /** "<@B1>" names neither a user nor a channel: the loop turns forever. */
  lemma StuckExample(user: string -> string, channel: string -> string, n: nat)
    ensures Run("<@B1>", user, channel, n).None?
  {
    var text := "<@B1>";
    MentionOfExample();
    SplitExample();
    assert text[2..4] == "B1" && text[5..] == "";
    assert StepOf(text, user, channel) == Rewrite(["B1"], "", user, channel);
    StepperAt(user, channel, text);
    RunStuckSteps(text, Stepper(user, channel), n);
  }

  lemma MentionOfExample()
    ensures MentionAt("<@B1>") == Some((0, 2))
  {
    var text := "<@B1>";
    assert OccursAt(text, "<@", 0);
    assert text[2..] == "B1>";
    assert "B1>"[0..1][0] == 'B' && "B1>"[1..2][0] == '1' && "B1>"[2..3][0] == '>';
    assert "B1>"[2..3] == ">";
  }

  lemma SplitExample()
    ensures Split("B1", '|') == ["B1"]
  {
    assert "B1"[0..1][0] == 'B' && "B1"[1..2][0] == '1';
  }

  /** A text whose turn cannot rewrite it never finishes. */
  lemma RunStuckSteps(text: string, step: string -> Step, n: nat)
    requires step(text).Stuck? || step(text).Panic?
    ensures RunSteps(text, step, n).None?
  {
  }

  /** The texts a finishing run passes through, the first being the input
      and the last the result. */
  ghost function TraceSteps(text: string, step: string -> Step, fuel: nat): (tr: seq<string>)
    requires RunSteps(text, step, fuel).Some?
    ensures |tr| >= 1 && tr[0] == text && tr[|tr| - 1] == RunSteps(text, step, fuel).value
    ensures forall i | 0 <= i < |tr| - 1 :: step(tr[i]) == Next(tr[i + 1])
    decreases fuel
  {
    if step(text).Done? then [text]
    else
      var rest := TraceSteps(step(text).text, step, fuel - 1);
      assert forall i | 1 <= i < |rest| :: ([text] + rest)[i] == rest[i - 1];
      [text] + rest
  }

  /** Along a trace every text but the last takes a rewriting turn to the
      next one, and only the last is finished. */
  lemma TraceAt(text: string, step: string -> Step, fuel: nat, i: nat)
    requires RunSteps(text, step, fuel).Some?
    requires i < |TraceSteps(text, step, fuel)|
    ensures var tr := TraceSteps(text, step, fuel);
      (step(tr[i]).Done? <==> i == |tr| - 1) &&
      (i < |tr| - 1 ==> step(tr[i]) == Next(tr[i + 1]))
  {
  }

  /** The text translateMessage's loop ends with, for a text on which it
      ends. */
  ghost function Finished(text: string, user: string -> string, channel: string -> string): (r: string)
    requires exists n :: Run(text, user, channel, n).Some?
    ensures MentionAt(r).None?
    ensures forall n | Run(text, user, channel, n).Some? :: Run(text, user, channel, n).value == r
  {
    var n :| Run(text, user, channel, n).Some?;
    StepperAt(user, channel, RunSteps(text, Stepper(user, channel), n).value);
    forall m | Run(text, user, channel, m).Some?
      ensures Run(text, user, channel, m).value == RunSteps(text, Stepper(user, channel), n).value
    {
      RunUnique(text, Stepper(user, channel), m, n);
    }
    RunSteps(text, Stepper(user, channel), n).value
  }

  /** Two bounds under which a run finishes give the same text. */
  lemma RunUnique(text: string, step: string -> Step, n: nat, m: nat)
    requires RunSteps(text, step, n).Some? && RunSteps(text, step, m).Some?
    ensures RunSteps(text, step, n) == RunSteps(text, step, m)
  {
    if n <= m {
      RunMonotone(text, step, n, m);
    } else {
      RunMonotone(text, step, m, n);
    }
  }

  /** translateMessage's loop over the text. It ends only when the text has no
      mention left, which not every text reaches. */
  method Translate(text: string, user: string -> string, channel: string -> string) returns (r: string)
    requires exists n :: Run(text, user, channel, n).Some?
    ensures MentionAt(r).None?
    ensures forall n | Run(text, user, channel, n).Some? :: Run(text, user, channel, n).value == r
  {
    ghost var fuel: nat :| Run(text, user, channel, fuel).Some?;
    ghost var trace := TraceSteps(text, Stepper(user, channel), fuel);
    ghost var i := 0;
    r := text;
    while true
      invariant 0 <= i < |trace| && r == trace[i]
      decreases |trace| - i
    {
      var m := MentionAt(r);
      StepperAt(user, channel, r);
      TraceAt(text, Stepper(user, channel), fuel, i);
      if m.None? {
        break;
      }
      r := RewriteFirst(r, m.value.0, m.value.1, user, channel);
      i := i + 1;
    }
    assert r == RunSteps(text, Stepper(user, channel), fuel).value;
    forall n | Run(text, user, channel, n).Some?
      ensures Run(text, user, channel, n).value == r
    {
      RunUnique(text, Stepper(user, channel), n, fuel);
    }
  }

  /** The body of translateMessage's loop once a mention has been found: the
      text after one rewriting turn. */
  method RewriteFirst(text: string, index: nat, end: nat, user: string -> string, channel: string -> string)
    returns (r: string)
    requires MentionAt(text) == Some((index, end)) && StepOf(text, user, channel).Next?
    ensures r == StepOf(text, user, channel).text
  {
    var parts := Split(text[index + 2..index + 2 + end], '|');
    var rest := text[end + index + 3..];
    assert StepOf(text, user, channel) == StepAt(text, index, end, user, channel);
    if |parts| == 2 {
      if parts[0][0] == 'U' {
        r := "@" + parts[1] + rest;
      } else {
        r := "#" + parts[1] + rest;
      }
    } else if |parts| == 1 && |parts[0]| > 0 && parts[0][0] == 'U' {
      r := "@" + user(parts[0]) + rest;
    } else if |parts| == 1 && |parts[0]| > 0 && parts[0][0] == 'C' {
      r := "#" + channel(parts[0]) + rest;
    } else {
      assert false;
    }
  }

  // ---------------------------------------------------------------------------
  // Reconnecting after a connection error

  /** The first rtm.start attempt that succeeds. */
  function FirstStart(attempts: seq<Option<StartReply>>): (i: nat)
    requires exists j | 0 <= j < |attempts| :: attempts[j].Some?
    ensures i < |attempts| && attempts[i].Some?
    ensures forall j | 0 <= j < i :: attempts[j].None?
  {
    if attempts[0].Some? then 0
    else
      assert exists j | 0 <= j < |attempts[1..]| :: attempts[1..][j].Some? by {
        var j :| 0 <= j < |attempts| && attempts[j].Some?;
        assert attempts[1..][j - 1] == attempts[j];
      }
      1 + FirstStart(attempts[1..])
  }

  /** The retry loop of receiveMessages: one rtm.start a minute until one
      succeeds; the team information is that attempt's. The loop does not end
      while attempts fail, so some attempt must succeed. */
  method Reconnect(attempts: seq<Option<StartReply>>) returns (info: StartReply, tries: nat)
    requires exists j | 0 <= j < |attempts| :: attempts[j].Some?
    ensures tries == FirstStart(attempts) + 1
    ensures info == attempts[tries - 1].value
  {
    var i := 0;
    while attempts[i].None?
      invariant 0 <= i <= FirstStart(attempts)
      decreases FirstStart(attempts) - i
    {
      i := i + 1;
    }
    info := attempts[i].value;
    tries := i + 1;
  }
}
