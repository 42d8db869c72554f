/** Helpers shared by the whole model: failure wrappers, the parts of Go's
    `strings`, `strconv` and `net/url` packages that the client and its
    example programs rely on, stated over `seq<char>`. */
module Common {

  datatype Option<+T> = None | Some(value: T)

  datatype Result<+T, +E> = Ok(value: T) | Err(error: E)

  // ---------------------------------------------------------------------------
  // Characters

  /** unicode.IsSpace restricted to the Latin-1 range: '\t', '\n', '\v', '\f',
      '\r', ' ', U+0085 and U+00A0. */
  predicate IsSpace(c: char)
  {
    c == ' ' || (9 <= c as int <= 13) || c as int == 0x85 || c as int == 0xA0
  }

  predicate IsDigit(c: char)
  {
    '0' <= c <= '9'
  }

  /** ASCII upper-case to lower-case; every other character is kept. */
  function LowerChar(c: char): (r: char)
    ensures 'A' <= c <= 'Z' ==> r as int == c as int + 32
    ensures !('A' <= c <= 'Z') ==> r == c
  {
    if 'A' <= c <= 'Z' then (c as int + 32) as char else c
  }

  /** strings.ToLower over ASCII letters. */
  function ToLower(s: string): (r: string)
    ensures |r| == |s|
    ensures forall i | 0 <= i < |s| :: r[i] == LowerChar(s[i])
  {
    if s == [] then [] else [LowerChar(s[0])] + ToLower(s[1..])
  }

  /** strings.EqualFold over ASCII letters. */
  predicate EqualFold(a: string, b: string)
  {
    ToLower(a) == ToLower(b)
  }

  // ---------------------------------------------------------------------------
  // Searching

  predicate HasPrefix(s: string, p: string)
  {
    |p| <= |s| && s[..|p|] == p
  }

  predicate HasSuffix(s: string, p: string)
  {
    |p| <= |s| && s[|s| - |p|..] == p
  }

  predicate OccursAt(s: string, p: string, i: int)
  {
    0 <= i && i + |p| <= |s| && s[i..i + |p|] == p
  }

  function IndexFrom(s: string, p: string, i: nat): (r: int)
    decreases |s| - i
    ensures r == -1 || (i <= r && OccursAt(s, p, r))
    ensures r == -1 ==> forall j | i <= j :: !OccursAt(s, p, j)
    ensures r != -1 ==> forall j | i <= j < r :: !OccursAt(s, p, j)
  {
    if i + |p| > |s| then -1
    else if s[i..i + |p|] == p then i
    else IndexFrom(s, p, i + 1)
  }

  /** strings.Index: the first position where `p` occurs in `s`, or -1. */
  function Index(s: string, p: string): (r: int)
    ensures r == -1 || OccursAt(s, p, r)
    ensures r == -1 ==> forall j :: !OccursAt(s, p, j)
    ensures r != -1 ==> forall j | 0 <= j < r :: !OccursAt(s, p, j)
  {
    IndexFrom(s, p, 0)
  }

  /** Index for a single character: the first position holding it. */
  lemma IndexChar(s: string, c: char)
    ensures var e := Index(s, [c]);
      (e == -1 ==> c !in s) && (e != -1 ==> 0 <= e < |s| && s[e] == c && c !in s[..e])
  {
    var e := Index(s, [c]);
    if e == -1 {
      forall j | 0 <= j < |s| ensures s[j] != c {
        assert !OccursAt(s, [c], j);
      }
    } else {
      assert OccursAt(s, [c], e);
      forall j | 0 <= j < e ensures s[j] != c {
        assert !OccursAt(s, [c], j);
      }
    }
  }

  predicate Contains(s: string, p: string)
  {
    Index(s, p) != -1
  }

  // ---------------------------------------------------------------------------
  // Splitting and joining

  /** strings.Split with a one-character separator: always at least one piece,
      "" gives [""], and no piece contains the separator. */
  function Split(s: string, sep: char): (r: seq<string>)
    decreases |s|
    ensures |r| >= 1
    ensures forall k | 0 <= k < |r| :: sep !in r[k]
  {
    var i := Index(s, [sep]);
    IndexChar(s, sep);
    if i == -1 then [s]
    else [s[..i]] + Split(s[i + 1..], sep)
  }

  /** No string is listed twice. */
  predicate NoDup(s: seq<string>)
  {
    forall a, b | 0 <= a < b < |s| :: s[a] != s[b]
  }

  /** strings.Join. */
  function Join(parts: seq<string>, sep: string): (r: string)
  {
    if parts == [] then []
    else if |parts| == 1 then parts[0]
    else parts[0] + sep + Join(parts[1..], sep)
  }

  lemma {:induction false} JoinSplit(s: string, sep: char)
    ensures Join(Split(s, sep), [sep]) == s
    decreases |s|
  {
    var i := Index(s, [sep]);
    if i != -1 {
      JoinSplit(s[i + 1..], sep);
      var rest := Split(s[i + 1..], sep);
      var parts := [s[..i]] + rest;
      assert Split(s, sep) == parts;
      assert |parts| >= 2 && parts[0] == s[..i] && parts[1..] == rest;
      assert s == s[..i] + [sep] + s[i + 1..];
    }
  }

  /** strings.Fields: the maximal runs of non-space characters, in order. */
  function Fields(s: string): (r: seq<string>)
    decreases |s|
    ensures forall k | 0 <= k < |r| :: r[k] != [] && forall c | c in r[k] :: !IsSpace(c)
  {
    if s == [] then []
    else if IsSpace(s[0]) then Fields(s[1..])
    else
      var n := WordLength(s);
      [s[..n]] + Fields(s[n..])
  }

  /** Length of the leading run of non-space characters. */
  function WordLength(s: string): (n: nat)
    ensures n <= |s|
    ensures forall j | 0 <= j < n :: !IsSpace(s[j])
    ensures n < |s| ==> IsSpace(s[n])
  {
    if s == [] || IsSpace(s[0]) then 0 else 1 + WordLength(s[1..])
  }

  /** strings.TrimSpace. */
  function TrimSpace(s: string): (r: string)
    decreases |s|
    ensures r == [] || (!IsSpace(r[0]) && !IsSpace(r[|r| - 1]))
    ensures forall c | c in r :: c in s
  {
    if s == [] then []
    else if IsSpace(s[0]) then TrimSpace(s[1..])
    else if IsSpace(s[|s| - 1]) then TrimSpace(s[..|s| - 1])
    else s
  }

  predicate AllSpace(s: string)
  {
    forall c | c in s :: IsSpace(c)
  }

  /** `t` is `s` with white space cut from both ends: s is a + t + b with
      a and b white space only. */
  ghost predicate TrimsTo(s: string, t: string)
  {
    exists i, j | 0 <= i <= j <= |s| :: t == s[i..j] && SpacesOutside(s, i, j)
  }

  /** Everything before i and from j on is white space. */
  predicate SpacesOutside(s: string, i: nat, j: nat)
    requires i <= j <= |s|
  {
    (forall k | 0 <= k < i :: IsSpace(s[k])) && (forall k | j <= k < |s| :: IsSpace(s[k]))
  }

  /** TrimSpace removes white space from the two ends and nothing else. */
  lemma {:induction false} TrimSpaceTrims(s: string)
    ensures TrimsTo(s, TrimSpace(s))
    decreases |s|
  {
    if s == [] {
      assert TrimSpace(s) == s[0..0] && SpacesOutside(s, 0, 0);
    } else if IsSpace(s[0]) {
      TrimSpaceTrims(s[1..]);
      TrimsToFront(s, TrimSpace(s[1..]));
    } else if IsSpace(s[|s| - 1]) {
      TrimSpaceTrims(s[..|s| - 1]);
      TrimsToBack(s, TrimSpace(s[..|s| - 1]));
    } else {
      assert TrimSpace(s) == s[0..|s|] && SpacesOutside(s, 0, |s|);
    }
  }

  /** A leading white-space character widens the front cut by one. */
  lemma TrimsToFront(s: string, t: string)
    requires s != [] && IsSpace(s[0]) && TrimsTo(s[1..], t)
    ensures TrimsTo(s, t)
  {
    var rest := s[1..];
    var i, j :| 0 <= i <= j <= |rest| && t == rest[i..j] && SpacesOutside(rest, i, j);
    assert forall k | 0 < k < |s| :: s[k] == rest[k - 1];
    assert t == s[i + 1..j + 1] && SpacesOutside(s, i + 1, j + 1);
  }

  /** A trailing white-space character widens the back cut by one. */
  lemma TrimsToBack(s: string, t: string)
    requires s != [] && IsSpace(s[|s| - 1]) && TrimsTo(s[..|s| - 1], t)
    ensures TrimsTo(s, t)
  {
    var init := s[..|s| - 1];
    var i, j :| 0 <= i <= j <= |init| && t == init[i..j] && SpacesOutside(init, i, j);
    assert forall k | 0 <= k < |init| :: s[k] == init[k];
    assert t == s[i..j] && SpacesOutside(s, i, j);
  }

  /** Lower-casing turns no character into white space or out of it. */
  lemma LowerAllSpace(s: string)
    ensures AllSpace(ToLower(s)) <==> AllSpace(s)
  {
    var l := ToLower(s);
    assert forall k | 0 <= k < |s| :: IsSpace(l[k]) <==> IsSpace(s[k]);
    if AllSpace(s) {
      forall c | c in l ensures IsSpace(c) {
        var k :| 0 <= k < |l| && l[k] == c;
      }
    } else {
      var k :| 0 <= k < |s| && !IsSpace(s[k]);
      assert l[k] in l;
    }
  }

  /** Trimming leaves nothing exactly when the text is white space only. */
  lemma TrimSpaceEmpty(s: string)
    ensures TrimSpace(s) == [] <==> AllSpace(s)
  {
    var t := TrimSpace(s);
    TrimSpaceTrims(s);
    var i, j :| 0 <= i <= j <= |s| && t == s[i..j] && SpacesOutside(s, i, j);
    if t == [] {
      forall c | c in s ensures IsSpace(c) {
        var k :| 0 <= k < |s| && s[k] == c;
      }
    } else {
      assert t[0] == s[i];
    }
  }

  /** strings.Replace(s, from, to, -1) for one-character `from` and `to`. */
  function ReplaceChar(s: string, from: char, to: char): (r: string)
    ensures |r| == |s|
    ensures forall i | 0 <= i < |s| :: r[i] == (if s[i] == from then to else s[i])
  {
    if s == [] then [] else [if s[0] == from then to else s[0]] + ReplaceChar(s[1..], from, to)
  }

  // ---------------------------------------------------------------------------
  // Numbers

  function DigitChar(d: nat): (c: char)
    requires d < 10
    ensures IsDigit(c) && c as int - '0' as int == d
  {
    ('0' as int + d) as char
  }

  /** Decimal digits of a natural number, without leading zeros. */
  function NatToString(n: nat): (r: string)
    decreases n
    ensures |r| >= 1 && forall c | c in r :: IsDigit(c)
  {
    if n < 10 then [DigitChar(n)] else NatToString(n / 10) + [DigitChar(n % 10)]
  }

  /** strconv.Itoa. */
  function Itoa(n: int): (r: string)
  {
    if n < 0 then "-" + NatToString(-n) else NatToString(n)
  }

  /** The value of a non-empty run of decimal digits. */
  function DigitsValue(s: string): (v: nat)
    requires forall c | c in s :: IsDigit(c)
    decreases |s|
  {
    if s == [] then 0
    else
      assert s[|s| - 1] in s && IsDigit(s[|s| - 1]);
      DigitsValue(s[..|s| - 1]) * 10 + (s[|s| - 1] as int - '0' as int)
  }

  /** strconv.Atoi: an optional sign, then at least one decimal digit;
      anything else is a syntax error. The value is unbounded: the range
      error of a 64-bit overflow is not modelled. */
  function Atoi(s: string): (r: Option<int>)
    ensures r.Some? ==> |s| >= 1
  {
    var body := if s != [] && (s[0] == '+' || s[0] == '-') then s[1..] else s;
    if body == [] || exists c | c in body :: !IsDigit(c) then None
    else
      var v: int := DigitsValue(body);
      if s[0] == '-' then Some(-v) else Some(v)
  }

  lemma {:induction false} NatToStringValue(n: nat)
    ensures DigitsValue(NatToString(n)) == n
    decreases n
  {
    if n >= 10 {
      NatToStringValue(n / 10);
      var s := NatToString(n);
      assert s[..|s| - 1] == NatToString(n / 10);
    }
  }

  /** strconv.Atoi reads back what strconv.Itoa writes. */
  lemma AtoiItoa(n: int)
    ensures Atoi(Itoa(n)) == Some(n)
  {
    var m := if n < 0 then -n else n;
    NatToStringValue(m);
    var digits := NatToString(m);
    assert digits[0] in digits && digits[0] != '+' && digits[0] != '-';
    if n < 0 {
      var s := Itoa(n);
      assert s[0] == '-' && s[1..] == digits;
      var v: int := DigitsValue(digits);
      assert Atoi(s) == Some(-v);
    } else {
      assert Itoa(n) == digits;
    }
  }

  /** strconv.FormatBool. */
  function FormatBool(b: bool): (r: string)
    ensures r == "true" <==> b
  {
    if b then "true" else "false"
  }

  // ---------------------------------------------------------------------------
  // net/url Values

  /** A url.Values map: a key is present only with at least one value. */
  ghost predicate WellFormed(m: map<string, seq<string>>)
  {
    forall k | k in m :: m[k] != []
  }

  /** url.Values, updated in place by the request builders. */
  class Values {
    var entries: map<string, seq<string>>

    ghost predicate Valid()
      reads this
    {
      WellFormed(entries)
    }

    constructor (init: map<string, seq<string>>)
      requires WellFormed(init)
      ensures Valid() && entries == init
    {
      entries := init;
    }

    /** url.Values.Add: append `value` to the values of `key`. */
    method Add(key: string, value: string)
      requires Valid()
      modifies this
      ensures Valid()
      ensures entries == old(entries)[key := (if key in old(entries) then old(entries)[key] else []) + [value]]
    {
      var current := if key in entries then entries[key] else [];
      entries := entries[key := current + [value]];
    }

    /** url.Values.Set: `value` becomes the only value of `key`. */
    method Set(key: string, value: string)
      requires Valid()
      modifies this
      ensures Valid()
      ensures entries == old(entries)[key := [value]]
    {
      entries := entries[key := [value]];
    }
  }
}
