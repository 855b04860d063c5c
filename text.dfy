/**
  The string operations the debugging agent relies on, in Python's terms:
  `str.strip`, `str.rstrip`, `str.lower`, `"\n".join` and the decimal
  rendering of a line number inside an f-string.
 */
module Text {

  /** Python's `str.isspace` for one character: the characters `strip` removes. */
  predicate IsSpace(c: char)
  {
    || c == ' '
    || '\t' <= c <= '\r'
    || '\U{1C}' <= c <= '\U{1F}'
    || c == '\U{85}' || c == '\U{A0}' || c == '\U{1680}'
    || '\U{2000}' <= c <= '\U{200A}'
    || c == '\U{2028}' || c == '\U{2029}' || c == '\U{202F}'
    || c == '\U{205F}' || c == '\U{3000}'
  }

  /** `s.rstrip()`: the longest prefix of `s` that does not end in whitespace. */
  function TrimEnd(s: string): (r: string)
    ensures r <= s
    ensures r == [] || !IsSpace(r[|r| - 1])
    ensures forall i :: |r| <= i < |s| ==> IsSpace(s[i])
    decreases |s|
  {
    if s != [] && IsSpace(s[|s| - 1]) then TrimEnd(s[..|s| - 1]) else s
  }

  /** `s.lstrip()`: the longest suffix of `s` that does not start with whitespace. */
  function TrimStart(s: string): (r: string)
    ensures |r| <= |s| && r == s[|s| - |r|..]
    ensures r == [] || !IsSpace(r[0])
    ensures forall i :: 0 <= i < |s| - |r| ==> IsSpace(s[i])
    decreases |s|
  {
    if s != [] && IsSpace(s[0]) then TrimStart(s[1..]) else s
  }

  /** `s.strip()`. */
  function Strip(s: string): string
  {
    TrimStart(TrimEnd(s))
  }

  lemma TrimEndOfTrimmed(s: string)
    requires s == [] || !IsSpace(s[|s| - 1])
    ensures TrimEnd(s) == s
  {
  }

  lemma TrimStartOfTrimmed(s: string)
    requires s == [] || !IsSpace(s[0])
    ensures TrimStart(s) == s
  {
  }

  /** A stripped string neither starts nor ends with whitespace, and is a slice of the input. */
  lemma StripShape(s: string)
    ensures Strip(s) == [] || (!IsSpace(Strip(s)[0]) && !IsSpace(Strip(s)[|Strip(s)| - 1]))
    ensures exists i, j :: 0 <= i <= j <= |s| && Strip(s) == s[i..j]
  {
    var e := TrimEnd(s);
    var r := TrimStart(e);
    assert e == s[..|e|];
    assert r == e[|e| - |r|..] == s[|e| - |r|..|e|];
    if r != [] {
      assert r[|r| - 1] == e[|e| - 1];
    }
  }

  /** Stripping twice is stripping once. */
  lemma StripIdempotent(s: string)
    ensures Strip(Strip(s)) == Strip(s)
  {
    var r := Strip(s);
    StripShape(s);
    TrimEndOfTrimmed(r);
    TrimStartOfTrimmed(r);
  }

  /** A string with no whitespace at either end is its own strip. */
  lemma StripOfTrimmed(s: string)
    requires s == [] || (!IsSpace(s[0]) && !IsSpace(s[|s| - 1]))
    ensures Strip(s) == s
  {
    TrimEndOfTrimmed(s);
    TrimStartOfTrimmed(s);
  }

  /** `c.lower()` for ASCII characters; every other character is left as it is. */
  function LowerChar(c: char): char
  {
    if 'A' <= c <= 'Z' then (c as int + 32) as char else c
  }

  /** `s.lower()`, character by character. */
  function Lower(s: string): string
  {
    seq(|s|, i requires 0 <= i < |s| => LowerChar(s[i]))
  }

  /** The decimal digit for `d`. */
  function Digit(d: nat): char
    requires d < 10
  {
    ('0' as int + d) as char
  }

  predicate IsDigit(c: char)
  {
    '0' <= c <= '9'
  }

  /** `f"{n}"` for a natural number: its decimal digits, most significant first. */
  function NatToString(n: nat): (r: string)
    ensures |r| >= 1
    ensures forall i :: 0 <= i < |r| ==> IsDigit(r[i])
  {
    if n < 10 then [Digit(n)] else NatToString(n / 10) + [Digit(n % 10)]
  }

  /** The value of a string of decimal digits. */
  function ParseNat(ds: string): nat
    requires forall i :: 0 <= i < |ds| ==> IsDigit(ds[i])
  {
    if ds == [] then 0
    else
      assert IsDigit(ds[|ds| - 1]);
      ParseNat(ds[..|ds| - 1]) * 10 + (ds[|ds| - 1] as int - '0' as int)
  }

  /** Reading a rendered line number back gives the number. */
  lemma {:induction false} ParseNatToString(n: nat)
    ensures ParseNat(NatToString(n)) == n
  {
    if n >= 10 {
      var s := NatToString(n);
      assert s[..|s| - 1] == NatToString(n / 10);
      ParseNatToString(n / 10);
    }
  }

  /** The number of leading decimal digits of `s`. */
  function DigitRun(s: string): (k: nat)
    ensures k <= |s|
    ensures forall i :: 0 <= i < k ==> IsDigit(s[i])
    ensures k == |s| || !IsDigit(s[k])
  {
    if s != [] && IsDigit(s[0]) then 1 + DigitRun(s[1..]) else 0
  }

  /** A run of digits followed by a non-digit is read off exactly. */
  lemma {:induction false} DigitRunOfDigits(ds: string, rest: string)
    requires forall i :: 0 <= i < |ds| ==> IsDigit(ds[i])
    requires rest != [] && !IsDigit(rest[0])
    ensures DigitRun(ds + rest) == |ds|
  {
    if ds != [] {
      assert (ds + rest)[1..] == ds[1..] + rest;
      DigitRunOfDigits(ds[1..], rest);
    }
  }

  /** `"\n".join(ss)`. */
  function JoinLines(ss: seq<string>): string
  {
    if ss == [] then ""
    else if |ss| == 1 then ss[0]
    else JoinLines(ss[..|ss| - 1]) + "\n" + ss[|ss| - 1]
  }

  predicate NoNewline(s: string)
  {
    forall i :: 0 <= i < |s| ==> s[i] != '\n'
  }

  /** The position of the last newline in `s`, or -1 when there is none. */
  function LastNewline(s: string): (k: int)
    ensures -1 <= k < |s|
    ensures k >= 0 ==> s[k] == '\n'
    ensures forall i :: k < i < |s| ==> s[i] != '\n'
  {
    if s == [] then -1
    else if s[|s| - 1] == '\n' then |s| - 1
    else LastNewline(s[..|s| - 1])
  }

  /** `s.split("\n")`: the inverse of `JoinLines` on lines without a newline. */
  function SplitLines(s: string): (r: seq<string>)
    ensures |r| >= 1
    decreases |s|
  {
    var k := LastNewline(s);
    if k < 0 then [s] else SplitLines(s[..k]) + [s[k + 1..]]
  }

  /**
    Joining lines that hold no newline and splitting the result gives the lines
    back, so the joined snippet has exactly one line per entry.
   */
  lemma {:induction false} SplitJoinLines(ss: seq<string>)
    requires ss != []
    requires forall i :: 0 <= i < |ss| ==> NoNewline(ss[i])
    ensures SplitLines(JoinLines(ss)) == ss
  {
    if |ss| == 1 {
      LastNewlineNone(ss[0]);
    } else {
      var init, last := ss[..|ss| - 1], ss[|ss| - 1];
      var j := JoinLines(init);
      var s := j + "\n" + last;
      assert JoinLines(ss) == s;
      LastNewlineAfter(j, last);
      assert s[..|j|] == j;
      assert s[|j| + 1..] == last;
      assert SplitLines(s) == SplitLines(j) + [last];
      SplitJoinLines(init);
      assert init + [last] == ss;
    }
  }

  lemma {:induction false} LastNewlineNone(s: string)
    requires NoNewline(s)
    ensures LastNewline(s) == -1
  {
    if s != [] {
      LastNewlineNone(s[..|s| - 1]);
    }
  }

  lemma {:induction false} LastNewlineAfter(j: string, last: string)
    requires NoNewline(last)
    ensures LastNewline(j + "\n" + last) == |j|
    decreases |last|
  {
    var s := j + "\n" + last;
    if last != [] {
      assert s[..|s| - 1] == j + "\n" + last[..|last| - 1];
      LastNewlineAfter(j, last[..|last| - 1]);
    }
  }

  /** Stripping the sample answers used to illustrate confirmation. */
  lemma StripDenials()
    ensures Strip("") == "" && Strip("n") == "n" && Strip("yes") == "yes"
  {
    StripOfTrimmed("n");
    StripOfTrimmed("yes");
  }

  lemma StripSpacedY()
    ensures Strip(" Y ") == "Y"
  {
    assert " Y "[..2] == " Y";
    assert " Y"[1..] == "Y";
  }

  lemma StripYNewline()
    ensures Strip("y\n") == "y"
  {
    assert IsSpace('\n') && !IsSpace('y');
    assert "y\n"[..1] == "y";
    assert TrimEnd("y\n") == TrimEnd("y");
    StripOfTrimmed("y");
  }
}
