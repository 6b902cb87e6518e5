/** The text operations the publication script relies on: line splitting as Python does it for
    `bytes` and for `str`, stripping, splitting at a character, and decimal numbers. A record is a
    string with one character per byte; a state file is its decoded text. */
module Text {
  import opened Wrappers

  /** The length of the first line of `s`, its line break included: `bytes.splitlines` breaks at
      LF, CR and CR LF, and at nothing else. */
  function LineLength(s: string): (k: nat)
    requires s != ""
    ensures 1 <= k <= |s|
  {
    if s[0] == '\n' then 1
    else if s[0] == '\r' then if |s| > 1 && s[1] == '\n' then 2 else 1
    else if |s| == 1 then 1
    else 1 + LineLength(s[1..])
  }

  /** `bytes.splitlines(keepends=True)`. */
  function Lines(s: string): seq<string>
  {
    if s == "" then [] else [s[..LineLength(s)]] + Lines(s[LineLength(s)..])
  }

  /** `b"".join`. */
  function Join(lines: seq<string>): string
  {
    if lines == [] then "" else lines[0] + Join(lines[1..])
  }

  predicate IsBreak(c: char) { c == '\n' || c == '\r' }

  /** Nothing, or text whose last character is a line break. */
  predicate Terminated(s: string) { s == "" || IsBreak(s[|s| - 1]) }

  predicate BreakFree(s: string) { forall i :: 0 <= i < |s| ==> !IsBreak(s[i]) }

  /** Any of the three breaks ends a line that has none in it, and the rest is split by itself. */
  lemma {:induction false} LinesApart(h: string, b: string, t: string)
    requires BreakFree(h) && (b == "\n" || b == "\r\n" || (b == "\r" && !("\n" <= t)))
    ensures LineLength(h + b + t) == |h| + |b|
    ensures Lines(h + b + t) == [h + b] + Lines(t)
    decreases |h|
  {
    var s := h + b + t;
    if h == "" {
      assert s == b + t && s[0] == b[0];
    } else {
      assert s[0] == h[0] && s[1..] == h[1..] + b + t;
      LinesApart(h[1..], b, t);
    }
    assert s[..|h| + |b|] == h + b && s[|h| + |b|..] == t;
  }

  lemma {:induction false} JoinLines(s: string)
    ensures Join(Lines(s)) == s
  {
    if s == "" {
    } else {
      JoinLines(s[LineLength(s)..]);
    }
  }

  lemma {:induction false} JoinConcat(a: seq<string>, b: seq<string>)
    ensures Join(a + b) == Join(a) + Join(b)
  {
    if a == [] {
      assert a + b == b;
    } else {
      JoinConcat(a[1..], b);
      assert (a + b)[1..] == a[1..] + b;
    }
  }

  /** The first line of `a` is the first line of `a + t`, unless the break between them would
      merge with what follows. */
  lemma {:induction false} LineLengthConcat(a: string, t: string)
    requires a != "" && Terminated(a)
    requires t != "" ==> t[0] != '\n'
    ensures LineLength(a + t) == LineLength(a)
  {
    if IsBreak(a[0]) {
    } else {
      assert (a + t)[1..] == a[1..] + t;
      LineLengthConcat(a[1..], t);
    }
  }

  lemma {:induction false} LinesConcat(a: string, t: string)
    requires Terminated(a)
    requires t != "" ==> t[0] != '\n'
    ensures Lines(a + t) == Lines(a) + Lines(t)
  {
    if a == "" {
      assert a + t == t;
    } else {
      var k := LineLength(a);
      LineLengthConcat(a, t);
      assert (a + t)[..k] == a[..k];
      assert (a + t)[k..] == a[k..] + t;
      LinesConcat(a[k..], t);
    }
  }

  /** One line: break-free text closed by LF. */
  lemma {:induction false} OneLine(s: string)
    requires BreakFree(s)
    ensures LineLength(s + "\n") == |s| + 1
    ensures Lines(s + "\n") == [s + "\n"]
  {
    if s == "" {
    } else {
      assert (s + "\n")[1..] == s[1..] + "\n";
      OneLine(s[1..]);
    }
    assert Lines((s + "\n")[|s| + 1..]) == [];
    assert (s + "\n")[..|s| + 1] == s + "\n";
  }

  /** Where the last line of `s` starts when `s` does not end in a line break. */
  function LastBreak(s: string): (k: nat)
    ensures k <= |s| && Terminated(s[..k]) && BreakFree(s[k..])
  {
    if s == "" || IsBreak(s[|s| - 1]) then |s|
    else
      var k := LastBreak(s[..|s| - 1]);
      assert s[..|s| - 1][..k] == s[..k];
      assert s[k..] == s[..|s| - 1][k..] + [s[|s| - 1]];
      k
  }

  /** The line breaks of `str.splitlines`, which are more than those of `bytes.splitlines`. */
  predicate IsTextBreak(c: char)
  {
    c == '\n' || c == '\r' || c in {'\U{0B}', '\U{0C}', '\U{1C}', '\U{1D}', '\U{1E}', '\U{85}', '\U{2028}', '\U{2029}'}
  }

  /** `str.splitlines()`: the lines of decoded text, without their breaks. */
  function TextLines(s: string): seq<string>
    decreases |s|, |s| + 1
  {
    if s == "" then []
    else TextLinesFrom(s, 0)
  }

  /** The lines of `s` when its first `k` characters are known to belong to the first line. */
  function TextLinesFrom(s: string, k: nat): (lines: seq<string>)
    requires k <= |s| && s != ""
    ensures lines != []
    decreases |s|, |s| - k
  {
    if k == |s| then [s]
    else if IsTextBreak(s[k]) then
      var next := if s[k] == '\r' && k + 1 < |s| && s[k + 1] == '\n' then k + 2 else k + 1;
      [s[..k]] + TextLines(s[next..])
    else TextLinesFrom(s, k + 1)
  }

  predicate TextBreakFree(s: string) { forall i :: 0 <= i < |s| ==> !IsTextBreak(s[i]) }

  /** What may stand between two lines of text; a CR and an LF are one break. */
  predicate TextBreak(b: string, rest: string)
  {
    b in {"\n", "\r\n", "\U{0B}", "\U{0C}", "\U{1C}", "\U{1D}", "\U{1E}", "\U{85}", "\U{2028}", "\U{2029}"}
    || (b == "\r" && !("\n" <= rest))
  }

  /** Any of them ends a line that has none in it, and the rest is split by itself. */
  lemma {:induction false} TextLinesApart(h: string, b: string, t: string, k: nat)
    requires TextBreakFree(h) && k <= |h| && TextBreak(b, t)
    ensures TextLinesFrom(h + b + t, k) == [h] + TextLines(t)
    decreases |h| - k
  {
    var s := h + b + t;
    if k == |h| {
      assert s[..k] == h && s[k..] == b + t && s[k] == b[0];
      assert s[k + |b|..] == t;
    } else {
      assert s[k] == h[k];
      TextLinesApart(h, b, t, k + 1);
    }
  }

  /** Python's whitespace among the characters below 0x80. */
  predicate IsSpace(c: char)
  {
    c in {' ', '\t', '\n', '\r', '\U{0B}', '\U{0C}', '\U{1C}', '\U{1D}', '\U{1E}', '\U{1F}'}
  }

  function StripLeft(s: string): string
  {
    if s != "" && IsSpace(s[0]) then StripLeft(s[1..]) else s
  }

  function StripRight(s: string): string
  {
    if s != "" && IsSpace(s[|s| - 1]) then StripRight(s[..|s| - 1]) else s
  }

  /** `str.strip()`. */
  function Strip(s: string): string { StripRight(StripLeft(s)) }

  lemma StripLine(s: string)
    requires s != "" && !IsSpace(s[0]) && !IsSpace(s[|s| - 1])
    ensures Strip(s + "\n") == s && Strip(s) == s
  {
    assert StripLeft(s + "\n") == s + "\n";
    assert (s + "\n")[..|s|] == s;
    assert StripRight(s + "\n") == StripRight(s);
  }

  predicate OnlySpace(s: string) { forall i :: 0 <= i < |s| ==> IsSpace(s[i]) }

  /** What is stripped is all the blanks at both ends, and no more. */
  lemma {:induction false} StripsBlanks(l: string, s: string, r: string)
    requires OnlySpace(l) && OnlySpace(r) && s != "" && !IsSpace(s[0]) && !IsSpace(s[|s| - 1])
    ensures Strip(l + s + r) == s
    decreases |l| + |r|
  {
    if l != "" {
      assert (l + s + r)[1..] == l[1..] + s + r;
      StripsBlanks(l[1..], s, r);
    } else {
      assert l + s + r == s + r && StripLeft(s + r) == s + r;
      if r != "" {
        assert (s + r)[..|s + r| - 1] == s + r[..|r| - 1];
        assert l + s + r[..|r| - 1] == s + r[..|r| - 1] && StripLeft(s + r[..|r| - 1]) == s + r[..|r| - 1];
        StripsBlanks(l, s, r[..|r| - 1]);
      } else {
        assert s + r == s;
      }
    }
  }

  lemma {:induction false} StripsAll(s: string)
    requires OnlySpace(s)
    ensures Strip(s) == ""
    decreases |s|
  {
    if s != "" { StripsAll(s[1..]); }
  }

  predicate IsDigit(c: char) { '0' <= c <= '9' }

  predicate AllDigits(s: string) { forall i :: 0 <= i < |s| ==> IsDigit(s[i]) }

  /** `str.isdigit()`: one digit at least, and nothing else. */
  predicate IsNumber(s: string) { s != "" && AllDigits(s) }

  /** `int(s)` of a string of digits. */
  function Number(s: string): nat
    requires AllDigits(s)
  {
    if s == "" then 0
    else Number(s[..|s| - 1]) * 10 + (s[|s| - 1] as int - '0' as int)
  }

  /** `str(n)` of a number that is not negative. */
  function Decimal(n: nat): (s: string)
    ensures IsNumber(s)
  {
    var last := [('0' as int + n % 10) as char];
    if n < 10 then last else Decimal(n / 10) + last
  }

  lemma {:induction false} DecimalRoundTrip(n: nat)
    ensures Number(Decimal(n)) == n
  {
    var s := Decimal(n);
    if n >= 10 {
      DecimalRoundTrip(n / 10);
      assert s[..|s| - 1] == Decimal(n / 10);
    } else {
      assert s[..|s| - 1] == "";
    }
  }

  /** `str(code)` of any integer. */
  function Signed(n: int): (s: string)
    ensures s != ""
  {
    if n < 0 then "-" + Decimal(-n) else Decimal(n)
  }

  /** `s.split(c)`. */
  function Split(s: string, c: char): (parts: seq<string>)
    ensures parts != []
  {
    SplitFrom(s, c, 0)
  }

  function SplitFrom(s: string, c: char, k: nat): (parts: seq<string>)
    requires k <= |s|
    ensures parts != []
    decreases |s|, |s| - k
  {
    if k == |s| then [s]
    else if s[k] == c then [s[..k]] + SplitFrom(s[k + 1..], c, 0)
    else SplitFrom(s, c, k + 1)
  }

  lemma {:induction false} SplitHead(h: string, c: char, t: string, k: nat)
    requires c !in h && k <= |h|
    ensures SplitFrom(h + [c] + t, c, k) == [h] + Split(t, c)
    decreases |h| - k
  {
    var s := h + [c] + t;
    if k == |h| {
      assert s[..k] == h && s[k + 1..] == t;
    } else {
      assert s[k] == h[k];
      SplitHead(h, c, t, k + 1);
    }
  }

  lemma {:induction false} SplitWhole(h: string, c: char, k: nat)
    requires c !in h && k <= |h|
    ensures SplitFrom(h, c, k) == [h]
    decreases |h| - k
  {
    if k == |h| {
    } else {
      SplitWhole(h, c, k + 1);
    }
  }

  /** Where `c` first occurs in `s`, from `k` on; the length of `s` when it does not. */
  function IndexOf(s: string, c: char, k: nat): (i: nat)
    requires k <= |s|
    ensures k <= i <= |s|
    ensures i < |s| ==> s[i] == c
    ensures forall j :: k <= j < i ==> s[j] != c
    decreases |s| - k
  {
    if k == |s| || s[k] == c then k else IndexOf(s, c, k + 1)
  }

  predicate StartsWith(s: string, prefix: string) { prefix <= s }
}
