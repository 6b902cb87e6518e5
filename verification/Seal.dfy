/** The seal of a record and its two independent readers: `verify` of scripts/g6-publish-record.py
    and `read_sealed` of scripts/g6-verify-counts.py. SHA-256 is a parameter throughout: any
    function from text to sixty-four lower-case hexadecimal digits. */
module Seal {
  import opened Wrappers
  import opened Text

  predicate IsHex(c: char) { '0' <= c <= '9' || 'a' <= c <= 'f' }

  type Digest = s: string | |s| == 64 && forall i :: 0 <= i < |s| ==> IsHex(s[i])
    witness seq(64, _ => '0')

  const SIZE_KEY := "record-size\t"
  const SHA_KEY := "record-sha256\t"

  function SizeLine(body: string): string { SIZE_KEY + Decimal(|body|) + "\n" }

  function ShaLine(sha: string -> Digest, body: string): string { SHA_KEY + sha(body) + "\n" }

  lemma BreakFreeConcat(a: string, b: string)
    requires BreakFree(a) && BreakFree(b)
    ensures BreakFree(a + b)
  {
  }

  lemma SealTextBreakFree(n: nat, d: Digest)
    ensures BreakFree(SIZE_KEY + Decimal(n)) && BreakFree(SHA_KEY + d)
  {
    BreakFreeConcat(SIZE_KEY, Decimal(n));
    BreakFreeConcat(SHA_KEY, d);
  }

  /** `seal`. */
  function Sealed(sha: string -> Digest, body: string): string
  {
    body + (SizeLine(body) + ShaLine(sha, body))
  }

  datatype SealSplit = NotSealed | Parts(body: string, size: string, sha: string)

  /** `split_sealed`. */
  function SplitSealed(raw: string): SealSplit
  {
    var lines := Lines(raw);
    if |lines| < 2 then NotSealed
    else
      var size, sha := lines[|lines| - 2], lines[|lines| - 1];
      if !StartsWith(size, SIZE_KEY) || !StartsWith(sha, SHA_KEY) then NotSealed
      else Parts(Join(lines[..|lines| - 2]), Strip(size[|SIZE_KEY|..]), Strip(sha[|SHA_KEY|..]))
  }

  datatype Verdict = Intact | NoSeal | WrongSize | WrongDigest

  /** What `verify` says of the bytes of a record; an unreadable file is its caller's matter. */
  function Verify(sha: string -> Digest, raw: string): Verdict
  {
    match SplitSealed(raw)
    case NotSealed => NoSeal
    case Parts(body, size, digest) =>
      if !IsNumber(size) || Number(size) != |body| then WrongSize
      else if sha(body) != digest then WrongDigest
      else Intact
  }

  /** The checks of `read_sealed`, in its own order and with its own minimum of three lines. */
  function ReadSealed(sha: string -> Digest, raw: string): Option<string>
  {
    var lines := Lines(raw);
    if |lines| < 3 then None
    else
      var size, digest := lines[|lines| - 2], lines[|lines| - 1];
      if !StartsWith(size, SIZE_KEY) || !StartsWith(digest, SHA_KEY) then None
      else
        var body := Join(lines[..|lines| - 2]);
        var count := Strip(size[|SIZE_KEY|..]);
        if !IsNumber(count) || Number(count) != |body| then None
        else if sha(body) != Strip(digest[|SHA_KEY|..]) then None
        else Some(body)
  }

  lemma LinesOfThree(front: string, open: string, last: string, first: string, second: string)
    requires Terminated(front)
    requires BreakFree(open) && BreakFree(last) && open != "" && last != ""
    requires first == open + "\n" && second == last + "\n"
    ensures Lines(front + (first + second)) == Lines(front) + [first, second]
  {
    OneLine(open);
    OneLine(last);
    assert first[0] == open[0] && second[0] == last[0];
    LinesConcat(first, second);
    LinesConcat(front, first + second);
  }

  /** However the body ends, the digest line stands alone, and what lies between the last line
      break of the body and the end of the size line is one line. */
  lemma SealedLines(sha: string -> Digest, body: string, k: nat)
    requires k <= |body| && Terminated(body[..k]) && BreakFree(body[k..])
    ensures Lines(Sealed(sha, body)) == Lines(body[..k]) + [body[k..] + SizeLine(body), ShaLine(sha, body)]
  {
    SealTextBreakFree(|body|, sha(body));
    SealedLinesOf(body, k, SIZE_KEY + Decimal(|body|), SHA_KEY + sha(body), SizeLine(body), ShaLine(sha, body));
  }

  lemma SealedLinesOf(body: string, k: nat, size: string, digest: string, first: string, second: string)
    requires k <= |body| && Terminated(body[..k]) && BreakFree(body[k..])
    requires BreakFree(size) && BreakFree(digest) && size != "" && digest != ""
    requires first == size + "\n" && second == digest + "\n"
    ensures Lines(body + (first + second)) == Lines(body[..k]) + [body[k..] + first, second]
  {
    Regroup(body[..k], body[k..], size, first, second);
    LinesOfThree(body[..k], body[k..] + size, digest, body[k..] + first, second);
    assert body[..k] + body[k..] == body;
  }

  lemma Regroup(a: string, b: string, size: string, first: string, second: string)
    requires first == size + "\n"
    ensures a + (b + first + second) == a + b + (first + second)
    ensures b + first == b + size + "\n"
  {
  }

  lemma NoSpace(c: char)
    requires IsDigit(c) || IsHex(c)
    ensures !IsSpace(c)
  {
  }

  lemma SplitTwoLines(front: seq<string>, size: string, digest: Digest)
    requires IsNumber(size)
    ensures var lines := front + [SIZE_KEY + size + "\n", SHA_KEY + digest + "\n"];
            && lines[..|lines| - 2] == front
            && Strip(lines[|lines| - 2][|SIZE_KEY|..]) == size
            && Strip(lines[|lines| - 1][|SHA_KEY|..]) == digest
  {
    NoSpace(size[0]);
    NoSpace(size[|size| - 1]);
    NoSpace(digest[0]);
    NoSpace(digest[|digest| - 1]);
    StripLine(size);
    StripLine(digest);
    assert (SIZE_KEY + size + "\n")[|SIZE_KEY|..] == size + "\n";
    assert (SHA_KEY + digest + "\n")[|SHA_KEY|..] == digest + "\n";
  }

  /** A body that ends where a line ends is recovered whole, and its record verifies. */
  lemma SealRoundTrip(sha: string -> Digest, body: string)
    requires Terminated(body)
    ensures SplitSealed(Sealed(sha, body)) == Parts(body, Decimal(|body|), sha(body))
    ensures Verify(sha, Sealed(sha, body)) == Intact
  {
    WholeBodyLines(sha, body);
    JoinLines(body);
    SplitOf(Sealed(sha, body), Lines(body), Decimal(|body|), sha(body));
    assert SplitSealed(Sealed(sha, body)) == Parts(body, Decimal(|body|), sha(body));
    DecimalRoundTrip(|body|);
  }

  lemma SplitOf(raw: string, front: seq<string>, size: string, digest: Digest)
    requires Lines(raw) == front + [SIZE_KEY + size + "\n", SHA_KEY + digest + "\n"]
    requires IsNumber(size)
    ensures SplitSealed(raw) == Parts(Join(front), size, digest)
  {
    SplitTwoLines(front, size, digest);
  }

  lemma WholeBodyLines(sha: string -> Digest, body: string)
    requires Terminated(body)
    ensures Lines(Sealed(sha, body)) == Lines(body) + [SizeLine(body), ShaLine(sha, body)]
  {
    assert body[..|body|] == body && body[|body|..] == "";
    SealedLines(sha, body, |body|);
    assert body[|body|..] + SizeLine(body) == SizeLine(body);
  }

  /** Stripping keeps every character that is not whitespace. */
  lemma {:induction false} StripLeftKeeps(s: string, i: nat)
    requires i < |s| && !IsSpace(s[i])
    ensures s[i] in StripLeft(s)
  {
    if !IsSpace(s[0]) {
    } else {
      StripLeftKeeps(s[1..], i - 1);
    }
  }

  lemma {:induction false} StripRightKeeps(s: string, i: nat)
    requires i < |s| && !IsSpace(s[i])
    ensures s[i] in StripRight(s)
  {
    if !IsSpace(s[|s| - 1]) {
    } else {
      StripRightKeeps(s[..|s| - 1], i);
    }
  }

  lemma StripKeeps(s: string, i: nat)
    requires i < |s| && !IsSpace(s[i])
    ensures s[i] in Strip(s)
  {
    StripLeftKeeps(s, i);
    var t := StripLeft(s);
    var j :| 0 <= j < |t| && t[j] == s[i];
    StripRightKeeps(t, j);
  }

  /** A body that stops in the middle of a line takes the seal's first line with it: either that
      line no longer starts with the key, or what follows the key is no number. */
  lemma UnterminatedNeverVerifies(sha: string -> Digest, body: string)
    requires !Terminated(body)
    ensures Verify(sha, Sealed(sha, body)) != Intact
  {
    var k := LastBreak(body);
    SealedLines(sha, body, k);
    var lines := Lines(Sealed(sha, body));
    var size := lines[|lines| - 2];
    assert size == body[k..] + SizeLine(body);
    assert |body[k..]| > 0;
    if StartsWith(size, SIZE_KEY) {
      var at := |body[k..]|;
      assert size[at] == 'r' && size[at + 5] == 'd';
      var i := if at >= |SIZE_KEY| then at else if at + 5 >= |SIZE_KEY| then at + 5 else |SIZE_KEY|;
      if at + 5 < |SIZE_KEY| {
        // The key cannot start a second time inside itself.
        assert false;
      }
      var field := size[|SIZE_KEY|..];
      assert field[i - |SIZE_KEY|] == size[i];
      StripKeeps(field, i - |SIZE_KEY|);
      assert !IsNumber(Strip(field));
    }
  }

  /** `verify` accepts what `seal` made exactly when the body is empty or ends in a line break. */
  lemma VerifySealIff(sha: string -> Digest, body: string)
    ensures Verify(sha, Sealed(sha, body)) == Intact <==> Terminated(body)
  {
    if Terminated(body) {
      SealRoundTrip(sha, body);
    } else {
      UnterminatedNeverVerifies(sha, body);
    }
  }

  lemma {:induction false} LinesNonEmpty(s: string)
    ensures forall i :: 0 <= i < |Lines(s)| ==> Lines(s)[i] != ""
  {
    if s == "" {
    } else {
      LinesNonEmpty(s[LineLength(s)..]);
    }
  }

  /** The two readers agree on every record with a body, and on the body: the second one refuses
      only a record that carries nothing. */
  lemma ReadersAgree(sha: string -> Digest, raw: string, body: string)
    ensures ReadSealed(sha, raw) == Some(body)
            <==> body != "" && Verify(sha, raw) == Intact && SplitSealed(raw).Parts? && SplitSealed(raw).body == body
  {
    var lines := Lines(raw);
    if |lines| == 2 {
      assert Join(lines[..0]) == "";
    } else if |lines| >= 3 {
      LinesNonEmpty(raw);
      var front := lines[..|lines| - 2];
      assert front[0] == lines[0] != "";
      assert Join(front) == front[0] + Join(front[1..]);
    }
  }

  /** An intact record is what sealing its own body gives, up to the blanks a hand may have added:
      its body is followed by one line with its size and one with its digest. */
  lemma IntactCarriesItsBody(sha: string -> Digest, raw: string)
    requires Verify(sha, raw) == Intact
    ensures var parts := SplitSealed(raw);
            && parts.Parts? && parts.body <= raw
            && Number(parts.size) == |parts.body| && parts.sha == sha(parts.body)
  {
    var lines := Lines(raw);
    var front := lines[..|lines| - 2];
    assert lines == front + lines[|lines| - 2..];
    JoinConcat(front, lines[|lines| - 2..]);
    JoinLines(raw);
  }

  /** The key of a record line and its value: `line.partition("\t")`. */
  function Key(line: string): string { line[..IndexOf(line, '\t', 0)] }

  function Value(line: string): string
  {
    var i := IndexOf(line, '\t', 0);
    if i < |line| then line[i + 1..] else ""
  }

  lemma HexDigits(c: char)
    ensures IsHex(c) <==> c in "0123456789abcdef"
  {
    assert forall d :: d in "0123456789abcdef" <==> exists i :: 0 <= i < 16 && "0123456789abcdef"[i] == d;
  }

  /** A key without a tab in it and any value, put together with a tab, are that line's key and value; a
      line without a tab is all key. */
  lemma FieldRoundTrip(key: string, value: string)
    requires '\t' !in key
    ensures Key(key + "\t" + value) == key && Value(key + "\t" + value) == value
    ensures Key(key) == key && Value(key) == ""
  {
    var line := key + "\t" + value;
    assert line[|key|] == '\t' && forall j :: 0 <= j < |key| ==> line[j] == key[j];
    assert IndexOf(line, '\t', 0) == |key| && IndexOf(key, '\t', 0) == |key|;
  }

  /** The first line, from `k` on, that has `key`; the number of lines when none has. */
  function First(lines: seq<string>, key: string, k: nat): (i: nat)
    requires k <= |lines|
    ensures k <= i <= |lines|
    ensures i < |lines| ==> Key(lines[i]) == key
    ensures forall j :: k <= j < i ==> Key(lines[j]) != key
    decreases |lines| - k
  {
    if k == |lines| || Key(lines[k]) == key then k else First(lines, key, k + 1)
  }

  /** The dictionary `read_sealed` returns: every key of the body but the empty one, each with the
      value of the first line that has it. */
  method Fields(lines: seq<string>) returns (fields: map<string, string>)
    ensures forall key :: key in fields <==> key != "" && First(lines, key, 0) < |lines|
    ensures forall key :: key in fields ==> fields[key] == Value(lines[First(lines, key, 0)])
  {
    fields := map[];
    for n := 0 to |lines|
      invariant forall key :: key in fields <==> key != "" && First(lines, key, 0) < n
      invariant forall key :: key in fields ==> fields[key] == Value(lines[First(lines, key, 0)])
    {
      var key := Key(lines[n]);
      assert First(lines, key, 0) <= n;
      if key != "" && key !in fields {
        fields := fields[key := Value(lines[n])];
      }
    }
  }

  lemma ReaderAccepts(sha: string -> Digest, raw: string)
    ensures ReadSealed(sha, raw)
            == if Verify(sha, raw) == Intact && SplitSealed(raw).body != "" then Some(SplitSealed(raw).body) else None
  {
    if Verify(sha, raw) == Intact {
      ReadersAgree(sha, raw, SplitSealed(raw).body);
    }
    if ReadSealed(sha, raw).Some? {
      ReadersAgree(sha, raw, ReadSealed(sha, raw).value);
    }
  }

  /** `read_sealed` to its end: a record that does not verify, or has no body, gives nothing; any other
      gives the keys and values of its own body's lines. */
  method ReadFields(sha: string -> Digest, raw: string) returns (read: Option<map<string, string>>)
    ensures read.Some? <==> Verify(sha, raw) == Intact && SplitSealed(raw).body != ""
    ensures read.Some? ==>
              var lines := TextLines(SplitSealed(raw).body);
              && (forall key :: key in read.value <==> key != "" && First(lines, key, 0) < |lines|)
              && (forall key :: key in read.value ==> read.value[key] == Value(lines[First(lines, key, 0)]))
  {
    var body := ReadSealed(sha, raw);
    ReaderAccepts(sha, raw);
    if body.None? {
      return None;
    }
    var fields := Fields(TextLines(body.value));
    read := Some(fields);
  }
}
