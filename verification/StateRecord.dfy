/** The state file of a run: what `state_record` writes and what `read_state` makes of any file
    (scripts/g6-publish-record.py). */
module StateRecord {
  import opened Text
  import opened Seal

  const STATE_SEAL_KEY := "state-sha256\t"

  predicate IsWord(state: string) { state in {"NOT_STARTED", "RUNNING", "PUBLISHED", "FAILED"} }

  /** What is at the name of the state file when it is looked at. */
  datatype Look = Absent | Unreadable | Content(text: string)

  datatype Reading = Reading(state: string, code: int, name: string, size: string, sha: string)

  function Blank(state: string): Reading { Reading(state, 2, "-", "-", "-") }

  function Head(state: string, code: int, name: string, size: string, digest: string): string
  {
    state + " " + (Signed(code) + " " + (name + " " + (size + " " + digest)))
  }

  function SealLine(sha: string -> Digest, head: string): string { STATE_SEAL_KEY + sha(head + "\n") }

  /** `state_record`. */
  function Written(sha: string -> Digest, state: string, code: int, name: string, size: string, digest: string): string
  {
    var head := Head(state, code, name, size, digest);
    head + "\n" + (SealLine(sha, head) + "\n")
  }

  function ReadHead(head: string): Reading
  {
    var fields := Split(head, ' ');
    if |fields| != 5 then Blank("FAILED")
    else if !IsWord(fields[0]) || !IsNumber(Strip(fields[1])) then Blank("FAILED")
    else Reading(fields[0], Number(Strip(fields[1])), fields[2], fields[3], fields[4])
  }

  /** `read_state`. Only a file that is not there is a fresh start. */
  function Read(sha: string -> Digest, look: Look): Reading
  {
    match look
    case Absent => Blank("NOT_STARTED")
    case Unreadable => Blank("FAILED")
    case Content(text) =>
      var lines := TextLines(text);
      if text == "" then Blank("FAILED")
      else if |lines| != 2 || !StartsWith(lines[1], STATE_SEAL_KEY) then Blank("FAILED")
      else if sha(lines[0] + "\n") != Strip(lines[1][|STATE_SEAL_KEY|..]) then Blank("FAILED")
      else ReadHead(lines[0])
  }

  /** A field that stays one field of one line. */
  predicate Clean(field: string) { TextBreakFree(field) && ' ' !in field }

  lemma {:induction false} CountFields(s: string, c: char, k: nat)
    requires k <= |s| && forall i :: 0 <= i < k ==> s[i] != c
    ensures |SplitFrom(s, c, k)| == multiset(s)[c] + 1
    decreases |s|, |s| - k
  {
    if k == |s| {
      assert c !in s;
    } else if s[k] == c {
      CountFields(s[k + 1..], c, 0);
      assert s == s[..k] + [c] + s[k + 1..];
      assert c !in s[..k];
    } else {
      CountFields(s, c, k + 1);
    }
  }

  lemma {:induction false} TwoLinesAtLeast(s: string, k: nat, b: nat)
    requires k <= b && b + 1 < |s| && s[b] == '\n'
    ensures |TextLinesFrom(s, k)| >= 2
    decreases b - k
  {
    if IsTextBreak(s[k]) {
    } else {
      TwoLinesAtLeast(s, k + 1, b);
    }
  }

  lemma {:induction false} ThreeLinesAtLeast(s: string, k: nat, a: nat, b: nat)
    requires k <= a && a + 1 < b && b + 1 < |s| && IsTextBreak(s[a]) && s[b] == '\n'
    ensures |TextLinesFrom(s, k)| >= 3
    decreases a - k
  {
    if IsTextBreak(s[k]) {
      var next := if s[k] == '\r' && s[k + 1] == '\n' then k + 2 else k + 1;
      TwoLinesAtLeast(s[next..], 0, b - next);
    } else {
      ThreeLinesAtLeast(s, k + 1, a, b);
    }
  }

  lemma HeadFields(state: string, code: string, name: string, size: string, digest: string, head: string)
    requires ' ' !in state && ' ' !in code && ' ' !in name && ' ' !in size && ' ' !in digest
    requires head == state + " " + (code + " " + (name + " " + (size + " " + digest)))
    ensures Split(head, ' ') == [state, code, name, size, digest]
  {
    var fromSize := size + " " + digest;
    var fromName := name + " " + fromSize;
    var fromCode := code + " " + fromName;
    SplitWhole(digest, ' ', 0);
    SplitHead(size, ' ', digest, 0);
    SplitHead(name, ' ', fromSize, 0);
    SplitHead(code, ' ', fromName, 0);
    SplitHead(state, ' ', fromCode, 0);
  }

  lemma SignedClean(code: int)
    ensures Clean(Signed(code)) && Strip(Signed(code)) == Signed(code)
    ensures IsNumber(Signed(code)) <==> code >= 0
    ensures code >= 0 ==> Number(Signed(code)) == code
  {
    var s := Signed(code);
    if code >= 0 {
      DecimalRoundTrip(code);
    } else {
      assert s[0] == '-' && s[1..] == Decimal(-code);
    }
    assert !IsSpace(s[0]) && !IsSpace(s[|s| - 1]);
    StripLine(s);
    forall i | 0 <= i < |s| ensures !IsTextBreak(s[i]) && s[i] != ' ' {
      assert i > 0 && code < 0 ==> s[i] == Decimal(-code)[i - 1];
    }
  }

  lemma WordClean(state: string)
    requires IsWord(state)
    ensures Clean(state)
  {
  }

  lemma DigestLine(sha: string -> Digest, head: string)
    ensures TextBreakFree(SealLine(sha, head))
    ensures SealLine(sha, head)[|STATE_SEAL_KEY|..] == sha(head + "\n")
    ensures Strip(sha(head + "\n")) == sha(head + "\n")
  {
    var d := sha(head + "\n");
    NoSpace(d[0]);
    NoSpace(d[|d| - 1]);
    StripLine(d);
    forall i | 0 <= i < |SealLine(sha, head)| ensures !IsTextBreak(SealLine(sha, head)[i]) {
      if i >= |STATE_SEAL_KEY| {
        assert SealLine(sha, head)[i] == d[i - |STATE_SEAL_KEY|];
      } else {
        assert SealLine(sha, head)[i] == STATE_SEAL_KEY[i];
      }
    }
  }

  /** A head that is one line is read back as that line, seal included. */
  lemma ReadsItsHead(sha: string -> Digest, head: string, text: string)
    requires TextBreakFree(head) && text == head + "\n" + (SealLine(sha, head) + "\n")
    ensures Read(sha, Content(text)) == ReadHead(head)
  {
    var seal := SealLine(sha, head);
    DigestLine(sha, head);
    assert seal + "\n" == seal + "\n" + "";
    TextLinesApart(seal, "\n", "", 0);
    assert TextLines(seal + "\n") == [seal];
    TextLinesApart(head, "\n", seal + "\n", 0);
    assert TextLines(text) == [head, seal];
  }

  /** A head with a line break of its own is never read as a state. */
  lemma BrokenHead(sha: string -> Digest, head: string, text: string, a: nat)
    requires text == head + "\n" + (SealLine(sha, head) + "\n")
    requires a + 1 < |head| && IsTextBreak(head[a])
    ensures Read(sha, Content(text)) == Blank("FAILED")
  {
    assert text[a] == head[a] && text[|head|] == '\n';
    ThreeLinesAtLeast(text, 0, a, |head|);
  }

  lemma HeadShape(state: string, code: int, name: string, size: string, digest: string, i: nat)
    requires i < |name|
    ensures var at := |state| + 1 + |Signed(code)| + 1 + i; var head := Head(state, code, name, size, digest);
            at + 1 < |head| && head[at] == name[i]
  {
  }

  lemma HeadClean(state: string, code: int, name: string, size: string, digest: string)
    requires Clean(state) && TextBreakFree(name) && Clean(size) && Clean(digest)
    ensures TextBreakFree(Head(state, code, name, size, digest))
    ensures multiset(Head(state, code, name, size, digest))[' '] == 4 + multiset(name)[' ']
  {
    SignedClean(code);
    BreakFreeJoin(size, digest);
    BreakFreeJoin(name, size + " " + digest);
    BreakFreeJoin(Signed(code), name + " " + (size + " " + digest));
    BreakFreeJoin(state, Signed(code) + " " + (name + " " + (size + " " + digest)));
  }

  lemma BreakFreeJoin(a: string, b: string)
    requires TextBreakFree(a) && TextBreakFree(b)
    ensures TextBreakFree(a + " " + b)
    ensures multiset(a + " " + b)[' '] == multiset(a)[' '] + 1 + multiset(b)[' ']
  {
    assert multiset(" ")[' '] == 1;
  }

  lemma NameWithBreak(sha: string -> Digest, state: string, code: int, name: string, size: string, digest: string)
    requires !TextBreakFree(name)
    ensures Read(sha, Content(Written(sha, state, code, name, size, digest))) == Blank("FAILED")
  {
    var i :| 0 <= i < |name| && IsTextBreak(name[i]);
    HeadShape(state, code, name, size, digest, i);
    BrokenHead(sha, Head(state, code, name, size, digest), Written(sha, state, code, name, size, digest),
               |state| + 1 + |Signed(code)| + 1 + i);
  }

  lemma NameWithoutBreak(sha: string -> Digest, state: string, code: int, name: string, size: string, digest: string)
    requires Clean(state) && TextBreakFree(name) && Clean(size) && Clean(digest)
    ensures Read(sha, Content(Written(sha, state, code, name, size, digest)))
            == ReadHead(Head(state, code, name, size, digest))
  {
    HeadClean(state, code, name, size, digest);
    ReadsItsHead(sha, Head(state, code, name, size, digest), Written(sha, state, code, name, size, digest));
  }

  lemma NameWithSpace(state: string, code: int, name: string, size: string, digest: string)
    requires Clean(state) && TextBreakFree(name) && ' ' in name && Clean(size) && Clean(digest)
    ensures ReadHead(Head(state, code, name, size, digest)) == Blank("FAILED")
  {
    HeadClean(state, code, name, size, digest);
    CountFields(Head(state, code, name, size, digest), ' ', 0);
  }

  lemma CleanName(state: string, code: int, name: string, size: string, digest: string)
    requires IsWord(state) && Clean(state) && Clean(name) && Clean(size) && Clean(digest)
    ensures ReadHead(Head(state, code, name, size, digest))
            == if code >= 0 then Reading(state, code, name, size, digest) else Blank("FAILED")
  {
    SignedClean(code);
    HeadFields(state, Signed(code), name, size, digest, Head(state, code, name, size, digest));
  }

  /** The whole of what `read_state` makes of what `state_record` wrote: exactly that, when the code
      is not negative and the name is one field of one line; a failure otherwise — never a fresh
      start and never another state. */
  lemma StateRoundTrip(sha: string -> Digest, state: string, code: int, name: string, size: string, digest: string)
    requires IsWord(state) && Clean(size) && Clean(digest)
    ensures Read(sha, Content(Written(sha, state, code, name, size, digest)))
            == if code >= 0 && Clean(name) then Reading(state, code, name, size, digest) else Blank("FAILED")
  {
    WordClean(state);
    if !TextBreakFree(name) {
      NameWithBreak(sha, state, code, name, size, digest);
    } else {
      NameWithoutBreak(sha, state, code, name, size, digest);
      if ' ' in name {
        NameWithSpace(state, code, name, size, digest);
      } else {
        CleanName(state, code, name, size, digest);
      }
    }
  }


  // === What any file reads as ===

  /** The text is two lines, a head and the key with a field that is the head's own digest. */
  predicate CarriesItsSeal(sha: string -> Digest, text: string, head: string, seal: string)
  {
    TextLines(text) == [head, STATE_SEAL_KEY + seal] && Strip(seal) == sha(head + "\n")
  }

  /** The head is five fields: the word of a state, a number, and three more. */
  predicate HeadIs(head: string, code: string, r: Reading)
  {
    && Split(head, ' ') == [r.state, code, r.name, r.size, r.sha]
    && IsWord(r.state) && IsNumber(Strip(code)) && r.code == Number(Strip(code))
  }

  lemma SealIsThere(sha: string -> Digest, text: string)
    requires Read(sha, Content(text)) != Blank("FAILED")
    ensures var lines := TextLines(text);
            && |lines| == 2 && StartsWith(lines[1], STATE_SEAL_KEY)
            && CarriesItsSeal(sha, text, lines[0], lines[1][|STATE_SEAL_KEY|..])
            && Read(sha, Content(text)) == ReadHead(lines[0])
  {
    var lines := TextLines(text);
    assert lines == [lines[0], lines[1]];
    assert lines[1] == STATE_SEAL_KEY + lines[1][|STATE_SEAL_KEY|..];
    hide ReadHead, Strip, TextLines;
  }

  lemma SealIsRead(sha: string -> Digest, text: string, head: string, seal: string)
    requires CarriesItsSeal(sha, text, head, seal)
    ensures Read(sha, Content(text)) == ReadHead(head)
  {
    assert (STATE_SEAL_KEY + seal)[|STATE_SEAL_KEY|..] == seal;
    hide ReadHead, Strip;
  }

  lemma HeadIsRead(head: string, r: Reading)
    ensures r != Blank("FAILED") ==> (ReadHead(head) == r <==> exists code :: HeadIs(head, code, r))
  {
    var fields := Split(head, ' ');
    if |fields| == 5 {
      assert fields == [fields[0], fields[1], fields[2], fields[3], fields[4]];
      if ReadHead(head) == r && r != Blank("FAILED") { assert HeadIs(head, fields[1], r); }
    }
    hide Split, Strip, Number, IsNumber;
  }

  /** Of any file whatever: it reads as a state other than the blank failure exactly if it carries its
      seal, and the head that is sealed says that state. */
  lemma ReadIff(sha: string -> Digest, text: string, r: Reading)
    requires r != Blank("FAILED")
    ensures Read(sha, Content(text)) == r <==>
              exists head, seal, code :: CarriesItsSeal(sha, text, head, seal) && HeadIs(head, code, r)
  {
    if Read(sha, Content(text)) == r {
      SealIsThere(sha, text);
      var head, seal := TextLines(text)[0], TextLines(text)[1][|STATE_SEAL_KEY|..];
      HeadIsRead(head, r);
      var code :| HeadIs(head, code, r);
      assert CarriesItsSeal(sha, text, head, seal) && HeadIs(head, code, r);
    }
    if exists head, seal, code :: CarriesItsSeal(sha, text, head, seal) && HeadIs(head, code, r) {
      var head, seal, code :| CarriesItsSeal(sha, text, head, seal) && HeadIs(head, code, r);
      SealIsRead(sha, text, head, seal);
      HeadIsRead(head, r);
    }
    hide Read, ReadHead, CarriesItsSeal, HeadIs;
  }

  /** A sealed file whose head has been replaced by another line: it reads as what it now says only if the
      two have one digest, and as a failure otherwise. */
  lemma Tampered(sha: string -> Digest, head: string, other: string)
    requires TextBreakFree(other)
    ensures Read(sha, Content(other + "\n" + (SealLine(sha, head) + "\n")))
            == if sha(other + "\n") == sha(head + "\n") then ReadHead(other) else Blank("FAILED")
  {
    var seal := SealLine(sha, head);
    DigestLine(sha, head);
    assert seal + "\n" == seal + "\n" + "";
    TextLinesApart(seal, "\n", "", 0);
    assert TextLines(seal + "\n") == [seal];
    TextLinesApart(other, "\n", seal + "\n", 0);
    assert TextLines(other + "\n" + (seal + "\n")) == [other, seal];
    hide ReadHead;
  }
}
