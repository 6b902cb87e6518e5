/** A record named like a temporary of the state file beside it, and how it is lost. */
module FileFindings {
  import opened Wrappers
  import opened Text
  import opened Seal
  import opened StateRecord
  import opened Publication
  import opened PublicationRuns
  import opened FileNames
  import opened FileRuns

  /** A record that is named like the temporary its process is about to write is gone once that has failed
      — as it must, the name being taken. */
  lemma TempTakesRecord(sha: string -> Digest, state: string, d: Disk<string>, c: Call, record: string, ok: bool,
                        n: nat)
    requires c.job.Publish? && c.phase.StateOpening? && record == Numbered(state, c.pid, TEMP) && record in d.entries
    ensures var (e, c') := MoveAt(sha, d, FilesOf(state, c), c, ok, n);
            && e == d && c' == c.(phase := StateDropping(c.phase.word))
            && record !in MoveAt(sha, e, FilesOf(state, c'), c', true, n).0.entries
  {
    hide Numbered, WordText;
  }

  const STATE := "state"
  const LOST := Numbered(STATE, 7, TEMP)

  function Job0(): Job { Publish(LOST, "x\n", 0, false) }

  function Job1(): Job { Publish("r", "", 0, true) }

  function Text0(sha: string -> Digest): string { RecordText(sha, Job0()) }

  lemma LostApart()
    ensures LOST != STATE && LOST != Numbered(STATE, 7, CLAIM) && STATE != Numbered(STATE, 7, CLAIM)
    ensures Numbered("." + LOST, 5, TEMP) != LOST
  {
    KindsDiffer(STATE, STATE, 7, 7);
    assert LOST[0] == 's' && Numbered("." + LOST, 5, TEMP)[0] == '.';
  }

  function Steps(id: nat, n: nat, k: nat): seq<Event>
  {
    if k == 0 then [] else [Step(id, true, n)] + Steps(id, n, k - 1)
  }

  /** As many steps of one call, none of them failing. */
  function Moved(sha: string -> Digest, d: Disk<string>, c: Call, n: nat, k: nat): (Disk<string>, Call)
    decreases k
  {
    if k == 0 then (d, c)
    else
      var (e, c') := MoveAt(sha, d, FilesOf(STATE, c), c, true, n);
      Moved(sha, e, c', n, k - 1)
  }

  lemma {:induction false} StepsMove(sha: string -> Digest, s: System<string>, id: nat, n: nat, k: nat)
    requires id in s.calls
    ensures RunFiles(sha, STATE, s, Steps(id, n, k))
            == System(Moved(sha, s.disk, s.calls[id], n, k).0, s.calls[id := Moved(sha, s.disk, s.calls[id], n, k).1])
    decreases k
  {
    if k == 0 {
      assert s.calls[id := s.calls[id]] == s.calls;
    } else {
      var (e, c') := MoveAt(sha, s.disk, FilesOf(STATE, s.calls[id]), s.calls[id], true, n);
      var t := System(e, s.calls[id := c']);
      assert ApplyFiles(sha, STATE, s, Step(id, true, n)) == t;
      assert Steps(id, n, k)[1..] == Steps(id, n, k - 1);
      hide MoveAt;
      StepsMove(sha, t, id, n, k - 1);
      assert t.calls[id := Moved(sha, e, c', n, k - 1).1] == s.calls[id := Moved(sha, e, c', n, k - 1).1];
    }
  }

  lemma MovedOn(sha: string -> Digest, d: Disk<string>, c: Call, n: nat, k: nat)
    requires k > 0
    ensures var (e, c') := MoveAt(sha, d, FilesOf(STATE, c), c, true, n); Moved(sha, d, c, n, k) == Moved(sha, e, c', n, k - 1)
  {
    hide MoveAt;
  }

  // The first call publishes the record; the second fails at an empty body and says so.

  function Call0(phase: Phase, linked: bool): Call { Call(Job0(), 5, phase, false, linked) }

  function Call1(phase: Phase, won: bool): Call { Call(Job1(), 7, phase, won, false) }

  function Temp0(): string { Numbered("." + LOST, 5, TEMP) }

  function Claim1(): string { Numbered(STATE, 7, CLAIM) }

  lemma Opens0(sha: string -> Digest, n: nat)
    ensures Moved(sha, EMPTY.disk, Call0(Looking, false), n, 4)
            == (Disk(map[Temp0() := 0], map[0 := ""], 1), Call0(RecordWriting(0, 0), false))
  {
    PlainLost();
    var d := EMPTY.disk;
    MovedOn(sha, d, Call0(Looking, false), n, 4);
    MovedOn(sha, d, Call0(Scanning, false), n, 3);
    MovedOn(sha, d, Call0(Checking(false), false), n, 2);
    MovedOn(sha, d, Call0(RecordOpening, false), n, 1);
    hide Moved, Read, Numbered, PlainName;
  }

  lemma PlainLost()
    ensures PlainName(LOST)
  {
    forall i | 0 <= i < |LOST| ensures LOST[i] != '/' {
      if |STATE| < i <= |STATE| + |Decimal(7)| { assert LOST[i] == Decimal(7)[i - |STATE| - 1]; }
    }
  }

  lemma Writes0(sha: string -> Digest, d: Disk<string>, linked: bool)
    requires 0 in d.files && d.files[0] == ""
    ensures var text := Text0(sha);
            MoveAt(sha, d, FilesOf(STATE, Call0(RecordWriting(0, 0), linked)), Call0(RecordWriting(0, 0), linked),
                   true, |text|)
            == (d.(files := d.files[0 := text]), Call0(RecordWriting(0, |text|), linked))
  {
    TextThere(sha);
    assert "" + Text0(sha)[0..0 + |Text0(sha)|] == Text0(sha);
    hide Numbered, RecordText;
  }

  lemma Links0(sha: string -> Digest, text: string, n: nat)
    ensures var d := Disk(map[Temp0() := 0], map[0 := text], 1);
            MoveAt(sha, d, FilesOf(STATE, Call0(RecordLinking, false)), Call0(RecordLinking, false), true, n)
            == (Disk(map[Temp0() := 0, LOST := 0], map[0 := text], 1), Call0(RecordUnlinking, true))
  {
    LostApart();
    hide Numbered, RecordText;
  }

  lemma Unlinks0(sha: string -> Digest, text: string, n: nat)
    ensures var d := Disk(map[Temp0() := 0, LOST := 0], map[0 := text], 1);
            MoveAt(sha, d, FilesOf(STATE, Call0(RecordUnlinking, true)), Call0(RecordUnlinking, true), true, n)
            == (Disk(map[LOST := 0], map[0 := text], 1), Call0(RecordSyncing, true))
  {
    LostApart();
    assert map[Temp0() := 0, LOST := 0] - {Temp0()} == map[LOST := 0];
    hide Numbered, RecordText;
  }

  lemma Lands0(sha: string -> Digest)
    ensures var text := Text0(sha);
            Moved(sha, Disk(map[Temp0() := 0], map[0 := ""], 1), Call0(RecordWriting(0, 0), false), |text|, 4)
            == (Disk(map[LOST := 0], map[0 := text], 1), Call0(RecordSyncing, true))
  {
    var text := Text0(sha);
    var d, e := Disk(map[Temp0() := 0], map[0 := ""], 1), Disk(map[Temp0() := 0], map[0 := text], 1);
    assert d.(files := d.files[0 := text]) == e;
    Writes0(sha, d, false);
    Writes0At(sha, e);
    Links0(sha, text, |text|);
    Unlinks0(sha, text, |text|);
    hide MoveAt, Text0, FilesOf, Numbered;
    MovedOn(sha, d, Call0(RecordWriting(0, 0), false), |text|, 4);
    MovedOn(sha, e, Call0(RecordWriting(0, |text|), false), |text|, 3);
    MovedOn(sha, e, Call0(RecordLinking, false), |text|, 2);
    MovedOn(sha, Disk(map[Temp0() := 0, LOST := 0], map[0 := text], 1), Call0(RecordUnlinking, true), |text|, 1);
  }

  lemma Writes0At(sha: string -> Digest, d: Disk<string>)
    ensures var text := Text0(sha);
            MoveAt(sha, d, FilesOf(STATE, Call0(RecordWriting(0, |text|), false)), Call0(RecordWriting(0, |text|),
                   false), true, |text|)
            == (d, Call0(RecordLinking, false))
  {
    hide Numbered, RecordText;
  }

  lemma TextThere(sha: string -> Digest)
    ensures |Text0(sha)| > 0 && |RunningText(sha)| > 0
  {
    hide Decimal;
  }

  function Landed0(sha: string -> Digest): Disk<string> { Disk(map[LOST := 0], map[0 := Text0(sha)], 1) }

  lemma Claims1(sha: string -> Digest, d: Disk<string>, n: nat)
    requires LOST in d.entries && STATE !in d.entries && Claim1() !in d.entries
    ensures Moved(sha, d, Call1(Looking, false), n, 2)
            == (d.Create(Claim1()), Call1(ClaimWriting(d.next, 0), false))
  {
    MovedOn(sha, d, Call1(Looking, false), n, 2);
    MovedOn(sha, d, Call1(ClaimOpening, false), n, 1);
    hide Moved, Numbered, ReadHead;
  }

  lemma Writes1(sha: string -> Digest, d: Disk<string>, i: nat)
    requires i in d.files && d.files[i] == ""
    ensures var text, e := RunningText(sha), d.(files := d.files[i := RunningText(sha)]);
            Moved(sha, d, Call1(ClaimWriting(i, 0), false), |text|, 2) == (e, Call1(ClaimLinking, false))
  {
    var text, e := RunningText(sha), d.(files := d.files[i := RunningText(sha)]);
    TextThere(sha);
    assert "" + text[0..0 + |text|] == text;
    MovedOn(sha, d, Call1(ClaimWriting(i, 0), false), |text|, 2);
    MovedOn(sha, e, Call1(ClaimWriting(i, |text|), false), |text|, 1);
    hide Moved, Numbered, RunningText;
  }

  lemma Wins1(sha: string -> Digest, d: Disk<string>, n: nat)
    requires Claim1() in d.entries && STATE !in d.entries
    ensures var e := d.Link(Claim1(), STATE).Unlink(Claim1());
            Moved(sha, d, Call1(ClaimLinking, false), n, 3) == (e, Call1(Scanning, true))
  {
    var e := d.Link(Claim1(), STATE);
    MovedOn(sha, d, Call1(ClaimLinking, false), n, 3);
    MovedOn(sha, e, Call1(ClaimUnlinking(true), true), n, 2);
    MovedOn(sha, e.Unlink(Claim1()), Call1(ClaimSyncing(true), true), n, 1);
    hide Moved, Numbered, Disk.Link, Disk.Unlink;
  }

  lemma Fails1(sha: string -> Digest, d: Disk<string>, n: nat)
    ensures MoveAt(sha, d, FilesOf(STATE, Call1(Scanning, true)), Call1(Scanning, true), true, n)
            == (d, Call1(StateOpening(FailedWord), true))
  {
    hide Numbered, RecordText;
  }

  lemma Gives1(sha: string -> Digest, d: Disk<string>, n: nat)
    ensures MoveAt(sha, d, FilesOf(STATE, Call1(StateDropping(FailedWord), true)), Call1(StateDropping(FailedWord), true), true, n)
            == (d.Unlink(LOST), Call1(Finished(RC_FAILED), true))
  {
    hide Numbered, WordText, Disk.Unlink;
  }

  lemma Drops1(sha: string -> Digest, d: Disk<string>, n: nat)
    requires LOST in d.entries
    ensures Moved(sha, d, Call1(Scanning, true), n, 3) == (d.Unlink(LOST), Call1(Finished(RC_FAILED), true))
  {
    Fails1(sha, d, n);
    TempTakesRecord(sha, STATE, d, Call1(StateOpening(FailedWord), true), LOST, true, n);
    Gives1(sha, d, n);
    hide MoveAt, FilesOf, Numbered, Disk.Unlink;
    MovedOn(sha, d, Call1(Scanning, true), n, 3);
    MovedOn(sha, d, Call1(StateOpening(FailedWord), true), n, 2);
    MovedOn(sha, d, Call1(StateDropping(FailedWord), true), n, 1);
  }

  function Publishing(sha: string -> Digest): seq<Event>
  {
    [Start(0, Job0(), 5)] + (Steps(0, |Text0(sha)|, 4) + Steps(0, |Text0(sha)|, 4))
  }

  function Failing(sha: string -> Digest): seq<Event>
  {
    var n := |RunningText(sha)|;
    [Start(1, Job1(), 7)] + (Steps(1, n, 2) + (Steps(1, n, 2) + (Steps(1, n, 3) + Steps(1, n, 3))))
  }

  lemma Chain(sha: string -> Digest, s: System<string>, t: System<string>, id: nat, n: nat, k: nat, rest: seq<Event>)
    requires id in s.calls && id in t.calls && t.calls == s.calls[id := t.calls[id]]
    requires Moved(sha, s.disk, s.calls[id], n, k) == (t.disk, t.calls[id])
    ensures RunFiles(sha, STATE, s, Steps(id, n, k) + rest) == RunFiles(sha, STATE, t, rest)
  {
    StepsMove(sha, s, id, n, k);
    RunFilesOn(sha, STATE, s, Steps(id, n, k), rest);
    hide RunFiles, Steps, Moved;
  }

  lemma ChainTwo(sha: string -> Digest, s: System<string>, t: System<string>, u: System<string>, id: nat, n: nat,
                 j: nat, k: nat,
                 rest: seq<Event>)
    requires id in s.calls && id in t.calls && id in u.calls
    requires t.calls == s.calls[id := t.calls[id]] && u.calls == t.calls[id := u.calls[id]]
    requires Moved(sha, s.disk, s.calls[id], n, j) == (t.disk, t.calls[id])
    requires Moved(sha, t.disk, t.calls[id], n, k) == (u.disk, u.calls[id])
    ensures RunFiles(sha, STATE, s, Steps(id, n, j) + (Steps(id, n, k) + rest)) == RunFiles(sha, STATE, u, rest)
  {
    hide RunFiles, Steps, Moved;
    Chain(sha, s, t, id, n, j, Steps(id, n, k) + rest);
    Chain(sha, t, u, id, n, k, rest);
  }

  function Only0(d: Disk<string>, phase: Phase, linked: bool): System<string> { System(d, map[0 := Call0(phase,
                 linked)]) }

  lemma Begins0(sha: string -> Digest, rest: seq<Event>)
    ensures RunFiles(sha, STATE, EMPTY, [Start(0, Job0(), 5)] + rest) == RunFiles(sha, STATE, Only0(EMPTY.disk, Looking, false), rest)
  {
    assert ([Start(0, Job0(), 5)] + rest)[1..] == rest;
  }

  lemma RunNone(sha: string -> Digest, s: System<string>)
    ensures RunFiles(sha, STATE, s, []) == s
  {
  }

  lemma Only0Again(d: Disk<string>, e: Disk<string>, phase: Phase, next: Phase, linked: bool, after: bool)
    ensures var t, u := Only0(d, phase, linked), Only0(e, next, after); u.calls == t.calls[0 := u.calls[0]]
  {
    hide Call0;
  }

  function Begun0(): Disk<string> { Disk(map[Temp0() := 0], map[0 := ""], 1) }

  lemma RecordLands(sha: string -> Digest)
    ensures RunFiles(sha, STATE, EMPTY, Publishing(sha)) == Only0(Landed0(sha), RecordSyncing, true)
  {
    hide Moved, Text0, Temp0, Steps, Numbered, RunFiles, Call0;
    var n := |Text0(sha)|;
    Opens0(sha, n);
    Lands0(sha);
    Only0Again(EMPTY.disk, Begun0(), Looking, RecordWriting(0, 0), false, false);
    Only0Again(Begun0(), Landed0(sha), RecordWriting(0, 0), RecordSyncing, false, true);
    Begins0(sha, Steps(0, n, 4) + Steps(0, n, 4));
    RunNone(sha, Only0(Landed0(sha), RecordSyncing, true));
    ChainTwo(sha, Only0(EMPTY.disk, Looking, false), Only0(Begun0(), RecordWriting(0, 0), false),
             Only0(Landed0(sha), RecordSyncing, true), 0, n, 4, 4, []);
    assert Steps(0, n, 4) + [] == Steps(0, n, 4);
  }

  function With1(s: System<string>, d: Disk<string>, phase: Phase, won: bool): System<string>
  {
    System(d, s.calls[1 := Call1(phase, won)])
  }

  lemma With1Again(s: System<string>, d: Disk<string>, phase: Phase, won: bool, e: Disk<string>, next: Phase,
                   after: bool)
    ensures var t, u := With1(s, d, phase, won), With1(s, e, next, after);
            1 in t.calls && 1 in u.calls && u.calls == t.calls[1 := u.calls[1]]
  {
  }

  lemma CallClaims(sha: string -> Digest, s: System<string>, rest: seq<Event>)
    requires LOST in s.disk.entries && STATE !in s.disk.entries && Claim1() !in s.disk.entries
    ensures var n, d := |RunningText(sha)|, s.disk.Create(Claim1());
            var e := d.(files := d.files[s.disk.next := RunningText(sha)]);
            RunFiles(sha, STATE, With1(s, s.disk, Looking, false), Steps(1, n, 2) + (Steps(1, n, 2) + rest))
            == RunFiles(sha, STATE, With1(s, e, ClaimLinking, false), rest)
  {
    var n, i, d := |RunningText(sha)|, s.disk.next, s.disk.Create(Claim1());
    var e := d.(files := d.files[i := RunningText(sha)]);
    Claims1(sha, s.disk, n);
    Writes1(sha, d, i);
    With1Again(s, s.disk, Looking, false, d, ClaimWriting(i, 0), false);
    With1Again(s, d, ClaimWriting(i, 0), false, e, ClaimLinking, false);
    hide Moved, RunFiles, RunningText, Numbered, Steps, Disk.Create;
    ChainTwo(sha, With1(s, s.disk, Looking, false), With1(s, d, ClaimWriting(i, 0), false), With1(s, e, ClaimLinking,
             false), 1, n, 2, 2, rest);
  }

  lemma CallLoses(sha: string -> Digest, s: System<string>, e: Disk<string>, n: nat)
    requires LOST in e.entries && STATE !in e.entries && Claim1() in e.entries
    ensures LOST !in RunFiles(sha, STATE, With1(s, e, ClaimLinking, false), Steps(1, n, 3) + Steps(1, n, 3)).disk.entries
  {
    var f := e.Link(Claim1(), STATE).Unlink(Claim1());
    LostApart();
    Wins1(sha, e, n);
    Drops1(sha, f, n);
    var last := With1(s, f.Unlink(LOST), Finished(RC_FAILED), true);
    assert RunFiles(sha, STATE, last, []) == last && LOST !in last.disk.entries;
    With1Again(s, e, ClaimLinking, false, f, Scanning, true);
    With1Again(s, f, Scanning, true, f.Unlink(LOST), Finished(RC_FAILED), true);
    hide Moved, RunFiles, Numbered, Steps, Disk.Link, Disk.Unlink;
    ChainTwo(sha, With1(s, e, ClaimLinking, false), With1(s, f, Scanning, true), last, 1, n, 3, 3, []);
    assert Steps(1, n, 3) + [] == Steps(1, n, 3);
  }

  /** The second call from any directory with the record there, and no state file yet. */
  lemma CallTakesRecord(sha: string -> Digest, s: System<string>)
    requires LOST in s.disk.entries && STATE !in s.disk.entries && Claim1() !in s.disk.entries
    ensures var n := |RunningText(sha)|;
            LOST !in RunFiles(sha, STATE, With1(s, s.disk, Looking, false),
                              Steps(1, n, 2) + (Steps(1, n, 2) + (Steps(1, n, 3) + Steps(1, n, 3)))).disk.entries
  {
    var n, d := |RunningText(sha)|, s.disk.Create(Claim1());
    LostApart();
    CallClaims(sha, s, Steps(1, n, 3) + Steps(1, n, 3));
    CallLoses(sha, s, d.(files := d.files[s.disk.next := RunningText(sha)]), n);
    hide RunFiles, RunningText, Numbered, Steps, With1;
  }

  /** From an empty directory: a record named like a temporary of the state file is published, and another
      call's failure takes it away. */
  lemma RecordIsLost(sha: string -> Digest)
    ensures PlainName(LOST) && !Apart(STATE, LOST)
    ensures var s := RunFiles(sha, STATE, EMPTY, Publishing(sha));
            s.disk.Has(LOST) && !RunFiles(sha, STATE, s, Failing(sha)).disk.Has(LOST)
  {
    PlainLost();
    LostApart();
    RecordLands(sha);
    var s := Only0(Landed0(sha), RecordSyncing, true);
    var t := With1(s, s.disk, Looking, false);
    assert ApplyFiles(sha, STATE, s, Start(1, Job1(), 7)) == t;
    assert RunFiles(sha, STATE, s, [Start(1, Job1(), 7)]) == t;
    assert IsNumbered(LOST, STATE, TEMP);
    CallTakesRecord(sha, s);
    hide RunFiles, Steps, Numbered, Text0;
    var n := |RunningText(sha)|;
    RunFilesOn(sha, STATE, s, [Start(1, Job1(), 7)], Steps(1, n, 2) + (Steps(1, n, 2) + (Steps(1, n, 3) + Steps(1, n,
               3))));
  }
}
