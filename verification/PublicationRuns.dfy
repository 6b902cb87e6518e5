/** What holds in every run of the publication protocol. */
module PublicationRuns {
  import opened Wrappers
  import opened Text
  import opened Seal
  import opened StateRecord
  import opened Publication

  lemma {:induction false} RunKeeps(sha: string -> Digest, s: System<Name>, events: seq<Event>)
    requires Invariant(sha, s)
    ensures Invariant(sha, Run(sha, s, events))
    ensures Grows(s.disk, Run(sha, s, events).disk)
    decreases |events|
  {
    hide Apply, Invariant;
    if events == [] {
    } else {
      ApplyKeeps(sha, s, events[0]);
      RunKeeps(sha, Apply(sha, s, events[0]), events[1..]);
    }
  }

  // === What holds in every run ===

  datatype Status = Ok | Missing | Unsealed | Unreadable | SizeMismatch | ShaMismatch

  /** `check_published_record`, of the record a state names; `again` is whether the record, once verified,
      can be read again. */
  function CheckPublished(sha: string -> Digest, d: Disk<Name>, st: Reading, again: bool): Status
  {
    if !d.Has(Record(st.name)) then Missing
    else
      var raw := d.At(Record(st.name));
      if Verify(sha, raw) != Intact then Unsealed
      else if !again then Status.Unreadable
      else if st.size != "-" && Decimal(|raw|) != st.size then SizeMismatch
      else if st.sha != "-" && sha(raw) != st.sha then ShaMismatch
      else Status.Ok
  }

  /** A state read as PUBLISHED was written by a publication whose record is there. */
  lemma ReadPublished(sha: string -> Digest, d: Disk<Name>)
    requires StateGood(sha, d)
    ensures var st := Read(sha, LookAt(d, true));
            st.state == "PUBLISHED" ==>
              && d.Has(Record(st.name)) && Verify(sha, d.At(Record(st.name))) == Intact
              && st.size == Decimal(|d.At(Record(st.name))|) && st.sha == sha(d.At(Record(st.name)))
  {
    if d.Has(StateFile) {
      var text := d.At(StateFile);
      StateRoundTrip(sha, "RUNNING", 2, "-", "-", "-");
      StateRoundTrip(sha, "FAILED", RC_FAILED, "-", "-", "-");
      if exists name, code :: Published(sha, d, name, code, text) {
        var name, code :| Published(sha, d, name, code, text);
        PublishedReads(sha, name, code, d.At(Record(name)));
      }
    }
  }

  lemma PublishedReads(sha: string -> Digest, name: string, code: int, text: string)
    ensures Read(sha, Content(PublishedText(sha, name, code, text)))
            == if code >= 0 && Clean(name) then Reading("PUBLISHED", code, name, Decimal(|text|), sha(text))
               else Blank("FAILED")
  {
    DigitsClean(Decimal(|text|));
    HexClean(sha(text));
    StateRoundTrip(sha, "PUBLISHED", code, name, Decimal(|text|), sha(text));
  }

  lemma NoDash(s: string)
    requires IsNumber(s) || (|s| == 64 && forall i :: 0 <= i < |s| ==> IsHex(s[i]))
    ensures s != "-"
  {
    assert "-"[0] == '-';
  }

  /** The answer tells apart whatever can be wrong with the record a state names: each answer has its own
      cause, and Ok is for the recorded size and digest only. */
  lemma CheckedAgainst(sha: string -> Digest, e: Disk<Name>, name: string, code: int, text: string, again: bool)
    ensures var st := Reading("PUBLISHED", code, name, Decimal(|text|), sha(text));
            var checked := CheckPublished(sha, e, st, again);
            var intact := e.Has(Record(name)) && Verify(sha, e.At(Record(name))) == Intact;
            && (checked == Missing <==> !e.Has(Record(name)))
            && (checked == Unsealed <==> e.Has(Record(name)) && Verify(sha, e.At(Record(name))) != Intact)
            && (checked == Status.Unreadable <==> intact && !again)
            && (checked == SizeMismatch <==> intact && again && |e.At(Record(name))| != |text|)
            && (checked == ShaMismatch <==>
                  intact && again && |e.At(Record(name))| == |text| && sha(e.At(Record(name))) != sha(text))
            && (checked == Status.Ok <==>
                  intact && again && |e.At(Record(name))| == |text| && sha(e.At(Record(name))) == sha(text))
  {
    hide Verify, Decimal, Number, AllDigits, IsNumber, Lines;
    NoDash(Decimal(|text|));
    NoDash(sha(text));
    DecimalRoundTrip(|text|);
    if e.Has(Record(name)) { DecimalRoundTrip(|e.At(Record(name))|); }
  }

  /** A size or a digest given as a dash is not compared. */
  lemma DashesAreNotCompared(sha: string -> Digest, d: Disk<Name>, st: Reading, again: bool)
    ensures CheckPublished(sha, d, st.(size := "-", sha := "-"), again) == Status.Ok <==>
              again && d.Has(Record(st.name)) && Verify(sha, d.At(Record(st.name))) == Intact
    ensures CheckPublished(sha, d, st.(size := "-"), again) != SizeMismatch
    ensures CheckPublished(sha, d, st.(sha := "-"), again) != ShaMismatch
  {
    hide Verify, Decimal;
  }

  /** Over every run whose state reads PUBLISHED, and whatever directory the check is then made in: the
      answer is Ok exactly if the record there verifies, can be read again, and has the length and the
      digest of the record the run published. */
  lemma OnlyThatRecord(sha: string -> Digest, events: seq<Event>, e: Disk<Name>, again: bool)
    ensures var d := Run(sha, FRESH, events).disk;
            var st := Read(sha, LookAt(d, true));
            st.state == "PUBLISHED" ==>
              && d.Has(Record(st.name))
              && (CheckPublished(sha, e, st, again) == Status.Ok <==>
                    && again && e.Has(Record(st.name)) && Verify(sha, e.At(Record(st.name))) == Intact
                    && |e.At(Record(st.name))| == |d.At(Record(st.name))|
                    && sha(e.At(Record(st.name))) == sha(d.At(Record(st.name))))
  {
    hide Read, Verify, CheckPublished;
    RunKeeps(sha, FRESH, events);
    var d := Run(sha, FRESH, events).disk;
    var st := Read(sha, LookAt(d, true));
    ReadPublished(sha, d);
    if st.state == "PUBLISHED" { CheckedAgainst(sha, e, st.name, st.code, d.At(Record(st.name)), again); }
  }

  /** `--query-state`: the exit status for what the state file reads as, checked against a directory if one
      is given. */
  function QueryExit(sha: string -> Digest, st: Reading, directory: Option<Disk<Name>>, again: bool): int
  {
    if st.state == "PUBLISHED" && directory.Some? && CheckPublished(sha, directory.value, st, again) != Status.Ok then RC_FAILED
    else if st.state == "NOT_STARTED" then 0
    else if st.state == "PUBLISHED" then st.code
    else RC_FAILED
  }

  /** Over every run and for any directory: a query exits 0 only if the state file is not there, or it says
      PUBLISHED with the code 0 and — a directory being given — the record there verifies and has the
      published one's length and digest. */
  lemma QuerySaysZero(sha: string -> Digest, events: seq<Event>, directory: Option<Disk<Name>>, again: bool)
    ensures var d := Run(sha, FRESH, events).disk;
            var st := Read(sha, LookAt(d, true));
            QueryExit(sha, st, directory, again) == 0 <==>
              || StateFile !in d.entries
              || (&& st.state == "PUBLISHED" && st.code == 0
                  && (directory.Some? ==>
                        var e := directory.value;
                        && again && e.Has(Record(st.name)) && Verify(sha, e.At(Record(st.name))) == Intact
                        && d.Has(Record(st.name)) && |e.At(Record(st.name))| == |d.At(Record(st.name))|
                        && sha(e.At(Record(st.name))) == sha(d.At(Record(st.name)))))
  {
    RunKeeps(sha, FRESH, events);
    var d := Run(sha, FRESH, events).disk;
    if directory.Some? { OnlyThatRecord(sha, events, directory.value, again); }
    if StateFile in d.entries { StateReadsStarted(sha, d); }
    hide Verify, CheckPublished, Run, ReadHead;
  }

  lemma DigitsClean(s: string)
    requires AllDigits(s)
    ensures Clean(s)
  {
  }

  lemma HexClean(d: Digest)
    ensures Clean(d)
  {
  }

  /** However the calls interleave, fail and die: once the state reads PUBLISHED, the record it
      names is there, verifies, and has exactly the recorded size and digest — then, and after
      anything that may still happen. */
  lemma PublishedIsThere(sha: string -> Digest, before: seq<Event>, after: seq<Event>)
    ensures var s := Run(sha, FRESH, before);
            var st := Read(sha, LookAt(s.disk, true));
            var d := Run(sha, s, after).disk;
            st.state == "PUBLISHED" ==>
              && d.Has(Record(st.name)) && Verify(sha, d.At(Record(st.name))) == Intact
              && st.size == Decimal(|d.At(Record(st.name))|) && st.sha == sha(d.At(Record(st.name)))
              && CheckPublished(sha, d, st, true) == Status.Ok
  {
    hide Read, Verify;
    RunKeeps(sha, FRESH, before);
    var s := Run(sha, FRESH, before);
    ReadPublished(sha, s.disk);
    RunKeeps(sha, s, after);
  }

  /** Once its name exists, a record is there for good, byte for byte. */
  lemma RecordsNeverChange(sha: string -> Digest, before: seq<Event>, after: seq<Event>, name: string)
    requires Run(sha, FRESH, before).disk.Has(Record(name))
    ensures var d, e := Run(sha, FRESH, before).disk, Run(sha, Run(sha, FRESH, before), after).disk;
            e.Has(Record(name)) && e.At(Record(name)) == d.At(Record(name))
  {
    RunKeeps(sha, FRESH, before);
    RunKeeps(sha, Run(sha, FRESH, before), after);
  }

  /** Over every run, a step that takes a call out of its claim other than to a failure is that of a call
      that put the state file in place itself: only to such a call does a claim return "ok". */
  lemma ClaimReturnsOk(sha: string -> Digest, events: seq<Event>, id: nat, ok: bool, n: nat)
    requires var s := Run(sha, FRESH, events); id in s.calls && InClaim(s.calls[id].phase)
    ensures var s := Run(sha, FRESH, events);
            var c := Apply(sha, s, Step(id, ok, n)).calls[id];
            !InClaim(c.phase) && c.phase != Finished(RC_FAILED) ==> c.won && StateFile in s.disk.entries
  {
    RunKeeps(sha, FRESH, events);
    var s := Run(sha, FRESH, events);
    ClaimMoveWins(sha, s.disk, s.calls[id], ok, n);
  }

  lemma ClaimMoveWins(sha: string -> Digest, d: Disk<Name>, c: Call, ok: bool, n: nat)
    requires InClaim(c.phase) && Local(sha, d, c) && Lasting(sha, d, c)
    ensures var c' := Move(sha, d, c, ok, n).1;
            !InClaim(c'.phase) && c'.phase != Finished(RC_FAILED) ==> c'.won && StateFile in d.entries
  {
    hide RunningText;
  }

  /** At most one call ever puts the state file in place, so at most one claim returns "ok" and at
      most one `--begin` exits 0; and at most one publication of a name exits 0. */
  lemma AtMostOneWinner(sha: string -> Digest, events: seq<Event>, i: nat, j: nat)
    requires var calls := Run(sha, FRESH, events).calls; i in calls && j in calls
    ensures var calls := Run(sha, FRESH, events).calls;
            && (calls[i].won && calls[j].won ==> i == j)
            && (calls[i].phase == calls[j].phase == Finished(0) && calls[i].job.Begin? && calls[j].job.Begin? ==> i == j)
            && (calls[i].phase == calls[j].phase == Finished(0) && calls[i].job.Publish? && calls[j].job.Publish? ==>
                  calls[i].job.name == calls[j].job.name ==> i == j)
  {
    RunKeeps(sha, FRESH, events);
    var s := Run(sha, FRESH, events);
    assert Lasting(sha, s.disk, s.calls[i]) && Lasting(sha, s.disk, s.calls[j]);
  }

  /** A publication that exits 0 has its own bytes under the record's name. */
  lemma ExitZeroLanded(sha: string -> Digest, events: seq<Event>, i: nat)
    requires var calls := Run(sha, FRESH, events).calls;
             i in calls && calls[i].job.Publish? && calls[i].phase == Finished(0)
    ensures var s := Run(sha, FRESH, events);
            s.disk.Has(Record(s.calls[i].job.name)) && s.disk.At(Record(s.calls[i].job.name)) == Sealed(sha, s.calls[i].job.body)
  {
    RunKeeps(sha, FRESH, events);
  }

  /** After a claim has linked, no look at the state file ever says NOT_STARTED again. */
  lemma NeverFreshAgain(sha: string -> Digest, before: seq<Event>, after: seq<Event>, i: nat, readable: bool)
    requires var calls := Run(sha, FRESH, before).calls; i in calls && calls[i].won
    ensures var d := Run(sha, Run(sha, FRESH, before), after).disk;
            Read(sha, LookAt(d, readable)).state != "NOT_STARTED"
  {
    RunKeeps(sha, FRESH, before);
    var s := Run(sha, FRESH, before);
    assert Lasting(sha, s.disk, s.calls[i]);
    RunKeeps(sha, s, after);
    var d := Run(sha, s, after).disk;
    StateReadsStarted(sha, d);
  }

  /** No word this protocol writes into the state file reads as a fresh start. */
  lemma StateReadsStarted(sha: string -> Digest, d: Disk<Name>)
    requires d.Ok() && StateGood(sha, d) && StateFile in d.entries
    ensures forall readable :: Read(sha, LookAt(d, readable)).state != "NOT_STARTED"
  {
    var text := d.At(StateFile);
    StateRoundTrip(sha, "RUNNING", 2, "-", "-", "-");
    StateRoundTrip(sha, "FAILED", RC_FAILED, "-", "-", "-");
    if exists name, code :: Published(sha, d, name, code, text) {
      var name, code :| Published(sha, d, name, code, text);
      PublishedReads(sha, name, code, d.At(Record(name)));
    }
  }


  /** Over every run: a call exits 3 exactly at its look, and exactly if it is to publish under a name beside
      a state file that reads PUBLISHED; it has touched nothing then. */
  lemma ReEntryIff(sha: string -> Digest, events: seq<Event>, id: nat, ok: bool, n: nat)
    requires var calls := Run(sha, FRESH, events).calls; id in calls && calls[id].Live()
    ensures var s := Run(sha, FRESH, events);
            var c, t := s.calls[id], Apply(sha, s, Step(id, ok, n));
            && (t.calls[id].phase == Finished(RC_RE_ENTRY) <==>
                  && c.phase.Looking? && c.job.Publish? && c.job.name != "" && c.job.stateful
                  && Read(sha, LookAt(s.disk, ok)).state == "PUBLISHED")
            && (t.calls[id].phase == Finished(RC_RE_ENTRY) ==> t.disk == s.disk && !c.won && !c.linked)
  {
    LooksFirst(sha, FRESH, events);
    MoveReEnters(sha, Run(sha, FRESH, events).disk, Run(sha, FRESH, events).calls[id], ok, n);
    hide Run, Move, Read;
  }

  lemma MoveReEnters(sha: string -> Digest, d: Disk<Name>, c: Call, ok: bool, n: nat)
    requires c.Live()
    ensures var (e, c') := Move(sha, d, c, ok, n);
            && (c'.phase == Finished(RC_RE_ENTRY) <==>
                  && c.phase.Looking? && c.job.Publish? && c.job.name != "" && c.job.stateful
                  && Read(sha, LookAt(d, ok)).state == "PUBLISHED")
            && (c'.phase == Finished(RC_RE_ENTRY) ==> e == d)
  {
    hide RunningText, RecordText, WordText, Verify, PlainName, Read;
  }

  /** A call that has yet to look has done nothing. */
  predicate Unbegun(s: System<Name>)
  {
    forall i :: i in s.calls && s.calls[i].phase.Looking? ==> !s.calls[i].won && !s.calls[i].linked
  }

  lemma {:induction false} LooksFirst(sha: string -> Digest, s: System<Name>, events: seq<Event>)
    requires Unbegun(s)
    ensures Unbegun(Run(sha, s, events))
    decreases |events|
  {
    if events == [] {
    } else {
      if events[0].Step? && events[0].id in s.calls {
        MoveLeavesTheLook(sha, s.disk, s.calls[events[0].id], events[0].ok, events[0].n);
      }
      assert Unbegun(Apply(sha, s, events[0])) by { hide Move; }
      hide Apply;
      LooksFirst(sha, Apply(sha, s, events[0]), events[1..]);
    }
  }

  lemma MoveLeavesTheLook(sha: string -> Digest, d: Disk<Name>, c: Call, ok: bool, n: nat)
    ensures !Move(sha, d, c, ok, n).1.phase.Looking?
  {
    hide RunningText, RecordText, WordText, Verify, PlainName, Read;
  }

  /** What every other call makes of the state it finds: one that begins a run goes on only from a fresh
      start, and a publication from a fresh start or from a run that has begun. */
  lemma LookDecides(sha: string -> Digest, d: Disk<Name>, c: Call, ok: bool, n: nat)
    requires c.phase.Looking? && (c.job.Publish? ==> c.job.name != "")
    ensures var (e, c') := Move(sha, d, c, ok, n);
            var state := Read(sha, LookAt(d, ok)).state;
            && e == d
            && (c'.phase == ClaimOpening <==> state == "NOT_STARTED" && (c.job.Publish? ==> c.job.stateful))
            && (c'.phase == Scanning <==> c.job.Publish? && (!c.job.stateful || state == "RUNNING"))
            && (c'.phase.Finished? && c'.phase.rc != RC_RE_ENTRY <==>
                  if c.job.Begin? then state != "NOT_STARTED"
                  else c.job.stateful && state != "NOT_STARTED" && state != "RUNNING" && state != "PUBLISHED")
  {
    hide Read;
  }
}
