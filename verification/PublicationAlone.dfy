/** A publication that no other call and no failure gets in the way of. */
module PublicationAlone {
  import opened Wrappers
  import opened Text
  import opened Seal
  import opened StateRecord
  import opened Publication
  import opened PublicationRuns

  // === A publication left alone ===

  /** The word for a record that reads back like this. */
  function Deserved(sha: string -> Digest, job: Job): Word
    requires job.Publish?
  {
    if Verify(sha, RecordText(sha, job)) == Intact then PublishedWord else FailedWord
  }

  predicate Holds(d: Disk<Name>, n: Name, text: string) { d.Has(n) && d.At(n) == text }

  predicate OnlyNames(d: Disk<Name>, names: set<Name>) { d.entries.Keys == names }

  /** How a publication nobody disturbs stands, and the directory with it: first the claim. */
  ghost predicate AloneClaim(sha: string -> Digest, d: Disk<Name>, c: Call)
    requires InClaim(c.phase)
  {
    var temp := ClaimTemp(c.pid);
    if c.phase.ClaimOpening? then OnlyNames(d, {})
    else if c.phase.ClaimWriting? then OnlyNames(d, {temp}) && Filling(d, temp, c.phase.ino, RunningText(sha), c.phase.done)
    else if c.phase.ClaimLinking? then OnlyNames(d, {temp})
    else if c.phase.ClaimUnlinking? then c.phase.mine && OnlyNames(d, {temp, StateFile})
    else c.phase.ClaimSyncing? && c.phase.mine && OnlyNames(d, {StateFile})
  }

  /** Then the record. */
  ghost predicate AloneRecord(sha: string -> Digest, d: Disk<Name>, c: Call)
    requires c.job.Publish?
  {
    var temp, final, text := RecordTemp(c.job.name, c.pid), Record(c.job.name), RecordText(sha, c.job);
    if c.phase.Scanning? || c.phase.RecordOpening? || (c.phase.Checking? && !c.phase.stale) then OnlyNames(d, {StateFile})
    else if c.phase.RecordWriting? then OnlyNames(d, {StateFile, temp}) && Filling(d, temp, c.phase.ino, text, c.phase.done)
    else if c.phase.RecordLinking? then OnlyNames(d, {StateFile, temp}) && Filled(d, temp, text)
    else if c.phase.RecordUnlinking? then OnlyNames(d, {StateFile, temp, final}) && Holds(d, final, text)
    else (c.phase.RecordSyncing? || c.phase.RecordVerifying?) && OnlyNames(d, {StateFile, final}) && Holds(d, final, text)
  }

  /** Then the word for it. */
  ghost predicate AloneState(sha: string -> Digest, d: Disk<Name>, c: Call)
    requires c.job.Publish? && InState(c.phase)
  {
    var temp, final, word := StateTemp(c.pid), Record(c.job.name), c.phase.word;
    && word == Deserved(sha, c.job)
    && if c.phase.StateOpening? then OnlyNames(d, {StateFile, final})
       else if c.phase.StateWriting? then
         OnlyNames(d, {StateFile, final, temp}) && Filling(d, temp, c.phase.ino, WordText(sha, c.job, word), c.phase.done)
       else if c.phase.StateReplacing? then OnlyNames(d, {StateFile, final, temp}) && Filled(d, temp, WordText(sha, c.job, word))
       else c.phase.StateSyncing? && Holds(d, StateFile, WordText(sha, c.job, word))
  }

  /** The jobs that have a record to publish. */
  predicate Publishes(job: Job)
  {
    job.Publish? && job.stateful && job.name != "" && PlainName(job.name) && job.body != ""
  }

  ghost predicate Alone(sha: string -> Digest, d: Disk<Name>, c: Call)
  {
    && d.Ok() && Publishes(c.job)
    && if c.phase.Looking? then OnlyNames(d, {})
       else if InClaim(c.phase) then AloneClaim(sha, d, c)
       else if InState(c.phase) then AloneState(sha, d, c)
       else if c.phase.Finished? then
         && c.phase.rc == (if Deserved(sha, c.job).PublishedWord? then RC_PUBLISHED else RC_FAILED)
         && Holds(d, StateFile, WordText(sha, c.job, Deserved(sha, c.job)))
       else !c.phase.Killed? && AloneRecord(sha, d, c)
  }

  /** How many steps are left at most, each of which succeeds and each write of which lands something. */
  function StepsLeft(sha: string -> Digest, c: Call): int
    requires c.job.Publish?
  {
    var claim, record, word := |RunningText(sha)|, |RecordText(sha, c.job)|, |WordText(sha, c.job, Deserved(sha, c.job))|;
    if c.phase.Finished? || c.phase.Killed? then 0
    else if InState(c.phase) then
      if c.phase.StateOpening? then 5 + word
      else if c.phase.StateWriting? then 4 + word - c.phase.done
      else if c.phase.StateReplacing? then 3 else 2
    else if c.phase.Looking? then 20 + claim + record + word
    else if InClaim(c.phase) then
      record + word +
      (if c.phase.ClaimOpening? then 19 + claim else if c.phase.ClaimWriting? then 18 + claim - c.phase.done
       else if c.phase.ClaimLinking? then 17 else if c.phase.ClaimUnlinking? then 16 else 15)
    else
      word +
      (if c.phase.Scanning? then 14 + record else if c.phase.Checking? then 13 + record
       else if c.phase.RecordOpening? then 12 + record
       else if c.phase.RecordWriting? then 11 + record - c.phase.done
       else if c.phase.RecordLinking? then 10 else if c.phase.RecordUnlinking? then 9
       else if c.phase.RecordSyncing? then 8 else 7)
  }

  ghost predicate GoesOn(sha: string -> Digest, d: Disk<Name>, c: Call, n: nat)
    requires c.job.Publish?
  {
    var (e, c') := Move(sha, d, c, true, n);
    c'.job == c.job && c'.pid == c.pid && Alone(sha, e, c') && StepsLeft(sha, c') < StepsLeft(sha, c)
  }

  lemma FillsOn(d: Disk<Name>, temp: Name, ino: nat, text: string, done: nat, m: nat)
    requires d.Ok() && Filling(d, temp, ino, text, done) && done + m <= |text|
    ensures var e := d.Append(ino, text[done..done + m]);
            e.Ok() && e.entries == d.entries && Filling(e, temp, ino, text, done + m) && ino in d.files
  {
    assert text[..done] + text[done..done + m] == text[..done + m];
  }

  lemma FillsNew(d: Disk<Name>, temp: Name, text: string)
    requires d.Ok() && temp !in d.entries
    ensures var e := d.Create(temp);
            e.Ok() && e.entries.Keys == d.entries.Keys + {temp} && Filling(e, temp, d.next, text, 0)
  {
  }

  lemma AloneLooks(sha: string -> Digest, d: Disk<Name>, c: Call, n: nat)
    requires Alone(sha, d, c) && c.phase.Looking?
    ensures GoesOn(sha, d, c, n)
  {
    hide RunningText, RecordText, WordText, Deserved, ClaimSteps, RecordSteps, StateSteps;
  }

  lemma AloneClaimOpens(sha: string -> Digest, d: Disk<Name>, c: Call, n: nat)
    requires Alone(sha, d, c) && c.phase.ClaimOpening? && n > 0
    ensures GoesOn(sha, d, c, n)
  {
    hide RunningText, RecordText, WordText, Deserved, RecordSteps, StateSteps, Read;
    FillsNew(d, ClaimTemp(c.pid), RunningText(sha));
  }

  lemma ClaimWriteMoves(sha: string -> Digest, d: Disk<Name>, c: Call, n: nat)
    requires c.phase.ClaimWriting? && c.job.Publish? && c.phase.ino in d.files && n > 0 && c.phase.done <= |RunningText(sha)|
    ensures var text, done := RunningText(sha), c.phase.done;
            var m := Min(n, |text| - done);
            Move(sha, d, c, true, n)
            == if done < |text| then (d.Append(c.phase.ino, text[done..done + m]), c.(phase := ClaimWriting(c.phase.ino, done + m)))
               else (d, c.(phase := ClaimLinking))
  {
    hide RunningText, RecordText, WordText, Read, RecordSteps, StateSteps;
  }

  lemma AloneClaimWrites(sha: string -> Digest, d: Disk<Name>, c: Call, n: nat)
    requires Alone(sha, d, c) && c.phase.ClaimWriting? && n > 0
    ensures GoesOn(sha, d, c, n)
  {
    hide RunningText, RecordText, WordText, Deserved, Read, Move;
    var text := RunningText(sha);
    ClaimWriteMoves(sha, d, c, n);
    if c.phase.done < |text| {
      FillsOn(d, ClaimTemp(c.pid), c.phase.ino, text, c.phase.done, Min(n, |text| - c.phase.done));
    } else {
      assert text[..|text|] == text;
    }
  }


  lemma AloneClaimEnds(sha: string -> Digest, d: Disk<Name>, c: Call, n: nat)
    requires Alone(sha, d, c) && (c.phase.ClaimLinking? || c.phase.ClaimUnlinking? || c.phase.ClaimSyncing?) && n > 0
    ensures GoesOn(sha, d, c, n)
  {
    hide RunningText, RecordText, WordText, Deserved, RecordSteps, StateSteps, Read;
  }

  lemma AloneRecordBegins(sha: string -> Digest, d: Disk<Name>, c: Call, n: nat)
    requires Alone(sha, d, c) && (c.phase.Scanning? || c.phase.Checking?) && n > 0
    ensures GoesOn(sha, d, c, n)
  {
    hide RunningText, RecordText, WordText, ClaimSteps, StateSteps, Read, Verify, Written, Sealed;
  }

  lemma AloneRecordOpens(sha: string -> Digest, d: Disk<Name>, c: Call, n: nat)
    requires Alone(sha, d, c) && c.phase.RecordOpening? && n > 0
    ensures GoesOn(sha, d, c, n)
  {
    hide RunningText, RecordText, WordText, ClaimSteps, StateSteps, Read, Verify, Written, Sealed;
    FillsNew(d, RecordTemp(c.job.name, c.pid), RecordText(sha, c.job));
  }

  lemma RecordWriteMoves(sha: string -> Digest, d: Disk<Name>, c: Call, n: nat)
    requires c.phase.RecordWriting? && c.job.Publish? && c.phase.ino in d.files && n > 0 && c.phase.done <= |RecordText(sha, c.job)|
    ensures var text, done := RecordText(sha, c.job), c.phase.done;
            var m := Min(n, |text| - done);
            Move(sha, d, c, true, n)
            == if done < |text| then (d.Append(c.phase.ino, text[done..done + m]), c.(phase := RecordWriting(c.phase.ino, done + m)))
               else (d, c.(phase := RecordLinking))
  {
    hide RunningText, RecordText, WordText, Read, ClaimSteps, StateSteps;
  }

  lemma AloneRecordWrites(sha: string -> Digest, d: Disk<Name>, c: Call, n: nat)
    requires Alone(sha, d, c) && c.phase.RecordWriting? && n > 0
    ensures GoesOn(sha, d, c, n)
  {
    hide RunningText, RecordText, WordText, Deserved, Read, Verify, Move;
    var text := RecordText(sha, c.job);
    RecordWriteMoves(sha, d, c, n);
    if c.phase.done < |text| {
      FillsOn(d, RecordTemp(c.job.name, c.pid), c.phase.ino, text, c.phase.done, Min(n, |text| - c.phase.done));
    } else {
      assert text[..|text|] == text;
    }
  }


  lemma AloneRecordLinks(sha: string -> Digest, d: Disk<Name>, c: Call, n: nat)
    requires Alone(sha, d, c) && (c.phase.RecordLinking? || c.phase.RecordUnlinking?) && n > 0
    ensures GoesOn(sha, d, c, n)
  {
    hide RunningText, RecordText, WordText, ClaimSteps, StateSteps, Read, Verify, Written, Sealed;
  }

  lemma AloneRecordVerifies(sha: string -> Digest, d: Disk<Name>, c: Call, n: nat)
    requires Alone(sha, d, c) && (c.phase.RecordSyncing? || c.phase.RecordVerifying?) && n > 0
    ensures GoesOn(sha, d, c, n)
  {
    hide RunningText, RecordText, WordText, ClaimSteps, StateSteps, Read, Verify, Written, Sealed;
  }

  lemma AloneStateOpens(sha: string -> Digest, d: Disk<Name>, c: Call, n: nat)
    requires Alone(sha, d, c) && c.phase.StateOpening? && n > 0
    ensures GoesOn(sha, d, c, n)
  {
    hide RunningText, RecordText, WordText, Deserved, ClaimSteps, RecordSteps, Read;
    FillsNew(d, StateTemp(c.pid), WordText(sha, c.job, c.phase.word));
  }

  lemma StateWriteMoves(sha: string -> Digest, d: Disk<Name>, c: Call, n: nat)
    requires c.phase.StateWriting? && c.job.Publish? && c.phase.ino in d.files && n > 0 && c.phase.done <= |WordText(sha, c.job, c.phase.word)|
    ensures var text, done := WordText(sha, c.job, c.phase.word), c.phase.done;
            var m := Min(n, |text| - done);
            Move(sha, d, c, true, n)
            == if done < |text| then (d.Append(c.phase.ino, text[done..done + m]), c.(phase := StateWriting(c.phase.word, c.phase.ino, done + m)))
               else (d, c.(phase := StateReplacing(c.phase.word)))
  {
    hide RunningText, RecordText, WordText, Read, ClaimSteps, RecordSteps;
  }

  lemma AloneStateWrites(sha: string -> Digest, d: Disk<Name>, c: Call, n: nat)
    requires Alone(sha, d, c) && c.phase.StateWriting? && n > 0
    ensures GoesOn(sha, d, c, n)
  {
    hide RunningText, RecordText, WordText, Deserved, Read, Move;
    var text := WordText(sha, c.job, c.phase.word);
    StateWriteMoves(sha, d, c, n);
    if c.phase.done < |text| {
      FillsOn(d, StateTemp(c.pid), c.phase.ino, text, c.phase.done, Min(n, |text| - c.phase.done));
    } else {
      assert text[..|text|] == text;
    }
  }


  lemma AloneStateEnds(sha: string -> Digest, d: Disk<Name>, c: Call, n: nat)
    requires Alone(sha, d, c) && (c.phase.StateReplacing? || c.phase.StateSyncing?) && n > 0
    ensures GoesOn(sha, d, c, n)
  {
    hide RunningText, RecordText, WordText, Deserved, ClaimSteps, RecordSteps, Read;
  }

  lemma AloneStep(sha: string -> Digest, d: Disk<Name>, c: Call, n: nat)
    requires Alone(sha, d, c) && c.Live() && n > 0
    ensures GoesOn(sha, d, c, n)
  {
    hide GoesOn;
    var p := c.phase;
    if p.Looking? { AloneLooks(sha, d, c, n); }
    else if p.ClaimOpening? { AloneClaimOpens(sha, d, c, n); }
    else if p.ClaimWriting? { AloneClaimWrites(sha, d, c, n); }
    else if InClaim(p) { AloneClaimEnds(sha, d, c, n); }
    else if p.StateOpening? { AloneStateOpens(sha, d, c, n); }
    else if p.StateWriting? { AloneStateWrites(sha, d, c, n); }
    else if InState(p) { AloneStateEnds(sha, d, c, n); }
    else if p.Scanning? || p.Checking? { AloneRecordBegins(sha, d, c, n); }
    else if p.RecordOpening? { AloneRecordOpens(sha, d, c, n); }
    else if p.RecordWriting? { AloneRecordWrites(sha, d, c, n); }
    else if p.RecordLinking? || p.RecordUnlinking? { AloneRecordLinks(sha, d, c, n); }
    else { AloneRecordVerifies(sha, d, c, n); }
  }

  /** Steps of one call and nothing else, none of which fails and each write of which lands something. */
  predicate Unhindered(events: seq<Event>, id: nat)
  {
    forall e :: e in events ==> e.Step? && e.id == id && e.ok && e.n > 0
  }

  lemma {:induction false} AloneRuns(sha: string -> Digest, s: System<Name>, events: seq<Event>, id: nat)
    requires id in s.calls && Alone(sha, s.disk, s.calls[id]) && Unhindered(events, id)
    ensures var t := Run(sha, s, events);
            && id in t.calls && t.calls[id].job == s.calls[id].job && Alone(sha, t.disk, t.calls[id])
            && (|events| >= StepsLeft(sha, s.calls[id]) ==> t.calls[id].phase.Finished?)
    decreases |events|
  {
    var c := s.calls[id];
    if events == [] {
      LeftToTheEnd(sha, s.disk, c);
    } else {
      var e, t := events[0], Apply(sha, s, events[0]);
      assert e in events;
      if c.Live() {
        AloneStep(sha, s.disk, c, e.n);
        assert StepsLeft(sha, t.calls[id]) < StepsLeft(sha, c);
      } else {
        assert t == s;
      }
      hide Alone, Move, StepsLeft;
      assert Unhindered(events[1..], id) by { assert forall f :: f in events[1..] ==> f in events; }
      AloneRuns(sha, t, events[1..], id);
      if !c.Live() { StaysFinished(sha, s, events, id); }
    }
  }

  lemma LeftToTheEnd(sha: string -> Digest, d: Disk<Name>, c: Call)
    requires Alone(sha, d, c)
    ensures StepsLeft(sha, c) <= 0 <==> c.phase.Finished?
    ensures !c.Live() ==> c.phase.Finished?
  {
    hide RunningText, RecordText, WordText, Deserved;
  }

  lemma {:induction false} StaysFinished(sha: string -> Digest, s: System<Name>, events: seq<Event>, id: nat)
    requires id in s.calls && s.calls[id].phase.Finished? && Unhindered(events, id)
    ensures Run(sha, s, events) == s
    decreases |events|
  {
    if events == [] {
    } else {
      assert events[0] in events;
      assert Apply(sha, s, events[0]).calls == s.calls;
      assert Unhindered(events[1..], id) by { assert forall f :: f in events[1..] ==> f in events; }
      StaysFinished(sha, s, events[1..], id);
    }
  }

  /** Left alone in a fresh directory, with no call failing and however short the writes, a publication
      of a plainly named record with a body exits 0 exactly when the body ends where a line ends — and
      the state file then reads PUBLISHED exactly when the code is not negative and the name is one
      field of one line. Otherwise the state reads FAILED, whatever the exit was. */
  lemma LonePublication(sha: string -> Digest, id: nat, pid: nat, job: Job, events: seq<Event>)
    requires Publishes(job) && Unhindered(events, id)
    requires |events| >= StepsLeft(sha, Call(job, pid, Looking, false, false))
    ensures var s := Run(sha, Run(sha, FRESH, [Start(id, job, pid)]), events);
            var st := Read(sha, LookAt(s.disk, true));
            && id in s.calls
            && s.calls[id].phase == Finished(if Terminated(job.body) then RC_PUBLISHED else RC_FAILED)
            && st == if Terminated(job.body) && job.code >= 0 && Clean(job.name)
                     then Reading("PUBLISHED", job.code, job.name, Decimal(|RecordText(sha, job)|), sha(RecordText(sha, job)))
                     else Blank("FAILED")
  {
    var c := Call(job, pid, Looking, false, false);
    var s := Run(sha, FRESH, [Start(id, job, pid)]);
    StartsAlone(sha, id, job, pid);
    FreshIsAlone(sha, job, pid);
    hide Alone, Run, StepsLeft;
    AloneRuns(sha, s, events, id);
    var t := Run(sha, s, events);
    EndsAs(sha, t.disk, t.calls[id]);
    hide Read;
    LoneReads(sha, t.disk, job, Terminated(job.body));
  }

  lemma FreshIsAlone(sha: string -> Digest, job: Job, pid: nat)
    requires Publishes(job)
    ensures Alone(sha, FRESH.disk, Call(job, pid, Looking, false, false))
  {
  }

  lemma EndsAs(sha: string -> Digest, d: Disk<Name>, c: Call)
    requires Alone(sha, d, c) && c.phase.Finished?
    ensures c.phase == Finished(if Terminated(c.job.body) then RC_PUBLISHED else RC_FAILED)
    ensures Holds(d, StateFile, WordText(sha, c.job, if Terminated(c.job.body) then PublishedWord else FailedWord))
  {
    VerifySealIff(sha, c.job.body);
    hide Verify, WordText, Sealed;
  }

  lemma StartsAlone(sha: string -> Digest, id: nat, job: Job, pid: nat)
    ensures Run(sha, FRESH, [Start(id, job, pid)])
            == System(FRESH.disk, map[id := Call(job, pid, Looking, false, false)])
  {
    var event := Start(id, job, pid);
    assert [event][1..] == [];
    assert Run(sha, Apply(sha, FRESH, event), []) == Apply(sha, FRESH, event);
  }

  lemma LoneReads(sha: string -> Digest, d: Disk<Name>, job: Job, intact: bool)
    requires job.Publish? && d.Has(StateFile)
    requires d.At(StateFile) == WordText(sha, job, if intact then PublishedWord else FailedWord)
    ensures Read(sha, LookAt(d, true))
            == if intact && job.code >= 0 && Clean(job.name)
               then Reading("PUBLISHED", job.code, job.name, Decimal(|RecordText(sha, job)|), sha(RecordText(sha, job)))
               else Blank("FAILED")
  {
    if intact {
      PublishedReads(sha, job.name, job.code, RecordText(sha, job));
    } else {
      StateRoundTrip(sha, "FAILED", RC_FAILED, "-", "-", "-");
    }
  }
}
