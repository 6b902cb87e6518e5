/** The publication protocol on files: where their names are spelt apart it is the protocol on kinds of
    names. */
module FileRuns {
  import opened Wrappers
  import opened Text
  import opened Seal
  import opened StateRecord
  import opened Publication
  import opened PublicationRuns
  import opened FileNames

  function FilesOf(state: string, c: Call): Names<string>
  {
    var at := NamesOf(c);
    Names(File(state, at.state), File(state, at.claimTemp), File(state, at.stateTemp), File(state, at.recordTemp),
          File(state, at.record))
  }

  /** `Apply`, on files. */
  function ApplyFiles(sha: string -> Digest, state: string, s: System<string>, e: Event): System<string>
  {
    match e
    case Start(id, job, pid) =>
      if id in s.calls || exists other :: other in s.calls && s.calls[other].Live() && s.calls[other].pid == pid then s
      else s.(calls := s.calls[id := Call(job, pid, Looking, false, false)])
    case Kill(id) =>
      if id in s.calls && s.calls[id].Live() then s.(calls := s.calls[id := s.calls[id].(phase := Killed)]) else s
    case Step(id, ok, n) =>
      if id !in s.calls then s
      else
        var (d, c) := MoveAt(sha, s.disk, FilesOf(state, s.calls[id]), s.calls[id], ok, n);
        System(d, s.calls[id := c])
  }

  function RunFiles(sha: string -> Digest, state: string, s: System<string>, events: seq<Event>): System<string>
    decreases |events|
  {
    if events == [] then s else RunFiles(sha, state, ApplyFiles(sha, state, s, events[0]), events[1..])
  }

  const EMPTY: System<string> := System(Disk(map[], map[], 0), map[])

  /** The directory holds what the directory of kinds holds, name by name. */
  ghost predicate Alike(state: string, records: set<string>, d: Disk<Name>, e: Disk<string>)
  {
    && d.files == e.files && d.next == e.next
    && (forall n :: n in d.entries ==> Used(n, records))
    && (forall n :: Used(n, records) ==> (n in d.entries <==> File(state, n) in e.entries))
    && (forall n :: n in d.entries ==> e.entries[File(state, n)] == d.entries[n])
  }

  lemma CreateAlike(state: string, records: set<string>, d: Disk<Name>, e: Disk<string>, n: Name)
    requires Injective(state, records) && Alike(state, records, d, e) && Used(n, records)
    ensures Alike(state, records, d.Create(n), e.Create(File(state, n)))
  {
  }

  lemma LinkAlike(state: string, records: set<string>, d: Disk<Name>, e: Disk<string>, a: Name, b: Name)
    requires Injective(state, records) && Alike(state, records, d, e) && Used(b, records) && a in d.entries
    ensures Alike(state, records, d.Link(a, b), e.Link(File(state, a), File(state, b)))
  {
  }

  lemma UnlinkAlike(state: string, records: set<string>, d: Disk<Name>, e: Disk<string>, n: Name)
    requires Injective(state, records) && Alike(state, records, d, e) && Used(n, records)
    ensures Alike(state, records, d.Unlink(n), e.Unlink(File(state, n)))
  {
  }

  lemma ReplaceAlike(state: string, records: set<string>, d: Disk<Name>, e: Disk<string>, a: Name, b: Name)
    requires Injective(state, records) && Alike(state, records, d, e) && Used(b, records) && a in d.entries
    ensures Alike(state, records, d.Replace(a, b), e.Replace(File(state, a), File(state, b)))
  {
  }

  /** A call that goes to work on its record has one of these. */
  predicate Named(c: Call, records: set<string>)
  {
    c.job.Publish? && PlainName(c.job.name) ==> c.job.name in records
  }

  ghost predicate MovedAlike(state: string, records: set<string>, p: (Disk<Name>, Call), q: (Disk<string>, Call))
  {
    p.1 == q.1 && Alike(state, records, p.0, q.0)
  }

  lemma Sees(state: string, records: set<string>, d: Disk<Name>, e: Disk<string>, n: Name)
    requires Alike(state, records, d, e) && Used(n, records)
    ensures d.files == e.files && d.next == e.next && (n in d.entries <==> File(state, n) in e.entries)
    ensures d.Has(n) <==> e.Has(File(state, n))
    ensures d.Has(n) ==> d.At(n) == e.At(File(state, n))
  {
  }

  lemma AppendAlike(state: string, records: set<string>, d: Disk<Name>, e: Disk<string>, i: nat, text: string)
    requires Alike(state, records, d, e) && i in d.files
    ensures i in e.files && Alike(state, records, d.Append(i, text), e.Append(i, text))
  {
  }

  lemma WriteAlike(state: string, records: set<string>, d: Disk<Name>, e: Disk<string>, i: nat, text: string,
                   done: nat, n: nat)
    requires Alike(state, records, d, e) && done <= |text|
    ensures i in d.files <==> i in e.files
    ensures i in d.files ==>
              Alike(state, records, d.Append(i, text[done..done + Min(n, |text| - done)]),
                    e.Append(i, text[done..done + Min(n, |text| - done)]))
  {
    if i in d.files { AppendAlike(state, records, d, e, i, text[done..done + Min(n, |text| - done)]); }
    hide Alike;
  }

  lemma ClaimAlike(sha: string -> Digest, state: string, records: set<string>, d: Disk<Name>, e: Disk<string>,
                   c: Call, ok: bool, n: nat)
    requires Injective(state, records) && Alike(state, records, d, e) && InClaim(c.phase)
    ensures MovedAlike(state, records, ClaimSteps(sha, d, NamesOf(c), c, ok, n), ClaimSteps(sha, e, FilesOf(state, c), c, ok, n))
  {
    var temp := ClaimTemp(c.pid);
    Sees(state, records, d, e, temp);
    Sees(state, records, d, e, StateFile);
    if c.phase.ClaimOpening? { CreateAlike(state, records, d, e, temp); }
    else if c.phase.ClaimWriting? {
      if c.phase.done <= |RunningText(sha)| { WriteAlike(state, records, d, e, c.phase.ino, RunningText(sha), c.phase.done, n); }
    }
    else if c.phase.ClaimLinking? { if temp in d.entries { LinkAlike(state, records, d, e, temp, StateFile); } }
    else { UnlinkAlike(state, records, d, e, temp); }
    hide RunningText, File, Injective, Alike, Disk.Create, Disk.Link, Disk.Unlink, Disk.Append, AfterClaim;
  }

  lemma StateAlike(sha: string -> Digest, state: string, records: set<string>, d: Disk<Name>, e: Disk<string>,
                   c: Call, ok: bool, n: nat)
    requires Injective(state, records) && Alike(state, records, d, e) && c.job.Publish? && InState(c.phase)
    ensures MovedAlike(state, records, StateSteps(sha, d, NamesOf(c), c, ok, n), StateSteps(sha, e, FilesOf(state, c), c, ok, n))
  {
    var temp := StateTemp(c.pid);
    Sees(state, records, d, e, temp);
    if c.phase.StateOpening? { CreateAlike(state, records, d, e, temp); }
    else if c.phase.StateWriting? {
      var text := WordText(sha, c.job, c.phase.word);
      if c.phase.done <= |text| { WriteAlike(state, records, d, e, c.phase.ino, text, c.phase.done, n); }
    }
    else if c.phase.StateReplacing? { if temp in d.entries { ReplaceAlike(state, records, d, e, temp, StateFile); } }
    else { UnlinkAlike(state, records, d, e, temp); }
    hide WordText, File, Injective, Alike, Disk.Create, Disk.Replace, Disk.Unlink, Disk.Append;
  }

  predicate Early(p: Phase) { p.Scanning? || p.Checking? || p.RecordOpening? || p.RecordWriting? }

  lemma RecordEarlyAlike(sha: string -> Digest, state: string, records: set<string>, d: Disk<Name>, e: Disk<string>,
                         c: Call, ok: bool, n: nat)
    requires Injective(state, records) && Alike(state, records, d, e) && c.job.Publish? && c.job.name in records
    requires Early(c.phase)
    ensures MovedAlike(state, records, RecordSteps(sha, d, NamesOf(c), c, ok, n), RecordSteps(sha, e, FilesOf(state, c), c, ok, n))
  {
    var temp, final := RecordTemp(c.job.name, c.pid), Record(c.job.name);
    Sees(state, records, d, e, temp);
    Sees(state, records, d, e, final);
    if c.phase.RecordOpening? { CreateAlike(state, records, d, e, temp); }
    if c.phase.RecordWriting? {
      var text := RecordText(sha, c.job);
      if c.phase.done <= |text| { WriteAlike(state, records, d, e, c.phase.ino, text, c.phase.done, n); }
    }
    hide RecordText, File, Injective, Verify, PlainName, Alike, Disk.Create, Disk.Link, Disk.Unlink, Disk.Append, AfterRecord;
  }

  lemma RecordLinkAlike(sha: string -> Digest, state: string, records: set<string>, d: Disk<Name>, e: Disk<string>,
                        c: Call, ok: bool, n: nat)
    requires Injective(state, records) && Alike(state, records, d, e) && c.job.Publish? && c.job.name in records
    requires c.phase.RecordLinking?
    ensures MovedAlike(state, records, RecordSteps(sha, d, NamesOf(c), c, ok, n), RecordSteps(sha, e, FilesOf(state, c), c, ok, n))
  {
    var temp, final := RecordTemp(c.job.name, c.pid), Record(c.job.name);
    Sees(state, records, d, e, temp);
    Sees(state, records, d, e, final);
    if temp in d.entries { LinkAlike(state, records, d, e, temp, final); }
    hide RecordText, File, Injective, Verify, PlainName, Alike, Disk.Create, Disk.Link, Disk.Unlink, Disk.Append, AfterRecord;
  }

  predicate Verifies(p: Phase) { p.RecordSyncing? || p.RecordVerifying? }

  lemma RecordVerifiesAlike(sha: string -> Digest, state: string, records: set<string>, d: Disk<Name>,
                            e: Disk<string>, c: Call, ok: bool, n: nat)
    requires Injective(state, records) && Alike(state, records, d, e) && c.job.Publish? && c.job.name in records
    requires Verifies(c.phase)
    ensures MovedAlike(state, records, RecordSteps(sha, d, NamesOf(c), c, ok, n), RecordSteps(sha, e, FilesOf(state, c), c, ok, n))
  {
    Sees(state, records, d, e, Record(c.job.name));
    hide RecordText, File, Injective, Verify, PlainName, Alike, Disk.Create, Disk.Link, Disk.Unlink, Disk.Append, AfterRecord;
  }

  lemma RecordLateAlike(sha: string -> Digest, state: string, records: set<string>, d: Disk<Name>, e: Disk<string>,
                        c: Call, ok: bool, n: nat)
    requires Injective(state, records) && Alike(state, records, d, e) && c.job.Publish? && c.job.name in records
    requires c.phase.RecordUnlinking? || c.phase.RecordYielding? || c.phase.RecordDropping?
    ensures MovedAlike(state, records, RecordSteps(sha, d, NamesOf(c), c, ok, n), RecordSteps(sha, e, FilesOf(state, c), c, ok, n))
  {
    UnlinkAlike(state, records, d, e, RecordTemp(c.job.name, c.pid));
    hide RecordText, File, Injective, Verify, PlainName, Alike, Disk.Create, Disk.Link, Disk.Unlink, Disk.Append, AfterRecord;
  }

  /** A call whose record's name is not plain gives it up before it uses it. */
  predicate Plain(c: Call)
  {
    c.job.Publish? && !PlainName(c.job.name) && c.Live() ==>
      c.phase.Looking? || InClaim(c.phase) || InState(c.phase) || c.phase.Scanning?
  }

  lemma MoveAlike(sha: string -> Digest, state: string, records: set<string>, d: Disk<Name>, e: Disk<string>, c: Call,
                  ok: bool, n: nat)
    requires Injective(state, records) && Alike(state, records, d, e) && Named(c, records) && Plain(c)
    ensures MovedAlike(state, records, Move(sha, d, c, ok, n), MoveAt(sha, e, FilesOf(state, c), c, ok, n))
    ensures Plain(Move(sha, d, c, ok, n).1)
  {
    Sees(state, records, d, e, StateFile);
    MoveStaysPlain(sha, d, c, ok, n);
    if c.Live() && !c.phase.Looking? {
      if InClaim(c.phase) { ClaimAlike(sha, state, records, d, e, c, ok, n); }
      else if c.job.Publish? {
        if InState(c.phase) { StateAlike(sha, state, records, d, e, c, ok, n); }
        else if c.phase.Scanning? { }
        else if Early(c.phase) { RecordEarlyAlike(sha, state, records, d, e, c, ok, n); }
        else if c.phase.RecordLinking? { RecordLinkAlike(sha, state, records, d, e, c, ok, n); }
        else if Verifies(c.phase) { RecordVerifiesAlike(sha, state, records, d, e, c, ok, n); }
        else { RecordLateAlike(sha, state, records, d, e, c, ok, n); }
      }
    }
    hide ClaimSteps, StateSteps, Alike, Read, File, PlainName, AfterLook, Injective;
    if !c.phase.Scanning? { hide RecordSteps; }
  }

  lemma MoveStaysPlain(sha: string -> Digest, d: Disk<Name>, c: Call, ok: bool, n: nat)
    requires Plain(c)
    ensures Plain(Move(sha, d, c, ok, n).1)
  {
    hide RunningText, RecordText, WordText, Read, Verify, PlainName;
  }

  ghost predicate AllAlike(state: string, records: set<string>, s: System<Name>, t: System<string>)
  {
    && t.calls == s.calls && Alike(state, records, s.disk, t.disk)
    && forall i :: i in s.calls ==> Named(s.calls[i], records) && Plain(s.calls[i])
  }

  /** The plain names among those the calls publish. */
  predicate Publishes(events: seq<Event>, records: set<string>)
  {
    forall e :: e in events && e.Start? && e.job.Publish? && PlainName(e.job.name) ==> e.job.name in records
  }

  lemma ApplyAlike(sha: string -> Digest, state: string, records: set<string>, s: System<Name>, t: System<string>,
                   e: Event)
    requires Injective(state, records) && AllAlike(state, records, s, t) && Publishes([e], records)
    ensures AllAlike(state, records, Apply(sha, s, e), ApplyFiles(sha, state, t, e))
  {
    assert e in [e];
    if e.Step? && e.id in s.calls {
      MoveAlike(sha, state, records, s.disk, t.disk, s.calls[e.id], e.ok, e.n);
      MoveKeepsJob(sha, s.disk, s.calls[e.id], e.ok, e.n);
    }
    hide Move, MoveAt, Alike, Injective, PlainName, File;
  }

  lemma MoveKeepsJob(sha: string -> Digest, d: Disk<Name>, c: Call, ok: bool, n: nat)
    ensures Move(sha, d, c, ok, n).1.job == c.job
  {
    hide RunningText, RecordText, WordText, Read, Verify, PlainName;
  }

  lemma {:induction false} RunAlike(sha: string -> Digest, state: string, records: set<string>, s: System<Name>,
                                    t: System<string>, events: seq<Event>)
    requires Injective(state, records) && AllAlike(state, records, s, t) && Publishes(events, records)
    ensures AllAlike(state, records, Run(sha, s, events), RunFiles(sha, state, t, events))
    decreases |events|
  {
    if events == [] {
    } else {
      assert events[0] in events && forall e :: e in events[1..] ==> e in events;
      ApplyAlike(sha, state, records, s, t, events[0]);
      hide Injective, AllAlike, Apply, ApplyFiles;
      RunAlike(sha, state, records, Apply(sha, s, events[0]), ApplyFiles(sha, state, t, events[0]), events[1..]);
    }
  }

  /** Where the names are spelt apart the directory is the one of kinds, after every run. */
  lemma FilesRun(sha: string -> Digest, state: string, records: set<string>, events: seq<Event>)
    requires (forall m :: m in records ==> PlainName(m) && Apart(state, m)) && Publishes(events, records)
    ensures Injective(state, records)
    ensures AllAlike(state, records, Run(sha, FRESH, events), RunFiles(sha, state, EMPTY, events))
  {
    ApartIff(state, records);
    RunAlike(sha, state, records, FRESH, EMPTY, events);
  }

  lemma {:induction false} RunFilesOn(sha: string -> Digest, state: string, s: System<string>, a: seq<Event>,
                                      b: seq<Event>)
    ensures RunFiles(sha, state, s, a + b) == RunFiles(sha, state, RunFiles(sha, state, s, a), b)
    decreases |a|
  {
    if a == [] {
      assert a + b == b;
    } else {
      assert (a + b)[0] == a[0] && (a + b)[1..] == a[1..] + b;
      hide ApplyFiles;
      RunFilesOn(sha, state, ApplyFiles(sha, state, s, a[0]), a[1..], b);
    }
  }

  /** So there, too, what the state file says is published is a file of that name, intact and as it was
      recorded, then and ever after. */
  lemma PublishedFileIsThere(sha: string -> Digest, state: string, records: set<string>, before: seq<Event>,
                             after: seq<Event>)
    requires (forall m :: m in records ==> PlainName(m) && Apart(state, m)) && Publishes(before, records) && Publishes(after, records)
    ensures var s := RunFiles(sha, state, EMPTY, before);
            var st := Read(sha, Looked(s.disk, state, true));
            var d := RunFiles(sha, state, s, after).disk;
            st.state == "PUBLISHED" ==>
              && d.Has(st.name) && Verify(sha, d.At(st.name)) == Intact
              && st.size == Decimal(|d.At(st.name)|) && st.sha == sha(d.At(st.name))
  {
    FilesRun(sha, state, records, before);
    RunAlike(sha, state, records, Run(sha, FRESH, before), RunFiles(sha, state, EMPTY, before), after);
    PublishedIsThere(sha, before, after);
    var s, t := Run(sha, FRESH, before), RunFiles(sha, state, EMPTY, before);
    var d, e := Run(sha, s, after).disk, RunFiles(sha, state, t, after).disk;
    Sees(state, records, s.disk, t.disk, StateFile);
    var name := Read(sha, LookAt(s.disk, true)).name;
    if d.Has(Record(name)) { Sees(state, records, d, e, Record(name)); }
    hide Run, RunFiles, Read, Verify, Injective, Named, Plain;
  }

  /** And no record's file changes. */
  lemma RecordFilesNeverChange(sha: string -> Digest, state: string, records: set<string>, before: seq<Event>,
                               after: seq<Event>, name: string)
    requires (forall m :: m in records ==> PlainName(m) && Apart(state, m)) && Publishes(before, records) && Publishes(after, records)
    requires name in records && RunFiles(sha, state, EMPTY, before).disk.Has(name)
    ensures var s := RunFiles(sha, state, EMPTY, before);
            var d := RunFiles(sha, state, s, after).disk;
            d.Has(name) && d.At(name) == s.disk.At(name)
  {
    FilesRun(sha, state, records, before);
    RunAlike(sha, state, records, Run(sha, FRESH, before), RunFiles(sha, state, EMPTY, before), after);
    var s, t := Run(sha, FRESH, before), RunFiles(sha, state, EMPTY, before);
    var d, e := Run(sha, s, after).disk, RunFiles(sha, state, t, after).disk;
    Sees(state, records, s.disk, t.disk, Record(name));
    RecordsNeverChange(sha, before, after, name);
    Sees(state, records, d, e, Record(name));
    hide Run, RunFiles, Injective, Named, Plain;
  }
}
