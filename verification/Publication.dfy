/** The publication protocol of scripts/g6-publish-record.py: any number of calls sharing one
    directory and one state file, interleaved system call by system call, any of which may fail,
    with any call killed between two of them and its process number taken over by a later one. */
module Publication {
  import opened Wrappers
  import opened Text
  import opened Seal
  import opened StateRecord

  /** The names the program uses, kept apart by kind; `FileNames` says when their spellings are. */
  datatype Name = StateFile | ClaimTemp(pid: nat) | StateTemp(pid: nat)
                | Record(name: string) | RecordTemp(record: string, pid: nat)

  predicate OwnedBy(n: Name, pid: nat)
  {
    match n
    case ClaimTemp(p) => p == pid
    case StateTemp(p) => p == pid
    case RecordTemp(_, p) => p == pid
    case _ => false
  }

  /** Names lead to inodes and inodes to contents; `next` is an inode never used before. */
  datatype Disk<K> = Disk(entries: map<K, nat>, files: map<nat, string>, next: nat) {
    ghost predicate Ok()
    {
      && (forall n :: n in entries ==> entries[n] in files)
      && (forall i :: i in files ==> i < next)
    }

    predicate Has(n: K) { n in entries && entries[n] in files }

    function At(n: K): string
      requires Has(n)
    {
      files[entries[n]]
    }

    /** Nothing but `n` leads to the inode behind `n`. */
    ghost predicate Private(n: K)
    {
      n in entries && forall m :: m in entries && entries[m] == entries[n] ==> m == n
    }

    function Create(n: K): Disk<K>
    {
      Disk(entries[n := next], files[next := ""], next + 1)
    }

    function Append(i: nat, text: string): Disk<K>
      requires i in files
    {
      this.(files := files[i := files[i] + text])
    }

    /** `link`: the same inode under a second name. */
    function Link(from: K, to: K): Disk<K>
      requires from in entries
    {
      this.(entries := entries[to := entries[from]])
    }

    function Unlink(n: K): Disk<K> { this.(entries := entries - {n}) }

    /** `replace`: the second name leads where the first did, and the first is gone. */
    function Replace(from: K, to: K): Disk<K>
      requires from in entries
    {
      this.(entries := entries[to := entries[from]] - {from})
    }
  }

  datatype Job = Begin | Publish(name: string, body: string, code: int, stateful: bool)

  /** What a call writes into the state file at its end. */
  datatype Word = PublishedWord | FailedWord

  /** Where a call stands: the system call it makes next. */
  datatype Phase =
    | Looking
    | ClaimOpening | ClaimWriting(ino: nat, done: nat) | ClaimLinking
    | ClaimUnlinking(mine: bool) | ClaimSyncing(mine: bool) | ClaimDropping
    | Scanning | Checking(stale: bool)
    | RecordOpening | RecordWriting(ino: nat, done: nat) | RecordDropping | RecordLinking
    | RecordYielding | RecordUnlinking | RecordSyncing | RecordVerifying
    | StateOpening(word: Word) | StateWriting(word: Word, ino: nat, done: nat) | StateReplacing(word: Word)
    | StateSyncing(word: Word) | StateDropping(word: Word)
    | Finished(rc: nat) | Killed

  /** `won` and `linked` remember that this call's own `link` put the state file, or its record, in
      place. */
  datatype Call = Call(job: Job, pid: nat, phase: Phase, won: bool, linked: bool) {
    predicate Live() { !phase.Finished? && !phase.Killed? }
  }

  datatype System<K> = System(disk: Disk<K>, calls: map<nat, Call>)

  /** The names one call uses. */
  datatype Names<K> = Names(state: K, claimTemp: K, stateTemp: K, recordTemp: K, record: K)

  function RecordName(job: Job): string { if job.Publish? then job.name else "" }

  function NamesOf(c: Call): Names<Name>
  {
    Names(StateFile, ClaimTemp(c.pid), StateTemp(c.pid), RecordTemp(RecordName(c.job), c.pid), Record(RecordName(c.job)))
  }

  const RC_PUBLISHED := 0
  const RC_FAILED := 2
  const RC_RE_ENTRY := 3

  function RunningText(sha: string -> Digest): string { Written(sha, "RUNNING", 2, "-", "-", "-") }

  function RecordText(sha: string -> Digest, job: Job): string
    requires job.Publish?
  {
    Sealed(sha, job.body)
  }

  function PublishedText(sha: string -> Digest, name: string, code: int, text: string): string
  {
    Written(sha, "PUBLISHED", code, name, Decimal(|text|), sha(text))
  }

  function WordText(sha: string -> Digest, job: Job, word: Word): string
    requires job.Publish?
  {
    match word
    case FailedWord => Written(sha, "FAILED", RC_FAILED, "-", "-", "-")
    case PublishedWord => PublishedText(sha, job.name, job.code, RecordText(sha, job))
  }

  predicate PlainName(name: string) { '/' !in name && (name != "" ==> name[0] != '.') }

  function Looked<K(==)>(d: Disk<K>, state: K, readable: bool): Look
  {
    if !readable then Unreadable else if d.Has(state) then Content(d.At(state)) else Absent
  }

  function LookAt(d: Disk<Name>, readable: bool): Look { Looked(d, StateFile, readable) }

  /** Where `main` goes after reading the state. */
  function AfterLook(job: Job, state: string): Phase
  {
    if job.Publish? && job.name == "" then Finished(RC_FAILED)
    else if job.Publish? && !job.stateful then Scanning
    else if state == "NOT_STARTED" then ClaimOpening
    else if job.Begin? then Finished(RC_FAILED)
    else if state == "PUBLISHED" then Finished(RC_RE_ENTRY)
    else if state == "RUNNING" then Scanning
    else Finished(RC_FAILED)
  }

  function AfterClaim(job: Job, mine: bool): Phase
  {
    if !mine then Finished(RC_FAILED) else if job.Begin? then Finished(0) else Scanning
  }

  function AfterRecord(job: Job, landed: bool): Phase
    requires job.Publish?
  {
    if job.stateful then StateOpening(if landed then PublishedWord else FailedWord)
    else Finished(if landed then RC_PUBLISHED else RC_FAILED)
  }

  /** One step of `claim_state`. `ok` is whether the system call succeeds, `n` what a write lands. */
  function ClaimSteps<K(==)>(sha: string -> Digest, d: Disk<K>, at: Names<K>, c: Call, ok: bool, n: nat): (Disk<K>, Call)
    requires InClaim(c.phase)
  {
    var temp := at.claimTemp;
    var text := RunningText(sha);
    if c.phase.ClaimOpening? then
      if ok && temp !in d.entries then (d.Create(temp), c.(phase := ClaimWriting(d.next, 0)))
      else (d, c.(phase := AfterClaim(c.job, false)))
    else if c.phase.ClaimWriting? then
      var ino, done := c.phase.ino, c.phase.done;
      if done < |text| && ok && n > 0 && ino in d.files then
        var m := Min(n, |text| - done);
        (d.Append(ino, text[done..done + m]), c.(phase := ClaimWriting(ino, done + m)))
      else if done == |text| && ok then (d, c.(phase := ClaimLinking))
      else (d, c.(phase := ClaimDropping))
    else if c.phase.ClaimLinking? then
      if !ok || temp !in d.entries then (d, c.(phase := ClaimDropping))
      else if at.state in d.entries then (d, c.(phase := ClaimUnlinking(false)))
      else (d.Link(temp, at.state), c.(phase := ClaimUnlinking(true), won := true))
    else if c.phase.ClaimUnlinking? then
      if ok then (d.Unlink(temp), c.(phase := ClaimSyncing(c.phase.mine))) else (d, c.(phase := ClaimDropping))
    else if c.phase.ClaimSyncing? then
      (d, c.(phase := if ok then AfterClaim(c.job, c.phase.mine) else ClaimDropping))
    else
      (if ok then d.Unlink(temp) else d, c.(phase := AfterClaim(c.job, false)))
  }

  function ClaimMove(sha: string -> Digest, d: Disk<Name>, c: Call, ok: bool, n: nat): (Disk<Name>, Call)
    requires InClaim(c.phase)
  {
    ClaimSteps(sha, d, NamesOf(c), c, ok, n)
  }

  /** One step of `durable_write`. The scan for stale temporaries may answer either way. */
  function RecordSteps<K(==)>(sha: string -> Digest, d: Disk<K>, at: Names<K>, c: Call, ok: bool, n: nat): (Disk<K>, Call)
    requires c.job.Publish?
  {
    var temp, final := at.recordTemp, at.record;
    var text := RecordText(sha, c.job);
    var failed := c.(phase := AfterRecord(c.job, false));
    if c.phase.Scanning? then
      if !PlainName(c.job.name) || c.job.body == "" then (d, failed) else (d, c.(phase := Checking(!ok)))
    else if c.phase.Checking? then
      if final in d.entries || c.phase.stale then (d, failed) else (d, c.(phase := RecordOpening))
    else if c.phase.RecordOpening? then
      if ok && temp !in d.entries then (d.Create(temp), c.(phase := RecordWriting(d.next, 0))) else (d, failed)
    else if c.phase.RecordWriting? then
      var ino, done := c.phase.ino, c.phase.done;
      if done < |text| && ok && n > 0 && ino in d.files then
        var m := Min(n, |text| - done);
        (d.Append(ino, text[done..done + m]), c.(phase := RecordWriting(ino, done + m)))
      else if done == |text| && ok then (d, c.(phase := RecordLinking))
      else (d, c.(phase := RecordDropping))
    else if c.phase.RecordLinking? then
      if !ok || temp !in d.entries then (d, failed)
      else if final in d.entries then (d, c.(phase := RecordYielding))
      else (d.Link(temp, final), c.(phase := RecordUnlinking, linked := true))
    else if c.phase.RecordUnlinking? then
      if ok then (d.Unlink(temp), c.(phase := RecordSyncing)) else (d, failed)
    else if c.phase.RecordSyncing? then
      if ok then (d, c.(phase := RecordVerifying)) else (d, failed)
    else if c.phase.RecordVerifying? then
      if ok && d.Has(final) && Verify(sha, d.At(final)) == Intact then (d, c.(phase := AfterRecord(c.job, true)))
      else (d, failed)
    else
      (if ok then d.Unlink(temp) else d, failed)
  }

  function RecordMove(sha: string -> Digest, d: Disk<Name>, c: Call, ok: bool, n: nat): (Disk<Name>, Call)
    requires c.job.Publish?
  {
    RecordSteps(sha, d, NamesOf(c), c, ok, n)
  }

  /** One step of `write_state`. */
  function StateSteps<K(==)>(sha: string -> Digest, d: Disk<K>, at: Names<K>, c: Call, ok: bool, n: nat): (Disk<K>, Call)
    requires c.job.Publish? && InState(c.phase)
  {
    var temp, word := at.stateTemp, c.phase.word;
    if c.phase.StateOpening? then
      if ok && temp !in d.entries then (d.Create(temp), c.(phase := StateWriting(word, d.next, 0)))
      else (d, c.(phase := StateDropping(word)))
    else if c.phase.StateWriting? then
      var text := WordText(sha, c.job, word);
      var ino, done := c.phase.ino, c.phase.done;
      if done < |text| && ok && n > 0 && ino in d.files then
        var m := Min(n, |text| - done);
        (d.Append(ino, text[done..done + m]), c.(phase := StateWriting(word, ino, done + m)))
      else if done == |text| && ok then (d, c.(phase := StateReplacing(word)))
      else (d, c.(phase := StateDropping(word)))
    else if c.phase.StateReplacing? then
      if ok && temp in d.entries then (d.Replace(temp, at.state), c.(phase := StateSyncing(word)))
      else (d, c.(phase := StateDropping(word)))
    else if c.phase.StateSyncing? then
      if ok then (d, c.(phase := Finished(if word.PublishedWord? then RC_PUBLISHED else RC_FAILED)))
      else (d, c.(phase := StateDropping(word)))
    else
      (if ok then d.Unlink(temp) else d, c.(phase := Finished(RC_FAILED)))
  }

  function StateMove(sha: string -> Digest, d: Disk<Name>, c: Call, ok: bool, n: nat): (Disk<Name>, Call)
    requires c.job.Publish? && InState(c.phase)
  {
    StateSteps(sha, d, NamesOf(c), c, ok, n)
  }

  predicate InClaim(p: Phase)
  {
    p.ClaimOpening? || p.ClaimWriting? || p.ClaimLinking? || p.ClaimUnlinking? || p.ClaimSyncing? || p.ClaimDropping?
  }

  predicate InState(p: Phase)
  {
    p.StateOpening? || p.StateWriting? || p.StateReplacing? || p.StateSyncing? || p.StateDropping?
  }

  /** One step of a call, from where it stands. */
  function MoveAt<K(==)>(sha: string -> Digest, d: Disk<K>, at: Names<K>, c: Call, ok: bool, n: nat): (Disk<K>, Call)
  {
    if !c.Live() then (d, c)
    else if c.phase.Looking? then (d, c.(phase := AfterLook(c.job, Read(sha, Looked(d, at.state, ok)).state)))
    else if InClaim(c.phase) then ClaimSteps(sha, d, at, c, ok, n)
    else if c.job.Begin? then (d, c)
    else if InState(c.phase) then StateSteps(sha, d, at, c, ok, n)
    else RecordSteps(sha, d, at, c, ok, n)
  }

  function Move(sha: string -> Digest, d: Disk<Name>, c: Call, ok: bool, n: nat): (Disk<Name>, Call)
  {
    MoveAt(sha, d, NamesOf(c), c, ok, n)
  }

  datatype Event = Start(id: nat, job: Job, pid: nat) | Kill(id: nat) | Step(id: nat, ok: bool, n: nat)

  /** What one event does to the system; an event that cannot happen changes nothing. A process
      number is never shared by two calls that are both alive. */
  function Apply(sha: string -> Digest, s: System<Name>, e: Event): System<Name>
  {
    match e
    case Start(id, job, pid) =>
      if id in s.calls || exists other :: other in s.calls && s.calls[other].Live() && s.calls[other].pid == pid then s
      else s.(calls := s.calls[id := Call(job, pid, Looking, false, false)])
    case Kill(id) =>
      if id in s.calls && s.calls[id].Live() then s.(calls := s.calls[id := s.calls[id].(phase := Killed)]) else s
    case Step(id, ok, n) =>
      if id !in s.calls then s
      else
        var (d, c) := Move(sha, s.disk, s.calls[id], ok, n);
        System(d, s.calls[id := c])
  }

  function Run(sha: string -> Digest, s: System<Name>, events: seq<Event>): System<Name>
    decreases |events|
  {
    if events == [] then s
    else Run(sha, Apply(sha, s, events[0]), events[1..])
  }

  /** An empty directory, no state file, and nobody at work. */
  const FRESH: System<Name> := System(Disk(map[], map[], 0), map[])

  // === What every step keeps ===

  /** The temporary a call is filling holds what it has written so far and belongs to it alone. */
  ghost predicate Filling(d: Disk<Name>, temp: Name, ino: nat, text: string, done: nat)
  {
    done <= |text| && d.Private(temp) && d.entries[temp] == ino && d.Has(temp) && d.At(temp) == text[..done]
  }

  ghost predicate Filled(d: Disk<Name>, temp: Name, text: string) { d.Private(temp) && d.Has(temp) && d.At(temp) == text }

  ghost predicate Landed(sha: string -> Digest, d: Disk<Name>, job: Job)
    requires job.Publish?
  {
    d.Has(Record(job.name)) && d.At(Record(job.name)) == RecordText(sha, job)
  }

  /** What a live call may rely on where it stands. */
  ghost predicate Local(sha: string -> Digest, d: Disk<Name>, c: Call)
  {
    if c.phase.Looking? then true
    else if InClaim(c.phase) then LocalClaim(sha, d, c)
    else if c.job.Begin? || (c.job.stateful && StateFile !in d.entries) then false
    else if InState(c.phase) then LocalState(sha, d, c)
    else LocalRecord(sha, d, c)
  }

  ghost predicate LocalClaim(sha: string -> Digest, d: Disk<Name>, c: Call)
    requires InClaim(c.phase)
  {
    if c.phase.ClaimWriting? then Filling(d, ClaimTemp(c.pid), c.phase.ino, RunningText(sha), c.phase.done)
    else if c.phase.ClaimLinking? then Filled(d, ClaimTemp(c.pid), RunningText(sha))
    else if c.phase.ClaimUnlinking? || c.phase.ClaimSyncing? then c.phase.mine ==> c.won
    else true
  }

  ghost predicate LocalRecord(sha: string -> Digest, d: Disk<Name>, c: Call)
    requires c.job.Publish?
  {
    if c.phase.RecordWriting? then
      Filling(d, RecordTemp(c.job.name, c.pid), c.phase.ino, RecordText(sha, c.job), c.phase.done)
    else if c.phase.RecordLinking? then Filled(d, RecordTemp(c.job.name, c.pid), RecordText(sha, c.job))
    else c.phase.RecordUnlinking? || c.phase.RecordSyncing? || c.phase.RecordVerifying? ==> c.linked
  }

  ghost predicate LocalState(sha: string -> Digest, d: Disk<Name>, c: Call)
    requires c.job.Publish? && InState(c.phase)
  {
    && Earned(sha, c, c.phase.word)
    && (c.phase.StateWriting? ==>
          Filling(d, StateTemp(c.pid), c.phase.ino, WordText(sha, c.job, c.phase.word), c.phase.done))
    && (c.phase.StateReplacing? ==> Filled(d, StateTemp(c.pid), WordText(sha, c.job, c.phase.word)))
  }

  /** Only a call whose own record landed and reads back intact may say PUBLISHED. */
  ghost predicate Earned(sha: string -> Digest, c: Call, word: Word)
    requires c.job.Publish?
  {
    word.PublishedWord? ==> c.linked && Verify(sha, RecordText(sha, c.job)) == Intact
  }

  /** What a call keeps for ever, dead or alive. */
  ghost predicate Lasting(sha: string -> Digest, d: Disk<Name>, c: Call)
  {
    && (c.won ==> StateFile in d.entries)
    && (c.linked ==> c.job.Publish? && Landed(sha, d, c.job))
    && (c.phase == Finished(0) ==> if c.job.Begin? then c.won else c.linked)
  }

  /** A published record: there, intact, and with this size and digest. */
  ghost predicate Published(sha: string -> Digest, d: Disk<Name>, name: string, code: int, text: string)
  {
    && d.Has(Record(name)) && Verify(sha, d.At(Record(name))) == Intact
    && text == PublishedText(sha, name, code, d.At(Record(name)))
  }

  ghost predicate StateGood(sha: string -> Digest, d: Disk<Name>)
  {
    d.Has(StateFile) ==>
      var text := d.At(StateFile);
      || text == RunningText(sha)
      || text == Written(sha, "FAILED", RC_FAILED, "-", "-", "-")
      || exists name, code :: Published(sha, d, name, code, text)
  }

  /** The inode is behind a temporary of the process `pid`, and behind nothing else. */
  ghost predicate FilledBy(d: Disk<Name>, pid: nat, ino: nat)
  {
    exists m :: OwnedBy(m, pid) && d.Private(m) && d.entries[m] == ino
  }

  /** The inode is behind a temporary of the process `pid`. */
  ghost predicate HeldBy(d: Disk<Name>, pid: nat, ino: nat)
  {
    exists m :: m in d.entries && OwnedBy(m, pid) && d.entries[m] == ino
  }

  /** What a step of the process `pid` may do to the directory. */
  ghost predicate Frame(d: Disk<Name>, e: Disk<Name>, pid: nat)
  {
    && (forall n :: n in d.entries && !OwnedBy(n, pid) && n != StateFile ==>
          n in e.entries && e.entries[n] == d.entries[n])
    && (StateFile in d.entries ==> StateFile in e.entries)
    && (forall n :: n in e.entries && n !in d.entries && !OwnedBy(n, pid) ==> n.Record? || n.StateFile?)
    && (forall n :: n in e.entries && !(n in d.entries && d.entries[n] == e.entries[n]) ==>
          e.entries[n] >= d.next || HeldBy(d, pid, e.entries[n]))
    && (forall i :: i in d.files ==> i in e.files && (d.files[i] == e.files[i] || FilledBy(d, pid, i)))
  }

  ghost predicate Invariant(sha: string -> Digest, s: System<Name>)
  {
    && s.disk.Ok() && StateGood(sha, s.disk)
    && (forall i :: i in s.calls ==> Lasting(sha, s.disk, s.calls[i]))
    && (forall i :: i in s.calls && s.calls[i].Live() ==> Local(sha, s.disk, s.calls[i]))
    && (forall i, j :: i in s.calls && j in s.calls && i != j && s.calls[i].Live() && s.calls[j].Live() ==>
          s.calls[i].pid != s.calls[j].pid)
    && (forall i, j :: i in s.calls && j in s.calls && s.calls[i].won && s.calls[j].won ==> i == j)
    && (forall i, j :: i in s.calls && j in s.calls && s.calls[i].linked && s.calls[j].linked ==>
          s.calls[i].job.name == s.calls[j].job.name ==> i == j)
  }

  /** What one step of a call gives, read off the call and the directory before and after. */
  ghost predicate Kept(sha: string -> Digest, d: Disk<Name>, c: Call, e: Disk<Name>, c': Call)
  {
    && e.Ok() && StateGood(sha, e) && Frame(d, e, c.pid)
    && c'.job == c.job && c'.pid == c.pid
    && Lasting(sha, e, c') && (c'.Live() ==> Local(sha, e, c'))
    && (c.won ==> c'.won) && (c'.won && !c.won ==> StateFile !in d.entries)
    && (c.linked ==> c'.linked) && (c'.linked && !c.linked ==> Record(c.job.name) !in d.entries)
  }

  /** The directory is as it was: everything else carries over. */
  lemma StillGood(sha: string -> Digest, d: Disk<Name>, e: Disk<Name>)
    requires d.Ok() && e.Ok() && StateGood(sha, d)
    requires StateFile in e.entries ==> d.Has(StateFile) && e.At(StateFile) == d.At(StateFile)
    requires forall name :: d.Has(Record(name)) ==> e.Has(Record(name)) && e.At(Record(name)) == d.At(Record(name))
    ensures StateGood(sha, e)
  {
    if StateFile in e.entries {
      var text := d.At(StateFile);
      if exists name, code :: Published(sha, d, name, code, text) {
        var name, code :| Published(sha, d, name, code, text);
        assert Published(sha, e, name, code, text);
      }
    }
  }

  lemma CreateKeeps(sha: string -> Digest, d: Disk<Name>, temp: Name, pid: nat)
    requires d.Ok() && StateGood(sha, d) && temp !in d.entries && OwnedBy(temp, pid)
    ensures var e := d.Create(temp);
            e.Ok() && StateGood(sha, e) && Frame(d, e, pid) && e.Private(temp) && e.At(temp) == ""
  {
    StillGood(sha, d, d.Create(temp));
  }

  lemma AppendKeeps(sha: string -> Digest, d: Disk<Name>, temp: Name, pid: nat, text: string, done: nat, m: nat)
    requires d.Ok() && StateGood(sha, d) && OwnedBy(temp, pid) && done + m <= |text|
    requires temp in d.entries && Filling(d, temp, d.entries[temp], text, done)
    ensures var e := d.Append(d.entries[temp], text[done..done + m]);
            e.Ok() && StateGood(sha, e) && Frame(d, e, pid) && Filling(e, temp, d.entries[temp], text, done + m)
  {
    var e := d.Append(d.entries[temp], text[done..done + m]);
    assert FilledBy(d, pid, d.entries[temp]);
    assert text[..done] + text[done..done + m] == text[..done + m];
    StillGood(sha, d, e);
  }

  lemma UnlinkKeeps(sha: string -> Digest, d: Disk<Name>, temp: Name, pid: nat)
    requires d.Ok() && StateGood(sha, d) && OwnedBy(temp, pid)
    ensures var e := d.Unlink(temp); e.Ok() && StateGood(sha, e) && Frame(d, e, pid)
  {
    StillGood(sha, d, d.Unlink(temp));
  }

  lemma LinkClaimKeeps(sha: string -> Digest, d: Disk<Name>, pid: nat)
    requires d.Ok() && StateFile !in d.entries && Filled(d, ClaimTemp(pid), RunningText(sha))
    ensures var e := d.Link(ClaimTemp(pid), StateFile);
            e.Ok() && StateGood(sha, e) && Frame(d, e, pid) && StateFile in e.entries
  {
    assert HeldBy(d, pid, d.entries[ClaimTemp(pid)]);
  }

  lemma LinkRecordKeeps(sha: string -> Digest, d: Disk<Name>, pid: nat, name: string, text: string)
    requires d.Ok() && StateGood(sha, d) && Record(name) !in d.entries && Filled(d, RecordTemp(name, pid), text)
    ensures var e := d.Link(RecordTemp(name, pid), Record(name));
            e.Ok() && StateGood(sha, e) && Frame(d, e, pid) && e.Has(Record(name)) && e.At(Record(name)) == text
  {
    assert HeldBy(d, pid, d.entries[RecordTemp(name, pid)]);
    StillGood(sha, d, d.Link(RecordTemp(name, pid), Record(name)));
  }

  lemma ReplaceKeeps(sha: string -> Digest, d: Disk<Name>, pid: nat, job: Job, word: Word)
    requires d.Ok() && job.Publish? && Filled(d, StateTemp(pid), WordText(sha, job, word))
    requires word.PublishedWord? ==> Landed(sha, d, job) && Verify(sha, RecordText(sha, job)) == Intact
    ensures var e := d.Replace(StateTemp(pid), StateFile);
            e.Ok() && StateGood(sha, e) && Frame(d, e, pid) && StateFile in e.entries
  {
    var e := d.Replace(StateTemp(pid), StateFile);
    assert HeldBy(d, pid, d.entries[StateTemp(pid)]);
    if word.PublishedWord? {
      assert Published(sha, e, job.name, job.code, e.At(StateFile));
    }
  }

  lemma SameKeeps(d: Disk<Name>, pid: nat)
    ensures Frame(d, d, pid)
  {
  }

  /** Records and the state file outlive a framed step, whoever makes it. */
  lemma LastingUnderFrame(sha: string -> Digest, d: Disk<Name>, e: Disk<Name>, pid: nat, c: Call)
    requires d.Ok() && e.Ok() && Frame(d, e, pid) && Lasting(sha, d, c)
    ensures Lasting(sha, e, c)
  {
    if c.linked {
      var n := Record(c.job.name);
      assert e.entries[n] == d.entries[n];
      assert !FilledBy(d, pid, d.entries[n]);
    }
  }

  ghost predicate DiskKept(sha: string -> Digest, d: Disk<Name>, e: Disk<Name>, pid: nat)
  {
    e.Ok() && StateGood(sha, e) && Frame(d, e, pid)
  }

  /** What a step that links nothing has to show. */
  lemma Advances(sha: string -> Digest, d: Disk<Name>, c: Call, e: Disk<Name>, phase: Phase)
    requires d.Ok() && Lasting(sha, d, c) && DiskKept(sha, d, e, c.pid)
    requires phase == Finished(0) ==> if c.job.Begin? then c.won else c.linked
    requires c.(phase := phase).Live() ==> Local(sha, e, c.(phase := phase))
    ensures Kept(sha, d, c, e, c.(phase := phase))
  {
    LastingUnderFrame(sha, d, e, c.pid, c);
  }

  /** A call that may work here: what every step of one starts from. */
  ghost predicate Ready(sha: string -> Digest, d: Disk<Name>, c: Call)
  {
    d.Ok() && StateGood(sha, d) && c.Live() && Lasting(sha, d, c) && Local(sha, d, c)
  }

  lemma ClaimOpens(sha: string -> Digest, d: Disk<Name>, c: Call, ok: bool, n: nat)
    requires Ready(sha, d, c) && c.phase.ClaimOpening?
    ensures var (e, c') := ClaimMove(sha, d, c, ok, n); Kept(sha, d, c, e, c')
  {
    hide RunningText, Frame, StateGood;
    var (e, c') := ClaimMove(sha, d, c, ok, n);
    SameKeeps(d, c.pid);
    if ClaimTemp(c.pid) !in d.entries {
      CreateKeeps(sha, d, ClaimTemp(c.pid), c.pid);
    }
    Advances(sha, d, c, e, c'.phase);
  }

  lemma ClaimWrites(sha: string -> Digest, d: Disk<Name>, c: Call, ok: bool, n: nat)
    requires Ready(sha, d, c) && c.phase.ClaimWriting?
    ensures var (e, c') := ClaimMove(sha, d, c, ok, n); Kept(sha, d, c, e, c')
  {
    hide RunningText, Frame, StateGood;
    var (e, c') := ClaimMove(sha, d, c, ok, n);
    var text, done := RunningText(sha), c.phase.done;
    SameKeeps(d, c.pid);
    AppendKeeps(sha, d, ClaimTemp(c.pid), c.pid, text, done, Min(n, |text| - done));
    assert text[..|text|] == text;
    Advances(sha, d, c, e, c'.phase);
  }

  lemma ClaimLinks(sha: string -> Digest, d: Disk<Name>, c: Call, ok: bool, n: nat)
    requires Ready(sha, d, c) && c.phase.ClaimLinking?
    ensures var (e, c') := ClaimMove(sha, d, c, ok, n); Kept(sha, d, c, e, c')
  {
    hide RunningText, Frame, StateGood;
    var (e, c') := ClaimMove(sha, d, c, ok, n);
    SameKeeps(d, c.pid);
    if StateFile !in d.entries {
      LinkClaimKeeps(sha, d, c.pid);
    }
    if c'.won == c.won {
      Advances(sha, d, c, e, c'.phase);
    } else {
      LastingUnderFrame(sha, d, e, c.pid, c);
    }
  }

  lemma ClaimEnds(sha: string -> Digest, d: Disk<Name>, c: Call, ok: bool, n: nat)
    requires Ready(sha, d, c) && (c.phase.ClaimUnlinking? || c.phase.ClaimSyncing? || c.phase.ClaimDropping?)
    ensures var (e, c') := ClaimMove(sha, d, c, ok, n); Kept(sha, d, c, e, c')
  {
    hide RunningText, Frame, StateGood;
    var (e, c') := ClaimMove(sha, d, c, ok, n);
    SameKeeps(d, c.pid);
    UnlinkKeeps(sha, d, ClaimTemp(c.pid), c.pid);
    Advances(sha, d, c, e, c'.phase);
  }

  lemma RecordChecks(sha: string -> Digest, d: Disk<Name>, c: Call, ok: bool, n: nat)
    requires Ready(sha, d, c) && c.job.Publish? && (c.phase.Scanning? || c.phase.Checking?)
    ensures var (e, c') := RecordMove(sha, d, c, ok, n); Kept(sha, d, c, e, c')
  {
    hide RunningText, RecordText, WordText, Verify, Frame, StateGood;
    var (e, c') := RecordMove(sha, d, c, ok, n);
    SameKeeps(d, c.pid);
    Advances(sha, d, c, e, c'.phase);
  }

  lemma RecordOpens(sha: string -> Digest, d: Disk<Name>, c: Call, ok: bool, n: nat)
    requires Ready(sha, d, c) && c.job.Publish? && c.phase.RecordOpening?
    ensures var (e, c') := RecordMove(sha, d, c, ok, n); Kept(sha, d, c, e, c')
  {
    hide RunningText, RecordText, WordText, Verify, Frame, StateGood;
    var (e, c') := RecordMove(sha, d, c, ok, n);
    SameKeeps(d, c.pid);
    var temp := RecordTemp(c.job.name, c.pid);
    if temp !in d.entries {
      CreateKeeps(sha, d, temp, c.pid);
    }
    Advances(sha, d, c, e, c'.phase);
  }

  lemma RecordWrites(sha: string -> Digest, d: Disk<Name>, c: Call, ok: bool, n: nat)
    requires Ready(sha, d, c) && c.job.Publish? && c.phase.RecordWriting?
    ensures var (e, c') := RecordMove(sha, d, c, ok, n); Kept(sha, d, c, e, c')
  {
    hide RunningText, RecordText, WordText, Verify, Frame, StateGood;
    var (e, c') := RecordMove(sha, d, c, ok, n);
    var text, done := RecordText(sha, c.job), c.phase.done;
    SameKeeps(d, c.pid);
    AppendKeeps(sha, d, RecordTemp(c.job.name, c.pid), c.pid, text, done, Min(n, |text| - done));
    assert text[..|text|] == text;
    Advances(sha, d, c, e, c'.phase);
  }

  lemma RecordLinks(sha: string -> Digest, d: Disk<Name>, c: Call, ok: bool, n: nat)
    requires Ready(sha, d, c) && c.job.Publish? && c.phase.RecordLinking?
    ensures var (e, c') := RecordMove(sha, d, c, ok, n); Kept(sha, d, c, e, c')
  {
    hide RunningText, RecordText, WordText, Verify, Frame, StateGood;
    var (e, c') := RecordMove(sha, d, c, ok, n);
    SameKeeps(d, c.pid);
    if Record(c.job.name) !in d.entries {
      LinkRecordKeeps(sha, d, c.pid, c.job.name, RecordText(sha, c.job));
    }
    if c'.linked == c.linked {
      Advances(sha, d, c, e, c'.phase);
    } else {
      LastingUnderFrame(sha, d, e, c.pid, c);
    }
  }

  lemma RecordEnds(sha: string -> Digest, d: Disk<Name>, c: Call, ok: bool, n: nat)
    requires Ready(sha, d, c) && c.job.Publish?
    requires c.phase.RecordDropping? || c.phase.RecordYielding? || c.phase.RecordUnlinking? || c.phase.RecordSyncing?
    ensures var (e, c') := RecordMove(sha, d, c, ok, n); Kept(sha, d, c, e, c')
  {
    hide RunningText, RecordText, WordText, Verify, Frame, StateGood;
    var (e, c') := RecordMove(sha, d, c, ok, n);
    SameKeeps(d, c.pid);
    UnlinkKeeps(sha, d, RecordTemp(c.job.name, c.pid), c.pid);
    Advances(sha, d, c, e, c'.phase);
  }

  lemma RecordVerifies(sha: string -> Digest, d: Disk<Name>, c: Call, ok: bool, n: nat)
    requires Ready(sha, d, c) && c.job.Publish? && c.phase.RecordVerifying?
    ensures var (e, c') := RecordMove(sha, d, c, ok, n); Kept(sha, d, c, e, c')
  {
    hide RunningText, RecordText, WordText, Verify, Frame, StateGood;
    var (e, c') := RecordMove(sha, d, c, ok, n);
    SameKeeps(d, c.pid);
    Advances(sha, d, c, e, c'.phase);
  }

  lemma StateOpens(sha: string -> Digest, d: Disk<Name>, c: Call, ok: bool, n: nat)
    requires Ready(sha, d, c) && c.job.Publish? && c.phase.StateOpening?
    ensures var (e, c') := StateMove(sha, d, c, ok, n); Kept(sha, d, c, e, c')
  {
    hide RunningText, RecordText, WordText, Verify, Frame, StateGood;
    var (e, c') := StateMove(sha, d, c, ok, n);
    SameKeeps(d, c.pid);
    if StateTemp(c.pid) !in d.entries {
      CreateKeeps(sha, d, StateTemp(c.pid), c.pid);
    }
    Advances(sha, d, c, e, c'.phase);
  }

  lemma StateWrites(sha: string -> Digest, d: Disk<Name>, c: Call, ok: bool, n: nat)
    requires Ready(sha, d, c) && c.job.Publish? && c.phase.StateWriting?
    ensures var (e, c') := StateMove(sha, d, c, ok, n); Kept(sha, d, c, e, c')
  {
    hide RunningText, RecordText, WordText, Verify, Frame, StateGood;
    var (e, c') := StateMove(sha, d, c, ok, n);
    var text, done := WordText(sha, c.job, c.phase.word), c.phase.done;
    SameKeeps(d, c.pid);
    AppendKeeps(sha, d, StateTemp(c.pid), c.pid, text, done, Min(n, |text| - done));
    assert text[..|text|] == text;
    Advances(sha, d, c, e, c'.phase);
  }

  lemma StateReplaces(sha: string -> Digest, d: Disk<Name>, c: Call, ok: bool, n: nat)
    requires Ready(sha, d, c) && c.job.Publish? && c.phase.StateReplacing?
    ensures var (e, c') := StateMove(sha, d, c, ok, n); Kept(sha, d, c, e, c')
  {
    hide RunningText, RecordText, WordText, Verify, Frame, StateGood;
    var (e, c') := StateMove(sha, d, c, ok, n);
    SameKeeps(d, c.pid);
    ReplaceKeeps(sha, d, c.pid, c.job, c.phase.word);
    Advances(sha, d, c, e, c'.phase);
  }

  lemma StateEnds(sha: string -> Digest, d: Disk<Name>, c: Call, ok: bool, n: nat)
    requires Ready(sha, d, c) && c.job.Publish? && (c.phase.StateSyncing? || c.phase.StateDropping?)
    ensures var (e, c') := StateMove(sha, d, c, ok, n); Kept(sha, d, c, e, c')
  {
    hide RunningText, RecordText, WordText, Verify, Frame, StateGood;
    var (e, c') := StateMove(sha, d, c, ok, n);
    SameKeeps(d, c.pid);
    UnlinkKeeps(sha, d, StateTemp(c.pid), c.pid);
    Advances(sha, d, c, e, c'.phase);
  }

  lemma Looks(sha: string -> Digest, d: Disk<Name>, c: Call, ok: bool)
    requires Ready(sha, d, c) && c.phase.Looking?
    ensures Kept(sha, d, c, d, c.(phase := AfterLook(c.job, Read(sha, LookAt(d, ok)).state)))
  {
    SameKeeps(d, c.pid);
    Advances(sha, d, c, d, AfterLook(c.job, Read(sha, LookAt(d, ok)).state));
  }

  /** Every step of a call keeps what that call and the directory owe. */
  lemma MoveKeeps(sha: string -> Digest, d: Disk<Name>, c: Call, ok: bool, n: nat)
    requires Ready(sha, d, c)
    ensures var (e, c') := Move(sha, d, c, ok, n); Kept(sha, d, c, e, c')
  {
    hide Kept, ClaimSteps, RecordSteps, StateSteps, LocalClaim, LocalRecord, LocalState, Lasting, StateGood;
    if c.phase.Looking? { Looks(sha, d, c, ok); }
    else if c.phase.ClaimOpening? { ClaimOpens(sha, d, c, ok, n); }
    else if c.phase.ClaimWriting? { ClaimWrites(sha, d, c, ok, n); }
    else if c.phase.ClaimLinking? { ClaimLinks(sha, d, c, ok, n); }
    else if InClaim(c.phase) { ClaimEnds(sha, d, c, ok, n); }
    else if c.phase.StateOpening? { StateOpens(sha, d, c, ok, n); }
    else if c.phase.StateWriting? { StateWrites(sha, d, c, ok, n); }
    else if c.phase.StateReplacing? { StateReplaces(sha, d, c, ok, n); }
    else if InState(c.phase) { StateEnds(sha, d, c, ok, n); }
    else if c.phase.Scanning? || c.phase.Checking? { RecordChecks(sha, d, c, ok, n); }
    else if c.phase.RecordOpening? { RecordOpens(sha, d, c, ok, n); }
    else if c.phase.RecordWriting? { RecordWrites(sha, d, c, ok, n); }
    else if c.phase.RecordLinking? { RecordLinks(sha, d, c, ok, n); }
    else if c.phase.RecordVerifying? { RecordVerifies(sha, d, c, ok, n); }
    else { RecordEnds(sha, d, c, ok, n); }
  }

  /** Another process's step leaves a temporary alone. */
  lemma FilledUnderFrame(d: Disk<Name>, e: Disk<Name>, pid: nat, temp: Name, text: string)
    requires d.Ok() && e.Ok() && Frame(d, e, pid) && Filled(d, temp, text)
    requires !OwnedBy(temp, pid) && temp != StateFile
    ensures Filled(e, temp, text) && e.entries[temp] == d.entries[temp]
  {
    var ino := d.entries[temp];
    assert !FilledBy(d, pid, ino) && !HeldBy(d, pid, ino);
    assert e.files[ino] == d.files[ino];
  }

  lemma OtherKeeps(sha: string -> Digest, d: Disk<Name>, e: Disk<Name>, pid: nat, c: Call)
    requires d.Ok() && e.Ok() && Frame(d, e, pid) && c.pid != pid && Local(sha, d, c)
    ensures Local(sha, e, c)
  {
    hide RunningText, RecordText, WordText, Verify;
    if c.phase.ClaimWriting? {
      FilledUnderFrame(d, e, pid, ClaimTemp(c.pid), RunningText(sha)[..c.phase.done]);
    } else if c.phase.ClaimLinking? {
      FilledUnderFrame(d, e, pid, ClaimTemp(c.pid), RunningText(sha));
    } else if c.phase.RecordWriting? {
      FilledUnderFrame(d, e, pid, RecordTemp(c.job.name, c.pid), RecordText(sha, c.job)[..c.phase.done]);
    } else if c.phase.RecordLinking? {
      FilledUnderFrame(d, e, pid, RecordTemp(c.job.name, c.pid), RecordText(sha, c.job));
    } else if c.phase.StateWriting? {
      FilledUnderFrame(d, e, pid, StateTemp(c.pid), WordText(sha, c.job, c.phase.word)[..c.phase.done]);
    } else if c.phase.StateReplacing? {
      FilledUnderFrame(d, e, pid, StateTemp(c.pid), WordText(sha, c.job, c.phase.word));
    }
  }

  lemma StepKeeps(sha: string -> Digest, s: System<Name>, id: nat, ok: bool, n: nat)
    requires Invariant(sha, s) && id in s.calls && s.calls[id].Live()
    ensures Invariant(sha, Apply(sha, s, Step(id, ok, n)))
    ensures Frame(s.disk, Apply(sha, s, Step(id, ok, n)).disk, s.calls[id].pid)
  {
    hide Move, Frame, StateGood, Local, Lasting;
    var c := s.calls[id];
    var (e, c') := Move(sha, s.disk, c, ok, n);
    MoveKeeps(sha, s.disk, c, ok, n);
    forall i | i in s.calls ensures Lasting(sha, e, s.calls[i]) {
      LastingUnderFrame(sha, s.disk, e, c.pid, s.calls[i]);
    }
    forall i | i in s.calls && i != id && s.calls[i].Live() ensures Local(sha, e, s.calls[i]) {
      OtherKeeps(sha, s.disk, e, c.pid, s.calls[i]);
    }
    WinnersStay(sha, s, id, e, c');
  }

  /** Nobody wins, or lands a name, a second time. */
  lemma WinnersStay(sha: string -> Digest, s: System<Name>, id: nat, e: Disk<Name>, c': Call)
    requires Invariant(sha, s) && id in s.calls && s.calls[id].Live() && Kept(sha, s.disk, s.calls[id], e, c')
    ensures var calls := s.calls[id := c'];
            && (forall i, j :: i in calls && j in calls && i != j && calls[i].Live() && calls[j].Live() ==> calls[i].pid != calls[j].pid)
            && (forall i, j :: i in calls && j in calls && calls[i].won && calls[j].won ==> i == j)
            && (forall i, j :: i in calls && j in calls && calls[i].linked && calls[j].linked ==>
                  calls[i].job.name == calls[j].job.name ==> i == j)
  {
    hide Frame, StateGood, Local;
  }

  lemma StartKeeps(sha: string -> Digest, s: System<Name>, id: nat, job: Job, pid: nat)
    requires Invariant(sha, s)
    ensures Invariant(sha, Apply(sha, s, Start(id, job, pid)))
  {
    hide StateGood;
    assert Lasting(sha, s.disk, Call(job, pid, Looking, false, false));
  }

  lemma KillKeeps(sha: string -> Digest, s: System<Name>, id: nat)
    requires Invariant(sha, s)
    ensures Invariant(sha, Apply(sha, s, Kill(id)))
  {
    hide StateGood, Local;
    if id in s.calls {
      assert Lasting(sha, s.disk, s.calls[id].(phase := Killed));
    }
  }

  /** Whatever happens next, the invariant holds again, a record keeps its bytes and the state file
      stays in place. */
  lemma ApplyKeeps(sha: string -> Digest, s: System<Name>, event: Event)
    requires Invariant(sha, s)
    ensures Invariant(sha, Apply(sha, s, event))
    ensures Grows(s.disk, Apply(sha, s, event).disk)
  {
    hide Move, StateGood, Local, Lasting;
    match event
    case Start(id, job, pid) => StartKeeps(sha, s, id, job, pid);
    case Kill(id) => KillKeeps(sha, s, id);
    case Step(id, ok, n) =>
      if id in s.calls {
        if s.calls[id].Live() {
          StepKeeps(sha, s, id, ok, n);
          FrameGrows(s.disk, Apply(sha, s, event).disk, s.calls[id].pid);
        } else {
          DeadStays(sha, s, id, ok, n);
        }
      }
  }

  lemma DeadStays(sha: string -> Digest, s: System<Name>, id: nat, ok: bool, n: nat)
    requires id in s.calls && !s.calls[id].Live()
    ensures Apply(sha, s, Step(id, ok, n)) == s
  {
    assert s.calls[id := s.calls[id]] == s.calls;
  }

  /** Records and the state file are there to stay, a record with the bytes it has. */
  ghost predicate Grows(d: Disk<Name>, e: Disk<Name>)
  {
    && (StateFile in d.entries ==> StateFile in e.entries)
    && (forall name :: d.Has(Record(name)) ==> e.Has(Record(name)) && e.At(Record(name)) == d.At(Record(name)))
  }

  lemma FrameGrows(d: Disk<Name>, e: Disk<Name>, pid: nat)
    requires d.Ok() && e.Ok() && Frame(d, e, pid)
    ensures Grows(d, e)
  {
    forall name | d.Has(Record(name)) ensures e.Has(Record(name)) && e.At(Record(name)) == d.At(Record(name)) {
      assert !FilledBy(d, pid, d.entries[Record(name)]);
    }
  }
}
