/** That every call of the publication protocol ends, whatever the other calls do and whatever fails. */
module PublicationEnds {
  import opened Wrappers
  import opened Text
  import opened Seal
  import opened StateRecord
  import opened Publication

  function Rest(text: string, done: nat): nat { if done <= |text| then |text| - done else 0 }

  function Body(sha: string -> Digest, job: Job): string { if job.Publish? then RecordText(sha, job) else "" }

  /** The longer of the two words a publication may have to write, and more. */
  function Words(sha: string -> Digest, job: Job): nat
  {
    if job.Publish? then |WordText(sha, job, FailedWord)| + |WordText(sha, job, PublishedWord)| else 0
  }

  /** How many system calls a call has ahead of it at most. */
  function Ahead(sha: string -> Digest, c: Call): nat
  {
    var claim, record, word := |RunningText(sha)|, |Body(sha, c.job)|, Words(sha, c.job);
    if !c.Live() then 0
    else if InState(c.phase) then
      if c.phase.StateOpening? then 5 + word
      else if c.phase.StateWriting? then 4 + if c.job.Publish? then Rest(WordText(sha, c.job, c.phase.word), c.phase.done) else 0
      else if c.phase.StateReplacing? then 3 else if c.phase.StateSyncing? then 2 else 1
    else if c.phase.Looking? then 20 + claim + record + word
    else if c.phase.ClaimDropping? then 1
    else if InClaim(c.phase) then
      record + word +
      (if c.phase.ClaimOpening? then 19 + claim
       else if c.phase.ClaimWriting? then 18 + Rest(RunningText(sha), c.phase.done)
       else if c.phase.ClaimLinking? then 17 else if c.phase.ClaimUnlinking? then 16 else 15)
    else word + RecordAhead(c.phase, Body(sha, c.job))
  }

  function RecordAhead(p: Phase, body: string): nat
  {
    if p.Scanning? then 14 + |body| else if p.Checking? then 13 + |body|
    else if p.RecordOpening? then 12 + |body|
    else if p.RecordWriting? then 11 + Rest(body, p.done)
    else if p.RecordLinking? then 10 else if p.RecordUnlinking? then 9
    else if p.RecordSyncing? then 8 else if p.RecordVerifying? then 7 else 6
  }

  /** A call that only begins a run writes no record and no outcome. */
  predicate Placed(c: Call) { c.job.Begin? && c.Live() ==> c.phase.Looking? || InClaim(c.phase) }

  predicate LeadsOn(sha: string -> Digest, c: Call, c': Call)
  {
    Placed(c') && c'.job == c.job && (c.Live() ==> Ahead(sha, c') < Ahead(sha, c)) && (!c.Live() ==> c' == c)
  }

  lemma LookLeadsOn(sha: string -> Digest, d: Disk<Name>, c: Call, ok: bool, n: nat)
    requires Placed(c) && (c.phase.Looking? || !c.Live())
    ensures LeadsOn(sha, c, Move(sha, d, c, ok, n).1)
  {
    hide RunningText, Body, Words, WordText, Read;
  }

  lemma ClaimLeadsOn(sha: string -> Digest, d: Disk<Name>, c: Call, ok: bool, n: nat)
    requires Placed(c) && InClaim(c.phase)
    ensures LeadsOn(sha, c, Move(sha, d, c, ok, n).1)
  {
    hide RunningText, Body, Words, WordText;
  }

  predicate InRecord(p: Phase) { !p.Finished? && !p.Killed? && !p.Looking? && !InClaim(p) && !InState(p) }

  /** A step of `durable_write` leads on within it, or out of it. */
  predicate Lower(c: Call, c': Call, body: string)
  {
    && c' == c.(phase := c'.phase, linked := c'.linked)
    && ((InRecord(c'.phase) && RecordAhead(c'.phase, body) < RecordAhead(c.phase, body))
        || (c.job.Publish? && exists landed :: c'.phase == AfterRecord(c.job, landed)))
  }

  lemma RecordLowers(sha: string -> Digest, d: Disk<Name>, c: Call, ok: bool, n: nat)
    requires c.job.Publish? && InRecord(c.phase)
    ensures Lower(c, RecordMove(sha, d, c, ok, n).1, RecordText(sha, c.job))
  {
    if c.phase.RecordWriting? { WritingLowers(sha, d, c, ok, n); }
    else {
      Starts(RecordText(sha, c.job));
      hide RecordText, Verify, PlainName, Rest, AfterRecord;
    }
  }

  lemma Starts(text: string)
    ensures Rest(text, 0) == |text|
  {
  }

  lemma WritingLowers(sha: string -> Digest, d: Disk<Name>, c: Call, ok: bool, n: nat)
    requires c.job.Publish? && c.phase.RecordWriting?
    ensures Lower(c, RecordMove(sha, d, c, ok, n).1, RecordText(sha, c.job))
  {
    hide RecordText, Verify, PlainName, AfterRecord;
  }

  lemma RecordLeadsOn(sha: string -> Digest, c: Call, c': Call)
    requires c.job.Publish? && InRecord(c.phase) && Lower(c, c', RecordText(sha, c.job))
    ensures LeadsOn(sha, c, c')
  {
    assert Body(sha, c.job) == RecordText(sha, c.job);
    hide RunningText, RecordText, WordText, Rest, Words, Body;
  }

  lemma StateLeadsOn(sha: string -> Digest, d: Disk<Name>, c: Call, ok: bool, n: nat)
    requires c.job.Publish? && InState(c.phase)
    ensures LeadsOn(sha, c, StateMove(sha, d, c, ok, n).1)
  {
    if c.phase.StateWriting? { StateWriteLeadsOn(sha, d, c, ok, n); }
    else {
      assert |WordText(sha, c.job, c.phase.word)| <= Words(sha, c.job);
      Starts(WordText(sha, c.job, c.phase.word));
      hide RunningText, Body, Words, WordText, Rest;
    }
  }

  lemma StateWriteLeadsOn(sha: string -> Digest, d: Disk<Name>, c: Call, ok: bool, n: nat)
    requires c.job.Publish? && c.phase.StateWriting?
    ensures LeadsOn(sha, c, StateMove(sha, d, c, ok, n).1)
  {
    hide WordText, Words, Body;
  }

  /** One step is one of these. */
  lemma MoveIs(sha: string -> Digest, d: Disk<Name>, c: Call, ok: bool, n: nat)
    requires c.job.Publish? && c.Live() && !c.phase.Looking? && !InClaim(c.phase)
    ensures Move(sha, d, c, ok, n) == if InState(c.phase) then StateMove(sha, d, c, ok, n) else RecordMove(sha, d, c, ok, n)
  {
    hide StateSteps, RecordSteps;
  }

  /** Each step of a live call brings it nearer to its end, whether the system call works or not. */
  lemma StepLeadsOn(sha: string -> Digest, d: Disk<Name>, c: Call, ok: bool, n: nat)
    requires Placed(c)
    ensures LeadsOn(sha, c, Move(sha, d, c, ok, n).1)
  {
    if c.phase.Looking? || !c.Live() { LookLeadsOn(sha, d, c, ok, n); }
    else if InClaim(c.phase) { ClaimLeadsOn(sha, d, c, ok, n); }
    else {
      MoveIs(sha, d, c, ok, n);
      if InState(c.phase) { StateLeadsOn(sha, d, c, ok, n); }
      else {
        RecordLowers(sha, d, c, ok, n);
        RecordLeadsOn(sha, c, RecordMove(sha, d, c, ok, n).1);
      }
    }
    hide Move, StateMove, RecordMove, LeadsOn, Lower;
  }

  /** How many of the events are steps of the call. */
  function Steps(events: seq<Event>, id: nat): nat
  {
    if events == [] then 0 else (if events[0].Step? && events[0].id == id then 1 else 0) + Steps(events[1..], id)
  }

  /** Over every run and from any state: a call that still lives has made no more steps than it had ahead of
      it. So with as many it has ended, and nobody can keep it from it. */
  lemma {:induction false} CallsEnd(sha: string -> Digest, s: System<Name>, id: nat, events: seq<Event>)
    requires id in s.calls && Placed(s.calls[id])
    ensures var t := Run(sha, s, events);
            && id in t.calls && Placed(t.calls[id])
            && (t.calls[id].Live() ==> Ahead(sha, t.calls[id]) + Steps(events, id) <= Ahead(sha, s.calls[id]))
            && (Steps(events, id) >= Ahead(sha, s.calls[id]) ==> !t.calls[id].Live())
    decreases |events|
  {
    if events == [] {
      LiveIsAhead(sha, s.calls[id]);
    } else {
      var e, t := events[0], Apply(sha, s, events[0]);
      EventLeadsOn(sha, s, id, e);
      LiveIsAhead(sha, Run(sha, t, events[1..]).calls[id]) by { hide Apply, Ahead; CallsEnd(sha, t, id, events[1..]); }
      hide Apply, Ahead;
      CallsEnd(sha, t, id, events[1..]);
    }
  }

  lemma LiveIsAhead(sha: string -> Digest, c: Call)
    ensures c.Live() <==> Ahead(sha, c) > 0
  {
    hide RunningText, Body, Words, WordText, Rest;
  }

  lemma EventLeadsOn(sha: string -> Digest, s: System<Name>, id: nat, e: Event)
    requires id in s.calls && Placed(s.calls[id])
    ensures var t := Apply(sha, s, e);
            && id in t.calls && Placed(t.calls[id])
            && Ahead(sha, t.calls[id]) + (if e.Step? && e.id == id && s.calls[id].Live() then 1 else 0) <= Ahead(sha, s.calls[id])
            && (!s.calls[id].Live() ==> !t.calls[id].Live())
  {
    if e.Step? && e.id == id { StepLeadsOn(sha, s.disk, s.calls[id], e.ok, e.n); }
    LiveIsAhead(sha, s.calls[id]);
    LiveIsAhead(sha, Apply(sha, s, e).calls[id]) by { hide Move, Ahead; }
    hide Move, Ahead;
  }

  predicate EachPlaced(s: System<Name>) { forall i :: i in s.calls ==> Placed(s.calls[i]) }

  /** Every call is placed so, in every run from the empty directory. */
  lemma {:induction false} AllPlaced(sha: string -> Digest, s: System<Name>, events: seq<Event>)
    requires EachPlaced(s)
    ensures EachPlaced(Run(sha, s, events))
    decreases |events|
  {
    if events != [] {
      var e := events[0];
      if e.Step? && e.id in s.calls { StepLeadsOn(sha, s.disk, s.calls[e.id], e.ok, e.n); }
      assert EachPlaced(Apply(sha, s, e)) by { hide Move, Ahead; }
      hide Apply, EachPlaced;
      AllPlaced(sha, Apply(sha, s, e), events[1..]);
    }
  }

  /** A publication of a name that is taken writes nothing of its own beside it. */
  lemma TakenNameIsRefused(sha: string -> Digest, d: Disk<Name>, c: Call, ok: bool, n: nat)
    requires c.job.Publish? && c.phase.Checking? && Record(c.job.name) in d.entries
    ensures var (e, c') := Move(sha, d, c, ok, n);
            e == d && (if c.job.stateful then c'.phase == StateOpening(FailedWord) else c'.phase == Finished(RC_FAILED))
  {
    hide RunningText, RecordText, WordText, Verify;
  }
}
