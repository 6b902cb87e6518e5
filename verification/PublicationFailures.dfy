/** What a failing system call, an unfit name and a call without a state file come to, in every run of the
    publication protocol. */
module PublicationFailures {
  import opened Wrappers
  import opened Text
  import opened Seal
  import opened StateRecord
  import opened Publication

  // === A failure is felt ===

  /** Where a call stands that can no longer exit 0. */
  predicate Doomed(c: Call)
  {
    || c.phase.Killed? || (c.phase.Finished? && c.phase.rc != 0)
    || c.phase.ClaimDropping? || (c.phase.Checking? && c.phase.stale)
    || c.phase.RecordYielding? || c.phase.RecordDropping? || c.phase.StateDropping?
    || ((c.phase.ClaimUnlinking? || c.phase.ClaimSyncing?) && !c.phase.mine)
    || (c.job.Begin? && !c.phase.Finished? && !c.phase.Looking? && !InClaim(c.phase))
    || (InState(c.phase) && c.phase.word.FailedWord?)
  }

  /** A publication without a state file does not mind one it cannot read, and whether the record's name is
      there already is a question that does not fail. */
  predicate MindsNoFailure(c: Call)
  {
    (c.phase.Looking? && c.job.Publish? && !c.job.stateful) || c.phase.Checking?
  }

  /** A write that lands nothing, with something left to write. */
  predicate WritesNothing(sha: string -> Digest, c: Call, n: nat)
  {
    && n == 0
    && (|| (c.phase.ClaimWriting? && c.phase.done < |RunningText(sha)|)
        || (c.job.Publish? && c.phase.RecordWriting? && c.phase.done < |RecordText(sha, c.job)|)
        || (c.job.Publish? && c.phase.StateWriting? && c.phase.done < |WordText(sha, c.job, c.phase.word)|))
  }

  /** Whatever system call of a call fails — an `open`, a `write`, an `fsync`, a `link`, an `unlink`, a
      `replace`, a read, the scan for what others left behind — or a write that lands nothing: the call does
      not exit 0, however the run goes on. */
  lemma {:induction false} FailureIsFelt(sha: string -> Digest, s: System<Name>, id: nat, ok: bool, n: nat, events: seq<Event>)
    requires id in s.calls && s.calls[id].Live()
    requires (!ok && !MindsNoFailure(s.calls[id])) || WritesNothing(sha, s.calls[id], n)
    ensures var t := Run(sha, Apply(sha, s, Step(id, ok, n)), events);
            id in t.calls && t.calls[id].phase != Finished(0)
  {
    if ok { EmptyWriteDooms(sha, s.disk, s.calls[id], n); } else { FailingDooms(sha, s.disk, s.calls[id], n); }
    hide Move, WritesNothing, MindsNoFailure;
    var t := Apply(sha, s, Step(id, ok, n));
    assert Doomed(t.calls[id]);
    DoomedStays(sha, t, id, events);
  }

  lemma EmptyWriteDooms(sha: string -> Digest, d: Disk<Name>, c: Call, n: nat)
    requires c.Live() && WritesNothing(sha, c, n)
    ensures Doomed(Move(sha, d, c, true, n).1)
  {
    hide RunningText, RecordText, WordText, Verify, PlainName, Read;
  }

  lemma FailingDooms(sha: string -> Digest, d: Disk<Name>, c: Call, n: nat)
    requires c.Live() && !MindsNoFailure(c)
    ensures Doomed(Move(sha, d, c, false, n).1)
  {
    hide RunningText, RecordText, WordText, Verify, PlainName, Lines;
  }

  lemma DoomedMoves(sha: string -> Digest, d: Disk<Name>, c: Call, ok: bool, n: nat)
    requires Doomed(c)
    ensures Doomed(Move(sha, d, c, ok, n).1)
  {
    hide RunningText, RecordText, WordText, Verify, PlainName, Read;
  }

  lemma {:induction false} DoomedStays(sha: string -> Digest, s: System<Name>, id: nat, events: seq<Event>)
    requires id in s.calls && Doomed(s.calls[id])
    ensures var t := Run(sha, s, events); id in t.calls && Doomed(t.calls[id])
    decreases |events|
  {
    hide Move, Doomed;
    if events != [] {
      var e := events[0];
      if e.Step? && e.id in s.calls { DoomedMovesIfSo(sha, s, id, e); }
      assert id in Apply(sha, s, e).calls && Doomed(Apply(sha, s, e).calls[id]) by {
        if e.Kill? && e.id == id { KilledIsDoomed(s.calls[id]); }
      }
      hide Apply;
      DoomedStays(sha, Apply(sha, s, e), id, events[1..]);
    }
  }

  lemma KilledIsDoomed(c: Call)
    ensures Doomed(c.(phase := Killed))
  {
  }

  lemma DoomedMovesIfSo(sha: string -> Digest, s: System<Name>, id: nat, e: Event)
    requires id in s.calls && e.Step? && e.id in s.calls && Doomed(s.calls[id])
    ensures e.id == id ==> Doomed(Move(sha, s.disk, s.calls[id], e.ok, e.n).1)
  {
    hide Move, Doomed;
    DoomedMoves(sha, s.disk, s.calls[id], e.ok, e.n);
  }

  // === Names and bodies ===

  /** A call past its first checks publishes some body under a plain name. */
  predicate WellNamed(c: Call)
  {
    || !c.job.Publish? || c.phase.Looking? || InClaim(c.phase) || c.phase.Scanning? || c.phase.Killed?
    || (c.phase.Finished? && c.phase.rc != 0) || (InState(c.phase) && c.phase.word.FailedWord?)
    || (PlainName(c.job.name) && c.job.body != "")
  }

  ghost predicate RecordsAreNamed(d: Disk<Name>) { forall name :: Record(name) in d.entries ==> PlainName(name) }

  ghost predicate AllNamed(s: System<Name>)
  {
    RecordsAreNamed(s.disk) && forall i :: i in s.calls ==> WellNamed(s.calls[i])
  }

  /** Over every run: a record's name holds no '/' and does not start with a dot, and a publication that
      exits 0 has such a name and something to say. */
  lemma RecordsHavePlainNames(sha: string -> Digest, events: seq<Event>)
    ensures var s := Run(sha, FRESH, events);
            && (forall name :: Record(name) in s.disk.entries ==> '/' !in name && !("." <= name))
            && (forall i :: i in s.calls && s.calls[i].job.Publish? && s.calls[i].phase == Finished(0) ==>
                  '/' !in s.calls[i].job.name && !("." <= s.calls[i].job.name) && s.calls[i].job.body != "")
  {
    NamedRun(sha, FRESH, events);
    hide Run;
  }

  lemma {:induction false} NamedRun(sha: string -> Digest, s: System<Name>, events: seq<Event>)
    requires AllNamed(s)
    ensures AllNamed(Run(sha, s, events))
    decreases |events|
  {
    hide Move, RecordsAreNamed, PlainName;
    if events != [] {
      var e := events[0];
      if e.Step? && e.id in s.calls { NamedMove(sha, s.disk, s.calls[e.id], e.ok, e.n); }
      assert AllNamed(Apply(sha, s, e));
      hide Apply, AllNamed;
      NamedRun(sha, Apply(sha, s, e), events[1..]);
    }
  }

  lemma NamedMove(sha: string -> Digest, d: Disk<Name>, c: Call, ok: bool, n: nat)
    requires RecordsAreNamed(d) && WellNamed(c)
    ensures var (e, c') := Move(sha, d, c, ok, n); RecordsAreNamed(e) && WellNamed(c')
  {
    hide RunningText, RecordText, WordText, Verify, Read, PlainName;
  }

  // === Without a state file ===

  predicate Stateless(c: Call) { c.job.Publish? && !c.job.stateful && !InClaim(c.phase) && !InState(c.phase) }

  predicate NoState(s: System<Name>)
  {
    StateFile !in s.disk.entries && forall i :: i in s.calls ==> Stateless(s.calls[i])
  }

  /** Publications that are given no state file make none, in any run of them. */
  lemma {:induction false} StatelessRun(sha: string -> Digest, s: System<Name>, events: seq<Event>)
    requires NoState(s)
    requires forall i :: 0 <= i < |events| && events[i].Start? ==> events[i].job.Publish? && !events[i].job.stateful
    ensures StateFile !in Run(sha, s, events).disk.entries
    decreases |events|
  {
    hide Move;
    if events != [] {
      var e := events[0];
      if e.Step? && e.id in s.calls { StatelessMove(sha, s.disk, s.calls[e.id], e.ok, e.n); }
      assert NoState(Apply(sha, s, e));
      hide Apply, NoState;
      StatelessRun(sha, Apply(sha, s, e), events[1..]);
    }
  }

  lemma StatelessMove(sha: string -> Digest, d: Disk<Name>, c: Call, ok: bool, n: nat)
    requires StateFile !in d.entries && Stateless(c)
    ensures var (e, c') := Move(sha, d, c, ok, n); StateFile !in e.entries && Stateless(c')
  {
    hide RunningText, RecordText, WordText, Verify, Read, PlainName;
  }
}
