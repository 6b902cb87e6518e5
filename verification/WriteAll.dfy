/** `write_all` of scripts/g6-publish-record.py: the loop every publication lands its bytes with. */
module WriteAll {
  import opened Wrappers

  /** What one `os.write` does: it lands some of what it is given, possibly nothing, or raises. */
  datatype Answer = Landed(n: nat) | Raised

  datatype Outcome = Complete | NoProgress(at: nat) | Failed

  class Descriptor {
    var bytes: string

    constructor ()
      ensures bytes == ""
    {
      bytes := "";
    }

    /** `os.write`: never more than it is given. */
    method Write(data: string, answer: Answer) returns (landed: Answer)
      modifies this
      ensures landed == if answer.Landed? then Landed(Min(answer.n, |data|)) else Raised
      ensures bytes == old(bytes) + if answer.Landed? then data[..Min(answer.n, |data|)] else ""
    {
      landed := answer;
      if answer.Landed? {
        landed := Landed(Min(answer.n, |data|));
        bytes := bytes + data[..landed.n];
      }
    }
  }

  /** How many bytes of `size` have landed after `calls` answers, all of which made progress. */
  function Progress(size: nat, answers: nat -> Answer, calls: nat): (written: nat)
    ensures written <= size
  {
    if calls == 0 then 0
    else
      var before := Progress(size, answers, calls - 1);
      if answers(calls - 1).Landed? then before + Min(answers(calls - 1).n, size - before) else before
  }

  lemma Grows(front: string, data: string, written: nat, n: nat)
    requires written + n <= |data|
    ensures front + data[..written] + data[written..][..n] == front + data[..written + n]
  {
    assert data[..written] + data[written..][..n] == data[..written + n];
  }

  /** Whatever the operating system answers: `write_all` returns normally only when exactly the
      buffer has landed; otherwise what has landed is a proper prefix of it, and the answer that
      stopped the loop is the one that landed nothing or raised. It never writes more often than
      there are bytes. */
  method WriteAll(file: Descriptor, data: string, answers: nat -> Answer) returns (outcome: Outcome, calls: nat)
    modifies file
    ensures file.bytes == old(file.bytes) + data[..Progress(|data|, answers, calls)]
    ensures outcome == Complete <==> Progress(|data|, answers, calls) == |data|
    ensures outcome == Complete ==> file.bytes == old(file.bytes) + data
    ensures outcome != Complete ==> calls > 0 && answers(calls - 1) == if outcome == Failed then Raised else Landed(0)
    ensures outcome.NoProgress? ==> outcome.at == Progress(|data|, answers, calls)
    ensures outcome == Complete ==> forall i :: 0 <= i < calls ==> answers(i).Landed? && answers(i).n > 0
    ensures calls <= |data|
  {
    assert data[..0] == "";
    calls := 0;
    outcome := Complete;
    var written := 0;
    while written < |data|
      invariant written <= |data| && calls <= written
      invariant written == Progress(|data|, answers, calls)
      invariant file.bytes == old(file.bytes) + data[..written]
      invariant forall i :: 0 <= i < calls ==> answers(i).Landed? && answers(i).n > 0
      decreases |data| - written
    {
      var landed := file.Write(data[written..], answers(calls));
      calls := calls + 1;
      if landed.Raised? {
        outcome := Failed;
        return;
      }
      Grows(old(file.bytes), data, written, landed.n);
      if landed.n == 0 {
        outcome := NoProgress(written);
        return;
      }
      written := written + landed.n;
    }
  }

  /** Answers that land a byte at least each time are enough to land the whole buffer. */
  lemma {:induction false} ProgressFills(size: nat, answers: nat -> Answer, calls: nat)
    requires forall i :: 0 <= i < calls ==> answers(i).Landed? && answers(i).n > 0
    ensures Progress(size, answers, calls) >= Min(calls, size)
  {
    if calls == 0 {
    } else {
      ProgressFills(size, answers, calls - 1);
    }
  }
}
