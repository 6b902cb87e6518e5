/** The names of the publication protocol as scripts/g6-publish-record.py spells them, when the records lie
    in the state file's directory: exactly when no two of them are spelt alike. */
module FileNames {
  import opened Wrappers
  import opened Text
  import opened Seal
  import opened StateRecord
  import opened Publication

  const CLAIM := ".claim"
  const TEMP := ".tmp"

  function Numbered(base: string, pid: nat, kind: string): string { base + ("." + Decimal(pid) + kind) }

  /** How a name is spelt next to the state file `state`. */
  function File(state: string, n: Name): string
  {
    match n
    case StateFile => state
    case ClaimTemp(pid) => Numbered(state, pid, CLAIM)
    case StateTemp(pid) => Numbered(state, pid, TEMP)
    case Record(name) => name
    case RecordTemp(record, pid) => Numbered("." + record, pid, TEMP)
  }

  /** The names that a run which publishes only these records may use. */
  predicate Used(n: Name, records: set<string>)
  {
    (n.Record? ==> n.name in records) && (n.RecordTemp? ==> n.record in records)
  }

  ghost predicate Injective(state: string, records: set<string>)
  {
    forall a, b :: Used(a, records) && Used(b, records) && File(state, a) == File(state, b) ==> a == b
  }

  ghost predicate IsNumbered(file: string, base: string, kind: string)
  {
    exists pid: nat :: file == Numbered(base, pid, kind)
  }

  /** A record is named neither like the state file nor like a temporary of it, and the state file is not
      named like a record behind a dot, or like a temporary of one. */
  ghost predicate Apart(state: string, record: string)
  {
    && record != state && !IsNumbered(record, state, CLAIM) && !IsNumbered(record, state, TEMP)
    && state != "." + record && !IsNumbered(state, "." + record, TEMP)
  }

  // === Exactly when no two names are spelt alike ===

  /** The last dot but one is where the number starts. */
  lemma NumberedOnce(a: string, b: string, p: nat, q: nat, kind: string)
    requires Numbered(a, p, kind) == Numbered(b, q, kind)
    ensures a == b && p == q
  {
    var x, y := a + ("." + Decimal(p)), b + ("." + Decimal(q));
    assert Numbered(a, p, kind) == x + kind && Numbered(b, q, kind) == y + kind;
    assert x == (x + kind)[..|x|] && y == (y + kind)[..|y|];
    DottedOnce(a, b, Decimal(p), Decimal(q));
    DecimalRoundTrip(p);
    DecimalRoundTrip(q);
  }

  /** Past the dot there are digits only. */
  lemma DotPlace(a: string, m: string, k: nat)
    requires AllDigits(m) && k < |a + ("." + m)| && (a + ("." + m))[k] == '.'
    ensures k <= |a|
  {
    var x := a + ("." + m);
    assert forall i :: |a| < i < |x| ==> x[i] == m[i - |a| - 1];
  }

  lemma DottedOnce(a: string, b: string, m: string, n: string)
    requires AllDigits(m) && AllDigits(n) && a + ("." + m) == b + ("." + n)
    ensures a == b && m == n
  {
    var x := a + ("." + m);
    assert x[|a|] == '.' && x[|b|] == '.';
    DotPlace(a, m, |b|);
    DotPlace(b, n, |a|);
    assert a == x[..|a|] && b == x[..|b|];
    assert m == x[|a| + 1..] && n == x[|b| + 1..];
  }

  lemma KindsDiffer(a: string, b: string, p: nat, q: nat)
    ensures Numbered(a, p, CLAIM) != Numbered(b, q, TEMP)
  {
    var x, y := Numbered(a, p, CLAIM), Numbered(b, q, TEMP);
    assert x[|x| - 1] == 'm' && y[|y| - 1] == 'p';
  }

  lemma NotSpelt(state: string, record: string, pid: nat)
    requires Apart(state, record)
    ensures record != Numbered(state, pid, CLAIM) && record != Numbered(state, pid, TEMP)
    ensures state != Numbered("." + record, pid, TEMP)
  {
  }

  lemma TempsApart(state: string, records: set<string>, a: Name, b: Name)
    requires forall m :: m in records ==> Apart(state, m)
    requires !a.Record? && !b.Record? && Used(a, records) && Used(b, records) && File(state, a) == File(state, b)
    ensures a == b
  {
    if a.ClaimTemp? && b.ClaimTemp? { NumberedOnce(state, state, a.pid, b.pid, CLAIM); }
    else if a.ClaimTemp? && b.StateTemp? { KindsDiffer(state, state, a.pid, b.pid); }
    else if a.StateTemp? && b.ClaimTemp? { KindsDiffer(state, state, b.pid, a.pid); }
    else if a.StateTemp? && b.StateTemp? { NumberedOnce(state, state, a.pid, b.pid, TEMP); }
    else if a.ClaimTemp? && b.RecordTemp? { KindsDiffer(state, "." + b.record, a.pid, b.pid); }
    else if a.RecordTemp? && b.ClaimTemp? { KindsDiffer(state, "." + a.record, b.pid, a.pid); }
    else if a.StateTemp? && b.RecordTemp? { NumberedOnce(state, "." + b.record, a.pid, b.pid, TEMP); }
    else if a.RecordTemp? && b.StateTemp? { NumberedOnce(state, "." + a.record, b.pid, a.pid, TEMP); }
    else if a.RecordTemp? && b.RecordTemp? {
      NumberedOnce("." + a.record, "." + b.record, a.pid, b.pid, TEMP);
      assert a.record == ("." + a.record)[1..] && b.record == ("." + b.record)[1..];
    }
    else if a.RecordTemp? && b.StateFile? { NotSpelt(state, a.record, a.pid); }
    else if a.StateFile? && b.RecordTemp? { NotSpelt(state, b.record, b.pid); }
  }

  lemma DotFirst(record: string, pid: nat)
    ensures !PlainName(Numbered("." + record, pid, TEMP))
  {
    assert Numbered("." + record, pid, TEMP)[0] == '.';
  }

  lemma RecordsApart(state: string, records: set<string>, record: string, b: Name)
    requires forall m :: m in records ==> PlainName(m) && Apart(state, m)
    requires record in records && Used(b, records) && record == File(state, b)
    ensures b == Record(record)
  {
    if b.ClaimTemp? || b.StateTemp? { NotSpelt(state, record, b.pid); }
    if b.RecordTemp? { DotFirst(b.record, b.pid); }
  }

  /** The names of a run are spelt apart exactly if the state file's is apart from every record's. */
  lemma ApartIff(state: string, records: set<string>)
    requires forall m :: m in records ==> PlainName(m)
    ensures Injective(state, records) <==> forall m :: m in records ==> Apart(state, m)
  {
    if forall m :: m in records ==> Apart(state, m) {
      forall a, b | Used(a, records) && Used(b, records) && File(state, a) == File(state, b) ensures a == b {
        if a.Record? { RecordsApart(state, records, a.name, b); }
        else if b.Record? { RecordsApart(state, records, b.name, a); }
        else { TempsApart(state, records, a, b); }
      }
    }
    if Injective(state, records) {
      forall m | m in records ensures Apart(state, m) { InjectiveApart(state, records, m); }
    }
  }

  lemma SpeltApart(state: string, records: set<string>, a: Name, b: Name)
    requires Injective(state, records) && Used(a, records) && Used(b, records) && a != b
    ensures File(state, a) != File(state, b)
  {
  }

  lemma InjectiveApart(state: string, records: set<string>, m: string)
    requires Injective(state, records) && m in records
    ensures Apart(state, m)
  {
    SpeltApart(state, records, Record(m), StateFile);
    SpeltApart(state, records, StateTemp(0), RecordTemp(m, 0));
    forall pid: nat ensures m != Numbered(state, pid, CLAIM) && m != Numbered(state, pid, TEMP) {
      SpeltApart(state, records, Record(m), ClaimTemp(pid));
      SpeltApart(state, records, Record(m), StateTemp(pid));
    }
    forall pid: nat ensures state != Numbered("." + m, pid, TEMP) {
      SpeltApart(state, records, StateFile, RecordTemp(m, pid));
    }
    hide Injective;
  }
}
