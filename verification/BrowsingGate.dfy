/** When the gate over the marks opens again: what a reload waits for, what takes that away from it, and a
    run in which it waits for ever. */
module BrowsingGate {
  import opened Wrappers
  import Opening
  import opened Browsing
  import opened BrowsingRuns

  /** The count a reload waits for has come, or will be heard. */
  predicate CountComes(s: State)
    requires s.marks.gate.Reloading?
  {
    s.marks.gate.markedOk || s.routes.marked == Some(s.marks.gate.marked)
  }

  /** And so for the rows of the open group. */
  predicate RowsCome(s: State)
    requires s.marks.gate.Reloading?
  {
    || s.marks.gate.groupOk
    || (s.marks.gate.group.Some? && s.marks.gate.group.value in s.routes.groups
        && s.routes.groups[s.marks.gate.group.value].BrowserReload?)
  }

  /** The gate waits, and everything it waits for can still come. */
  predicate Alive(s: State) { s.marks.gate.Reloading? && CountComes(s) && RowsCome(s) }

  /** The gate refuses, or waits for something that will not be heard. */
  predicate Closed(s: State) { s.marks.gate.Blocked? || (s.marks.gate.Reloading? && !Alive(s)) }

  /** The reads of the gate are of their kind, and there are results to read them from. */
  predicate Sound(s: State)
  {
    && Invariant(s)
    && (s.marks.gate.Reloading? ==>
          && s.view.current.Some? && s.log.sent[s.marks.gate.marked].MarkedCount?
          && (s.marks.gate.group.Some? ==> s.log.sent[s.marks.gate.group.value].GroupOpen?))
    && (s.routes.marked.Some? ==> s.routes.marked.value in s.log.sent && s.log.sent[s.routes.marked.value].MarkedCount?)
  }

  /** The acknowledgement of a mark, or the end of a batch that ran nothing, while the count of the reload is
      still to come: the count is asked for once more, and the reply to the first one is no longer heard. */
  predicate TakesTheCount(s: State, e: Event)
    requires s.marks.gate.Reloading?
  {
    && !s.marks.gate.markedOk
    && (e.Recount?
        || (e.Reply? && e.req in s.log.sent && s.log.sent[e.req].SetMarks? && s.log.sent[e.req].act == s.view.installed))
  }

  /** A reply to the read of the group that names another group. */
  predicate NamesAnother(s: State, e: Event)
    requires s.marks.gate.Reloading?
  {
    && !s.marks.gate.groupOk && e.Reply? && e.answer.Page? && s.marks.gate.group == Some(e.req)
    && e.req in s.routes.groups && e.answer.id != s.routes.groups[e.req].id
  }

  /** What starts another reload, or makes one unnecessary. */
  predicate Restarts(s: State, e: Event)
  {
    || e.Rewritten?
    || (e.Reply? && e.req in s.log.sent && s.log.sent[e.req].AutoSelect? && (e.answer.Done? || e.answer.Partial?))
    || (e.Reply? && e.req in s.log.sent && s.log.sent[e.req].Open? && e.answer.Opened?)
  }

  /** The gate and what it depends on stay; only new requests are routed beside. */
  predicate Beside(s: State, t: State)
  {
    && t.marks.gate == s.marks.gate && t.routes.marked == s.routes.marked
    && t.view.current == s.view.current && t.view.installed == s.view.installed
    && (forall r :: r in s.routes.groups ==> r in t.routes.groups && t.routes.groups[r] == s.routes.groups[r])
    && (forall r :: r in t.routes.groups && r !in s.routes.groups ==> r >= s.log.next)
    && (forall r :: r in s.log.sent ==> r in t.log.sent && t.log.sent[r] == s.log.sent[r])
  }

  lemma BesideAlike(s: State, t: State)
    requires Sound(s) && Beside(s, t)
    ensures Alive(t) <==> Alive(s)
    ensures Closed(t) <==> Closed(s)
    ensures Invariant(t) ==> Sound(t)
  {
    if s.marks.gate.Reloading? && s.marks.gate.group.Some? {
      assert ReadOk(s.log, s.view.installed, s.marks.gate.group.value, false);
    }
    hide RoutesOk, ViewOk;
  }

  lemma ActedBeside(s: State, e: Event)
    requires Numbering(s)
    requires e.Operators()
    ensures Beside(s, Acted(s, e))
  {
    hide FindRank;
  }

  predicate Numbering(s: State)
  {
    (forall r :: r in s.log.sent ==> r < s.log.next) && (forall r :: r in s.routes.groups ==> r in s.log.sent)
  }

  lemma InvariantNumbers(s: State)
    requires Invariant(s)
    ensures Numbering(s)
  {
    forall r | r in s.routes.groups ensures r in s.log.sent { assert PurposeOk(s.log, r, s.routes.groups[r]); }
    hide ViewOk, MarksOk;
  }

  // === One step ===

  predicate Harms(s: State, e: Event) { s.marks.gate.Reloading? && (TakesTheCount(s, e) || NamesAnother(s, e)) }

  /** Only a gate that waits for what can still come opens, and it goes on waiting for the same reads. */
  predicate Follows(s: State, t: State, harmed: bool)
  {
    && (t.marks.gate.Settled? ==> s.marks.gate.Settled? || Alive(s))
    && (t.marks.gate.Reloading? ==>
          && s.marks.gate.Reloading? && t.marks.gate.marked == s.marks.gate.marked && t.marks.gate.group == s.marks.gate.group
          && (Alive(t) <==> Alive(s) && !harmed))
  }

  lemma BesideFollows(s: State, t: State)
    requires Sound(s) && Beside(s, t)
    ensures Follows(s, t, false)
  {
    BesideAlike(s, t);
    hide Invariant;
  }

  /** What a step needs of the gate's reads. */
  predicate OfGate(s: State)
  {
    s.marks.gate.Reloading? ==>
      && s.marks.gate.act == s.view.installed && s.view.current.Some?
      && s.marks.gate.marked in s.log.sent && s.log.sent[s.marks.gate.marked].act == s.view.installed
      && (s.marks.gate.group.Some? ==>
            && s.marks.gate.group.value in s.log.sent && s.log.sent[s.marks.gate.group.value].GroupOpen?
            && s.log.sent[s.marks.gate.group.value].act == s.view.installed)
  }

  lemma SoundOfGate(s: State)
    requires Sound(s)
    ensures OfGate(s) && Numbering(s)
  {
    InvariantNumbers(s);
    hide LogOk, RoutesOk, ViewOk;
  }

  lemma PageFollows(members: Members, s: State, req: nat, a: Answer)
    requires OfGate(s) && req in s.log.sent && s.log.sent[req].GroupOpen?
    ensures Follows(s, PageAnswered(s, members, req, s.log.sent[req].act, a), Harms(s, Reply(req, a)))
  {
    if req in s.routes.groups && s.log.sent[req].act == s.view.installed && !a.Lost? {
      var purpose, t := s.routes.groups[req], s.(routes := s.routes.(groups := s.routes.groups - {req}));
      if !a.Page? { PageMissedFollows(s, req); }
      else if a.id == purpose.id { PageTakenFollows(members, s, req, a.total); }
      hide PageMissed, PageTaken;
    } else {
      hide PageMissed, PageTaken;
    }
  }

  lemma PageMissedFollows(s: State, req: nat)
    requires OfGate(s) && req in s.routes.groups
    ensures Follows(s, PageMissed(s.(routes := s.routes.(groups := s.routes.groups - {req})), s.routes.groups[req], req), false)
  {
    hide Watched;
  }

  lemma PageTakenFollows(members: Members, s: State, req: nat, total: nat)
    requires OfGate(s) && req in s.routes.groups
    ensures var t := s.(routes := s.routes.(groups := s.routes.groups - {req}));
            Follows(s, PageTaken(t, members, s.routes.groups[req], req, total), false)
  {
    hide Watched, GroupInstalled, Appended;
    AppendedKeepsPlace(s.view, members, s.routes.groups[req], req);
  }

  lemma AppendedKeepsPlace(v: View, members: Members, p: Purpose, req: nat)
    ensures p.BrowserMore? ==> var w := Appended(v, members, p.id, p.loaded, req); w.current == v.current && w.installed == v.installed
  {
    hide PageOf;
  }

  lemma MarkedFollows(s: State, req: nat, a: Answer)
    requires OfGate(s) && req in s.log.sent && s.log.sent[req].MarkedCount?
    ensures Follows(s, MarkedAnswered(s, req, s.log.sent[req].act, a), Harms(s, Reply(req, a)))
  {
  }

  lemma MarkFollows(s: State, req: nat, a: Answer)
    requires OfGate(s) && Numbering(s) && req in s.log.sent && s.log.sent[req].SetMarks?
    ensures Follows(s, MarkAnswered(s, req, s.log.sent[req].act, a), Harms(s, Reply(req, a)))
  {
    if s.log.sent[req].act == s.view.installed {
      var t := s.(marks := s.marks.(pending := s.marks.pending - {req}));
      var u := if a.Unreadable? && req in s.marks.pending then Restored(t, s.marks.pending[req]) else t;
      MarkedAskedFollows(s, if a.Lost? || (a.Unreadable? && a.lost) then Uninstalled(u) else u);
      hide MarkedAsked;
    }
  }

  lemma MarkedAskedFollows(s: State, t: State)
    requires OfGate(s) && Numbering(s) && t.log == s.log && t.routes == s.routes && t.view.installed == s.view.installed
    requires t.marks.gate.Blocked? || (t.marks.gate == s.marks.gate && t.view.current == s.view.current)
    ensures Follows(s, MarkedAsked(t).0, s.marks.gate.Reloading? && !s.marks.gate.markedOk)
  {
  }

  /** The other replies leave the gate alone, or shut it because the database is gone. */
  lemma OtherFollows(members: Members, s: State, req: nat, a: Answer)
    requires req in s.log.sent && !Restarts(s, Reply(req, a))
    requires var q := s.log.sent[req]; !q.GroupOpen? && !q.MarkedCount? && !q.SetMarks?
    ensures var t := Answered(s, members, req, a); Beside(s, t) || t.marks.gate.Blocked?
  {
    var q := s.log.sent[req];
    if q.Open? { assert Beside(s, OpenAnswered(s, req, a)) || a.Lost?; }
    else if q.GroupCount? { assert Beside(s, CountAnswered(s, req, q.act, a)) || a.Lost?; }
    else if q.DirOpen? { assert Beside(s, DirAnswered(s, req, q.act, a)) || a.Lost?; }
    else if q.AutoSelect? { assert Beside(s, SweepAnswered(s, req, q.act, a)) || a.Lost?; }
    else { assert Beside(s, PlanAnswered(s, req)); }
    hide DirShown;
  }

  lemma DisturbedFollows(s: State, e: Event)
    requires e.Accept? || e.Block? || e.Strand? || e.StrandSweep? || e.DropOpen?
    ensures var t := Disturbed(s, e); Beside(s, t) || t.marks.gate.Blocked?
    ensures e.Block? || e.StrandSweep? || (e.Strand? && e.req in s.marks.pending) ==>
              Disturbed(s, e).marks.gate.Blocked? && Disturbed(s, e).marks.unsettled
  {
  }

  /** From any sound state: unless another reload starts, a gate opens only if what it waits for can still
      come, and that stays so exactly if no mark is acknowledged and no idle batch ends before the count has
      come, and no reply names another group than the one read. */
  lemma StepFollows(members: Members, s: State, e: Event)
    requires Sound(s) && !Restarts(s, e)
    ensures Follows(s, Apply(members, s, e), Harms(s, e))
  {
    SoundOfGate(s);
    var t := Apply(members, s, e);
    if e.Reply? && e.req in s.log.sent {
      var q := s.log.sent[e.req];
      if q.GroupOpen? { PageFollows(members, s, e.req, e.answer); }
      else if q.MarkedCount? { MarkedFollows(s, e.req, e.answer); }
      else if q.SetMarks? { MarkFollows(s, e.req, e.answer); }
      else {
        OtherFollows(members, s, e.req, e.answer);
        NoHarm(s, e);
        if Beside(s, t) { BesideFollows(s, t); }
      }
    } else {
      if e.Accept? || e.Block? || e.Strand? || e.StrandSweep? || e.DropOpen? { DisturbedFollows(s, e); }
      else if e.Recount? { MarkedAskedFollows(s, s); }
      else if !e.Reply? { ActedBeside(s, e); }
      if !e.Recount? && Beside(s, t) { BesideFollows(s, t); }
    }
    hide Sound, OfGate, Beside, Alive, Disturbed, Acted, PageAnswered, MarkedAnswered, MarkAnswered, Numbering;
  }

  lemma NoHarm(s: State, e: Event)
    requires Sound(s) && e.Reply? && e.req in s.log.sent && !s.log.sent[e.req].GroupOpen? && !s.log.sent[e.req].SetMarks?
    ensures !Harms(s, e)
  {
    hide LogOk, RoutesOk, ViewOk;
  }

  // === Every run ===

  /** Requests are of the kind the gate and the count's route take them for. */
  predicate Kinds(s: State)
  {
    && (s.marks.gate.Reloading? ==>
          && s.view.current.Some?
          && s.marks.gate.marked in s.log.sent && s.log.sent[s.marks.gate.marked].MarkedCount?
          && (s.marks.gate.group.Some? ==>
                s.marks.gate.group.value in s.log.sent && s.log.sent[s.marks.gate.group.value].GroupOpen?))
    && (s.routes.marked.Some? ==> s.routes.marked.value in s.log.sent && s.log.sent[s.routes.marked.value].MarkedCount?)
  }

  lemma KindsBeside(s: State, t: State)
    requires Kinds(s) && (Beside(s, t) || (t.marks.gate.Blocked? && t.log.sent == s.log.sent && t.routes.marked == s.routes.marked))
    ensures Kinds(t)
  {
  }

  /** A reload asks for what it waits for; if it cannot even ask for the count, the gate is shut. */
  lemma ReloadIsAlive(s: State)
    requires Numbering(s) && Kinds(s)
    ensures var t := ReloadStarted(s);
            && Kinds(t)
            && (if s.accepting && s.view.current.Some? then Alive(t) && !t.marks.gate.markedOk
                else t.marks.gate.Blocked? && t.marks.unsettled)
  {
    hide FindRank;
  }

  lemma MarkedAskedKinds(s: State)
    requires Numbering(s) && Kinds(s)
    ensures Kinds(MarkedAsked(s).0)
  {
  }

  lemma RepliedKinds(members: Members, s: State, req: nat, a: Answer)
    requires Numbering(s) && Kinds(s) && req in s.log.sent
    ensures Kinds(Answered(s, members, req, a))
  {
    var q := s.log.sent[req];
    if q.GroupOpen? { PageKinds(members, s, req, q.act, a); }
    else if q.MarkedCount? { MarkedKinds(s, req, q.act, a); }
    else if q.SetMarks? { MarkKinds(s, req, q.act, a); }
    else if q.AutoSelect? { SweepKinds(s, req, q.act, a); }
    else if q.Open? { OpenKinds(s, req, a); }
    else { BareKinds(s, req, q.act, a); }
    hide PageAnswered, MarkedAnswered, MarkAnswered, SweepAnswered, OpenAnswered, CountAnswered, DirAnswered, PlanAnswered, Kinds;
  }

  lemma PageKinds(members: Members, s: State, req: nat, act: nat, a: Answer)
    requires Kinds(s)
    ensures Kinds(PageAnswered(s, members, req, act, a))
  {
    hide PageOf, Appended, Watched;
    if req in s.routes.groups { AppendedKeepsPlace(s.view, members, s.routes.groups[req], req); }
  }

  lemma MarkedKinds(s: State, req: nat, act: nat, a: Answer)
    requires Kinds(s)
    ensures Kinds(MarkedAnswered(s, req, act, a))
  {
  }

  lemma MarkKinds(s: State, req: nat, act: nat, a: Answer)
    requires Numbering(s) && Kinds(s)
    ensures Kinds(MarkAnswered(s, req, act, a))
  {
    var t := s.(marks := s.marks.(pending := s.marks.pending - {req}));
    var u := if a.Unreadable? && req in s.marks.pending then Restored(t, s.marks.pending[req]) else t;
    MarkedAskedKinds(if a.Lost? || (a.Unreadable? && a.lost) then Uninstalled(u) else u);
    hide MarkedAsked;
  }

  lemma SweepKinds(s: State, req: nat, act: nat, a: Answer)
    requires Numbering(s) && Kinds(s)
    ensures Kinds(SweepAnswered(s, req, act, a))
  {
    var t := if s.marks.sweep == Some(req) then s.(marks := s.marks.(sweep := None)) else s;
    ReloadIsAlive(t.(marks := t.marks.(unsettled := a.Partial?)));
    hide ReloadStarted;
  }

  lemma OpenKinds(s: State, req: nat, a: Answer)
    requires Numbering(s) && Kinds(s)
    ensures Kinds(OpenAnswered(s, req, a))
  {
  }

  lemma BareKinds(s: State, req: nat, act: nat, a: Answer)
    requires Kinds(s)
    ensures Kinds(CountAnswered(s, req, act, a)) && Kinds(DirAnswered(s, req, act, a)) && Kinds(PlanAnswered(s, req))
  {
    hide DirShown;
    DirKeepsPlace(s.view);
  }

  lemma DirKeepsPlace(v: View)
    ensures forall p, shown :: var w := DirShown(v, p, shown); w.current == v.current && w.installed == v.installed
  {
  }

  lemma StepSound(members: Members, s: State, e: Event)
    requires Sound(s)
    ensures Sound(Apply(members, s, e))
  {
    ApplyKeeps(members, s, e);
    InvariantNumbers(s);
    var t := Apply(members, s, e);
    assert Kinds(s) by { hide LogOk, RoutesOk, ViewOk; }
    assert Kinds(t) by {
      if e.Reply? {
        if e.req in s.log.sent { RepliedKinds(members, s, e.req, e.answer); }
      } else if e.Rewritten? {
        ReloadIsAlive(s);
      } else if e.Recount? {
        MarkedAskedKinds(s);
      } else if e.Accept? || e.Block? || e.Strand? || e.StrandSweep? || e.DropOpen? {
        DisturbedFollows(s, e);
        BlockedKinds(s, e);
      } else {
        ActedBeside(s, e);
        KindsBeside(s, t);
      }
      hide Kinds, Invariant, Answered, Acted, ReloadStarted, Beside, Numbering;
    }
    hide Kinds, Apply, LogOk, RoutesOk, ViewOk;
    KindsSound(t);
  }

  lemma BlockedKinds(s: State, e: Event)
    requires Kinds(s) && (e.Accept? || e.Block? || e.Strand? || e.StrandSweep? || e.DropOpen?)
    ensures Kinds(Disturbed(s, e))
  {
  }

  lemma KindsSound(s: State)
    requires Invariant(s) && Kinds(s)
    ensures Sound(s)
  {
    hide Invariant;
  }

  lemma {:induction false} RunSound(members: Members, s: State, events: seq<Event>)
    requires Sound(s)
    ensures Sound(Run(members, s, events))
    decreases |events|
  {
    hide Apply, Sound;
    if events != [] {
      StepSound(members, s, events[0]);
      RunSound(members, Apply(members, s, events[0]), events[1..]);
    }
  }

  /** No further reload starts, and no open is installed. */
  predicate NoneRestarts(members: Members, s: State, events: seq<Event>)
    decreases |events|
  {
    events == [] || (!Restarts(s, events[0]) && NoneRestarts(members, Apply(members, s, events[0]), events[1..]))
  }

  predicate NoneHarms(members: Members, s: State, events: seq<Event>)
    decreases |events|
  {
    events == [] || (!Harms(s, events[0]) && NoneHarms(members, Apply(members, s, events[0]), events[1..]))
  }

  /** A gate that is shut, or waits for something that will not be heard, opens in no run in which no further
      reload starts and no open is installed. */
  lemma {:induction false} ClosedStays(members: Members, s: State, events: seq<Event>)
    requires Sound(s) && Closed(s) && NoneRestarts(members, s, events)
    ensures Closed(Run(members, s, events))
    decreases |events|
  {
    if events != [] {
      var t := Apply(members, s, events[0]);
      StepFollows(members, s, events[0]);
      StepSound(members, s, events[0]);
      hide Apply, Sound, Restarts, Harms, Alive;
      ClosedStays(members, t, events[1..]);
    }
  }

  /** What a reload waits for can still come in every run in which no mark is acknowledged, and no batch
      ends that ran nothing, before the count, and no reply names another group. */
  lemma {:induction false} AliveStays(members: Members, s: State, events: seq<Event>)
    requires Sound(s) && (s.marks.gate.Reloading? ==> Alive(s))
    requires NoneRestarts(members, s, events) && NoneHarms(members, s, events)
    ensures var t := Run(members, s, events); t.marks.gate.Reloading? ==> Alive(t)
    decreases |events|
  {
    if events != [] {
      var t := Apply(members, s, events[0]);
      StepFollows(members, s, events[0]);
      StepSound(members, s, events[0]);
      hide Apply, Sound, Restarts, Harms, Alive;
      AliveStays(members, t, events[1..]);
    }
  }

  /** The replies a reload is still waiting for, the count first or the rows first. */
  function Rest(s: State, count: nat, total: nat, rowsFirst: bool): seq<Event>
    requires Alive(s)
  {
    var number := if s.marks.gate.markedOk then [] else [Reply(s.marks.gate.marked, Number(count))];
    var rows :=
      if s.marks.gate.groupOk then []
      else [Reply(s.marks.gate.group.value, Page(s.routes.groups[s.marks.gate.group.value].id, total))];
    if rowsFirst then rows + number else number + rows
  }

  lemma CountArrives(members: Members, s: State, count: nat)
    requires Sound(s) && Alive(s) && !s.marks.gate.markedOk
    ensures var t := Apply(members, s, Reply(s.marks.gate.marked, Number(count)));
            if s.marks.gate.groupOk then t.marks.gate.Settled? && t.view.marked == Some(s.marks.gate.marked)
            else Alive(t) && t.marks.gate == s.marks.gate.(markedOk := true) && t.routes.groups == s.routes.groups
  {
    hide LogOk, RoutesOk, ViewOk;
  }

  lemma RowsArrive(members: Members, s: State, total: nat)
    requires Sound(s) && Alive(s) && !s.marks.gate.groupOk
    ensures var r := s.marks.gate.group.value;
            var t := Apply(members, s, Reply(r, Page(s.routes.groups[r].id, total)));
            if s.marks.gate.markedOk then t.marks.gate.Settled?
            else Alive(t) && t.marks.gate == s.marks.gate.(groupOk := true)
  {
    hide LogOk, RoutesOk, ViewOk, PageOf;
  }

  /** And then it opens as soon as the replies are there, in either order. */
  lemma GateOpens(members: Members, s: State, count: nat, total: nat, rowsFirst: bool)
    requires Sound(s) && Alive(s)
    requires !s.marks.gate.markedOk || !s.marks.gate.groupOk
    ensures Run(members, s, Rest(s, count, total, rowsFirst)).marks.gate.Settled?
  {
    var events := Rest(s, count, total, rowsFirst);
    if !s.marks.gate.markedOk { CountArrives(members, s, count); }
    if !s.marks.gate.groupOk { RowsArrive(members, s, total); }
    var t := Apply(members, s, events[0]);
    StepSound(members, s, events[0]);
    if !s.marks.gate.markedOk && !s.marks.gate.groupOk {
      if rowsFirst { CountArrives(members, t, count); } else { RowsArrive(members, t, total); }
      var u := Apply(members, t, events[1]);
      assert u.marks.gate.Settled?;
      hide Apply, Sound, Alive;
      assert events[1..][0] == events[1] && events[1..][1..] == [];
      assert Run(members, t, events[1..]) == Run(members, u, []);
      assert Run(members, s, events) == u;
    } else {
      hide Apply, Sound, Alive;
      assert events[1..] == [];
      assert Run(members, s, events) == t;
    }
  }

  // === A gate that waits for ever ===

  /** A scan without groups opened, a sweep, and a mark set beside it; then every reply in the order of the
      requests: the sweep's, the mark's, those of the two counts. */
  function MarksBesideASweep(scan: nat, count: nat): seq<Event>
  {
    [OpenScan(scan), Reply(0, Opened([])), Sweep, MarkCommander, Reply(1, Done), Reply(2, Done),
     Reply(3, Number(count)), Reply(4, Number(count))]
  }

  /** The scan is open, nothing is asked for. */
  function OpenAndIdle(scan: nat): State
  {
    INITIAL.(view := View(1, Some(scan), [], None, 0, false, Some(0), None, map[], map[]),
             log := Log(1, map[0 := Open(1, scan)], {}, None, map[0 := [], 1 := []]))
  }

  /** The sweep and the mark are asked for. */
  function Asking(scan: nat): State
  {
    OpenAndIdle(scan).(marks := Marks(Settled, map[2 := CommanderMark], Some(1), false),
                  log := Log(3, map[0 := Open(1, scan), 1 := AutoSelect(1), 2 := SetMarks(1)], {}, None, map[0 := [], 1 := []]))
  }

  /** The sweep is over, the mark acknowledged, and the count has been asked for twice. */
  function Recounting(scan: nat): State
  {
    var sent := map[0 := Open(1, scan), 1 := AutoSelect(1), 2 := SetMarks(1), 3 := MarkedCount(1), 4 := MarkedCount(1)];
    var v := OpenAndIdle(scan).view.(marked := None);
    State(v, INITIAL.routes.(marked := Some(4)), Marks(Reloading(1, 3, None, false, true), map[], None, false),
          Log(5, sent, {}, Some(Reads(3, None)), map[0 := [], 1 := []]), true)
  }

  /** And both counts have come. */
  function Recounted(scan: nat): (s: State)
    ensures s.marks.gate.Reloading? && !Alive(s)
  {
    var s := Recounting(scan);
    s.(view := s.view.(marked := Some(4)), routes := INITIAL.routes, log := s.log.(answered := {4}))
  }

  lemma OpensEmpty(members: Members, scan: nat)
    ensures Apply(members, Apply(members, INITIAL, OpenScan(scan)), Reply(0, Opened([]))) == OpenAndIdle(scan)
  {
  }

  lemma Asks(members: Members, scan: nat)
    ensures Apply(members, Apply(members, OpenAndIdle(scan), Sweep), MarkCommander) == Asking(scan)
  {
  }

  lemma Acknowledges(members: Members, scan: nat)
    ensures Apply(members, Apply(members, Asking(scan), Reply(1, Done)), Reply(2, Done)) == Recounting(scan)
  {
    var t := Apply(members, Asking(scan), Reply(1, Done));
    assert t.log.sent[3] == MarkedCount(1) && t.routes.marked == Some(3) && t.log.next == 4;
  }

  lemma Counts(members: Members, scan: nat, count: nat)
    ensures Apply(members, Apply(members, Recounting(scan), Reply(3, Number(count))), Reply(4, Number(count))) == Recounted(scan)
  {
  }

  lemma EndsRecounted(members: Members, scan: nat, count: nat)
    ensures Run(members, INITIAL, MarksBesideASweep(scan, count)) == Recounted(scan)
  {
    OpensEmpty(members, scan);
    Asks(members, scan);
    Acknowledges(members, scan);
    Counts(members, scan, count);
    hide Apply, OpenAndIdle, Asking, Recounting, Recounted;
    var events := MarksBesideASweep(scan, count);
    assert events == [events[0], events[1]] + events[2..] && events[2..] == [events[2], events[3]] + events[4..];
    assert events[4..] == [events[4], events[5]] + events[6..] && events[6..] == [events[6], events[7]] + [];
    TwoMore(members, INITIAL, events[0], events[1], events[2..]);
    TwoMore(members, OpenAndIdle(scan), events[2], events[3], events[4..]);
    TwoMore(members, Asking(scan), events[4], events[5], events[6..]);
    TwoMore(members, Recounting(scan), events[6], events[7], []);
  }

  /** So from the start of the program: everything has been answered in order and well, nothing is waited
      for, and still the gate opens in no run in which nothing starts another reload and nothing is opened. */
  lemma GateWaitsForEver(members: Members, scan: nat, count: nat, after: seq<Event>)
    requires NoneRestarts(members, Run(members, INITIAL, MarksBesideASweep(scan, count)), after)
    ensures var s := Run(members, INITIAL, MarksBesideASweep(scan, count));
            && s.marks.gate.Reloading? && s.marks.pending == map[] && s.marks.sweep.None? && s.routes.marked.None?
            && s.routes.groups == map[] && s.log.sent.Keys == {0, 1, 2, 3, 4}
    ensures Closed(Run(members, Run(members, INITIAL, MarksBesideASweep(scan, count)), after))
  {
    var events := MarksBesideASweep(scan, count);
    EndsRecounted(members, scan, count);
    assert Sound(INITIAL);
    hide Run, Apply, Sound, MarksBesideASweep, NoneRestarts;
    RunSound(members, INITIAL, events);
    ClosedStays(members, Run(members, INITIAL, events), after);
  }
}
