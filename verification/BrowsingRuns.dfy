/** What holds in every run of the replies, the gate, the marks and the plans. */
module BrowsingRuns {
  import opened Wrappers
  import Opening
  import opened Browsing

  lemma {:induction false} RunKeeps(members: Members, s: State, events: seq<Event>)
    requires Invariant(s)
    ensures Invariant(Run(members, s, events))
    decreases |events|
  {
    hide Invariant, Apply;
    if events == [] {
    } else {
      ApplyKeeps(members, s, events[0]);
      RunKeeps(members, Apply(members, s, events[0]), events[1..]);
    }
  }

  lemma TwoMore(members: Members, s: State, e: Event, f: Event, rest: seq<Event>)
    ensures Run(members, s, [e, f] + rest) == Run(members, Apply(members, Apply(members, s, e), f), rest)
  {
    hide Apply;
    var all := [e, f] + rest;
    assert all[1..] == [f] + rest && ([f] + rest)[1..] == rest;
    assert Run(members, s, all) == Run(members, Apply(members, s, e), [f] + rest);
  }

  // === What holds in every run ===

  predicate Asked(s: State, req: Option<nat>) { req.Some? ==> req.value in s.log.sent && s.log.sent[req.value].act == s.view.installed }

  /** Whatever late or superseded replies arrive, everything shown — the open group's page and claim, the
      marked count, the open directory group, what the watching panels found — answers a request sent
      under the activation installed now. */
  lemma ShownIsCurrent(members: Members, events: seq<Event>)
    ensures var s := Run(members, INITIAL, events);
            && (s.view.open.Some? ==> forall r :: r in s.view.open.value.pages ==> Asked(s, Some(r)))
            && Asked(s, s.view.marked) && Asked(s, s.view.dir)
            && (forall p :: p in s.view.watch ==> Asked(s, s.view.watch[p]))
            && (forall p :: p in s.view.watchDir ==> Asked(s, s.view.watchDir[p]))
  {
    RunKeeps(members, INITIAL, events);
  }

  /** The activation installed changes only by the routed reply to an open, and then to the next one:
      no number is installed twice. */
  lemma InstallsNext(members: Members, events: seq<Event>, e: Event)
    ensures var s := Run(members, INITIAL, events);
            var t := Apply(members, s, e);
            || t.view.installed == s.view.installed
            || (t.view.installed == s.view.installed + 1 && e.Reply? && e.answer.Opened?
                && s.routes.open.Some? && s.routes.open.value.req == e.req && t.view.current == Some(s.routes.open.value.scan))
  {
    RunKeeps(members, INITIAL, events);
    InstallStep(members, Run(members, INITIAL, events), e);
  }

  predicate Quiet(s: State, t: State) { t.view.installed == s.view.installed && t.log.answered == s.log.answered }

  lemma UnansweredIsQuiet(members: Members, s: State, e: Event)
    requires !e.Reply?
    ensures Quiet(s, Apply(members, s, e))
  {
    hide FindRank, Answered;
  }

  lemma OtherIsQuiet(members: Members, s: State, req: nat, a: Answer)
    requires req in s.log.sent
    requires var r := s.log.sent[req]; !r.Open? && !r.GroupOpen? && !r.MarkedCount?
    ensures Quiet(s, Answered(s, members, req, a))
  {
    var r := s.log.sent[req];
    MarkIsQuiet(s, req, r.act, a);
    SweepIsQuiet(s, req, r.act, a);
    CountIsQuiet(s, req, r.act, a);
    DirIsQuiet(s, req, r.act, a);
    hide PageAnswered, MarkedAnswered, OpenAnswered, MarkAnswered, SweepAnswered, CountAnswered, DirAnswered;
  }

  lemma MarkIsQuiet(s: State, req: nat, act: nat, a: Answer)
    ensures Quiet(s, MarkAnswered(s, req, act, a))
  {
  }

  lemma CountIsQuiet(s: State, req: nat, act: nat, a: Answer)
    ensures Quiet(s, CountAnswered(s, req, act, a))
  {
  }

  lemma DirIsQuiet(s: State, req: nat, act: nat, a: Answer)
    ensures Quiet(s, DirAnswered(s, req, act, a))
  {
  }

  lemma SweepIsQuiet(s: State, req: nat, act: nat, a: Answer)
    ensures Quiet(s, SweepAnswered(s, req, act, a))
  {
    var t := if s.marks.sweep == Some(req) then s.(marks := s.marks.(sweep := None)) else s;
    ReloadIsQuiet(t.(marks := t.marks.(unsettled := a.Partial?)));
    hide ReloadStarted;
  }

  lemma ReloadIsQuiet(s: State)
    ensures Quiet(s, ReloadStarted(s))
  {
    hide FindRank;
  }

  /** A read is counted only under the activation it was asked under, and only if it brought something. */
  predicate Counted(s: State, t: State, req: nat, act: nat, a: Answer)
  {
    && t.view.installed == s.view.installed
    && (t.log.answered == s.log.answered
        || (t.log.answered == s.log.answered + {req} && act == s.view.installed && (a.Page? || a.Number?)))
  }

  lemma PageIsCounted(members: Members, s: State, req: nat, act: nat, a: Answer)
    ensures Counted(s, PageAnswered(s, members, req, act, a), req, act, a)
  {
    hide PageOf, GateAfter;
  }

  lemma MarkedIsCounted(s: State, req: nat, act: nat, a: Answer)
    ensures Counted(s, MarkedAnswered(s, req, act, a), req, act, a)
  {
    hide GateAfter;
  }

  lemma OpenInstalls(s: State, req: nat, a: Answer)
    requires Invariant(s)
    ensures var t := OpenAnswered(s, req, a);
            && t.log.answered == s.log.answered
            && (|| t.view.installed == s.view.installed
                || (t.view.installed == s.view.installed + 1 && a.Opened? && s.routes.open.Some? && s.routes.open.value.req == req
                    && t.view.current == Some(s.routes.open.value.scan)))
  {
    hide LogOk, ViewOk, MarksOk, FindRank;
  }

  lemma InstallStep(members: Members, s: State, e: Event)
    requires Invariant(s)
    ensures var t := Apply(members, s, e);
            && (|| t.view.installed == s.view.installed
                || (t.view.installed == s.view.installed + 1 && e.Reply? && e.answer.Opened?
                    && s.routes.open.Some? && s.routes.open.value.req == e.req && t.view.current == Some(s.routes.open.value.scan)))
            && (|| t.log.answered == s.log.answered
                || (e.Reply? && e.req in s.log.sent && Counted(s, t, e.req, s.log.sent[e.req].act, e.answer)))
  {
    if !e.Reply? {
      UnansweredIsQuiet(members, s, e);
      hide Apply;
    } else if e.req in s.log.sent {
      var r := s.log.sent[e.req];
      OpenInstalls(s, e.req, e.answer);
      PageIsCounted(members, s, e.req, r.act, e.answer);
      MarkedIsCounted(s, e.req, r.act, e.answer);
      if !r.Open? && !r.GroupOpen? && !r.MarkedCount? { OtherIsQuiet(members, s, e.req, e.answer); }
      hide Invariant, OpenAnswered, PageAnswered, MarkedAnswered, CountAnswered, DirAnswered, MarkAnswered, SweepAnswered;
    }
  }

  /** Every plan ever asked for was asked for when no mark write was pending, no sweep ran and the gate was
      settled; and one the group view waits for excludes every mark of its own not yet acknowledged and
      every sweep. */
  lemma PlansAreCalm(members: Members, events: seq<Event>)
    ensures var s := Run(members, INITIAL, events);
            forall r :: r in s.log.sent && s.log.sent[r].BuildPlan? ==> s.log.sent[r].calm
    ensures var s := Run(members, INITIAL, events);
            PlanIsBuilding(s) ==>
              && s.marks.sweep.None?
              && (forall r :: r in s.marks.pending ==> s.marks.pending[r].CommanderMark?)
              && s.routes.plan.value.req in s.log.sent
              && s.log.sent[s.routes.plan.value.req].BuildPlan? && s.log.sent[s.routes.plan.value.req].calm
  {
    RunKeeps(members, INITIAL, events);
  }

  /** The gate over the marks settles only by an open that is installed, or by the reply that completes
      the reads of the last reload — each of them asked under the activation installed, each answered. */
  lemma GateSettles(members: Members, events: seq<Event>, e: Event)
    ensures var s := Run(members, INITIAL, events);
            var t := Apply(members, s, e);
            !s.marks.gate.Settled? && t.marks.gate.Settled? ==>
              || t.view.installed == s.view.installed + 1
              || (e.Reply? && s.log.reload.Some? && Completes(s, t, e.req, s.log.reload.value))
  {
    RunKeeps(members, INITIAL, events);
    GateStep(members, Run(members, INITIAL, events), e);
  }

  predicate Completes(s: State, t: State, req: nat, last: Reads)
  {
    && (req == last.marked || Some(req) == last.group)
    && ReadOk(t.log, s.view.installed, last.marked, true)
    && (last.group.Some? ==> ReadOk(t.log, s.view.installed, last.group.value, true))
  }

  lemma GateStep(members: Members, s: State, e: Event)
    requires Invariant(s)
    ensures var t := Apply(members, s, e);
            !s.marks.gate.Settled? && t.marks.gate.Settled? ==>
              || t.view.installed == s.view.installed + 1
              || (e.Reply? && s.log.reload.Some? && Completes(s, t, e.req, s.log.reload.value))
  {
    if e.Reply? {
      if e.req in s.log.sent { AnswerStep(members, s, e.req, e.answer); }
    } else {
      NoSettling(s, e);
    }
    hide Answered, Acted, Disturbed, Invariant;
  }

  /** Nothing but a reply settles the gate. */
  lemma NoSettling(s: State, e: Event)
    requires !e.Reply?
    ensures e.Elsewhere() ==>
              (Disturbed(s, e).marks.gate.Settled? ==> s.marks.gate.Settled?)
    ensures !e.Elsewhere() ==>
              Acted(s, e).marks.gate == s.marks.gate
  {
    hide FindRank;
  }

  lemma AnswerStep(members: Members, s: State, req: nat, a: Answer)
    requires Invariant(s) && req in s.log.sent
    ensures var t := Answered(s, members, req, a);
            !s.marks.gate.Settled? && t.marks.gate.Settled? ==>
              || t.view.installed == s.view.installed + 1
              || (s.log.reload.Some? && Completes(s, t, req, s.log.reload.value))
  {
    var r := s.log.sent[req];
    if r.GroupOpen? { PageStep(members, s, req, a); }
    else if r.MarkedCount? { MarkedStep(s, req, a); }
    else if !r.Open? { OtherStep(members, s, req, a); }
    else { OpenStep(s, req, a); }
    hide PageAnswered, MarkedAnswered, OpenAnswered, Invariant;
  }

  lemma OpenStep(s: State, req: nat, a: Answer)
    requires Invariant(s)
    ensures var t := OpenAnswered(s, req, a);
            !s.marks.gate.Settled? && t.marks.gate.Settled? ==> t.view.installed == s.view.installed + 1
  {
    hide LogOk, ViewOk, MarksOk, FindRank;
  }

  lemma OtherStep(members: Members, s: State, req: nat, a: Answer)
    requires req in s.log.sent
    requires var r := s.log.sent[req]; !r.Open? && !r.GroupOpen? && !r.MarkedCount?
    ensures Answered(s, members, req, a).marks.gate.Settled? ==> s.marks.gate.Settled?
  {
    hide FindRank;
  }

  lemma MarkedStep(s: State, req: nat, a: Answer)
    requires Invariant(s) && req in s.log.sent
    ensures var t := MarkedAnswered(s, req, s.log.sent[req].act, a);
            !s.marks.gate.Settled? && t.marks.gate.Settled? ==> s.log.reload.Some? && Completes(s, t, req, s.log.reload.value)
  {
    hide LogOk, RoutesOk, ViewOk;
  }

  lemma PageStep(members: Members, s: State, req: nat, a: Answer)
    requires Invariant(s) && req in s.log.sent
    ensures var t := PageAnswered(s, members, req, s.log.sent[req].act, a);
            !s.marks.gate.Settled? && t.marks.gate.Settled? ==> s.log.reload.Some? && Completes(s, t, req, s.log.reload.value)
  {
    hide LogOk, RoutesOk, ViewOk, PageOf;
  }

  /** A reply is counted only under the activation its request was sent under, and only as an answer. */
  lemma CountsAnswers(members: Members, s: State, e: Event, r: nat)
    requires Invariant(s) && r in Apply(members, s, e).log.answered && r !in s.log.answered
    ensures e.Reply? && e.req == r && r in s.log.sent && s.log.sent[r].act == s.view.installed
    ensures e.answer.Page? || e.answer.Number?
  {
    InstallStep(members, s, e);
    hide Apply, Invariant;
  }

  /** Reads not asked for before, and not answered since. */
  predicate Fresh(s: State, t: State, last: Reads)
  {
    && last.marked !in s.log.sent && last.marked !in t.log.answered
    && (last.group.Some? ==> last.group.value !in s.log.sent && last.group.value !in t.log.answered)
  }

  lemma ReloadStartsFresh(s: State)
    requires Invariant(s)
    ensures var t := ReloadStarted(s); t.log.reload.Some? ==> Fresh(s, t, t.log.reload.value)
  {
    MarkedAskedKeeps(s);
    var (t, marked) := MarkedAsked(s);
    var id := if t.view.open.None? then None else FindRank(t.view.groups, t.view.open.value.id.rank);
    if id.Some? {
      PageAskedKeeps(t, BrowserReload(id.value));
    }
    hide MarkedAsked, PageAsked, RoutesOk, ViewOk, MarksOk;
  }

  lemma ReloadStaysOtherwise(members: Members, s: State, e: Event)
    requires !e.Rewritten? && !(e.Reply? && e.req in s.log.sent && s.log.sent[e.req].AutoSelect?)
    ensures Apply(members, s, e).log.reload == s.log.reload
  {
    if e.Reply? && e.req in s.log.sent {
      ReloadStaysOnReply(members, s, e.req, e.answer);
      hide Answered;
    } else {
      hide FindRank, Answered, ReloadStarted;
    }
  }

  lemma ReloadStaysOnReply(members: Members, s: State, req: nat, a: Answer)
    requires req in s.log.sent && !s.log.sent[req].AutoSelect?
    ensures Answered(s, members, req, a).log.reload == s.log.reload
  {
    hide SweepAnswered, PageOf, GateAfter, FindRank, DirShown, Appended;
  }

  /** The reads of a reload are new when it starts: nothing that was asked before can answer them. */
  lemma ReloadIsFresh(members: Members, s: State, e: Event)
    requires Invariant(s)
    ensures var t := Apply(members, s, e);
            t.log.reload.Some? && t.log.reload != s.log.reload ==> Fresh(s, t, t.log.reload.value)
  {
    if e.Rewritten? {
      ReloadStartsFresh(s);
    } else if e.Reply? && e.req in s.log.sent && s.log.sent[e.req].AutoSelect? {
      var t := if s.marks.sweep == Some(e.req) then s.(marks := s.marks.(sweep := None)) else s;
      assert Invariant(t.(marks := t.marks.(unsettled := e.answer.Partial?)));
      ReloadStartsFresh(t.(marks := t.marks.(unsettled := e.answer.Partial?)));
    } else {
      ReloadStaysOtherwise(members, s, e);
      hide Apply;
    }
    hide ReloadStarted, Invariant;
  }


  // === When the database is gone ===

  /** The reply of a request says that the database file was replaced, and it is heard: it is routed, where
      it needs a route, and of the installed activation, where it needs that. */
  predicate SaysGone(s: State, req: nat, a: Answer)
  {
    req in s.log.sent &&
    var r := s.log.sent[req];
    if r.Open? then a.Lost? && s.routes.open.Some? && s.routes.open.value.req == req
    else if r.BuildPlan? || r.act != s.view.installed then false
    else if r.SetMarks? then a.Lost? || (a.Unreadable? && a.lost)
    else
      a.Lost? && if r.GroupOpen? then req in s.routes.groups else if r.GroupCount? then req in s.routes.counts
                 else if r.MarkedCount? then s.routes.marked == Some(req) else r.DirOpen? ==> req in s.routes.dirs
  }

  /** Nothing of the results is shown, and nothing may be planned from them. */
  predicate Nothing(s: State)
  {
    && s.view.current.None? && s.view.groups == [] && s.view.open.None? && s.view.marked.None? && s.view.dir.None?
    && s.view.watch == map[] && s.view.watchDir == map[] && s.view.total == 0 && !s.view.full && s.marks.gate.Blocked?
  }

  /** Over every run: a reply that says so and is heard leaves nothing shown and planning shut. */
  lemma GoneShowsNothing(members: Members, events: seq<Event>, req: nat, a: Answer)
    requires SaysGone(Run(members, INITIAL, events), req, a)
    ensures Nothing(Apply(members, Run(members, INITIAL, events), Reply(req, a)))
  {
    GoneNow(members, Run(members, INITIAL, events), req, a);
  }

  lemma GoneNow(members: Members, s: State, req: nat, a: Answer)
    requires SaysGone(s, req, a)
    ensures Nothing(Apply(members, s, Reply(req, a)))
  {
    hide PageMissed, PageTaken, DirShown, ReloadStarted, GateAfter, GroupSelected;
  }

  /** An open is installed. */
  predicate Installs(s: State, e: Event)
  {
    e.Reply? && e.req in s.log.sent && s.log.sent[e.req].Open? && e.answer.Opened?
    && s.routes.open.Some? && s.routes.open.value.req == e.req
  }

  predicate InstallsNone(members: Members, s: State, events: seq<Event>)
    decreases |events|
  {
    events != [] ==> !Installs(s, events[0]) && InstallsNone(members, Apply(members, s, events[0]), events[1..])
  }

  predicate Ordered(s: State) { forall r :: r in s.log.sent ==> r < s.log.next }

  /** Nothing is open to be planned from. A page asked for before the loss and answered after it would show
      its rows again; an actor that answers in order sends none. */
  predicate Shut(s: State) { s.view.current.None? && s.view.groups == [] && s.marks.gate.Blocked? }

  /** No plan, no sweep, no page of the browser's own and no mark of the group view was asked for between
      the two. */
  predicate AskedNothing(s: State, t: State)
  {
    && (forall r :: r in t.log.sent && r !in s.log.sent ==> !t.log.sent[r].BuildPlan? && !t.log.sent[r].AutoSelect?)
    && (forall r :: r in t.marks.pending && t.marks.pending[r].WizardGroup? ==>
          r in s.marks.pending && s.marks.pending[r] == t.marks.pending[r])
    && (forall r :: r in t.routes.groups && !t.routes.groups[r].Watch? ==>
          r in s.routes.groups && s.routes.groups[r] == t.routes.groups[r])
    && (forall r :: r in s.log.sent ==> r in t.log.sent && t.log.sent[r] == s.log.sent[r])
  }

  lemma ShutStep(members: Members, s: State, e: Event)
    requires Ordered(s) && Shut(s) && !Installs(s, e)
    ensures Shut(Apply(members, s, e)) && AskedNothing(s, Apply(members, s, e))
  {
    if e.Reply? { if e.req in s.log.sent { ShutReply(members, s, e.req, e.answer); } }
    else if e.Elsewhere() { ShutDisturbed(s, e); }
    else { ShutActed(s, e); }
    hide Answered, Disturbed, Acted, Shut, AskedNothing;
  }

  lemma ShutActed(s: State, e: Event)
    requires Ordered(s) && Shut(s)
    requires e.Operators()
    ensures Shut(Acted(s, e)) && AskedNothing(s, Acted(s, e))
  {
  }

  lemma ShutReloads(s: State)
    requires Ordered(s) && Shut(s)
    ensures Shut(ReloadStarted(s)) && AskedNothing(s, ReloadStarted(s))
  {
  }

  lemma ShutDisturbed(s: State, e: Event)
    requires Ordered(s) && Shut(s) && e.Elsewhere()
    ensures Shut(Disturbed(s, e)) && AskedNothing(s, Disturbed(s, e))
  {
    ShutReloads(s);
    hide ReloadStarted;
  }

  lemma ShutSweep(s: State, req: nat, act: nat, a: Answer)
    requires Ordered(s) && Shut(s)
    ensures Shut(SweepAnswered(s, req, act, a)) && AskedNothing(s, SweepAnswered(s, req, act, a))
  {
    var t := if s.marks.sweep == Some(req) then s.(marks := s.marks.(sweep := None)) else s;
    ShutReloads(t.(marks := t.marks.(unsettled := a.Partial?)));
    hide ReloadStarted;
  }

  predicate KeptShut(s: State, t: State) { Shut(t) && AskedNothing(s, t) }

  lemma ShutPage(members: Members, s: State, req: nat, act: nat, a: Answer)
    requires Ordered(s) && Shut(s)
    ensures KeptShut(s, PageAnswered(s, members, req, act, a))
  {
    hide PageOf, Watched;
  }

  lemma ShutMark(s: State, req: nat, act: nat, a: Answer)
    requires Ordered(s) && Shut(s)
    ensures KeptShut(s, MarkAnswered(s, req, act, a))
  {
  }

  lemma ShutCount(s: State, req: nat, act: nat, a: Answer)
    requires Ordered(s) && Shut(s)
    ensures KeptShut(s, CountAnswered(s, req, act, a)) && KeptShut(s, MarkedAnswered(s, req, act, a))
  {
    ShutGroupCount(s, req, act, a);
    ShutMarkedCount(s, req, act, a);
    hide CountAnswered, MarkedAnswered, KeptShut;
  }

  lemma ShutGroupCount(s: State, req: nat, act: nat, a: Answer)
    requires Ordered(s) && Shut(s)
    ensures KeptShut(s, CountAnswered(s, req, act, a))
  {
  }

  lemma ShutMarkedCount(s: State, req: nat, act: nat, a: Answer)
    requires Ordered(s) && Shut(s)
    ensures KeptShut(s, MarkedAnswered(s, req, act, a))
  {
  }

  lemma ShutDir(s: State, req: nat, act: nat, a: Answer)
    requires Ordered(s) && Shut(s)
    ensures KeptShut(s, DirAnswered(s, req, act, a))
  {
    hide Watched;
  }

  lemma ShutOpen(s: State, req: nat, a: Answer)
    requires Ordered(s) && Shut(s) && !(a.Opened? && s.routes.open.Some? && s.routes.open.value.req == req)
    ensures KeptShut(s, OpenAnswered(s, req, a)) && KeptShut(s, PlanAnswered(s, req))
  {
  }

  lemma ShutReply(members: Members, s: State, req: nat, a: Answer)
    requires Ordered(s) && Shut(s) && req in s.log.sent && !Installs(s, Reply(req, a))
    ensures KeptShut(s, Answered(s, members, req, a))
  {
    var r := s.log.sent[req];
    if r.Open? || r.BuildPlan? { if !(r.BuildPlan? && a.Opened?) { ShutOpen(s, req, a); } else { ShutPlan(s, req); } }
    else if r.GroupOpen? { ShutPage(members, s, req, r.act, a); }
    else if r.GroupCount? || r.MarkedCount? { ShutCount(s, req, r.act, a); }
    else if r.DirOpen? { ShutDir(s, req, r.act, a); }
    else if r.SetMarks? { ShutMark(s, req, r.act, a); }
    else { ShutSweep(s, req, r.act, a); }
    hide OpenAnswered, PageAnswered, CountAnswered, MarkedAnswered, DirAnswered, MarkAnswered, SweepAnswered, PlanAnswered;
    hide KeptShut, Shut;
  }

  lemma ShutPlan(s: State, req: nat)
    requires Ordered(s) && Shut(s)
    ensures KeptShut(s, PlanAnswered(s, req))
  {
  }

  lemma AskedTransitively(s: State, t: State, u: State)
    requires AskedNothing(s, t) && AskedNothing(t, u)
    ensures AskedNothing(s, u)
  {
  }

  lemma {:induction false} ShutRun(members: Members, s: State, events: seq<Event>)
    requires Invariant(s) && Shut(s) && InstallsNone(members, s, events)
    ensures KeptShut(s, Run(members, s, events))
    decreases |events|
  {
    if events == [] {
    } else {
      var t := Apply(members, s, events[0]);
      assert Ordered(s);
      ShutStep(members, s, events[0]);
      ApplyKeeps(members, s, events[0]);
      hide Apply, Shut, Invariant, AskedNothing, Installs;
      ShutRun(members, t, events[1..]);
      AskedTransitively(s, t, Run(members, t, events[1..]));
    }
  }

  /** And until an open is installed none of it comes back to be planned from: no plan, no sweep, no page
      of the browser's own and no mark of the group view is asked for. */
  lemma GoneAsksNothing(members: Members, before: seq<Event>, req: nat, a: Answer, after: seq<Event>)
    requires SaysGone(Run(members, INITIAL, before), req, a)
    requires InstallsNone(members, Apply(members, Run(members, INITIAL, before), Reply(req, a)), after)
    ensures var s := Apply(members, Run(members, INITIAL, before), Reply(req, a));
            KeptShut(s, Run(members, s, after))
  {
    RunKeeps(members, INITIAL, before);
    ApplyKeeps(members, Run(members, INITIAL, before), Reply(req, a));
    GoneNow(members, Run(members, INITIAL, before), req, a);
    hide Apply, Run, Invariant, AskedNothing, SaysGone;
    ShutRun(members, Apply(members, Run(members, INITIAL, before), Reply(req, a)), after);
  }
}
