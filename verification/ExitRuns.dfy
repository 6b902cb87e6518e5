/** What holds in every run of the exit: how the actor is closed, how settlements end, what is left when
    the loop ends, and that it ends. */
module ExitRuns {
  import opened Wrappers
  import opened Shutdown

  // === Asking again ===

  /** Advancing again changes nothing: whatever stops one call stops the next at once. */
  lemma {:induction false} AdvanceTwice(s: State)
    ensures Advance(Advance(s)) == Advance(s)
    decreases Left(s)
  {
    TurnGoesOn(s);
    AdvanceTurns(s);
    StopsTwice(s);
    var (t, more) := Turn(s);
    AdvanceTurns(t);
    hide Advance, Turn;
    if !more {
    } else {
      AdvanceTwice(t);
    }
  }

  lemma StopsTwice(s: State)
    ensures !Turn(s).1 ==> Turn(Turn(s).0) == (Turn(s).0, false)
  {
    SentStays(s);
    hide SentOwed, Retired;
  }

  /** Nor does asking for the exit again, as every pass of the event loop does. */
  lemma RequestTwice(s: State)
    ensures Requested(Requested(s)) == Requested(s)
  {
    AdvanceTwice(Armed(s));
    AdvanceFramed(Armed(s));
    hide Advance;
  }

  predicate PassAsks(p: Process, drawFails: bool) { p.app.signalled || p.lost || drawFails }

  lemma PassedOnce(p: Process, drawFails: bool)
    ensures Passed(p, drawFails) ==
              if p.waiting && p.app.shouldQuit then p.(waiting := false)
              else Process(if PassAsks(p, drawFails) then Requested(p.app) else p.app, p.lost || drawFails, true)
  {
    RequestTwice(p.app);
    hide Requested;
  }

  // === The actor closes last ===

  /** The exit asks an actor to close only when it drains — and, if it has just left the producers, with no
      work running and no settlement pending. */
  lemma ActorClosesLast(events: seq<Event>, e: Event)
    requires !e.Replace?
    ensures var s, t := Run(START, events).app, Apply(Run(START, events), e).app;
            t.fleet.actor.Closing? && !s.fleet.actor.Closing? ==>
              t.stage.Draining? && (s.stage.Past() || (t.owed.None? && !t.work.Busy()))
  {
    StartKeeps();
    RunKeeps(START, events);
    AppliedAsks(Run(START, events), e);
  }

  predicate AsksLast(s: State, t: State)
  {
    t.fleet.actor.Closing? && !s.fleet.actor.Closing? ==>
      t.stage.Draining? && ((s.stage.Past() && s.owed.Some?) || t.owed.None?)
  }

  lemma DrainingAsks(s: State)
    requires s.stage.Draining?
    ensures var (t, more) := DrainingTurn(s);
            t.owed == s.owed && (t.fleet.actor.Closing? ==> s.fleet.actor.Closing? || (!more && t.stage.Draining?))
  {
    if s.fleet.CloseBegun().1 { RetiredChanges(s.(fleet := s.fleet.CloseBegun().0), false); }
    hide Retired;
  }

  lemma TurnAsks(s: State)
    ensures var (t, more) := Turn(s);
            && (t.fleet.actor.Closing? ==>
                  s.fleet.actor.Closing? || (!more && s.stage.Draining? && t.stage.Draining? && t.owed == s.owed))
            && (more && t.stage.Draining? ==> t.owed.None? || (s.stage.Past() && s.owed.Some?))
            && (more && t.stage.Past() && t.owed.Some? ==> s.stage.Past() && s.owed.Some?)
  {
    if s.stage.Draining? { DrainingAsks(s); }
    hide DrainingTurn;
  }

  lemma {:induction false} AdvanceAsks(s: State)
    ensures AsksLast(s, Advance(s))
    decreases Left(s)
  {
    TurnGoesOn(s);
    AdvanceTurns(s);
    TurnAsks(s);
    hide Advance, Turn;
    var (t, more) := Turn(s);
    if !more {
    } else {
      AdvanceAsks(t);
    }
  }

  lemma BeforeAsks(s: State, e: Event)
    requires !e.Replace?
    ensures Before(s, e).fleet.actor.Closing? ==> s.fleet.actor.Closing?
  {
    if e.OpenReply? { OpenHeardChanges(s, e.req, e.result); }
    else if e.Ack? { AckAsks(s, e); }
    else if e.ActorClosed? { TakenAsks(s, e); }
    else if e.BatchFinished? { ReportedFramed(s, e.outcome, e.fromCommander); }
    else if !e.Ends() { BegunChanges(s, e); }
    hide OpenHeard, Begun, Taken, Reported, Acknowledged, Asks, Worked;
  }

  lemma AckAsks(s: State, e: Event)
    requires e.Ack?
    ensures Acknowledged(s, e).fleet.actor.Closing? ==> s.fleet.actor.Closing?
  {
  }

  lemma TakenAsks(s: State, e: Event)
    requires e.ActorClosed?
    ensures Taken(s, e).fleet.actor.Closing? ==> s.fleet.actor.Closing?
    ensures Taken(s, e).stage == s.stage
  {
    if !s.fleet.actor.Idle? && s.fleet.actor.id == e.actor {
      RetiredChanges(s.(fleet := s.fleet.(actor := Idle,
                     successor := if e.panicked then None else s.fleet.successor)), e.panicked);
    }
    hide Retired;
  }

  lemma HandledAsks(s: State, e: Event)
    requires !e.Replace?
    ensures var t := Handled(s, e);
            t.fleet.actor.Closing? && !s.fleet.actor.Closing? ==> t.stage.Draining? && (s.stage.Past() || t.owed.None?)
  {
    BeforeAsks(s, e);
    BeforeFramed(s, e);
    AdvanceAsks(Before(s, e));
    AdvanceFramed(Before(s, e));
    if e.ScanFinished? && s.work.scan { ScanShownChanges(Looked(s, e), e.end); }
    hide Before, Advance, Asks, ScanShown, Worked;
  }

  lemma AppliedAsks(p: Process, e: Event)
    requires !e.Replace? && Invariant(p)
    ensures var s, t := p.app, Apply(p, e).app;
            t.fleet.actor.Closing? && !s.fleet.actor.Closing? ==>
              t.stage.Draining? && (s.stage.Past() || (t.owed.None? && !t.work.Busy()))
  {
    if !p.Over() && e.Pass? {
      PassedOnce(p, e.drawFails);
      AdvanceAsks(Armed(p.app));
      AdvanceFramed(Armed(p.app));
    } else if Hears(p, e) {
      HandledAsks(p.app, e);
      HandledFramed(p.app, e);
    }
    hide Handled, Advance, Invariant, Worked, Passed;
  }

  // === How settlements end ===

  /** A settlement stops being pending only by the routed good acknowledgement of a request that carried it,
      or with the marks marked unsettled. */
  lemma SettlementEnds(events: seq<Event>, e: Event)
    ensures var s, t := Run(START, events).app, Apply(Run(START, events), e).app;
            s.owed.Some? && t.owed != s.owed ==> t.unsettled || Answered(s, e)
  {
    StartKeeps();
    RunKeeps(START, events);
    AppliedOwes(Run(START, events), e);
  }

  predicate Answered(s: State, e: Event)
  {
    && e.Ack? && e.ok && s.route == Some(e.req) && e.req in s.asked && s.owed.Some?
    && s.asked[e.req].owed == s.owed.value
  }

  /** It forgets a settlement only by saying so, and takes back nothing that was said. */
  predicate Says(s: State, t: State) { t.unsettled || (!s.unsettled && t.owed == s.owed) }

  lemma TurnSays(s: State)
    ensures Says(s, Turn(s).0)
  {
    if s.stage.Draining? && s.fleet.CloseBegun().1 { RetiredChanges(s.(fleet := s.fleet.CloseBegun().0), false); }
    SentStays(s);
    hide Retired, SentOwed;
  }

  lemma {:induction false} AdvanceSays(s: State)
    ensures Says(s, Advance(s))
    decreases Left(s)
  {
    TurnGoesOn(s);
    AdvanceTurns(s);
    TurnSays(s);
    hide Advance, Turn;
    var (t, more) := Turn(s);
    if !more {
    } else {
      AdvanceSays(t);
    }
  }

  lemma BeforeSays(s: State, e: Event)
    requires Ready(s)
    ensures var t := Before(s, e); s.owed.Some? && t.owed != s.owed ==> t.unsettled || Answered(s, e)
  {
    if e.OpenReply? { OpenHeardChanges(s, e.req, e.result); }
    else if e.Ack? { AckSays(s, e); }
    else if e.ActorClosed? { TakenFramed(s, e); }
    else if e.BatchFinished? { ReportedSays(s, e.outcome, e.fromCommander); }
    else if !e.Ends() { BegunChanges(s, e); }
    hide OpenHeard, Begun, Taken, Reported, Settled, Asks, Worked;
  }

  lemma AckSays(s: State, e: Event)
    requires e.Ack?
    ensures s.route == Some(e.req) && !e.ok ==> Acknowledged(s, e).unsettled
  {
  }

  lemma ReportedSays(s: State, outcome: Outcome, fromCommander: bool)
    ensures var t := Reported(s, outcome, fromCommander); t.owed == s.owed || t.unsettled
  {
  }

  lemma HandledSays(s: State, e: Event)
    requires Ready(s)
    ensures var t := Handled(s, e); s.owed.Some? && t.owed != s.owed ==> t.unsettled || Answered(s, e)
  {
    BeforeSays(s, e);
    AdvanceSays(Before(s, e));
    if e.ScanFinished? && s.work.scan { ScanShownChanges(Looked(s, e), e.end); }
    hide Before, Advance, Asks, ScanShown, Ready, Answered;
  }

  lemma AppliedOwes(p: Process, e: Event)
    requires Invariant(p)
    ensures var s, t := p.app, Apply(p, e).app;
            s.owed.Some? && t.owed != s.owed ==> t.unsettled || Answered(s, e)
  {
    if !p.Over() && e.Pass? {
      PassedOnce(p, e.drawFails);
      AdvanceSays(Armed(p.app));
    } else if Hears(p, e) {
      HandledSays(p.app, e);
    } else if !p.Over() && e.Beside() {
      NotedKeeps(p.app, e);
    }
    hide Handled, Advance, Passed, Noted, Answered;
  }

  /** A refused settlement that is heard is said, and leaves nothing pending or routed to be heard again; a
      good one outside an exit settles the marks, unless they cannot even be read again. */
  lemma SettlementHeard(events: seq<Event>, e: Event)
    requires var p := Run(START, events); Hears(p, e) && e.Ack? && p.app.route == Some(e.req)
    ensures var s, t := Run(START, events).app, Apply(Run(START, events), e).app;
            && t.owed.None? && t.route.None?
            && (!e.ok ==> t.unsettled && (t.current, t.dedup) == if e.lost then (None, None) else (s.current, s.dedup))
            && (e.ok && s.stage.Running? && !e.ofNow ==> !t.unsettled)
            && (e.ok && s.stage.Running? && e.ofNow && s.current.Some? && s.fleet.actor.Live? && !s.fleet.actor.gone ==> !t.unsettled)
  {
    StartKeeps();
    RunKeeps(START, events);
    var p := Run(START, events);
    var t := Before(p.app, e);
    if p.app.stage == Settling(e.req) { DrainingSays(t); }
    hide Run, Advance, Invariant;
  }

  /** A drained exit neither asks for a settlement nor takes back what was said. */
  lemma {:induction false} DrainingSays(s: State)
    requires Drains(s)
    ensures var t := Advance(s);
            && t.owed == s.owed && t.route == s.route && t.current == s.current && t.dedup == s.dedup
            && (s.unsettled ==> t.unsettled)
  {
    AdvanceOwes(s);
    AdvanceSays(s);
    AdvanceFramed(s);
  }

  // === A forced exit ===

  /** A second signal: whatever work runs and whatever is owed, the program is to quit, no successor
      follows, and nothing else is touched; and the loop is over with the pass it came in. */
  lemma ForcedEnds(p: Process, e: Event)
    requires Hears(p, e) || e.Pass?
    ensures var t := Forced(p.app);
            && t.stage.Done? && t.shouldQuit && t.fleet == p.app.fleet.(successor := None)
            && t.work == p.app.work && t.owed == p.app.owed && t.unsettled == p.app.unsettled
            && Apply(Process(t, p.lost, true), e).Over()
  {
    var t := Forced(p.app);
    if e.Pass? {
    } else {
      BeforeQuits(t, e);
      DoneStays(Before(t, e));
      if e.ScanFinished? && t.work.scan { ScanShownChanges(Looked(t, e), e.end); }
    }
    hide Before, Advance, ScanShown, Asks;
  }

  lemma BeforeQuits(s: State, e: Event)
    requires s.stage.Done? && s.shouldQuit
    ensures Before(s, e).stage.Done? && Before(s, e).shouldQuit
  {
    if e.OpenReply? { OpenHeardChanges(s, e.req, e.result); }
    else if e.ActorClosed? { TakenFramed(s, e); }
    else if e.BatchFinished? { ReportedFramed(s, e.outcome, e.fromCommander); }
    else if !e.Ack? && !e.Ends() { BegunChanges(s, e); }
    hide OpenHeard, Begun, Taken, Reported, Asks, Worked;
  }

  /** What an actor still held of unacknowledged marks is gone from the fleet only if the marks are marked
      unsettled, unless it was acknowledged after all. */
  lemma StrandedIsSaid(events: seq<Event>, e: Event)
    requires !e.Unstrand?
    ensures var s, t := Run(START, events).app, Apply(Run(START, events), e).app;
            s.fleet.stranded && !t.fleet.stranded ==> t.unsettled
  {
    StartKeeps();
    RunKeeps(START, events);
    AppliedStrands(Run(START, events), e);
  }

  predicate NoneStranded(s: State) { s.fleet.actor.Idle? ==> !s.fleet.stranded }

  /** Marks let go of are said to be unsettled, and that is not taken back. */
  predicate Strands(s: State, t: State)
  {
    NoneStranded(t) && (t.unsettled || (!s.unsettled && t.fleet.stranded == s.fleet.stranded))
  }

  lemma DrainingStrands(s: State)
    requires NoneStranded(s)
    ensures Strands(s, DrainingTurn(s).0)
  {
    if s.fleet.CloseBegun().1 { RetiredChanges(s.(fleet := s.fleet.CloseBegun().0), false); }
    hide Retired;
  }

  lemma ProducersStrands(s: State)
    requires NoneStranded(s)
    ensures Strands(s, ProducersTurn(s).0)
  {
  }

  lemma TurnStrands(s: State)
    requires NoneStranded(s)
    ensures Strands(s, Turn(s).0)
  {
    DrainingStrands(s);
    ProducersStrands(s);
    hide DrainingTurn, ProducersTurn;
  }

  lemma {:induction false} AdvanceStrands(s: State)
    requires NoneStranded(s)
    ensures Strands(s, Advance(s))
    decreases Left(s)
  {
    TurnGoesOn(s);
    AdvanceTurns(s);
    TurnStrands(s);
    hide Advance, Turn;
    var (t, more) := Turn(s);
    if !more {
    } else {
      AdvanceStrands(t);
    }
  }

  lemma BeforeStrands(s: State, e: Event)
    requires NoneStranded(s)
    ensures var t := Before(s, e); NoneStranded(t) && (s.fleet.stranded && !t.fleet.stranded ==> t.unsettled)
  {
    if e.OpenReply? { OpenHeardChanges(s, e.req, e.result); }
    else if e.Ack? { AckStrands(s, e); }
    else if e.ActorClosed? { TakenStrands(s, e); }
    else if e.BatchFinished? { ReportedFramed(s, e.outcome, e.fromCommander); }
    else if e.Replace? { ReplacedStrands(s); }
    else if !e.Ends() { BegunChanges(s, e); }
    hide OpenHeard, Taken, Reported, Acknowledged, Asks, Worked, OpenVia, Replaced;
    if !e.Replace? { hide Begun; }
  }

  lemma AckStrands(s: State, e: Event)
    requires e.Ack? && NoneStranded(s)
    ensures NoneStranded(Acknowledged(s, e)) && Acknowledged(s, e).fleet.stranded == s.fleet.stranded
  {
  }

  lemma TakenStrands(s: State, e: Event)
    requires e.ActorClosed? && NoneStranded(s)
    ensures var t := Taken(s, e); NoneStranded(t) && (s.fleet.stranded && !t.fleet.stranded ==> t.unsettled)
  {
    if !s.fleet.actor.Idle? && s.fleet.actor.id == e.actor {
      RetiredChanges(s.(fleet := s.fleet.(actor := Idle,
                     successor := if e.panicked then None else s.fleet.successor)), e.panicked);
    }
    hide Retired;
  }

  lemma ReplacedStrands(s: State)
    requires NoneStranded(s)
    ensures var t := Replaced(s); NoneStranded(t) && (s.fleet.stranded && !t.fleet.stranded ==> t.unsettled)
  {
    if s.fleet.actor.Idle? {
      if s.current.Some? { OpenViaChanges(s.(fleet := s.fleet.(successor := None)), s.current.value); }
    } else if s.fleet.(successor := Some(s.current)).CloseBegun().1 {
      RetiredChanges(s.(fleet := s.fleet.(successor := Some(s.current)).CloseBegun().0), false);
    }
    hide OpenVia, Retired;
  }

  lemma HandledStrands(s: State, e: Event)
    requires NoneStranded(s)
    ensures s.fleet.stranded && !Handled(s, e).fleet.stranded ==> Handled(s, e).unsettled
  {
    BeforeStrands(s, e);
    AdvanceStrands(Before(s, e));
    if e.ScanFinished? && s.work.scan { ScanShownChanges(Looked(s, e), e.end); }
    hide Before, Advance, Asks, ScanShown;
  }

  lemma AppliedStrands(p: Process, e: Event)
    requires Invariant(p) && !e.Unstrand?
    ensures p.app.fleet.stranded && !Apply(p, e).app.fleet.stranded ==> Apply(p, e).app.unsettled
  {
    assert NoneStranded(p.app);
    if !p.Over() && e.Pass? {
      PassedOnce(p, e.drawFails);
      AdvanceStrands(Armed(p.app));
    } else if Hears(p, e) {
      HandledStrands(p.app, e);
    }
    hide Handled, Advance, Passed, Invariant;
  }

  /** A settlement is sent only while the scan it was planned against is the one shown. */
  lemma SettlementsGoHome(events: seq<Event>, e: Event, r: nat)
    ensures SentHome(Run(START, events).app, Apply(Run(START, events), e).app, r)
  {
    AppliedSends(Run(START, events), e, r);
  }

  predicate SentHome(s: State, t: State, r: nat)
  {
    r in t.asked && (r !in s.asked || t.asked[r] != s.asked[r]) ==> t.current == Some(t.asked[r].owed.scan)
  }

  predicate SendsHome(s: State, t: State, r: nat)
  {
    SentHome(s, t, r) && t.current == s.current && (r in s.asked ==> r in t.asked)
  }

  lemma DrainingSends(s: State)
    ensures DrainingTurn(s).0.asked == s.asked && DrainingTurn(s).0.current == s.current
  {
    if s.fleet.CloseBegun().1 { RetiredChanges(s.(fleet := s.fleet.CloseBegun().0), false); }
    hide Retired;
  }

  lemma ProducersSends(s: State, r: nat)
    ensures SendsHome(s, ProducersTurn(s).0, r)
  {
  }

  lemma TurnSends(s: State, r: nat)
    ensures SendsHome(s, Turn(s).0, r)
  {
    DrainingSends(s);
    ProducersSends(s, r);
    hide DrainingTurn, ProducersTurn;
  }

  lemma {:induction false} AdvanceSends(s: State, r: nat)
    ensures SendsHome(s, Advance(s), r)
    decreases Left(s)
  {
    TurnGoesOn(s);
    AdvanceTurns(s);
    TurnSends(s, r);
    var (t, more) := Turn(s);
    hide Advance, Turn;
    if !more {
    } else {
      AdvanceSends(t, r);
    }
  }

  lemma ReportedSends(s: State, outcome: Outcome, fromCommander: bool, r: nat)
    ensures SendsHome(s, Reported(s, outcome, fromCommander), r)
  {
  }

  lemma OthersSendNone(s: State, e: Event)
    requires !e.BatchFinished?
    ensures Before(s, e).asked == s.asked
  {
    if e.OpenReply? { OpenHeardChanges(s, e.req, e.result); }
    else if e.ActorClosed? { TakenFramed(s, e); }
    else if !e.Ack? && !e.Ends() { BegunChanges(s, e); }
    hide OpenHeard, Begun, Taken, Asks, Worked;
  }

  lemma BeforeSends(s: State, e: Event, r: nat)
    ensures SentHome(s, Before(s, e), r) && (r in s.asked ==> r in Before(s, e).asked)
  {
    if e.BatchFinished? { ReportedSends(s, e.outcome, e.fromCommander, r); } else { OthersSendNone(s, e); }
    hide Reported, Acknowledged, Taken, Ended, OpenHeard, Begun;
  }

  lemma HandledSends(s: State, e: Event, r: nat)
    ensures SentHome(s, Handled(s, e), r)
  {
    BeforeSends(s, e, r);
    AdvanceSends(Before(s, e), r);
    if e.ScanFinished? && s.work.scan { ScanShownChanges(Looked(s, e), e.end); }
    hide Before, Advance, Asks, ScanShown;
  }

  lemma AppliedSends(p: Process, e: Event, r: nat)
    ensures SentHome(p.app, Apply(p, e).app, r)
  {
    if !p.Over() && e.Pass? {
      PassedOnce(p, e.drawFails);
      AdvanceSends(Armed(p.app), r);
    } else if Hears(p, e) {
      HandledSends(p.app, e, r);
    }
    hide Handled, Advance, Passed;
  }

  // === What is left when the loop ends ===

  /** Of the work that runs, what was begun once the exit had left its producers. */
  function Late(p: Process, w: Work, events: seq<Event>): Work
    decreases |events|
  {
    if events == [] then w
    else
      Late(Apply(p, events[0]),
           if !p.app.stage.Past() then IDLE_WORK else if Hears(p, events[0]) && !p.Over() then Worked(w, events[0]) else w,
           events[1..])
  }

  lemma AppliedWork(p: Process, e: Event)
    ensures var q := Apply(p, e);
            && (p.app.stage.Past() ==>
                  q.app.stage.Past() && q.app.work == if Hears(p, e) && !p.Over() then Worked(p.app.work, e) else p.app.work)
            && (!p.app.stage.Past() && q.app.stage.Past() ==> !q.app.work.Busy())
  {
    if !p.Over() && e.Pass? {
      PassedOnce(p, e.drawFails);
      AdvanceFramed(Armed(p.app));
    } else if Hears(p, e) {
      HandledFramed(p.app, e);
    }
    hide Handled, Advance, Passed, Worked;
  }

  lemma {:induction false} PastIsLate(p: Process, w: Work, events: seq<Event>)
    requires p.app.stage.Past() ==> p.app.work == w
    ensures var q := Run(p, events); q.app.stage.Past() ==> q.app.work == Late(p, w, events)
    decreases |events|
  {
    if events == [] {
    } else {
      var e := events[0];
      AppliedWork(p, e);
      var v := if !p.app.stage.Past() then IDLE_WORK else if Hears(p, e) && !p.Over() then Worked(w, e) else w;
      hide Apply, Worked, Hears, Process.Over;
      PastIsLate(Apply(p, e), v, events[1..]);
    }
  }

  predicate Drains(s: State) { s.stage.Draining? || s.stage.Done? }

  /** The report of a batch that ran, once the exit drains or is done: nothing asks for its settlement any
      more. */
  predicate LateReport(s: State, e: Event)
  {
    && e.BatchFinished? && e.outcome.Finished? && s.work.apply && Planned(s, e.fromCommander).Some? && Drains(s)
  }

  predicate TooLate(p: Process, e: Event) { Hears(p, e) && !p.Over() && LateReport(p.app, e) }

  predicate ReportsTooLate(p: Process, events: seq<Event>)
    decreases |events|
  {
    events != [] && (TooLate(p, events[0]) || ReportsTooLate(Apply(p, events[0]), events[1..]))
  }

  predicate OwedAs(s: State, t: State)
  {
    && (Drains(t) ==> (t.owed.Some? <==> Drains(s) && s.owed.Some?))
    && (Drains(s) ==> Drains(t) && t.owed == s.owed && t.route == s.route)
    && (s.stage.Done? ==> t.stage.Done?)
  }

  lemma DrainingOwes(s: State)
    ensures DrainingTurn(s).0.owed == s.owed && DrainingTurn(s).0.route == s.route
  {
    if s.fleet.CloseBegun().1 { RetiredChanges(s.(fleet := s.fleet.CloseBegun().0), false); }
    hide Retired;
  }

  lemma TurnOwes(s: State)
    ensures OwedAs(s, Turn(s).0)
  {
    if s.stage.Draining? {
      DrainingOwes(s);
      DrainingFramed(s);
      AdvanceStaysDrained(s);
    }
    SentStays(s);
    hide DrainingTurn, SentOwed;
  }

  lemma AdvanceStaysDrained(s: State)
    requires s.stage.Draining?
    ensures Drains(DrainingTurn(s).0)
  {
    if s.fleet.CloseBegun().1 { RetiredChanges(s.(fleet := s.fleet.CloseBegun().0), false); }
    hide Retired;
  }

  lemma {:induction false} AdvanceOwes(s: State)
    ensures OwedAs(s, Advance(s))
    decreases Left(s)
  {
    TurnGoesOn(s);
    AdvanceTurns(s);
    TurnOwes(s);
    hide Advance, Turn;
    var (t, more) := Turn(s);
    if !more {
    } else {
      AdvanceOwes(t);
    }
  }

  /** Nothing is routed while a settlement is owed in vain. */
  predicate InVain(s: State) { Drains(s) && s.owed.Some? ==> s.route.None? }

  lemma ReportedLate(s: State, outcome: Outcome, fromCommander: bool)
    requires Ready(s)
    ensures var t := Reported(s, outcome, fromCommander);
            && t.stage == s.stage
            && (if outcome.Finished? && Planned(s, fromCommander).Some? then t.owed.Some? && (s.fleet.actor.Closing? ==> t.route.None?)
                else t.owed == s.owed && t.route == s.route)
  {
  }

  lemma OthersOwe(s: State, e: Event)
    requires !e.Ack? && !e.BatchFinished?
    ensures Before(s, e).owed == s.owed && Before(s, e).route == s.route
  {
    if e.OpenReply? { OpenHeardChanges(s, e.req, e.result); }
    else if e.ActorClosed? { TakenFramed(s, e); }
    else if !e.Ends() { BegunChanges(s, e); }
    hide OpenHeard, Begun, Taken, Worked, Asks;
  }

  predicate OwesAs(s: State, e: Event, t: State)
  {
    && (Drains(t) ==> (t.owed.Some? <==> (Drains(s) && s.owed.Some?) || LateReport(s, e)))
    && (Drains(s) ==> Drains(t)) && (t.stage.Draining? ==> InVain(t))
  }

  lemma AckOwes(s: State, e: Event)
    requires e.Ack? && InVain(s)
    ensures OwesAs(s, e, Before(s, e))
  {
  }

  lemma OthersOweAs(s: State, e: Event)
    requires !e.Ack? && !e.BatchFinished? && InVain(s)
    ensures OwesAs(s, e, Before(s, e))
  {
    OthersOwe(s, e);
    BeforeFramed(s, e);
    if s.stage.Settling? { OthersStay(s, e); }
    hide Before, Worked;
  }

  lemma OthersStay(s: State, e: Event)
    requires !e.Ack? && !e.BatchFinished? && s.stage.Settling?
    ensures Before(s, e).stage == s.stage
  {
    if e.OpenReply? { OpenHeardChanges(s, e.req, e.result); }
    else if e.ActorClosed? { TakenFramed(s, e); }
    else if !e.Ends() { BegunChanges(s, e); }
    hide OpenHeard, Begun, Taken, Worked, Asks;
  }

  lemma BatchOwes(s: State, e: Event)
    requires e.BatchFinished? && Resting(s) && InVain(s)
    ensures OwesAs(s, e, Before(s, e))
  {
    ReportedLate(s, e.outcome, e.fromCommander);
    hide Reported, Ready;
  }

  lemma BeforeOwes(s: State, e: Event)
    requires Resting(s) && InVain(s)
    ensures OwesAs(s, e, Before(s, e))
  {
    if e.Ack? { AckOwes(s, e); } else if e.BatchFinished? { BatchOwes(s, e); } else { OthersOweAs(s, e); }
    hide Before, OwesAs, Resting, InVain;
  }

  lemma OwesOn(s: State, e: Event, t: State, u: State)
    requires OwesAs(s, e, t) && OwedAs(t, u)
    ensures OwesAs(s, e, u)
  {
  }

  lemma HandledOwes(s: State, e: Event)
    requires Resting(s) && InVain(s)
    ensures OwesAs(s, e, Handled(s, e))
  {
    BeforeOwes(s, e);
    AdvanceOwes(Before(s, e));
    OwesOn(s, e, Before(s, e), Advance(Before(s, e)));
    if e.ScanFinished? && s.work.scan { ScanShownChanges(Looked(s, e), e.end); }
    hide Before, Advance, Asks, ScanShown, Resting, LateReport, OwedAs;
  }

  lemma AppliedVain(p: Process, e: Event)
    requires Invariant(p) && (!p.Over() ==> InVain(p.app))
    ensures var q := Apply(p, e);
            && (Drains(q.app) ==> (q.app.owed.Some? <==> (Drains(p.app) && p.app.owed.Some?) || TooLate(p, e)))
            && (Drains(p.app) || TooLate(p, e) ==> Drains(q.app)) && (!q.Over() ==> InVain(q.app))
  {
    if !p.Over() && e.Pass? {
      PassedOnce(p, e.drawFails);
      AdvanceOwes(Armed(p.app));
    } else if Hears(p, e) && !p.Over() {
      HandledOwes(p.app, e);
      ApplyKeeps(p, e);
    } else if !p.Over() && e.Beside() {
      NotedKeeps(p.app, e);
    }
    hide Handled, Advance, Passed, Noted, Ready;
  }

  lemma {:induction false} VainIsLate(p: Process, events: seq<Event>)
    requires Invariant(p) && (!p.Over() ==> InVain(p.app))
    ensures var q := Run(p, events);
            && (Drains(q.app) ==> (q.app.owed.Some? <==> (Drains(p.app) && p.app.owed.Some?) || ReportsTooLate(p, events)))
    decreases |events|
  {
    if events == [] {
    } else {
      AppliedVain(p, events[0]);
      ApplyKeeps(p, events[0]);
      hide Apply, Invariant, TooLate, InVain, Process.Over, Drains;
      VainIsLate(Apply(p, events[0]), events[1..]);
    }
  }

  /** No actor is there, or one that is gone. */
  predicate Dead(f: Fleet) { f.actor.Idle? || (f.actor.Live? && f.actor.gone) }

  /** The end of this scan is what the exit waits for last: nothing else runs, and no actor is there to
      settle anything or to be closed. */
  predicate EndsTheExit(s: State, e: Event)
  {
    && e.ScanFinished? && s.work.scan && s.signalled && (s.stage.Running? || s.stage.Producers?)
    && !s.work.(scan := false).Busy() && Dead(s.fleet)
  }

  /** The handler of this event asks an actor for something. */
  predicate Sends(s: State, e: Event)
  {
    || e.Browse? || e.Open? || (e.Replace? && !s.work.apply && s.current.Some?)
    || (e.ScanFinished? && s.work.scan && e.end.Completed?)
    || (e.BatchFinished? && s.work.apply && ((e.outcome.Aborted? && s.current.Some?)
                                             || (e.outcome.Finished? && Planned(s, e.fromCommander).Some?)))
  }

  /** The program had decided to quit at the start of the pass, and the one event it still handles asks an
      actor for something; or the exit ends with a scan whose result is opened after it has ended. */
  predicate LeavesAnActor(p: Process, e: Event)
  {
    Hears(p, e) && if p.app.shouldQuit then Sends(p.app, e) else EndsTheExit(p.app, e) && e.end.Completed?
  }

  lemma DoneStays(s: State)
    requires s.stage.Done? && s.shouldQuit
    ensures Advance(s) == s
  {
    AdvanceTurns(s);
  }

  lemma ScanShownSpawns(s: State, end: ScanEnd)
    requires s.fleet.actor.Idle? && s.open.None?
    ensures ScanShown(s, end).fleet.actor.Idle? <==> end.Stopped?
    ensures ScanShown(s, end).shouldQuit == s.shouldQuit
  {
    ScanShownChanges(s, end);
    if end.Completed? {
      OpenViaChanges(s, end.scan);
      var t := OpenVia(s, end.scan);
      ScreenChanges(t.(due := if t.open.Some? && t.open.value.scan != end.scan then Some(end.scan) else None));
    }
    hide OpenVia, ScreenSettled;
  }

  lemma DoneBegins(s: State, e: Event)
    requires Resting(s) && s.stage.Done? && !e.Ack? && !e.ActorClosed? && !e.BatchFinished? && !e.Ends() && !e.OpenReply?
    ensures Before(s, e).fleet.actor.Idle? <==> !Sends(s, e)
  {
    if e.Open? { OpenViaChanges(s, e.scan); }
    if e.Replace? && s.current.Some? { OpenViaChanges(s.(fleet := s.fleet.(successor := None)), s.current.value); }
    hide OpenVia, Retired, Worked;
  }

  lemma DoneReports(s: State, e: Event)
    requires Resting(s) && s.stage.Done? && e.BatchFinished? && s.work.apply
    ensures Reported(s, e.outcome, e.fromCommander).fleet.actor.Idle? <==> !Sends(s, e)
  {
  }

  lemma DoneSends(s: State, e: Event)
    requires Resting(s) && s.stage.Done?
    ensures Handled(s, e).fleet.actor.Idle? <==> !Sends(s, e)
  {
    BeforeFramed(s, e);
    if e.BatchFinished? && s.work.apply {
      DoneReports(s, e);
      ReportedFramed(s, e.outcome, e.fromCommander);
      DoneStays(Reported(s, e.outcome, e.fromCommander));
    }
    else if e.Ends() { DoneStays(Before(s, e)); if e.ScanFinished? { ScanShownSpawns(Before(s, e), e.end); } }
    else if e.ActorClosed? { DoneStays(s); }
    else if !e.Ack? && !e.OpenReply? && !e.BatchFinished? { DoneBegins(s, e); }
    hide Advance, ScanShown, Reported, Begun, Worked, Reloaded;
  }

  /** A drained exit is done at once exactly if no actor is there to be closed. */
  lemma DrainsAtOnce(s: State)
    requires s.stage.Draining? && s.due.None?
    ensures Advance(s).stage.Done? <==> Dead(s.fleet)
  {
    AdvanceTurns(s);
    var (f, retired) := s.fleet.CloseBegun();
    if s.fleet.TerminalOwed() && retired {
      RetiredChanges(s.(fleet := f), false);
      DoneFromIdle(Turn(s).0);
    } else if !s.fleet.TerminalOwed() {
      DoneFromDone(Turn(s).0);
    }
    hide Advance, Retired;
  }

  lemma DoneFromIdle(s: State)
    requires s.stage.Draining? && s.fleet.actor.Idle?
    ensures Advance(s).stage.Done?
  {
    AdvanceTurns(s);
    DoneFromDone(Turn(s).0);
    hide Advance;
  }

  lemma DoneFromDone(s: State)
    requires s.stage.Done?
    ensures Advance(s).stage.Done?
  {
    AdvanceTurns(s);
  }

  lemma ProducersAtOnce(s: State)
    requires s.stage.Producers? && s.due.None? && !s.work.Busy()
    ensures Advance(s).stage.Done? <==> Dead(s.fleet)
  {
    AdvanceTurns(s);
    var t := Turn(s).0;
    if s.fleet.TerminalOwed() { SentDead(s); }
    if t.stage.Draining? { DrainsAtOnce(t); } else if t.stage.Done? { DoneFromDone(t); }
    hide Advance, SentOwed;
  }

  lemma SentDead(s: State)
    requires s.fleet.TerminalOwed()
    ensures var (t, req) := SentOwed(s);
            && (Dead(t.fleet) <==> Dead(s.fleet))
            && (req.Some? ==> !Dead(t.fleet))
            && t == s.(fleet := t.fleet, route := t.route, asked := t.asked)
  {
  }

  lemma ScanEndsExit(s: State, e: Event)
    requires Resting(s) && !s.stage.Done? && e.ScanFinished? && s.work.scan
    ensures Looked(s, e).stage.Done? <==> EndsTheExit(s, e)
  {
    var t := Before(s, e);
    if Asks(s, e) {
      if t.stage.Producers? {
        if t.work.Busy() { AdvanceTurns(t); } else { ProducersAtOnce(t); }
      } else {
        AdvanceTurns(t);
      }
    }
    hide Advance, ProducersTurn, Retired;
  }

  lemma LooksToTheEnd(s: State, e: Event)
    requires Resting(s) && !s.stage.Done?
    ensures var t := Handled(s, e);
            t.shouldQuit ==>
              && Looked(s, e).stage.Done?
              && (!t.fleet.actor.Idle? <==> e.ScanFinished? && s.work.scan && e.end.Completed?)
  {
    BeforeReady(s, e);
    BeforeFramed(s, e);
    var u := Looked(s, e);
    if Asks(s, e) { AdvanceKeeps(Before(s, e)); } else { BeforeStays(s, e); }
    if e.ScanFinished? && s.work.scan {
      ScanShownChanges(u, e.end);
      if u.fleet.actor.Idle? && u.open.None? { ScanShownSpawns(u, e.end); }
    }
    hide Before, Asks, Advance, ScanShown, Worked;
  }

  lemma AppliedLeaves(p: Process, e: Event)
    requires Invariant(p) && !p.Over()
    ensures Apply(p, e).Over() ==> (!Apply(p, e).app.fleet.actor.Idle? <==> LeavesAnActor(p, e))
  {
    if e.Pass? {
      PassedOnce(p, e.drawFails);
    } else if e.Beside() {
    } else if p.waiting {
      if p.app.shouldQuit {
        DoneSends(p.app, e);
      } else {
        LooksToTheEnd(p.app, e);
        if e.ScanFinished? && p.app.work.scan { ScanEndsExit(p.app, e); }
      }
    }
    hide Handled, Passed, Looked, Requested, EndsTheExit, Sends;
    if Hears(p, e) && !p.app.shouldQuit { EndsAScan(p.app, e); }
  }

  lemma EndsAScan(s: State, e: Event)
    ensures EndsTheExit(s, e) ==> e.ScanFinished? && s.work.scan
  {
  }

  /** No event begins work once the exit has left its producers. */
  predicate BeginsNoneLate(p: Process, events: seq<Event>)
    decreases |events|
  {
    events != [] ==>
      && !(p.app.stage.Past() && Hears(p, events[0]) && events[0].Starts()) && BeginsNoneLate(Apply(p, events[0]), events[1..])
  }

  lemma {:induction false} NoneLate(p: Process, events: seq<Event>)
    requires BeginsNoneLate(p, events) && (p.app.stage.Past() ==> p.app.work == IDLE_WORK)
    ensures Late(p, IDLE_WORK, events) == IDLE_WORK && !ReportsTooLate(p, events)
    decreases |events|
  {
    if events == [] {
    } else {
      AppliedWork(p, events[0]);
      hide Apply;
      NoneLate(Apply(p, events[0]), events[1..]);
    }
  }

  /** When the loop has ended without being forced: the work that still runs is what was begun once the
      exit had left its producers, and a settlement is owed exactly if a batch reported too late. */
  lemma EndsWith(events: seq<Event>)
    ensures var p := Run(START, events);
            p.Over() ==>
              && p.app.stage.Done? && (p.app.signalled || p.lost)
              && p.app.work == Late(START, IDLE_WORK, events)
              && (p.app.owed.Some? <==> ReportsTooLate(START, events))
  {
    StartKeeps();
    RunKeeps(START, events);
    PastIsLate(START, IDLE_WORK, events);
    VainIsLate(START, events);
    hide Run, Late, ReportsTooLate;
  }

  /** So the program quits with no work running and nothing owed if nothing is begun that late. */
  lemma QuitsClean(events: seq<Event>)
    requires BeginsNoneLate(START, events)
    ensures var p := Run(START, events); p.Over() ==> !p.app.work.Busy() && p.app.owed.None?
  {
    NoneLate(START, events);
    EndsWith(events);
    hide Run, Late, ReportsTooLate, BeginsNoneLate;
  }

  /** And with every actor retired, except exactly if the last event leaves one. */
  lemma LeavesAnActorIff(events: seq<Event>, e: Event)
    ensures var p := Run(START, events);
            !p.Over() && Apply(p, e).Over() ==> (!Apply(p, e).app.fleet.actor.Idle? <==> LeavesAnActor(p, e))
  {
    StartKeeps();
    RunKeeps(START, events);
    if !Run(START, events).Over() { AppliedLeaves(Run(START, events), e); }
    hide Apply, LeavesAnActor, Run;
  }
}
