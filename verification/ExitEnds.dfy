/** That the exit ends: how many answers it may still wait for, what raises that number, and exactly when
    nothing it waits for is to come any more. */
module ExitEnds {
  import opened Wrappers
  import opened Shutdown
  import opened ExitRuns

  /** Whether one more actor may yet be asked for a scan's result. */
  function Results(s: State): nat { if !s.stage.Done? && (s.work.scan || s.due.Some?) then 1 else 0 }

  /** How many answers the exit may still wait for. */
  function Rank(s: State): nat { StageRank(s.stage) + (if s.stage.Producers? then s.work.Count() else 0) + Results(s) }

  /** What the stage waits for. */
  predicate Awaited(p: Process, e: Event)
  {
    var s := p.app;
    && Hears(p, e)
    && if s.stage.Producers? then
         || (e.ScanFinished? && s.work.scan) || (e.BatchFinished? && s.work.apply)
         || (e.MoveDone? && s.work.moves > 0) || (e.PurgeDone? && s.work.purges > 0)
       else
         || (s.stage.Settling? && e.Ack? && e.req == s.stage.req && s.route == Some(e.req))
         || ((s.stage.Settling? || s.stage.Draining?) && e.ActorClosed? && s.fleet.TerminalOwed() && e.actor == s.fleet.actor.id)
  }

  lemma RetiringLowers(s: State, panicked: bool)
    requires s.fleet.actor.Idle? && !s.stage.Running?
    ensures var t := Retired(s, panicked);
            && t.stage == s.stage && Rank(t) <= Rank(s)
            && (!t.fleet.actor.Idle? && !s.stage.Done? ==> Rank(t) < Rank(s))
  {
    RetiredChanges(s, panicked);
    hide Retired;
  }

  lemma DrainingLowers(s: State)
    requires s.stage.Draining?
    ensures Rank(DrainingTurn(s).0) <= Rank(s) && Drains(DrainingTurn(s).0)
    ensures s.due.None? ==> DrainingTurn(s).0.due.None?
  {
    var f := s.fleet.CloseBegun().0;
    if s.fleet.CloseBegun().1 {
      RetiringLowers(s.(fleet := f), false);
      RetiredChanges(s.(fleet := f), false);
    }
    hide Retired;
  }

  lemma ProducersLowers(s: State)
    requires s.stage.Producers?
    ensures var (t, more) := ProducersTurn(s); !t.stage.Running? && Rank(t) <= Rank(s)
  {
    SentStays(s);
    hide SentOwed;
  }

  lemma TurnLowers(s: State)
    requires !s.stage.Running?
    ensures var (t, more) := Turn(s); !t.stage.Running? && Rank(t) <= Rank(s) && (s.due.None? ==> t.due.None?)
  {
    if s.stage.Draining? { DrainingLowers(s); } else if s.stage.Producers? { ProducersLowers(s); SentStays(s); }
    hide DrainingTurn, SentOwed;
    if s.stage.Producers? { hide Rank; }
  }

  lemma {:induction false} AdvanceLowers(s: State)
    requires !s.stage.Running?
    ensures !Advance(s).stage.Running? && Rank(Advance(s)) <= Rank(s) && (s.due.None? ==> Advance(s).due.None?)
    decreases Left(s)
  {
    TurnGoesOn(s);
    AdvanceTurns(s);
    TurnLowers(s);
    hide Advance, Turn, Rank;
    var (t, more) := Turn(s);
    if !more {
    } else {
      AdvanceLowers(t);
    }
  }

  /** What the beginning of work adds: its end, and for a scan its result. */
  function Weight(s: State, e: Event): nat
  {
    if s.stage.Done? then 0
    else if e.StartScan? then (if s.stage.Producers? && !s.work.scan then 1 else 0) + 1 - Results(s)
    else if e.Starts() && !(e.StartApply? && s.work.apply) && s.stage.Producers? then 1
    else 0
  }

  lemma BeforeLowers(s: State, e: Event)
    requires !s.stage.Running?
    ensures var t := Before(s, e); !t.stage.Running? && Rank(t) <= Rank(s) + Weight(s, e)
  {
    if e.Ack? { AckLowers(s, e); }
    else if e.Ends() { EndedLowers(s, e); }
    else if e.ActorClosed? { TakenFramed(s, e); LowersBeside(s, Taken(s, e)); }
    else if e.OpenReply? { OpenHeardChanges(s, e.req, e.result); LowersBeside(s, OpenHeard(s, e.req, e.result)); }
    else if e.BatchFinished? { BatchLowers(s, e); }
    else { BegunLowers(s, e); }
    hide Acknowledged, Taken, Reported, OpenHeard, Begun, Ended, Rank, Weight, Armed;
  }

  lemma LowersBeside(s: State, t: State)
    requires t.stage == s.stage && t.work == s.work && (t.due == s.due || t.due.None?)
    ensures Rank(t) <= Rank(s)
  {
  }

  lemma BatchLowers(s: State, e: Event)
    requires !s.stage.Running? && e.BatchFinished?
    ensures var t := Before(s, e); !t.stage.Running? && Rank(t) <= Rank(s)
  {
    ReportedFramed(s, e.outcome, e.fromCommander);
    hide Reported;
  }

  lemma BegunLowers(s: State, e: Event)
    requires !s.stage.Running? && !e.Ends() && !e.BatchFinished?
    ensures var t := Begun(s, e); t.stage == s.stage && Rank(t) <= Rank(s) + Weight(s, e)
  {
    BegunChanges(s, e);
    hide Begun;
  }

  lemma AckLowers(s: State, e: Event)
    requires !s.stage.Running? && e.Ack?
    ensures var t := Acknowledged(s, e);
            && !t.stage.Running? && Rank(t) <= Rank(s)
            && (s.route == Some(e.req) && s.stage == Settling(e.req) ==> Rank(t) < Rank(s))
  {
  }

  lemma ShownLowers(s: State, end: ScanEnd)
    ensures ScanShown(s, end).stage == s.stage
    ensures Rank(ScanShown(s, end)) <= Rank(s) + if s.stage.Done? then 0 else 1 - Results(s)
  {
    ScanShownChanges(s, end);
    hide ScanShown;
  }

  lemma EndedLowers(s: State, e: Event)
    requires !s.stage.Running? && e.Ends()
    ensures var t := Ended(s, e);
            && !t.stage.Running? && Rank(t) <= Rank(s)
            && (e.ScanFinished? && s.work.scan ==>
                  && t.due.None? && !t.work.scan
                  && Rank(t) + Results(s) + (if s.stage.Producers? then 1 else 0) <= Rank(s))
            && (e.ScanFinished? && s.work.scan && s.stage.Done? ==> t.stage.Done?)
            && (s.stage.Producers? && Worked(s.work, e) != s.work ==> Rank(t) < Rank(s))
  {
    WorkEnds(s.work, e);
    hide Worked;
  }

  /** What the end of work takes from its count. */
  lemma WorkEnds(w: Work, e: Event)
    requires e.Ends()
    ensures var v := Worked(w, e);
            && v.Count() <= w.Count() && (v != w ==> v.Count() < w.Count())
            && (v.scan ==> w.scan) && (e.ScanFinished? ==> !v.scan)
            && (e.ScanFinished? && w.scan ==> v.Count() == w.Count() - 1)
  {
  }

  lemma LookedLowers(s: State, e: Event)
    requires !s.stage.Running?
    ensures !Looked(s, e).stage.Running? && Rank(Looked(s, e)) <= Rank(Before(s, e))
    ensures Before(s, e).due.None? ==> Looked(s, e).due.None?
  {
    BeforeLowers(s, e);
    AdvanceLowers(Before(s, e));
    hide Before, Rank, Advance, Asks;
  }

  lemma ScanLowers(s: State, e: Event)
    requires !s.stage.Running? && e.ScanFinished? && s.work.scan
    ensures !Handled(s, e).stage.Running? && Rank(Handled(s, e)) <= Rank(s)
    ensures s.stage.Producers? ==> Rank(Handled(s, e)) < Rank(s)
  {
    EndedLowers(s, e);
    LookedLowers(s, e);
    AdvanceFramed(Before(s, e));
    ShownLowers(Looked(s, e), e.end);
    hide Advance, ScanShown, Ended, Asks;
  }

  lemma IdleEnds(s: State)
    requires (s.stage.Settling? || s.stage.Draining?) && s.fleet.actor.Idle?
    ensures Rank(Advance(s)) == 0
  {
    AdvanceTurns(s);
    AdvanceTurns(Turn(s).0);
  }

  lemma ClosedLowers(s: State, e: Event)
    requires (s.stage.Settling? || s.stage.Draining?) && e.ActorClosed?
    requires s.fleet.TerminalOwed() && e.actor == s.fleet.actor.id
    ensures Rank(Handled(s, e)) < Rank(s)
  {
    var f := s.fleet.(actor := Idle, successor := if e.panicked then None else s.fleet.successor);
    var t := Retired(s.(fleet := f), e.panicked);
    RetiringLowers(s.(fleet := f), e.panicked);
    if t.fleet.actor.Idle? { IdleEnds(t); } else { AdvanceLowers(t); }
    hide Retired, Advance;
  }

  lemma EndsLower(s: State, e: Event)
    requires s.stage.Producers? && (e.BatchFinished? || e.MoveDone? || e.PurgeDone?) && Worked(s.work, e) != s.work
    ensures Rank(Handled(s, e)) < Rank(s)
  {
    LookedLowers(s, e);
    if e.BatchFinished? { ReportedFramed(s, e.outcome, e.fromCommander); } else { EndedLowers(s, e); }
    hide Looked, Reported, Ended;
  }

  /** A handler takes the exit back by no more than the work it begins adds. */
  lemma HandledLowers(s: State, e: Event)
    requires !s.stage.Running?
    ensures !Handled(s, e).stage.Running? && Rank(Handled(s, e)) <= Rank(s) + Weight(s, e)
  {
    if e.ScanFinished? && s.work.scan {
      ScanLowers(s, e);
    } else {
      LookedLowers(s, e);
      BeforeLowers(s, e);
    }
    hide Looked, Before, Rank, Weight, ScanShown;
  }

  lemma AwaitedLowersStage(s: State, e: Event)
    requires Awaited(Process(s, false, true), e) && !s.stage.Running?
    ensures Rank(Handled(s, e)) < Rank(s)
  {
    if s.stage.Producers? {
      if e.ScanFinished? { ScanLowers(s, e); } else { EndsLower(s, e); }
    } else if e.Ack? {
      AckLowers(s, e);
      LookedLowers(s, e);
    } else {
      ClosedLowers(s, e);
    }
    hide Rank, Looked, Acknowledged;
  }

  /** What the exit may wait for grows only by work that is begun meanwhile, and each awaited answer takes
      something off it. */
  lemma AwaitedLowers(p: Process, e: Event)
    requires !p.app.stage.Running? && !p.Over()
    ensures var q := Apply(p, e);
            && !q.app.stage.Running?
            && Rank(q.app) <= Rank(p.app) + (if Hears(p, e) then Weight(p.app, e) else 0)
            && (Awaited(p, e) ==> Rank(q.app) < Rank(p.app))
  {
    if e.Pass? {
      PassedOnce(p, e.drawFails);
      AdvanceLowers(p.app);
    } else if e.Beside() {
    } else if p.waiting {
      HandledLowers(p.app, e);
      if Awaited(p, e) { AwaitedLowersStage(p.app, e); }
    }
    hide Handled, Advance, Passed, Weight;
  }

  /** And what work adds is exactly its weight. */
  lemma WorkAdds(p: Process, e: Event)
    requires !p.app.stage.Running? && !p.Over() && Hears(p, e) && e.Starts()
    ensures Rank(Apply(p, e).app) == Rank(p.app) + Weight(p.app, e)
  {
  }

  /** How many of the events the exit waited for when they came. */
  function Answers(p: Process, events: seq<Event>): nat
    decreases |events|
  {
    if events == [] then 0
    else (if !p.Over() && Awaited(p, events[0]) then 1 else 0) + Answers(Apply(p, events[0]), events[1..])
  }

  /** What the work begun meanwhile adds. */
  function Added(p: Process, events: seq<Event>): nat
    decreases |events|
  {
    if events == [] then 0
    else (if !p.Over() && Hears(p, events[0]) then Weight(p.app, events[0]) else 0) + Added(Apply(p, events[0]), events[1..])
  }

  lemma RankIsStage(p: Process)
    requires Invariant(p) && !p.app.stage.Running?
    ensures Rank(p.app) == 0 ==> p.app.stage.Done? && p.app.shouldQuit
  {
  }

  /** So the exit ends: after as many awaited answers as its rank and what was begun meanwhile — whatever
      else comes between them — it is done and the program quits. */
  lemma {:induction false} ExitEnds(p: Process, events: seq<Event>)
    requires Invariant(p) && !p.app.stage.Running?
    ensures var q := Run(p, events);
            && Rank(q.app) + Answers(p, events) <= Rank(p.app) + Added(p, events)
            && (Answers(p, events) == Rank(p.app) + Added(p, events) ==> q.app.shouldQuit)
    decreases |events|
  {
    if events == [] {
    } else {
      if !p.Over() { AwaitedLowers(p, events[0]); }
      ApplyKeeps(p, events[0]);
      hide Invariant, Apply, Awaited, Weight, Rank, Hears;
      ExitEnds(Apply(p, events[0]), events[1..]);
    }
    RunKeeps(p, events);
    StaysInExit(p, events);
    hide Invariant, Apply, Awaited, Weight, Rank, Hears;
    RankIsStage(Run(p, events));
  }

  lemma {:induction false} StaysInExit(p: Process, events: seq<Event>)
    requires !p.app.stage.Running?
    ensures !Run(p, events).app.stage.Running?
    decreases |events|
  {
    if events == [] {
    } else {
      if !p.Over() { AwaitedLowers(p, events[0]); }
      hide Apply, Awaited, Rank, Weight;
      StaysInExit(Apply(p, events[0]), events[1..]);
    }
  }

  // === When nothing is to come any more ===

  /** What is still to come: the end of work that runs, the acknowledgement of the settlement by the very
      actor that accepted it, the terminal of an actor that was asked to close or is gone. */
  predicate Owes(s: State, e: Event)
  {
    || (e.ScanFinished? && s.work.scan) || (e.BatchFinished? && s.work.apply)
    || (e.MoveDone? && s.work.moves > 0) || (e.PurgeDone? && s.work.purges > 0)
    || (e.Ack? && s.route == Some(e.req) && e.req in s.asked && s.owed == Some(s.asked[e.req].owed)
        && (s.fleet.actor == Live(s.asked[e.req].actor, false) || s.fleet.actor == Closing(s.asked[e.req].actor)))
    || (e.ActorClosed? && (s.fleet.actor == Closing(e.actor) || s.fleet.actor == Live(e.actor, true)))
  }

  /** The request the exit waits for is routed no more, or was accepted by an actor that is gone — while
      another one is there. */
  predicate Stuck(s: State)
  {
    && s.stage.Settling? && s.fleet.actor.Live? && !s.fleet.actor.gone
    && !(s.route == Some(s.stage.req) && s.stage.req in s.asked && s.asked[s.stage.req].actor == s.fleet.actor.id)
  }

  /** Until it is done the exit waits for something that is owed to it, except exactly if it is stuck. */
  lemma SomethingAwaitedIff(p: Process)
    requires Invariant(p) && p.waiting && !p.app.stage.Running? && !p.app.stage.Done?
    ensures (exists e :: Awaited(p, e) && Owes(p.app, e)) <==> !Stuck(p.app)
  {
    var s := p.app;
    if Stuck(s) {
      forall e ensures !(Awaited(p, e) && Owes(s, e)) {
      }
    } else {
      var e := SomeAwaited(p);
      assert Awaited(p, e) && Owes(s, e);
    }
  }

  lemma SomeAwaited(p: Process) returns (e: Event)
    requires Invariant(p) && p.waiting && !p.app.stage.Running? && !p.app.stage.Done? && !Stuck(p.app)
    ensures Awaited(p, e) && Owes(p.app, e)
  {
    var s := p.app;
    if s.stage.Producers? {
      e := if s.work.scan then ScanFinished(Stopped) else if s.work.apply then BatchFinished(Aborted, false)
           else if s.work.moves > 0 then MoveDone else PurgeDone;
    } else if s.stage.Settling? && s.fleet.actor.Live? && !s.fleet.actor.gone {
      e := Ack(s.stage.req, true, false, false, false);
    } else {
      e := ActorClosed(s.fleet.actor.id, false);
    }
  }

  /** What leaves the exit stuck: a batch that ran reports while it settles, or the actor it waits for ends
      with an open in flight and the scan screen asks another one for what it still owes. */
  predicate Sticks(s: State, e: Event)
  {
    && s.stage.Settling?
    && (|| (e.BatchFinished? && e.outcome.Finished? && s.work.apply && Planned(s, e.fromCommander).Some?
            && s.fleet.actor.Live? && !s.fleet.actor.gone)
        || (AsksAgain(s) && s.fleet.TerminalOwed()
            && ((e.ActorClosed? && e.actor == s.fleet.actor.id)
                || (e.Replace? && !s.work.apply && s.fleet.actor.Live? && s.fleet.actor.gone))))
  }

  /** The exit begins to settle with the actor that is there. */
  lemma {:induction false} AdvanceSettles(s: State)
    requires !s.stage.Settling?
    ensures !Stuck(Advance(s))
    decreases Left(s)
  {
    TurnGoesOn(s);
    AdvanceTurns(s);
    TurnSettles(s);
    hide Advance, Turn, Stuck;
    var (t, more) := Turn(s);
    if !more {
    } else {
      AdvanceSettles(t);
    }
  }

  lemma TurnSettles(s: State)
    requires !s.stage.Settling?
    ensures var (t, more) := Turn(s); (more ==> !t.stage.Settling?) && !(!more && Stuck(t))
  {
    if s.stage.Draining? { DrainingLowers(s); }
    hide DrainingTurn;
  }

  lemma SettlingStays(s: State)
    requires s.stage.Settling?
    ensures Advance(s) == s || Advance(s).stage.Done?
    ensures s.fleet.TerminalOwed() ==> Advance(s) == s
  {
    AdvanceTurns(s);
    if !s.fleet.TerminalOwed() { AdvanceTurns(Turn(s).0); }
    hide Advance;
  }

  /** What decides whether a settlement can be heard of. */
  predicate SameHearing(s: State, t: State)
  {
    && t.stage == s.stage && t.route == s.route && t.fleet.actor == s.fleet.actor
    && (s.route.Some? && s.route.value in s.asked ==>
          s.route.value in t.asked && t.asked[s.route.value] == s.asked[s.route.value])
  }

  lemma PlainHearing(s: State, e: Event)
    requires s.stage.Settling? && s.fleet.TerminalOwed()
    requires !e.Ack? && !e.ActorClosed? && !e.BatchFinished? && !e.Replace?
    ensures SameHearing(s, Before(s, e))
  {
    if e.OpenReply? { OpenHeardChanges(s, e.req, e.result); }
    else if !e.Ends() { BegunChanges(s, e); }
    hide OpenHeard, Begun, Worked, Asks;
  }

  lemma AckHearing(s: State, e: Event)
    requires Ready(s) && s.stage.Settling? && !Stuck(s) && e.Ack?
    ensures !Stuck(Before(s, e))
  {
    SettledChanges(s, e);
    hide Settled;
  }

  lemma BatchHearing(s: State, e: Event)
    requires Ready(s) && s.stage.Settling? && s.fleet.TerminalOwed() && !Stuck(s) && e.BatchFinished? && s.work.apply
    ensures var t := Reported(s, e.outcome, e.fromCommander);
            t.stage == s.stage && t.fleet.actor == s.fleet.actor && (Stuck(t) <==> Sticks(s, e))
  {
  }

  lemma TakenHearing(s: State, e: Event)
    requires Ready(s) && s.stage.Settling? && s.fleet.TerminalOwed() && !Stuck(s) && e.ActorClosed?
    ensures var t := Taken(s, e); t.stage == s.stage && (Stuck(t) <==> Sticks(s, e))
  {
    if s.fleet.actor.id == e.actor {
      RetiredChanges(s.(fleet := s.fleet.(actor := Idle,
                     successor := if e.panicked then None else s.fleet.successor)), e.panicked);
    }
    hide Retired;
  }

  lemma ReplacedHearing(s: State, e: Event)
    requires Ready(s) && s.stage.Settling? && s.fleet.TerminalOwed() && !Stuck(s) && e.Replace?
    ensures var t := Replaced(s); t.stage == s.stage && (Stuck(t) <==> Sticks(s, e))
  {
    if s.fleet.(successor := Some(s.current)).CloseBegun().1 {
      RetiredChanges(s.(fleet := s.fleet.(successor := Some(s.current)).CloseBegun().0), false);
    }
    hide Retired;
  }

  lemma BeforeSticks(s: State, e: Event)
    requires Resting(s) && s.stage.Settling? && !Stuck(s)
    ensures var t := Before(s, e);
            if e.Ack? then (t.stage.Draining? || t.stage == s.stage) && !Stuck(t)
            else t.stage == s.stage && (Stuck(t) <==> Sticks(s, e))
  {
    BeforeFramed(s, e);
    if e.Ack? { AckHearing(s, e); }
    else if e.ActorClosed? { TakenHearing(s, e); }
    else if e.BatchFinished? { if s.work.apply { BatchHearing(s, e); } }
    else if e.Replace? { ReplacedHearing(s, e); }
    else { PlainHearing(s, e); }
    hide Acknowledged, Taken, Reported, Replaced, Ended, OpenHeard, Worked, OpenVia;
    if !e.Replace? { hide Begun; }
  }

  lemma SticksSettling(s: State, e: Event)
    ensures Stuck(s) || Sticks(s, e) ==> s.stage.Settling?
    ensures Stuck(s) ==> s.fleet.TerminalOwed()
  {
  }

  lemma LookedSticks(s: State, e: Event)
    requires Resting(s) && !Stuck(s)
    ensures Stuck(Looked(s, e)) <==> Sticks(s, e)
    ensures Looked(s, e).stage.Settling? && e.Ends() ==> Looked(s, e).fleet.TerminalOwed()
  {
    var t := Before(s, e);
    BeforeFramed(s, e);
    BeforeReady(s, e);
    if s.stage.Settling? { BeforeSticks(s, e); }
    if Asks(s, e) {
      AdvanceKeeps(t);
      if t.stage.Settling? { SettlingStays(t); } else { AdvanceSettles(t); }
    }
    if e.Ends() && s.stage.Settling? { PlainHearing(s, e); }
    SticksSettling(s, e);
    SticksSettling(t, e);
    SticksSettling(Advance(t), e);
    hide Before, Advance, Worked, Ready, Stuck, Sticks;
  }

  lemma HandledSticks(s: State, e: Event)
    requires Resting(s) && !Stuck(s)
    ensures Stuck(Handled(s, e)) <==> Sticks(s, e)
  {
    LookedSticks(s, e);
    if e.ScanFinished? && s.work.scan { ScanShownChanges(Looked(s, e), e.end); }
    hide Looked, ScanShown, Resting;
  }

  /** Nothing but such an event leaves the exit stuck. */
  lemma StuckIff(p: Process, e: Event)
    requires Invariant(p) && !p.Over() && !Stuck(p.app)
    ensures Stuck(Apply(p, e).app) <==> Hears(p, e) && Sticks(p.app, e)
  {
    if e.Pass? {
      PassedOnce(p, e.drawFails);
      if p.app.stage.Settling? { SettlingStays(p.app); } else { AdvanceSettles(Armed(p.app)); }
    } else if e.Beside() {
    } else if p.waiting {
      HandledSticks(p.app, e);
    }
    hide Handled, Advance, Passed, Sticks;
  }

  /** Something that ends the actor that is there, or an awaited answer. */
  predicate Helps(p: Process, e: Event) { e.ActorGone? || e.Replace? || Awaited(p, e) }

  predicate NoneHelps(p: Process, events: seq<Event>)
    decreases |events|
  {
    events != [] ==> !Helps(p, events[0]) && NoneHelps(Apply(p, events[0]), events[1..])
  }

  lemma HandledStuck(s: State, e: Event)
    requires Stable(s) && Stuck(s) && !e.Replace? && !e.Beside() && !Awaited(Process(s, false, true), e)
    ensures Stuck(Handled(s, e))
  {
    var t := Before(s, e);
    if e.Ack? { SettledChanges(s, e); }
    else if e.BatchFinished? { if s.work.apply { BatchStaysStuck(s, e); } }
    else if !e.ActorClosed? { PlainHearing(s, e); }
    if t.stage.Settling? { SettlingStays(t); }
    if e.ScanFinished? && s.work.scan { ScanShownChanges(Looked(s, e), e.end); }
    hide Advance, Settled, Reported, ScanShown, OpenHeard, Begun, Ended, Worked;
  }

  lemma BatchStaysStuck(s: State, e: Event)
    requires Ready(s) && Stuck(s) && e.BatchFinished?
    ensures var t := Reported(s, e.outcome, e.fromCommander); Stuck(t) && t.signalled == s.signalled
  {
  }

  lemma AppliedStuck(p: Process, e: Event)
    requires Invariant(p) && Stuck(p.app) && !Helps(p, e)
    ensures Stuck(Apply(p, e).app)
  {
    if e.Pass? {
      PassedOnce(p, e.drawFails);
      SettlingStays(p.app);
    } else if e.Beside() {
    } else if p.waiting {
      HandledStuck(p.app, e);
    }
    hide Handled, Advance, Passed;
  }

  /** And then nothing that is owed to it ends the exit: only the end of the actor that is there does. */
  lemma {:induction false} StuckStays(p: Process, events: seq<Event>)
    requires Invariant(p) && Stuck(p.app) && NoneHelps(p, events)
    ensures Stuck(Run(p, events).app) && !Run(p, events).app.shouldQuit
    decreases |events|
  {
    if events == [] {
    } else {
      AppliedStuck(p, events[0]);
      ApplyKeeps(p, events[0]);
      hide Apply, Helps, Invariant, Stuck;
      StuckStays(Apply(p, events[0]), events[1..]);
    }
    RunKeeps(p, events);
  }
}
