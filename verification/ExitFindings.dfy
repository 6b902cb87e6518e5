/** Runs from the start of the program in which the exit leaves something behind, or does not end. */
module ExitFindings {
  import opened Wrappers
  import opened Shutdown
  import opened ExitRuns
  import opened ExitEnds

  /** One turn of the event loop. */
  function Turned(p: Process, e: Event): Process { Apply(Apply(p, Pass(false)), e) }

  /** The events as the loop takes them, each after the beginning of a pass. */
  function Loop(events: seq<Event>): seq<Event>
  {
    if events == [] then [] else [Pass(false), events[0]] + Loop(events[1..])
  }

  lemma Turns(p: Process, e: Event, rest: seq<Event>)
    ensures Run(p, Loop([e] + rest)) == Run(Turned(p, e), Loop(rest))
  {
    var all := Loop([e] + rest);
    assert ([e] + rest)[1..] == rest;
    assert all == [Pass(false), e] + Loop(rest);
    assert all[1..] == [e] + Loop(rest) && all[1..][1..] == Loop(rest);
    hide Apply;
  }

  lemma TurnsLast(p: Process, e: Event)
    ensures Run(p, Loop([e])) == Turned(p, e)
  {
    Turns(p, e, []);
    assert [e] + [] == [e];
    hide Apply;
  }

  // === Work that runs when the program quits ===

  /** A live actor, then asked to close by the exit. */
  const BROWSING := INITIAL.(fleet := Fleet(Live(0, false), None, false, 1, 1))
  const CLOSING := BROWSING.(signalled := true, stage := Draining, fleet := BROWSING.fleet.(actor := Closing(0)))

  lemma ClosingIsReached()
    ensures Turned(START, Browse) == Process(BROWSING, false, false)
    ensures Turned(Process(BROWSING, false, false), SignalRaised) == Process(BROWSING.(signalled := true), false, true)
    ensures Requested(BROWSING.(signalled := true)) == CLOSING
  {
    var t := Armed(BROWSING.(signalled := true));
    AdvanceTurns(t);
    AdvanceTurns(Turn(t).0);
    hide Advance;
  }

  const SCANNING := CLOSING.(work := IDLE_WORK.(scan := true), onScreen := true)

  lemma ScanningAtTheEnd()
    ensures Turned(Process(SCANNING, false, false), ActorClosed(0, false)).Over()
    ensures Turned(Process(SCANNING, false, false), ActorClosed(0, false)).app.work.scan
  {
    var t := Taken(SCANNING, ActorClosed(0, false));
    DrainingWaits(SCANNING);
    AdvanceTurns(t);
    AdvanceTurns(Turn(t).0);
    hide Advance;
  }

  /** A pass leaves a draining exit as it is. */
  lemma DrainingWaits(s: State)
    requires s.stage.Draining? && s.fleet.actor.Closing?
    ensures Requested(s) == s
  {
    AdvanceTurns(s);
    hide Advance;
  }

  /** A reply that begins a scan while the exit drains — `CommanderResumeProbe` does not ask about the
      exit — and then the actor's terminal: the program quits with the scan running. */
  lemma QuitsWithWork()
    ensures var events := Loop([Browse, SignalRaised, StartScan, ActorClosed(0, false)]);
            var p := Run(START, events);
            p.Over() && p.app.work.scan && !BeginsNoneLate(START, events)
  {
    var p1, p2, p3 := Process(BROWSING, false, false), Process(BROWSING.(signalled := true), false, true),
                      Process(SCANNING, false, false);
    ClosingIsReached();
    assert Turned(p2, StartScan) == p3;
    ScanningAtTheEnd();
    hide Turned, Run, Advance, Requested, Loop;
    var all := [Browse, SignalRaised, StartScan, ActorClosed(0, false)];
    assert all == [Browse] + ([SignalRaised] + ([StartScan] + [ActorClosed(0, false)]));
    Turns(START, Browse, [SignalRaised] + ([StartScan] + [ActorClosed(0, false)]));
    Turns(p1, SignalRaised, [StartScan] + [ActorClosed(0, false)]);
    Turns(p2, StartScan, [ActorClosed(0, false)]);
    TurnsLast(p3, ActorClosed(0, false));
    if BeginsNoneLate(START, Loop(all)) { QuitsClean(Loop(all)); }
  }

  // === An actor that is there when the program quits ===

  const LAST_SCAN := INITIAL.(work := IDLE_WORK.(scan := true), onScreen := true)

  /** The first scan of a program that has asked for nothing yet, completing after a signal: the exit is
      done before its result is opened. */
  lemma QuitsWithAnActor(scan: nat)
    ensures var events := Loop([StartScan, SignalRaised, ScanFinished(Completed(scan))]);
            var p := Run(START, events);
            p.Over() && p.app.fleet.actor.Live? && p.app.open == Some(Route(0, scan))
  {
    var p1, p2 := Process(LAST_SCAN, false, false), Process(LAST_SCAN.(signalled := true), false, true);
    assert Turned(START, StartScan) == p1 && Turned(p1, SignalRaised) == p2;
    LastScanEnds(scan);
    hide Turned, Run, Loop;
    var end := ScanFinished(Completed(scan));
    assert [StartScan, SignalRaised, end] == [StartScan] + ([SignalRaised] + [end]);
    Turns(START, StartScan, [SignalRaised] + [end]);
    Turns(p1, SignalRaised, [end]);
    TurnsLast(p2, end);
  }

  lemma LastScanEnds(scan: nat)
    ensures var p := Turned(Process(LAST_SCAN.(signalled := true), false, true), ScanFinished(Completed(scan)));
            p.Over() && p.app.fleet.actor.Live? && p.app.open == Some(Route(0, scan))
  {
    var s := LAST_SCAN.(signalled := true);
    var busy := Armed(s);
    AdvanceTurns(busy);
    var t := busy.(work := IDLE_WORK);
    AdvanceTurns(t);
    AdvanceTurns(Turn(t).0);
    AdvanceTurns(Turn(Turn(t).0).0);
    assert Passed(Process(s, false, true), false) == Process(busy, false, true);
    assert Before(busy, ScanFinished(Completed(scan))) == t;
    hide Advance;
  }

  // === Settlements nobody hears of ===

  /** A scan is shown, and a batch has reported whose settlement is on its way. */
  function Shown(scan: nat): State { BROWSING.(current := Some(scan), dedup := Some(scan)) }

  function Owing(scan: nat): State
  {
    Shown(scan).(owed := Some(Owed(scan, 0)), route := Some(1), asked := map[1 := Asked(Owed(scan, 0), 0)],
                 unsettled := true, nextBatch := 1, fleet := BROWSING.fleet.(nextRequest := 2))
  }

  function Opening(scan: nat): seq<Event> { [Open(scan), OpenReply(0, Installed(false, false))] }

  const BATCH := [StartApply, BatchFinished(Finished, false)]

  lemma ShownIsReached(scan: nat, rest: seq<Event>)
    ensures Run(START, Loop(Opening(scan) + rest)) == Run(Process(Shown(scan), false, false), Loop(rest))
  {
    var p := Process(BROWSING.(open := Some(Route(0, scan))), false, false);
    assert Turned(START, Open(scan)) == p;
    assert Turned(p, OpenReply(0, Installed(false, false))) == Process(Shown(scan), false, false);
    hide Turned, Run, Loop;
    assert Opening(scan) + rest == [Open(scan)] + ([OpenReply(0, Installed(false, false))] + rest);
    Turns(START, Open(scan), [OpenReply(0, Installed(false, false))] + rest);
    Turns(p, OpenReply(0, Installed(false, false)), rest);
  }

  lemma BatchRuns(p: Process, applying: Process, reported: Process, rest: seq<Event>)
    requires Turned(p, StartApply) == applying && Turned(applying, BatchFinished(Finished, false)) == reported
    ensures Run(p, Loop(BATCH + rest)) == Run(reported, Loop(rest))
  {
    hide Turned, Run, Loop;
    assert BATCH + rest == [StartApply] + ([BatchFinished(Finished, false)] + rest);
    Turns(p, StartApply, [BatchFinished(Finished, false)] + rest);
    Turns(applying, BatchFinished(Finished, false), rest);
  }

  lemma OwingIsReached(scan: nat, rest: seq<Event>)
    ensures Run(START, Loop(Opening(scan) + (BATCH + rest))) == Run(Process(Owing(scan), false, false), Loop(rest))
  {
    var p, applying := Process(Shown(scan), false, false), Process(Shown(scan).(work := IDLE_WORK.(apply := true)), false, false);
    assert Turned(p, StartApply) == applying;
    FirstBatchReports(scan);
    hide Turned, Run, Loop, Opening, Owing;
    ShownIsReached(scan, BATCH + rest);
    BatchRuns(p, applying, Process(Owing(scan), false, false), rest);
  }

  lemma FirstBatchReports(scan: nat)
    ensures Turned(Process(Shown(scan).(work := IDLE_WORK.(apply := true)), false, false), BatchFinished(Finished, false))
            == Process(Owing(scan), false, false)
  {
    var s := Shown(scan).(work := IDLE_WORK.(apply := true));
    HandledBatch(s, Finished, false);
    AdvanceTurns(Owing(scan));
    assert Reported(s, Finished, false) == Owing(scan);
    hide Handled, Advance;
  }

  /** The exit has asked for the settlement again. */
  function Waiting(scan: nat): State
  {
    Owing(scan).(signalled := true, stage := Settling(2), route := Some(2),
                 asked := Owing(scan).asked[2 := Asked(Owed(scan, 0), 0)], fleet := BROWSING.fleet.(nextRequest := 3))
  }

  lemma WaitingIsReached(scan: nat)
    ensures Requested(Owing(scan).(signalled := true)) == Waiting(scan)
  {
    AdvanceTurns(Armed(Owing(scan).(signalled := true)));
    hide Advance;
  }

  /** The second batch's settlement takes the route of the one the exit waits for. */
  function Overtaken(scan: nat): State
  {
    Waiting(scan).(owed := Some(Owed(scan, 1)), route := Some(3),
                   asked := Waiting(scan).asked[3 := Asked(Owed(scan, 1), 0)], nextBatch := 2,
                   fleet := BROWSING.fleet.(nextRequest := 4))
  }

  lemma SecondBatchReports(scan: nat)
    ensures Turned(Process(Waiting(scan).(work := IDLE_WORK.(apply := true), unsettled := false), false, false),
                   BatchFinished(Finished, false)) == Process(Overtaken(scan), false, false)
  {
    var s := Waiting(scan).(work := IDLE_WORK.(apply := true), unsettled := false);
    SettlingStays(s);
    HandledBatch(s, Finished, false);
    SettlingStays(Overtaken(scan));
    assert Reported(s, Finished, false) == Overtaken(scan);
    hide Handled, Advance;
  }

  /** A batch begun while the exit settles, reporting before the acknowledgement: its own settlement takes
      over the route, and the exit waits for an acknowledgement nothing hears. */
  lemma LateBatchSticks(scan: nat)
    ensures Stuck(Run(START, Loop(Opening(scan) + (BATCH + ([SignalRaised] + BATCH)))).app)
  {
    var p, q := Process(Owing(scan), false, false), Process(Owing(scan).(signalled := true), false, true);
    var applying := Process(Waiting(scan).(work := IDLE_WORK.(apply := true), unsettled := false), false, false);
    assert Turned(p, SignalRaised) == q;
    WaitingIsReached(scan);
    assert Turned(q, StartApply) == applying;
    SecondBatchReports(scan);
    assert Stuck(Overtaken(scan));
    hide Turned, Loop, Opening, Owing, Waiting, Overtaken, Requested, Stuck;
    OwingIsReached(scan, [SignalRaised] + BATCH);
    Turns(p, SignalRaised, BATCH);
    BatchRuns(q, applying, Process(Overtaken(scan), false, false), []);
    assert BATCH + [] == BATCH;
    assert Loop([]) == [];
  }

  /** A scan has completed while another one is opening; the scan screen owes its result. */
  function Due(scan: nat, other: nat, done: nat): State
  {
    Owing(scan).(open := Some(Route(2, other)), due := Some(done), onScreen := true,
          fleet := BROWSING.fleet.(nextRequest := 3))
  }

  lemma DueIsReached(scan: nat, other: nat, done: nat, rest: seq<Event>)
    requires other != done
    ensures Run(Process(Owing(scan), false, false), Loop([StartScan, Open(other), ScanFinished(Completed(done))] + rest))
            == Run(Process(Due(scan, other, done), false, false), Loop(rest))
  {
    var scanning := Owing(scan).(work := IDLE_WORK.(scan := true), onScreen := true);
    var opening := scanning.(open := Some(Route(2, other)), fleet := BROWSING.fleet.(nextRequest := 3));
    assert Turned(Process(Owing(scan), false, false), StartScan) == Process(scanning, false, false);
    assert Turned(Process(scanning, false, false), Open(other)) == Process(opening, false, false);
    var end := ScanFinished(Completed(done));
    assert Turned(Process(opening, false, false), end) == Process(Due(scan, other, done), false, false);
    hide Turned, Run, Loop, Owing, Due;
    assert [StartScan, Open(other), end] + rest == [StartScan] + ([Open(other)] + ([end] + rest));
    Turns(Process(Owing(scan), false, false), StartScan, [Open(other)] + ([end] + rest));
    Turns(Process(scanning, false, false), Open(other), [end] + rest);
    Turns(Process(opening, false, false), end, rest);
  }

  /** The exit has asked for the settlement again. */
  function DueWaiting(scan: nat, other: nat, done: nat): State
  {
    Due(scan, other, done).(signalled := true, stage := Settling(3), route := Some(3),
      asked := Owing(scan).asked[3 := Asked(Owed(scan, 0), 0)], fleet := BROWSING.fleet.(nextRequest := 4))
  }

  lemma DueWaitingIsReached(scan: nat, other: nat, done: nat)
    ensures Requested(Due(scan, other, done).(signalled := true)) == DueWaiting(scan, other, done)
  {
    AdvanceTurns(Armed(Due(scan, other, done).(signalled := true)));
    hide Advance;
  }

  lemma ActorDies(scan: nat, other: nat, done: nat)
    ensures Stuck(Turned(Process(Due(scan, other, done).(signalled := true), false, true), ActorClosed(0, true)).app)
  {
    var s := DueWaiting(scan, other, done);
    DueWaitingIsReached(scan, other, done);
    var t := Taken(s, ActorClosed(0, true));
    assert Stuck(t);
    SettlingStays(t);
    hide Advance, Requested, Taken, Due, DueWaiting;
  }

  /** The actor that is to settle the batch dies with an open in flight, and the scan screen asks a new one
      for the result it owes: the exit waits for an acknowledgement of the one that is gone. */
  lemma NewActorSticks(scan: nat, other: nat, done: nat)
    requires other != done
    ensures Stuck(Run(START, Loop(Opening(scan) + (BATCH +
              ([StartScan, Open(other), ScanFinished(Completed(done))] + [SignalRaised, ActorClosed(0, true)])))).app)
  {
    var begun, ends := [StartScan, Open(other), ScanFinished(Completed(done))], [SignalRaised, ActorClosed(0, true)];
    var p, q := Process(Due(scan, other, done), false, false), Process(Due(scan, other, done).(signalled := true), false, true);
    assert Turned(p, SignalRaised) == q;
    ActorDies(scan, other, done);
    hide Turned, Run, Loop, Opening, Owing, Due, Stuck;
    OwingIsReached(scan, begun + ends);
    DueIsReached(scan, other, done, ends);
    assert ends == [SignalRaised] + [ActorClosed(0, true)];
    Turns(p, SignalRaised, [ActorClosed(0, true)]);
    TurnsLast(q, ActorClosed(0, true));
  }

  /** The exit drains, and a batch that was begun then has reported. */
  function Unheard(scan: nat): State
  {
    CLOSING.(current := Some(scan), dedup := Some(scan), owed := Some(Owed(scan, 0)), unsettled := true, nextBatch := 1)
  }

  lemma UnheardReports(scan: nat)
    ensures Turned(Process(CLOSING.(current := Some(scan), dedup := Some(scan), work := IDLE_WORK.(apply := true)), false, false),
                   BatchFinished(Finished, false)) == Process(Unheard(scan), false, false)
  {
    var s := CLOSING.(current := Some(scan), dedup := Some(scan), work := IDLE_WORK.(apply := true));
    DrainingWaits(s);
    HandledBatch(s, Finished, false);
    DrainingWaits(Unheard(scan));
    assert Reported(s, Finished, false) == Unheard(scan);
    hide Handled, Requested, Advance;
  }

  lemma DrainingIsReached(scan: nat)
    ensures Requested(Shown(scan).(signalled := true)) == CLOSING.(current := Some(scan), dedup := Some(scan))
  {
    var t := Armed(Shown(scan).(signalled := true));
    AdvanceTurns(t);
    AdvanceTurns(Turn(t).0);
    hide Advance;
  }

  lemma UnheardEnds(scan: nat)
    ensures var p := Turned(Process(Unheard(scan), false, false), ActorClosed(0, false)); p.Over() && p.app.owed.Some?
  {
    var t := Taken(Unheard(scan), ActorClosed(0, false));
    DrainingWaits(Unheard(scan));
    AdvanceTurns(t);
    AdvanceTurns(Turn(t).0);
    hide Advance, Requested;
  }

  /** A batch begun while the exit drains, and reporting before the actor's terminal: the program quits
      with its settlement owed. */
  lemma QuitsOwing(scan: nat)
    ensures var events := Loop(Opening(scan) + ([SignalRaised] + (BATCH + [ActorClosed(0, false)])));
            var p := Run(START, events);
            p.Over() && p.app.owed.Some? && ReportsTooLate(START, events)
  {
    var p, q := Process(Shown(scan), false, false), Process(Shown(scan).(signalled := true), false, true);
    var applying := Process(CLOSING.(current := Some(scan), dedup := Some(scan), work := IDLE_WORK.(apply := true)), false, false);
    assert Turned(p, SignalRaised) == q;
    DrainingIsReached(scan);
    assert Turned(q, StartApply) == applying;
    UnheardReports(scan);
    UnheardEnds(scan);
    hide Turned, Run, Loop, Opening, Unheard, Requested;
    var rest := BATCH + [ActorClosed(0, false)];
    ShownIsReached(scan, [SignalRaised] + rest);
    Turns(p, SignalRaised, rest);
    BatchRuns(q, applying, Process(Unheard(scan), false, false), [ActorClosed(0, false)]);
    TurnsLast(Process(Unheard(scan), false, false), ActorClosed(0, false));
    EndsWith(Loop(Opening(scan) + ([SignalRaised] + rest)));
  }
}
