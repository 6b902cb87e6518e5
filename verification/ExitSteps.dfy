/** What the interface does with its actor, its scans and its batches, in an exit or not: what is asked of
    which actor, what becomes of a result, what follows an actor that ends. */
module ExitSteps {
  import opened Wrappers
  import opened Shutdown

  // === Requests ===

  /** A request is accepted by a live actor, one that is started for it if need be, until that is gone or
      closing. */
  predicate Accepts(f: Fleet) { f.actor.Idle? || (f.actor.Live? && !f.actor.gone) }

  lemma SentIff(f: Fleet)
    ensures var (g, req) := f.Sent();
            && (req.Some? <==> Accepts(f))
            && (req.Some? ==> req.value == f.nextRequest < g.nextRequest && g.actor.Live? && !g.actor.gone)
            && (f.actor.Idle? ==> g.actor == Live(f.nextActor, false) && g.nextActor == f.nextActor + 1 && !g.stranded)
            && (!f.actor.Idle? ==> g == f.(nextRequest := g.nextRequest))
            && g.successor == f.successor
  {
  }

  /** An open is asked for exactly if none is in flight and the actor accepts it. */
  lemma OpenAskedIff(s: State, scan: nat)
    ensures var t := OpenVia(s, scan);
            && (s.open.Some? ==> t == s)
            && (s.open.None? ==> (t.open.Some? <==> Accepts(s.fleet)))
            && (s.open.None? && t.open.Some? ==> t.open.value.scan == scan && t.open.value.req == s.fleet.nextRequest)
            && t == s.(fleet := t.fleet, open := t.open) && (s.open.None? ==> t.fleet == s.fleet.Sent().0)
  {
  }

  /** A settlement is sent exactly if its scan is the one shown and the actor accepts it; what it carries and
      which actor took it is known from then on. */
  lemma SettlementSentIff(s: State)
    ensures var (t, req) := SentOwed(s);
            && (req.Some? <==> s.owed.Some? && s.current == Some(s.owed.value.scan) && Accepts(s.fleet))
            && (req.Some? ==> t.route == req && t.owed == s.owed && t.fleet.actor.Live?
                              && t.asked == s.asked[req.value := Asked(s.owed.value, t.fleet.actor.id)])
            && (req.None? ==> t.asked == s.asked && t.owed == s.owed)
  {
  }

  /** What is beside the interface. */
  lemma NotedIs(s: State, e: Event)
    requires e.ActorGone? || e.Strand? || e.Unstrand? || e.SignalRaised?
    ensures var t := Noted(s, e);
            && (e.ActorGone? ==>
                  t == if s.fleet.actor.Live? then s.(fleet := s.fleet.(actor := Live(s.fleet.actor.id, true))) else s)
            && (e.Strand? ==> t == if s.fleet.actor.Idle? then s else s.(fleet := s.fleet.(stranded := true)))
            && (e.Unstrand? ==> t == s.(fleet := s.fleet.(stranded := false)))
            && (e.SignalRaised? ==> t == s.(signalled := true))
    ensures forall p: Process :: p.app == s && !p.Over() ==> Apply(p, e) == p.(app := Noted(s, e))
  {
    hide Run, Handled, Passed;
  }

  // === Results ===

  /** A finished scan that completed is opened, or owed while another scan is being opened; only an actor that
      accepts nothing leaves it be. */
  lemma ResultIsOpenedOrOwed(s: State, scan: nat)
    ensures var t := ScanShown(s, Completed(scan));
            && (s.open.None? && Accepts(s.fleet) ==>
                  t.open.Some? && t.open.value.scan == scan && t.due.None? && t.onScreen == s.onScreen)
            && (s.open.None? && !Accepts(s.fleet) ==>
                  t.open.None? && t.onScreen == (s.onScreen && s.work.scan) && t.due.None?)
            && (s.open.Some? ==>
                  t == s.(due := if s.open.value.scan == scan then None else Some(scan)))
            && t == s.(fleet := t.fleet, open := t.open, due := t.due, onScreen := t.onScreen)
  {
    OpenAskedIff(s, scan);
    hide OpenVia;
  }

  /** One that did not is off the screen. */
  lemma StoppedIsLeft(s: State)
    ensures ScanShown(s, Stopped) == s.(onScreen := false)
  {
  }

  /** The scan screen, no open being in flight: what it owes is asked for, or the screen is left. */
  lemma ScreenAsks(s: State)
    requires s.open.None?
    ensures var t := ScreenSettled(s);
            var settles := s.onScreen && !s.work.scan;
            && (!settles ==> t == s)
            && (settles && s.due.Some? ==>
                  && t == s.(fleet := t.fleet, open := t.open, due := None, onScreen := t.open.Some?)
                  && (t.open.Some? <==> Accepts(s.fleet)) && (t.open.Some? ==> t.open.value.scan == s.due.value)
                  && t.fleet == s.fleet.Sent().0)
            && (settles && s.due.None? ==> t == s.(onScreen := false))
  {
    if s.due.Some? { OpenAskedIff(s, s.due.value); }
    hide OpenVia;
  }

  /** The reply to the open in flight, up to the scan screen. */
  function Opened(s: State, end: OpenEnd): State
    requires s.open.Some?
  {
    var scan := Some(s.open.value.scan);
    s.(open := None,
       current := if end.Installed? then scan else if end.Lost? then None else s.current,
       dedup := if end.Installed? then scan else if end.Lost? then None else s.dedup,
       onScreen := s.onScreen && !(end.Installed? && end.shown),
       fleet := if end.Installed? && end.sends then s.fleet.Sent().0 else s.fleet)
  }

  /** The reply to the open in flight: what it shows, and that a result owed on the scan screen is asked for
      at once — or the screen left, if it owes nothing or nobody accepts it. Any other reply does nothing. */
  lemma OwedResultIsAsked(s: State, req: nat, end: OpenEnd)
    ensures var t := OpenHeard(s, req, end);
            if s.open.None? || s.open.value.req != req then t == s
            else
              var u := Opened(s, end);
              if !u.onScreen || s.work.scan then t == u
              else
                && t == u.(fleet := t.fleet, open := t.open, due := None, onScreen := t.open.Some?)
                && (t.open.Some? <==> s.due.Some? && Accepts(s.fleet))
                && (t.open.Some? ==> t.open.value.scan == s.due.value)
  {
    if s.open.Some? && s.open.value.req == req {
      ScreenAsks(Opened(s, end));
      SentIff(s.fleet);
    }
    hide ScreenSettled;
  }

  // === Actors that end ===

  /** No successor follows an actor in an exit, nor one that ended by itself, nor one that panicked. */
  lemma FollowsIff(s: State)
    requires s.fleet.actor.Idle? && s.open.None?
    ensures var t := Followed(s);
            && t.fleet.successor.None?
            && (if s.stage.Running? && s.fleet.successor.Some? then
                  && t.fleet.actor == Live(s.fleet.nextActor, false)
                  && (t.open.Some? <==> s.fleet.successor.value.Some?)
                  && (t.open.Some? ==> Some(t.open.value.scan) == s.fleet.successor.value)
                else t == s.(fleet := s.fleet.(successor := None)))
  {
  }

  /** An actor that ends takes the open with it; what it held unacknowledged is said to be unsettled, and a
      panic always is. Any other actor's end does nothing. */
  lemma EndIsSaid(s: State, e: Event)
    requires e.ActorClosed?
    ensures var t := Taken(s, e);
            if s.fleet.actor.Idle? || s.fleet.actor.id != e.actor then t == s
            else
              var again := s.open.Some? && s.due.Some? && s.onScreen && !s.work.scan;
              && !t.fleet.stranded && t.unsettled == (s.unsettled || s.fleet.stranded || e.panicked)
              && (e.panicked ==> t.fleet.successor.None?)
              && (again ==> t.open.Some? && t.open.value.scan == s.due.value && t.due.None?)
              && (!again && (e.panicked || !s.stage.Running?) ==> t.open.None? && t.fleet.actor.Idle?)
  {
    if !s.fleet.actor.Idle? && s.fleet.actor.id == e.actor {
      RetiredSays(s.(fleet := s.fleet.(actor := Idle, successor := if e.panicked then None else s.fleet.successor)), e.panicked);
    }
    hide Retired;
  }

  lemma RetiredSays(s: State, panicked: bool)
    requires s.fleet.actor.Idle? && (panicked ==> s.fleet.successor.None?)
    ensures var t := Retired(s, panicked);
            var again := s.open.Some? && s.due.Some? && s.onScreen && !s.work.scan;
            && !t.fleet.stranded && t.unsettled == (s.unsettled || s.fleet.stranded || panicked)
            && (panicked ==> t.fleet.successor.None?)
            && (again ==> t.open.Some? && t.open.value.scan == s.due.value && t.due.None?)
            && (!again && (panicked || !s.stage.Running?) ==> t.open.None? && t.fleet.actor.Idle?)
  {
    var t := s.(unsettled := s.unsettled || s.fleet.stranded, fleet := s.fleet.(stranded := false));
    var u := if s.open.Some? then ScreenSettled(t.(open := None)) else t;
    ScreenAsks(t.(open := None));
    SentIff(t.fleet);
    FollowedFrame(u);
    hide ScreenSettled, Followed;
  }

  lemma FollowedFrame(s: State)
    ensures var t := Followed(s);
            && t == s.(fleet := t.fleet, open := t.open) && (s.fleet.successor.None? || !s.fleet.actor.Idle? ==> t.open == s.open)
            && (s.open.Some? ==> t.open == s.open) && (!s.fleet.stranded ==> !t.fleet.stranded)
            && (!s.stage.Running? ==> t.open == s.open && t.fleet.actor == s.fleet.actor)
  {
    FollowedChanges(s);
  }

  /** A change of role outside an exit: the actor is asked to close, and once it has, another one opens the
      scan that was shown again. While a batch runs nothing changes. */
  lemma RoleChangeReopens(s: State)
    requires s.stage.Running? && s.fleet.actor.Live? && !s.fleet.actor.gone && s.open.None?
    ensures s.work.apply ==> Handled(s, Replace) == s
    ensures var t := Handled(s, Replace);
            var u := Handled(t, ActorClosed(s.fleet.actor.id, false));
            !s.work.apply ==>
              && t == s.(fleet := s.fleet.(actor := Closing(s.fleet.actor.id), successor := Some(s.current)))
              && u.fleet.actor == Live(s.fleet.nextActor, false) && u.fleet.successor.None?
              && (u.open.Some? <==> s.current.Some?) && (u.open.Some? ==> Some(u.open.value.scan) == s.current)
              && u.current == s.current && u.stage.Running?
  {
    if !s.work.apply {
      var t := s.(fleet := s.fleet.(actor := Closing(s.fleet.actor.id), successor := Some(s.current)));
      assert Handled(s, Replace) == t;
      var v := t.(fleet := t.fleet.(actor := Idle, stranded := false), unsettled := s.unsettled || s.fleet.stranded);
      FollowsIff(v);
      FollowedChanges(v);
      var u := Followed(v);
      assert Taken(t, ActorClosed(s.fleet.actor.id, false)) == u;
      hide Followed, Taken;
      AdvanceTurns(u);
      hide Advance;
    }
  }

  // === Batches ===

  /** A batch that ran owes its settlement, to the scan it was planned against, and says that the marks are
      unsettled until that is acknowledged; it is sent at once exactly if that scan is shown and the actor
      accepts it. One that did not run owes nothing. */
  lemma BatchOwes(s: State, outcome: Outcome, fromCommander: bool)
    ensures var t := Reported(s, outcome, fromCommander);
            var scan := if fromCommander then s.dedup else s.current;
            && !t.work.apply && !t.onScreen
            && (if outcome.Finished? && scan.Some? then
                  && t.owed == Some(Owed(scan.value, s.nextBatch)) && t.unsettled && t.nextBatch > s.nextBatch
                  && (s.current == scan && Accepts(s.fleet) ==>
                        t.route == Some(s.fleet.nextRequest) && s.fleet.nextRequest in t.asked
                        && t.asked[s.fleet.nextRequest].owed == t.owed.value)
                  && (s.current != scan ==> t.route == s.route && t.asked == s.asked && t.fleet == s.fleet)
                else
                  && t.owed == s.owed && t.route == s.route && t.asked == s.asked && t.nextBatch == s.nextBatch
                  && t.unsettled == (outcome.Failed? && s.unsettled)
                  && (outcome.Aborted? && s.current.Some? ==> t.fleet == s.fleet.Sent().0)
                  && (!(outcome.Aborted? && s.current.Some?) ==> t.fleet == s.fleet))
  {
  }

  /** A good acknowledgement outside an exit has the marks read again under the installed activation: they
      are settled exactly if that can be asked. */
  lemma SettledIsReread(s: State, lost: bool, ofNow: bool, groupOpen: bool)
    ensures var t := Settled(s, true, lost, ofNow, groupOpen);
            && t.owed.None? && t.route.None?
            && (s.stage.Running? && ofNow ==>
                  && (t.unsettled <==> s.current.None? || !Accepts(s.fleet))
                  && (Accepts(s.fleet) ==>
                        t.fleet.nextRequest == s.fleet.nextRequest + (if s.current.Some? then 1 else 0) + if groupOpen then 1 else 0))
            && (!(s.stage.Running? && ofNow) ==> !t.unsettled && t.fleet == s.fleet)
  {
  }

  /** A change of role with no actor: the scan shown is opened again at once. With one that is gone already
      none follows, and what it held is said to be unsettled. */
  lemma RoleChangeAtOnce(s: State)
    requires !s.work.apply && s.open.None? && (s.fleet.actor.Idle? || (s.fleet.actor.Live? && s.fleet.actor.gone))
    ensures var t := Replaced(s);
            && t.fleet.successor.None? && t.current == s.current && t.due == s.due
            && (s.fleet.actor.Idle? ==> (t.open.Some? <==> s.current.Some?) && t.unsettled == s.unsettled)
            && (t.open.Some? ==> Some(t.open.value.scan) == s.current && t.fleet.actor.Live? && !t.fleet.actor.gone)
            && (s.fleet.actor.Live? ==> t.fleet.actor.Idle? && t.open.None? && t.unsettled == (s.unsettled || s.fleet.stranded))
  {
    if !s.fleet.actor.Idle? {
      var f := s.fleet.(actor := Idle, successor := None, stranded := false);
      var v := s.(fleet := f, unsettled := s.unsettled || s.fleet.stranded);
      FollowsIff(v);
    }
  }

  // === Work ===

  /** What is running is what was begun and has not ended: each beginning adds one, or the one scan or batch
      there is; each end takes one away. */
  lemma WorkIsCounted(w: Work, e: Event)
    ensures var v := Worked(w, e);
            && (v.scan <==> e.StartScan? || (w.scan && !e.ScanFinished?))
            && (v.apply <==> e.StartApply? || (w.apply && !e.BatchFinished?))
            && v.moves == w.moves + (if e.StartMove? then 1 else if e.MoveDone? && w.moves > 0 then -1 else 0)
            && v.purges == w.purges + (if e.StartPurge? then 1 else if e.PurgeDone? && w.purges > 0 then -1 else 0)
            && (v.Busy() <==> v.Count() > 0)
  {
  }

  /** What a beginning and the other things the interface does on its own change besides. */
  lemma BegunIs(s: State, e: Event)
    requires !e.Replace? && !e.Ack? && !e.ActorClosed? && !e.BatchFinished? && !e.Ends() && !e.OpenReply?
    ensures var t := Handled(s, e);
            && t.work == Worked(s.work, e) && t.stage == s.stage && t.owed == s.owed && t.route == s.route && t.due == s.due
            && t.unsettled == (s.unsettled && !e.StartApply?)
            && t.onScreen == (if e.Show? then e.scanScreen else e.StartScan? || (s.onScreen && !e.StartApply?))
            && t.current == (if e.StoreLost? then None else s.current)
            && t.dedup == (if e.StoreLost? || e.NoScans? then None else s.dedup)
            && (!e.Browse? && !e.Open? ==> t.fleet == s.fleet && t.open == s.open)
            && (e.Browse? ==> t.fleet == s.fleet.Sent().0 && t.open == s.open)
            && (e.Open? ==> t == OpenVia(s, e.scan))
  {
    hide OpenVia;
    if e.Open? { OpenAskedIff(s, e.scan); }
  }

  /** The end of a scan pays what the scan screen owed; the end of other work leaves it. */
  lemma EndPays(s: State, e: Event)
    requires e.Ends() && !s.signalled
    ensures Ended(s, e) == s.(work := Worked(s.work, e), due := if e.ScanFinished? && s.work.scan then None else s.due)
  {
  }

  // === The exit ===

  /** Asking for the exit begins it, for good, and no successor is to follow. */
  lemma RequestBegins(s: State)
    ensures !Requested(s).stage.Running?
    ensures s.stage.Running? ==> Requested(s).fleet.successor.None?
  {
    AdvanceFramed(Armed(s));
    hide Advance;
    if s.stage.Running? { AdvanceDrops(Armed(s)); }
  }

  lemma {:induction false} AdvanceDrops(s: State)
    requires s.fleet.successor.None? && !s.stage.Running?
    ensures Advance(s).fleet.successor.None?
    decreases Shutdown.Left(s)
  {
    TurnGoesOn(s);
    AdvanceTurns(s);
    TurnDrops(s);
    hide Advance, Turn;
    var (t, more) := Turn(s);
    if more { AdvanceDrops(t); }
  }

  lemma TurnDrops(s: State)
    requires s.fleet.successor.None? && !s.stage.Running?
    ensures Turn(s).0.fleet.successor.None? && !Turn(s).0.stage.Running?
  {
    if s.stage.Draining? && s.fleet.CloseBegun().1 { RetiredChanges(s.(fleet := s.fleet.CloseBegun().0), false); }
    hide Retired;
  }

  /** Where the actor that was to acknowledge the settlement is gone and none is there, the exit gives it up,
      says so and is done. */
  lemma GivesUp(s: State)
    requires s.stage.Settling? && s.fleet.actor.Idle?
    ensures Advance(s) == s.(owed := None, unsettled := true, route := None, stage := Done, shouldQuit := true)
  {
    AdvanceTurns(s);
    AdvanceTurns(Turn(s).0);
    hide Advance;
  }

  /** A drained exit that finds its actor gone is done, and says that the marks are unsettled only if that
      actor held some. */
  lemma DrainsAtOnce(s: State)
    requires s.stage.Draining? && s.fleet.actor.Live? && s.fleet.actor.gone && !AsksAgain(s)
    ensures var t := Advance(s);
            && t.stage.Done? && t.shouldQuit && t.fleet.actor.Idle? && t.open.None?
            && t.unsettled == (s.unsettled || s.fleet.stranded)
  {
    var r := s.(fleet := s.fleet.(actor := Idle, successor := None));
    RetiredSays(r, false);
    RetiredChanges(r, false);
    var t := Retired(r, false);
    assert Turn(s) == (t, true);
    hide Retired;
    AdvanceTurns(s);
    AdvanceTurns(t);
    AdvanceTurns(Turn(t).0);
    hide Advance;
  }
}
