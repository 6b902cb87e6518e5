/** The staged exit of src/app.rs: background work first, then the settlement the last batch owes the
    database, then the browsing actor. */
module Shutdown {
  import opened Wrappers

  /** `ShutdownStage`; `Running` is its `None`. */
  datatype Stage = Running | Producers | Settling(req: nat) | Draining | Done {
    /** The exit no longer looks at what runs in the background. */
    predicate Past() { Settling? || Draining? || Done? }
  }

  /** The one browsing actor. A live one may be `gone` already, its terminal not yet seen; then nothing
      can be sent to it. */
  datatype Actor = Idle | Live(id: nat, gone: bool) | Closing(id: nat)

  /** `BrowseFleet`. `successor` is the pending spawn with the scan it opens again, and `stranded`
      whether the actor holds mark tickets or a sweep nobody has acknowledged. */
  datatype Fleet = Fleet(actor: Actor, successor: Option<Option<nat>>, stranded: bool, nextActor: nat, nextRequest: nat) {
    predicate TerminalOwed() { !actor.Idle? }

    /** `ensure_browse_actor`: an idle fleet gets an actor, a closing one accepts nothing. */
    function Ensured(): Fleet
    {
      if actor.Idle? then this.(actor := Live(nextActor, false), nextActor := nextActor + 1, stranded := false) else this
    }

    /** `send_browse`: the request's number, if it was accepted. */
    function Sent(): (Fleet, Option<nat>)
    {
      var f := Ensured();
      if !f.actor.Live? then (f, None)
      else (f.(nextRequest := f.nextRequest + 1), if f.actor.gone then None else Some(f.nextRequest))
    }

    /** `begin_close`: the actor is asked to close, or — gone already — is there to be retired. */
    function CloseBegun(): (Fleet, bool)
    {
      if !actor.Live? then (this, false)
      else if actor.gone then (this.(actor := Idle, successor := None), true)
      else (this.(actor := Closing(actor.id)), false)
    }
  }

  /** Background work nothing may cut short. */
  datatype Work = Work(scan: bool, apply: bool, moves: nat, purges: nat) {
    predicate Busy() { scan || apply || moves > 0 || purges > 0 }

    function Count(): nat { (if scan then 1 else 0) + (if apply then 1 else 0) + moves + purges }
  }

  const IDLE_WORK := Work(false, false, 0, 0)

  /** What a batch owes the database: which scan it was planned against, and which batch. */
  datatype Owed = Owed(scan: nat, batch: nat)

  /** What an accepted settlement request carried, and the actor that accepted it. */
  datatype Asked = Asked(owed: Owed, actor: nat)

  /** The open in flight. */
  datatype Route = Route(req: nat, scan: nat)

  /** How a batch reports: the plan ran, ran nothing after its snapshots, never began, or failed. */
  datatype Outcome = Finished | Aborted | Refused | Failed

  datatype ScanEnd = Completed(scan: nat) | Stopped

  /** How an open ends; `sends` says whether installing it asked for more. */
  datatype OpenEnd = Installed(shown: bool, sends: bool) | Lost | Unopened

  /** What the exit reads and changes. `due` is the result the scan screen still owes the operator, and
      `asked` what became of each accepted settlement request. */
  datatype State = State(
    stage: Stage, signalled: bool, shouldQuit: bool, work: Work, fleet: Fleet,
    open: Option<Route>, due: Option<nat>, onScreen: bool,
    owed: Option<Owed>, route: Option<nat>, asked: map<nat, Asked>, unsettled: bool, nextBatch: nat,
    current: Option<nat>, dedup: Option<nat>)

  /** `open_via_actor`: one open at a time. */
  function OpenVia(s: State, scan: nat): State
  {
    if s.open.Some? then s
    else
      var (f, req) := s.fleet.Sent();
      s.(fleet := f, open := if req.Some? then Some(Route(req.value, scan)) else None)
  }

  /** `settle_scan_screen`: with no scan running and no open in flight, the scan screen asks for what it
      owes, or is left. */
  function ScreenSettled(s: State): State
  {
    if !s.onScreen || s.work.scan || s.open.Some? then s
    else
      var t := if s.due.Some? then OpenVia(s, s.due.value) else s;
      t.(due := None, onScreen := t.open.Some?)
  }

  /** `send_pending_reconcile`. */
  function SentOwed(s: State): (State, Option<nat>)
  {
    if s.owed.None? || s.current != Some(s.owed.value.scan) then (s, None)
    else
      var (f, req) := s.fleet.Sent();
      var asked := if req.Some? && f.actor.Live? then s.asked[req.value := Asked(s.owed.value, f.actor.id)] else s.asked;
      (s.(fleet := f, route := req, asked := asked), req)
  }

  /** A successor only for an actor that closed as asked while no exit is under way. */
  function Followed(s: State): State
  {
    if s.fleet.successor.None? then s
    else
      var t := s.(fleet := s.fleet.(successor := None));
      if !s.stage.Running? || !s.fleet.actor.Idle? then t
      else
        var u := t.(fleet := t.fleet.Ensured());
        if s.fleet.successor.value.Some? then OpenVia(u, s.fleet.successor.value.value) else u
  }

  /** `retire_actor`, the actor being out of the fleet already: what it held is said to be unsettled, and
      the open it owed is released. */
  function Retired(s: State, panicked: bool): State
  {
    var t := s.(unsettled := s.unsettled || s.fleet.stranded, fleet := s.fleet.(stranded := false));
    var u := if t.open.Some? then ScreenSettled(t.(open := None)) else t;
    if panicked then u.(unsettled := true) else Followed(u)
  }

  function StageRank(stage: Stage): nat
  {
    if stage.Running? || stage.Producers? then 3 else if stage.Settling? then 2 else if stage.Draining? then 1 else 0
  }

  /** What is left for a call: the stages ahead, a result that may be asked for of one more actor, and
      whether a terminal is owed. */
  function Left(s: State): nat
  {
    2 * StageRank(s.stage) + (if s.due.Some? then 2 else 0) + if s.fleet.TerminalOwed() then 1 else 0
  }

  /** `advance_shutdown`, one turn of its loop: where it gets, and whether it goes round again. Every
      transition is decided from what is true now. */
  function Turn(s: State): (State, bool)
  {
    if s.stage.Running? then (s, false)
    else if s.stage.Producers? then ProducersTurn(s)
    else if s.stage.Settling? then
      if s.fleet.TerminalOwed() then (s, false)
      else (s.(owed := None, unsettled := true, route := None, stage := Done), true)
    else if s.stage.Draining? then DrainingTurn(s)
    else (s.(shouldQuit := true), false)
  }

  function ProducersTurn(s: State): (State, bool)
  {
    if s.work.Busy() then (s, false)
    else if s.owed.None? then (s.(stage := Draining), true)
    else if !s.fleet.TerminalOwed() then (s.(owed := None, unsettled := true, stage := Done), true)
    else
      var (t, req) := SentOwed(s);
      if req.Some? then (t.(stage := Settling(req.value)), false)
      else (t.(owed := None, unsettled := true, stage := Draining), true)
  }

  function DrainingTurn(s: State): (State, bool)
  {
    if !s.fleet.TerminalOwed() then (s.(stage := Done), true)
    else
      var (f, retired) := s.fleet.CloseBegun();
      if retired then (Retired(s.(fleet := f), false), true) else (s.(fleet := f), false)
  }

  /** A request leaves the actor as it was, or an idle fleet with a fresh one. */
  predicate Grown(f: Fleet, g: Fleet)
  {
    && g.successor == f.successor && f.nextRequest <= g.nextRequest && f.nextActor <= g.nextActor
    && ((g.actor == f.actor && g.stranded == f.stranded)
        || (f.actor.Idle? && g.actor == Live(f.nextActor, false) && f.nextActor < g.nextActor && !g.stranded))
  }

  lemma OpenViaChanges(s: State, scan: nat)
    ensures var t := OpenVia(s, scan);
            && t == s.(fleet := t.fleet, open := t.open) && Grown(s.fleet, t.fleet)
            && (s.open.None? && s.fleet.actor.Idle? ==> t.open.Some? && t.fleet.actor.Live? && !t.fleet.actor.gone)
            && (t.fleet.actor.Idle? ==> t.open == s.open)
  {
  }

  lemma ScreenChanges(s: State)
    ensures var t := ScreenSettled(s);
            && t == s.(fleet := t.fleet, open := t.open, due := t.due, onScreen := t.onScreen) && Grown(s.fleet, t.fleet)
            && (t.due == s.due || t.due.None?)
            && (t.fleet == s.fleet || (s.due.Some? && t.due.None?))
            && (s.fleet.actor.Idle? && s.open.None? ==>
                  if s.due.Some? && s.onScreen && !s.work.scan then t.due.None? && t.fleet.actor.Live? && !t.fleet.actor.gone
                  else t.fleet == s.fleet)
            && (t.fleet.actor.Idle? ==> t.open == s.open)
  {
    if s.due.Some? { OpenViaChanges(s, s.due.value); }
    hide OpenVia, Grown;
  }

  lemma FollowedChanges(s: State)
    ensures var t := Followed(s);
            && t == s.(fleet := t.fleet, open := t.open) && t.fleet.successor.None?
            && Grown(s.fleet.(successor := None), t.fleet)
            && (!s.stage.Running? ==> t.fleet == s.fleet.(successor := None) && t.open == s.open)
            && (t.fleet.actor.Idle? ==> t.open == s.open)
  {
    if s.fleet.successor.Some? {
      var t := s.(fleet := s.fleet.(successor := None));
      if s.fleet.successor.value.Some? { OpenViaChanges(t.(fleet := t.fleet.Ensured()), s.fleet.successor.value.value); }
    }
    hide OpenVia;
  }

  /** The scan screen asks for what it owes when the open in flight is gone with its actor. */
  predicate AsksAgain(s: State) { s.open.Some? && s.due.Some? && s.onScreen && !s.work.scan }

  /** A retirement lets go of the open, says what is unsettled, and leaves no actor but one that was asked
      for what the scan screen owes, or — with no exit under way — the successor. */
  lemma RetiredChanges(s: State, panicked: bool)
    requires s.fleet.actor.Idle?
    ensures var t := Retired(s, panicked);
            && t == s.(unsettled := t.unsettled, fleet := t.fleet, open := t.open, due := t.due, onScreen := t.onScreen)
            && (t.due == s.due || t.due.None?) && s.fleet.nextRequest <= t.fleet.nextRequest
            && s.fleet.nextActor <= t.fleet.nextActor
            && (t.fleet.actor.Live? ==> s.fleet.nextActor <= t.fleet.actor.id < t.fleet.nextActor)
            && (t.unsettled || (!s.unsettled && !s.fleet.stranded && !panicked))
            && !t.fleet.stranded && (t.fleet.actor.Idle? || t.fleet.actor.Live?)
            && (t.fleet.actor.Idle? ==> t.open.None?)
            && (s.fleet.successor.None? || !panicked ==> t.fleet.successor.None?)
            && (!s.stage.Running? ==> (t.fleet.actor.Idle? <==> !AsksAgain(s)))
            && (!s.stage.Running? && AsksAgain(s) ==> t.due.None? && !t.fleet.actor.gone)
  {
    var t := s.(unsettled := s.unsettled || s.fleet.stranded, fleet := s.fleet.(stranded := false));
    ScreenChanges(t.(open := None));
    var u := if t.open.Some? then ScreenSettled(t.(open := None)) else t;
    FollowedChanges(u);
    hide ScreenSettled, Followed;
  }

  lemma TurnGoesOn(s: State)
    ensures Turn(s).1 ==> Left(Turn(s).0) < Left(s)
  {
    if s.stage.Draining? && s.fleet.CloseBegun().1 {
      RetiredChanges(s.(fleet := s.fleet.CloseBegun().0), false);
    }
    hide Retired, SentOwed;
    if s.stage.Producers? { SentStays(s); }
  }

  lemma SentStays(s: State)
    ensures SentOwed(s).0 == s.(fleet := SentOwed(s).0.fleet, route := SentOwed(s).0.route, asked := SentOwed(s).0.asked)
    ensures SentOwed(s).1.Some? ==> SentOwed(s).0.fleet.actor.Live?
  {
  }

  function Advance(s: State): State
    decreases Left(s)
  {
    TurnGoesOn(s);
    var (t, more) := Turn(s); if more then Advance(t) else t
  }

  lemma AdvanceTurns(s: State)
    ensures Advance(s) == if Turn(s).1 then Advance(Turn(s).0) else Turn(s).0
  {
    hide Turn;
  }

  /** The exit begins: no successor may follow the actor. */
  function Armed(s: State): State
  {
    if s.stage.Running? then s.(fleet := s.fleet.(successor := None), stage := Producers) else s
  }

  /** `request_shutdown`, unforced. */
  function Requested(s: State): State { Advance(Armed(s)) }

  /** A second signal stops waiting. */
  function Forced(s: State): State
  {
    s.(fleet := s.fleet.(successor := None), stage := Done, shouldQuit := true)
  }

  /** `start_gate_reload`, as far as the exit is concerned: marks that cannot even be asked about are
      unsettled. */
  function Reloaded(s: State, groupOpen: bool): State
  {
    var (f, marked) := if s.current.None? then (s.fleet, None) else s.fleet.Sent();
    s.(fleet := if groupOpen then f.Sent().0 else f, unsettled := s.unsettled || marked.None?)
  }

  // === What the interface hears and does ===

  datatype Event =
    | StartScan | StartApply | StartMove | StartPurge
    | Browse | Open(scan: nat) | Replace | Show(scanScreen: bool) | NoScans | StoreLost
    | ScanFinished(end: ScanEnd) | BatchFinished(outcome: Outcome, fromCommander: bool) | MoveDone | PurgeDone
    | OpenReply(req: nat, result: OpenEnd)
    | Ack(req: nat, ok: bool, lost: bool, ofNow: bool, groupOpen: bool)
    | ActorClosed(actor: nat, panicked: bool)
    | ActorGone | Strand | Unstrand | SignalRaised
    | Pass(drawFails: bool)
  {
    /** It comes about beside the interface, at any time. */
    predicate Beside() { ActorGone? || Strand? || Unstrand? || SignalRaised? }

    /** Work other than a batch has ended. */
    predicate Ends() { ScanFinished? || MoveDone? || PurgeDone? }

    predicate Starts() { StartScan? || StartApply? || StartMove? || StartPurge? }
  }

  function Worked(w: Work, e: Event): Work
  {
    if e.StartScan? then w.(scan := true)
    else if e.StartApply? then w.(apply := true)
    else if e.StartMove? then w.(moves := w.moves + 1)
    else if e.StartPurge? then w.(purges := w.purges + 1)
    else if e.ScanFinished? then w.(scan := false)
    else if e.BatchFinished? then w.(apply := false)
    else if e.MoveDone? && w.moves > 0 then w.(moves := w.moves - 1)
    else if e.PurgeDone? && w.purges > 0 then w.(purges := w.purges - 1)
    else w
  }

  /** `on_reconcile_ack` of the routed request, up to the exit; `lost` says the refusal is one that
      uninstalls the results, `ofNow` that the reply is of the installed activation. */
  function Settled(s: State, ok: bool, lost: bool, ofNow: bool, groupOpen: bool): State
  {
    var t := s.(route := None, owed := None, unsettled := !ok);
    if !ok then if lost then t.(current := None, dedup := None) else t
    else if ofNow && s.stage.Running? then Reloaded(t, groupOpen)
    else t
  }

  function Planned(s: State, fromCommander: bool): Option<nat> { if fromCommander then s.dedup else s.current }

  /** `on_apply_finished`, up to the exit. */
  function Reported(s: State, outcome: Outcome, fromCommander: bool): State
  {
    var t := s.(work := s.work.(apply := false), onScreen := false);
    var scan := Planned(s, fromCommander);
    if outcome.Failed? then t
    else if outcome.Refused? then t.(unsettled := false)
    else if outcome.Aborted? then t.(unsettled := false, fleet := if t.current.None? then t.fleet else t.fleet.Sent().0)
    else if scan.None? then t.(unsettled := false)
    else SentOwed(t.(owed := Some(Owed(scan.value, t.nextBatch)), unsettled := true, nextBatch := t.nextBatch + 1)).0
  }

  /** `on_finished` after the exit was asked again: a result is opened, or owed if another is opening. */
  function ScanShown(s: State, end: ScanEnd): State
  {
    if end.Stopped? then s.(onScreen := false)
    else
      var t := OpenVia(s, end.scan);
      ScreenSettled(t.(due := if t.open.Some? && t.open.value.scan != end.scan then Some(end.scan) else None))
  }

  /** `on_open_finished`. */
  function OpenHeard(s: State, req: nat, end: OpenEnd): State
  {
    if s.open.None? || s.open.value.req != req then s
    else
      var t := s.(open := None);
      ScreenSettled(
        if end.Installed? then
          t.(current := Some(s.open.value.scan), dedup := Some(s.open.value.scan), onScreen := s.onScreen && !end.shown,
             fleet := if end.sends then s.fleet.Sent().0 else s.fleet)
        else if end.Lost? then t.(current := None, dedup := None)
        else t)
  }

  /** `set_read_only`: a change of role asks the actor to close and to be followed by another. */
  function Replaced(s: State): State
  {
    if s.work.apply then s
    else if s.fleet.actor.Idle? then
      var t := s.(fleet := s.fleet.(successor := None));
      if s.current.Some? then OpenVia(t, s.current.value) else t
    else
      var (f, retired) := s.fleet.(successor := Some(s.current)).CloseBegun();
      if retired then Retired(s.(fleet := f), false) else s.(fleet := f)
  }

  function Begun(s: State, e: Event): State
  {
    if e.StartScan? then s.(work := Worked(s.work, e), onScreen := true)
    else if e.StartApply? then s.(work := Worked(s.work, e), unsettled := false, onScreen := false)
    else if e.Starts() then s.(work := Worked(s.work, e))
    else if e.Browse? then s.(fleet := s.fleet.Sent().0)
    else if e.Open? then OpenVia(s, e.scan)
    else if e.Replace? then Replaced(s)
    else if e.Show? then s.(onScreen := e.scanScreen)
    else if e.NoScans? then s.(dedup := None)
    else if e.StoreLost? then s.(current := None, dedup := None)
    else s
  }

  function Noted(s: State, e: Event): State
  {
    if e.ActorGone? && s.fleet.actor.Live? then s.(fleet := s.fleet.(actor := Live(s.fleet.actor.id, true)))
    else if e.Strand? && s.fleet.TerminalOwed() then s.(fleet := s.fleet.(stranded := true))
    else if e.Unstrand? then s.(fleet := s.fleet.(stranded := false))
    else if e.SignalRaised? then s.(signalled := true)
    else s
  }

  /** Whether the handler of this event looks at the exit again. */
  predicate Asks(s: State, e: Event)
  {
    || (e.Ack? && s.route == Some(e.req) && s.stage == Settling(e.req))
    || e.ActorClosed?
    || (e.BatchFinished? && s.work.apply)
    || (e.Ends() && s.signalled && Worked(s.work, e) != s.work)
  }

  function Acknowledged(s: State, e: Event): State
    requires e.Ack?
  {
    if s.route != Some(e.req) then s
    else
      var t := Settled(s, e.ok, e.lost, e.ofNow, e.groupOpen);
      if s.stage == Settling(e.req) then t.(stage := Draining) else t
  }

  function Taken(s: State, e: Event): State
    requires e.ActorClosed?
  {
    if s.fleet.actor.Idle? || s.fleet.actor.id != e.actor then s
    else
      var f := s.fleet.(actor := Idle, successor := if e.panicked then None else s.fleet.successor);
      Retired(s.(fleet := f), e.panicked)
  }

  function Ended(s: State, e: Event): State
    requires e.Ends()
  {
    var t := s.(work := Worked(s.work, e), due := if e.ScanFinished? && s.work.scan then None else s.due);
    if Asks(s, e) then Armed(t) else t
  }

  /** What a handler does before it looks at the exit. An end of work that does not run is none. */
  function Before(s: State, e: Event): State
  {
    if e.Ack? then Acknowledged(s, e)
    else if e.ActorClosed? then Taken(s, e)
    else if e.BatchFinished? then
      if !s.work.apply then s
      else
        var t := Reported(s, e.outcome, e.fromCommander);
        if t.signalled then Armed(t) else t
    else if e.Ends() then Ended(s, e)
    else if e.OpenReply? then OpenHeard(s, e.req, e.result)
    else Begun(s, e)
  }

  /** What it leaves once it has looked. */
  function Looked(s: State, e: Event): State { if Asks(s, e) then Advance(Before(s, e)) else Before(s, e) }

  /** `handle_event`. */
  function Handled(s: State, e: Event): State
  {
    if e.ScanFinished? && s.work.scan then ScanShown(Looked(s, e), e.end) else Looked(s, e)
  }

  lemma HandledBatch(s: State, outcome: Outcome, fromCommander: bool)
    requires s.work.apply
    ensures var t := Reported(s, outcome, fromCommander);
            Handled(s, BatchFinished(outcome, fromCommander)) == if t.signalled then Requested(t) else Advance(t)
  {
    hide Reported, Advance;
  }

  lemma HandledAck(s: State, req: nat, ok: bool, lost: bool, ofNow: bool, groupOpen: bool)
    ensures var t := Settled(s, ok, lost, ofNow, groupOpen);
            Handled(s, Ack(req, ok, lost, ofNow, groupOpen)) ==
              if s.route != Some(req) then s else if s.stage == Settling(req) then Advance(t.(stage := Draining)) else t
  {
    hide Settled, Advance;
  }

  // === The application, its fields changed in place ===

  class App {
    var stage: Stage
    var signalled: bool
    var shouldQuit: bool
    var work: Work
    var fleet: Fleet
    var open: Option<Route>
    var due: Option<nat>
    var onScreen: bool
    var owed: Option<Owed>
    var route: Option<nat>
    ghost var asked: map<nat, Asked>
    var unsettled: bool
    var nextBatch: nat
    var current: Option<nat>
    var dedup: Option<nat>

    ghost function Now(): State
      reads this
    {
      State(stage, signalled, shouldQuit, work, fleet, open, due, onScreen, owed, route, asked, unsettled, nextBatch,
            current, dedup)
    }

    constructor ()
      ensures Now() == INITIAL
    {
      stage, signalled, shouldQuit := Running, false, false;
      work, fleet := IDLE_WORK, Fleet(Idle, None, false, 0, 0);
      open, due, onScreen := None, None, false;
      owed, route, asked, unsettled, nextBatch, current, dedup := None, None, map[], false, 0, None, None;
    }

    method Send() returns (req: Option<nat>)
      modifies this`fleet
      ensures (fleet, req) == old(fleet).Sent()
    {
      fleet := fleet.Ensured();
      if !fleet.actor.Live? {
        return None;
      }
      req := if fleet.actor.gone then None else Some(fleet.nextRequest);
      fleet := fleet.(nextRequest := fleet.nextRequest + 1);
    }

    method OpenViaActor(scan: nat)
      modifies this`fleet, this`open
      ensures Now() == OpenVia(old(Now()), scan)
    {
      hide Fleet.Sent;
      if open.Some? {
        return;
      }
      var req := Send();
      if req.Some? {
        open := Some(Route(req.value, scan));
      }
    }

    method SettleScanScreen()
      modifies this`fleet, this`open, this`due, this`onScreen
      ensures Now() == ScreenSettled(old(Now()))
    {
      hide OpenVia;
      if !onScreen || work.scan || open.Some? {
        return;
      }
      if due.Some? {
        OpenViaActor(due.value);
        if open.Some? {
          due := None;
          return;
        }
      }
      due, onScreen := None, false;
    }

    method SendPendingReconcile() returns (req: Option<nat>)
      modifies this`fleet, this`route, this`asked
      ensures (Now(), req) == SentOwed(old(Now()))
    {
      if owed.None? || current != Some(owed.value.scan) {
        return None;
      }
      req := Send();
      route := req;
      asked := if req.Some? && fleet.actor.Live? then asked[req.value := Asked(owed.value, fleet.actor.id)] else asked;
    }

    method RetireActor(panicked: bool)
      modifies this`unsettled, this`fleet, this`open, this`due, this`onScreen
      ensures Now() == Retired(old(Now()), panicked)
    {
      hide OpenVia, ScreenSettled, Fleet.Ensured;
      if fleet.stranded {
        unsettled := true;
      }
      fleet := fleet.(stranded := false);
      if open.Some? {
        open := None;
        SettleScanScreen();
      }
      if panicked {
        unsettled := true;
        return;
      }
      var pending := fleet.successor;
      fleet := fleet.(successor := None);
      if pending.Some? && stage.Running? && fleet.actor.Idle? {
        fleet := fleet.Ensured();
        if pending.value.Some? {
          OpenViaActor(pending.value.value);
        }
      }
    }

    method BeginClose() returns (retired: bool)
      modifies this`fleet
      ensures (fleet, retired) == old(fleet).CloseBegun()
    {
      retired := fleet.actor.Live? && fleet.actor.gone;
      if retired {
        fleet := fleet.(actor := Idle, successor := None);
      } else if fleet.actor.Live? {
        fleet := fleet.(actor := Closing(fleet.actor.id));
      }
    }

    method AdvanceShutdown()
      modifies this
      ensures Now() == Advance(old(Now()))
    {
      hide Advance, SentOwed, Retired, Fleet.CloseBegun;
      while true
        invariant Advance(Now()) == Advance(old(Now()))
        decreases Left(Now())
      {
        ghost var was := Now();
        TurnGoesOn(was);
        AdvanceTurns(was);
        if stage.Running? {
          return;
        } else if stage.Producers? {
          if work.Busy() {
            return;
          }
          if owed.None? {
            stage := Draining;
            continue;
          }
          if !fleet.TerminalOwed() {
            owed, unsettled, stage := None, true, Done;
            continue;
          }
          var req := SendPendingReconcile();
          if req.Some? {
            stage := Settling(req.value);
            return;
          }
          owed, unsettled, stage := None, true, Draining;
        } else if stage.Settling? {
          if !fleet.TerminalOwed() {
            owed, unsettled, route, stage := None, true, None, Done;
            continue;
          }
          return;
        } else if stage.Draining? {
          if !fleet.TerminalOwed() {
            stage := Done;
            continue;
          }
          var retired := BeginClose();
          if !retired {
            return;
          }
          RetireActor(false);
        } else {
          shouldQuit := true;
          return;
        }
      }
    }

    method RequestShutdown(forced: bool)
      modifies this
      ensures Now() == if forced then Forced(old(Now())) else Requested(old(Now()))
    {
      hide Advance;
      if forced {
        fleet, stage, shouldQuit := fleet.(successor := None), Done, true;
        return;
      }
      if stage.Running? {
        fleet, stage := fleet.(successor := None), Producers;
      }
      AdvanceShutdown();
    }

    method StartGateReload(groupOpen: bool)
      modifies this`fleet, this`unsettled
      ensures Now() == Reloaded(old(Now()), groupOpen)
    {
      hide Fleet.Sent;
      var marked: Option<nat> := None;
      if current.Some? {
        marked := Send();
      }
      if groupOpen {
        var _ := Send();
      }
      if marked.None? {
        unsettled := true;
      }
    }

    method OnReconcileAck(req: nat, ok: bool, lost: bool, ofNow: bool, groupOpen: bool)
      modifies this
      ensures Now() == Handled(old(Now()), Ack(req, ok, lost, ofNow, groupOpen))
    {
      HandledAck(Now(), req, ok, lost, ofNow, groupOpen);
      hide Advance, Reloaded, Handled;
      if route != Some(req) {
        return;
      }
      route, owed := None, None;
      var settling := stage == Settling(req);
      if ok {
        unsettled := false;
        if ofNow && stage.Running? {
          StartGateReload(groupOpen);
        }
      } else {
        unsettled := true;
        if lost {
          current, dedup := None, None;
        }
      }
      assert Now() == Settled(old(Now()), ok, lost, ofNow, groupOpen);
      if settling {
        stage := Draining;
        AdvanceShutdown();
      }
    }

    method ReportBatch(outcome: Outcome, fromCommander: bool)
      modifies this`work, this`onScreen, this`unsettled, this`fleet, this`owed, this`route, this`asked, this`nextBatch
      ensures Now() == Reported(old(Now()), outcome, fromCommander)
    {
      hide SentOwed, Fleet.Sent;
      work, onScreen := work.(apply := false), false;
      if outcome.Refused? {
        unsettled := false;
      } else if outcome.Aborted? {
        unsettled := false;
        if current.Some? {
          var _ := Send();
        }
      } else if outcome.Finished? {
        var planned := if fromCommander then dedup else current;
        if planned.None? {
          unsettled := false;
        } else {
          owed, unsettled, nextBatch := Some(Owed(planned.value, nextBatch)), true, nextBatch + 1;
          SentStays(Now());
          var req := SendPendingReconcile();
          if req.None? {
            unsettled := true;
          }
        }
      }
    }

    method OnApplyFinished(outcome: Outcome, fromCommander: bool)
      requires work.apply
      modifies this
      ensures Now() == Handled(old(Now()), BatchFinished(outcome, fromCommander))
    {
      HandledBatch(Now(), outcome, fromCommander);
      hide Advance, Reported, Handled;
      ReportBatch(outcome, fromCommander);
      if signalled {
        RequestShutdown(false);
      } else {
        AdvanceShutdown();
      }
    }

    method OnFinished(end: ScanEnd)
      requires work.scan
      modifies this
      ensures Now() == Handled(old(Now()), ScanFinished(end))
    {
      hide Advance, OpenVia, ScreenSettled;
      work, due := work.(scan := false), None;
      if signalled {
        RequestShutdown(false);
      }
      assert Now() == Looked(old(Now()), ScanFinished(end));
      if end.Stopped? {
        onScreen := false;
        return;
      }
      OpenViaActor(end.scan);
      due := if open.Some? && open.value.scan != end.scan then Some(end.scan) else None;
      SettleScanScreen();
    }

    method OnOpenFinished(req: nat, end: OpenEnd)
      modifies this
      ensures Now() == Handled(old(Now()), OpenReply(req, end))
    {
      hide ScreenSettled, Fleet.Sent;
      if open.None? || open.value.req != req {
        return;
      }
      var scan := open.value.scan;
      open := None;
      if end.Installed? {
        current, dedup, onScreen := Some(scan), Some(scan), onScreen && !end.shown;
        if end.sends {
          var _ := Send();
        }
      } else if end.Lost? {
        current, dedup := None, None;
      }
      SettleScanScreen();
    }

    method SetReadOnly()
      modifies this
      ensures Now() == Handled(old(Now()), Replace)
    {
      hide Advance, OpenVia, Retired;
      if work.apply {
        return;
      }
      if fleet.actor.Idle? {
        fleet := fleet.(successor := None);
        if current.Some? {
          OpenViaActor(current.value);
        }
        return;
      }
      fleet := fleet.(successor := Some(current));
      var retired := BeginClose();
      if retired {
        RetireActor(false);
      }
    }

    method OnActorClosed(actor: nat, panicked: bool)
      modifies this
      ensures Now() == Handled(old(Now()), ActorClosed(actor, panicked))
    {
      hide Advance, Retired;
      if !fleet.actor.Idle? && fleet.actor.id == actor {
        fleet := fleet.(actor := Idle, successor := if panicked then None else fleet.successor);
        RetireActor(panicked);
      }
      AdvanceShutdown();
    }
  }

  const INITIAL := State(Running, false, false, IDLE_WORK, Fleet(Idle, None, false, 0, 0), None, None, false,
                         None, None, map[], false, 0, None, None)

  // === The event loop ===

  /** The loop of src/main.rs: `lost` once a frame could not be drawn, `waiting` between the start of a
      pass and the event it handles. */
  datatype Process = Process(app: State, lost: bool, waiting: bool) {
    /** The loop has ended. */
    predicate Over() { app.shouldQuit && !waiting }
  }

  const START := Process(INITIAL, false, false)

  /** A pass begins: a signal, or a terminal that is lost, asks for the exit; then the frame is drawn.
      If nothing came in the last pass but the program is to quit, the loop ends instead. */
  function Passed(p: Process, drawFails: bool): Process
  {
    if p.waiting && p.app.shouldQuit then p.(waiting := false)
    else
      var t := if p.app.signalled || p.lost then Requested(p.app) else p.app;
      if drawFails && !p.lost then Process(Requested(t), true, true) else Process(t, p.lost, true)
  }

  predicate Hears(p: Process, e: Event) { p.waiting && !e.Beside() && !e.Pass? }

  /** One event, after which the pass is over. What the interface does on its own — by a key or by a
      reply — may come at any time, and so may an acknowledgement of any request, late or twice, and any
      actor's terminal. */
  function Apply(p: Process, e: Event): Process
  {
    if p.Over() then p
    else if e.Pass? then Passed(p, e.drawFails)
    else if e.Beside() then p.(app := Noted(p.app, e))
    else if p.waiting then Process(Handled(p.app, e), p.lost, false)
    else p
  }

  function Run(p: Process, events: seq<Event>): Process
    decreases |events|
  {
    if events == [] then p else Run(Apply(p, events[0]), events[1..])
  }

  // === What every step keeps ===

  /** What is said of the settlement. */
  predicate SettlementOk(s: State)
  {
    && (s.dedup.Some? ==> s.dedup == s.current)
    && (s.route.Some? ==> s.route.value in s.asked && s.route.value < s.fleet.nextRequest)
    && (s.route.Some? ==> s.asked[s.route.value].actor < s.fleet.nextActor)
    && (s.route.Some? && s.owed.Some? ==> s.asked[s.route.value].owed == s.owed.value)
    && (s.stage.Settling? ==> s.stage.req < s.fleet.nextRequest && (s.route == Some(s.stage.req) ==> s.owed.Some?))
    && (s.shouldQuit ==> s.stage.Done?)
  }

  /** What holds at every point of every step. */
  predicate Ready(s: State)
  {
    && SettlementOk(s)
    && (s.fleet.actor.Idle? ==> !s.fleet.stranded && s.fleet.successor.None? && s.open.None?)
    && (!s.fleet.actor.Idle? ==> s.fleet.actor.id < s.fleet.nextActor)
  }

  /** What holds between two steps. */
  predicate Stable(s: State)
  {
    && Ready(s)
    && (s.stage.Draining? ==> s.fleet.actor.Closing?)
    && (s.stage.Done? ==> s.shouldQuit)
  }

  /** And once the exit has been looked at, every stage waits for something. */
  predicate Resting(s: State)
  {
    && Stable(s)
    && (s.stage.Producers? ==> s.work.Busy())
    && (s.stage.Settling? ==> s.fleet.TerminalOwed())
    && (s.stage.Done? ==> s.fleet.actor.Idle?)
  }

  predicate Invariant(p: Process)
  {
    && Stable(p.app) && (p.waiting ==> Resting(p.app))
    && (!p.app.stage.Running? ==> p.app.signalled || p.lost)
  }

  // === Every step keeps the invariant ===

  predicate DoneIsIdle(s: State) { s.stage.Done? ==> s.fleet.actor.Idle? }

  predicate Kept(s: State, t: State, more: bool)
  {
    && Ready(t) && (!more ==> Stable(t))
    && (DoneIsIdle(s) ==> DoneIsIdle(t) && (!more ==> Resting(t)))
  }

  lemma ProducersTurnKeeps(s: State)
    requires Ready(s) && s.stage.Producers?
    ensures Kept(s, ProducersTurn(s).0, ProducersTurn(s).1)
  {
    SentOwedKeeps(s);
    hide SentOwed;
  }

  lemma DrainingTurnKeeps(s: State)
    requires Ready(s) && s.stage.Draining?
    ensures Kept(s, DrainingTurn(s).0, DrainingTurn(s).1)
  {
    var (f, retired) := s.fleet.CloseBegun();
    if retired {
      RetiredKeeps(s.(fleet := f), false);
      RetiredChanges(s.(fleet := f), false);
    }
    hide Retired;
  }

  lemma TurnKeeps(s: State)
    requires Ready(s)
    ensures Kept(s, Turn(s).0, Turn(s).1)
  {
    if s.stage.Producers? { ProducersTurnKeeps(s); } else if s.stage.Draining? { DrainingTurnKeeps(s); }
    hide ProducersTurn, DrainingTurn;
  }

  lemma SentOwedKeeps(s: State)
    requires Ready(s) && !s.stage.Settling?
    ensures var (t, req) := SentOwed(s);
            && Ready(t) && t == s.(fleet := t.fleet, route := t.route, asked := t.asked)
            && (req.Some? ==> t.owed.Some? && t.route == req && t.fleet.actor.Live? && req.value < t.fleet.nextRequest)
  {
  }

  lemma RetiredKeeps(s: State, panicked: bool)
    requires SettlementOk(s) && s.fleet.actor.Idle? && (panicked ==> s.fleet.successor.None?)
    ensures Ready(Retired(s, panicked))
  {
    RetiredChanges(s, panicked);
    hide Retired;
  }

  lemma {:induction false} AdvanceKeeps(s: State)
    requires Ready(s)
    ensures Stable(Advance(s)) && (DoneIsIdle(s) ==> Resting(Advance(s)))
    decreases Left(s)
  {
    TurnKeeps(s);
    TurnGoesOn(s);
    AdvanceTurns(s);
    hide Advance, Ready, Resting, Stable, DoneIsIdle, Turn;
    var (t, more) := Turn(s);
    if !more {
    } else {
      AdvanceKeeps(t);
    }
  }

  lemma OpenViaKeeps(s: State, scan: nat)
    requires Ready(s)
    ensures Ready(OpenVia(s, scan))
  {
    OpenViaChanges(s, scan);
    hide OpenVia;
  }

  lemma ScreenKeeps(s: State)
    requires Ready(s)
    ensures Ready(ScreenSettled(s))
  {
    ScreenChanges(s);
    hide ScreenSettled;
  }

  lemma SettledChanges(s: State, e: Event)
    requires e.Ack?
    ensures var t := Settled(s, e.ok, e.lost, e.ofNow, e.groupOpen);
            && t == s.(route := None, owed := None, unsettled := t.unsettled, fleet := t.fleet, current := t.current,
                       dedup := t.dedup)
            && Grown(s.fleet, t.fleet) && (!s.stage.Running? ==> t.fleet == s.fleet)
            && ((t.current == s.current && t.dedup == s.dedup) || t.dedup.None?)
  {
  }

  lemma AckReady(s: State, e: Event)
    requires Ready(s) && e.Ack?
    ensures Ready(Acknowledged(s, e))
  {
    SettledChanges(s, e);
    hide Settled;
  }

  lemma TakenReady(s: State, e: Event)
    requires Ready(s) && e.ActorClosed?
    ensures Ready(Taken(s, e))
  {
    if !s.fleet.actor.Idle? && s.fleet.actor.id == e.actor {
      RetiredKeeps(s.(fleet := s.fleet.(actor := Idle, successor := if e.panicked then None else s.fleet.successor)),
                   e.panicked);
    }
    hide Retired;
  }

  lemma OwingReady(s: State, scan: nat, nextBatch: nat)
    requires Ready(s) && s.current == Some(scan)
    ensures Ready(SentOwed(s.(owed := Some(Owed(scan, nextBatch)), unsettled := true, nextBatch := nextBatch + 1)).0)
  {
  }

  lemma ReportedReady(s: State, outcome: Outcome, fromCommander: bool)
    requires Ready(s)
    ensures Ready(Reported(s, outcome, fromCommander))
  {
    var t, scan := s.(work := s.work.(apply := false), onScreen := false), Planned(s, fromCommander);
    if scan.Some? { OwingReady(t, scan.value, t.nextBatch); }
    hide SentOwed;
  }

  lemma EndedReady(s: State, e: Event)
    requires Ready(s) && e.Ends()
    ensures Ready(Ended(s, e))
  {
    hide Worked, Asks;
  }

  lemma OpenHeardReady(s: State, req: nat, end: OpenEnd)
    requires Ready(s)
    ensures Ready(OpenHeard(s, req, end))
  {
    if s.open.Some? && s.open.value.req == req {
      var t := s.(open := None);
      var u :=
        if end.Installed? then
          t.(current := Some(s.open.value.scan), dedup := Some(s.open.value.scan), onScreen := s.onScreen && !end.shown,
             fleet := if end.sends then s.fleet.Sent().0 else s.fleet)
        else if end.Lost? then t.(current := None, dedup := None)
        else t;
      assert Ready(u);
      ScreenKeeps(u);
      hide ScreenSettled, Ready;
    }
  }

  lemma BrowseReady(s: State)
    requires Ready(s)
    ensures Ready(s.(fleet := s.fleet.Sent().0))
  {
  }

  lemma StartReady(s: State, e: Event)
    requires Ready(s) && e.Starts()
    ensures Ready(Begun(s, e))
  {
    hide Worked;
  }

  lemma PlainReady(s: State, e: Event)
    requires Ready(s) && !e.Open? && !e.Replace? && !e.Starts()
    ensures Ready(Begun(s, e))
  {
    if e.Browse? { BrowseReady(s); }
    hide OpenVia, Replaced, Worked, Fleet.Sent;
  }

  lemma BegunReady(s: State, e: Event)
    requires Ready(s)
    ensures Ready(Begun(s, e))
  {
    if e.Open? { OpenViaKeeps(s, e.scan); }
    else if e.Replace? { ReplacedReady(s); }
    else if e.Starts() { StartReady(s, e); }
    else { PlainReady(s, e); }
    hide OpenVia, Replaced, Worked, Ready;
  }

  lemma ReplacedReady(s: State)
    requires Ready(s)
    ensures Ready(Replaced(s))
  {
    if s.fleet.actor.Idle? {
      if s.current.Some? { OpenViaKeeps(s, s.current.value); }
    } else if s.fleet.(successor := Some(s.current)).CloseBegun().1 {
      RetiredKeeps(s.(fleet := s.fleet.(successor := Some(s.current)).CloseBegun().0), false);
    }
    hide OpenVia, Retired;
  }

  lemma BeforeReady(s: State, e: Event)
    requires Ready(s)
    ensures Ready(Before(s, e))
  {
    if e.Ack? { AckReady(s, e); }
    else if e.ActorClosed? { TakenReady(s, e); }
    else if e.BatchFinished? { ReportedReady(s, e.outcome, e.fromCommander); }
    else if e.Ends() { EndedReady(s, e); }
    else if e.OpenReply? { OpenHeardReady(s, e.req, e.result); }
    else { BegunReady(s, e); }
    hide Acknowledged, Taken, Reported, Ended, OpenHeard, Begun;
  }

  predicate Stays(s: State, t: State)
  {
    && t.stage == s.stage && t.shouldQuit == s.shouldQuit && t.signalled == s.signalled
    && (s.fleet.actor.Closing? ==> t.fleet.actor == s.fleet.actor)
  }

  lemma AckStays(s: State, e: Event)
    requires e.Ack? && !Asks(s, e)
    ensures Stays(s, Acknowledged(s, e))
  {
    SettledChanges(s, e);
    hide Settled;
  }

  lemma EndedStays(s: State, e: Event)
    requires e.Ends() && !Asks(s, e)
    ensures Stays(s, Ended(s, e))
  {
    hide Worked, Asks;
  }

  /** A handler that does not look at the exit leaves the stage, and a closing actor, as they are. */
  lemma BeforeStays(s: State, e: Event)
    requires !Asks(s, e)
    ensures Stays(s, Before(s, e))
  {
    if e.OpenReply? { OpenHeardChanges(s, e.req, e.result); }
    else if e.Ack? { AckStays(s, e); }
    else if e.Ends() { EndedStays(s, e); }
    else { BegunChanges(s, e); }
    hide OpenHeard, Begun, Acknowledged, Ended, Worked;
  }

  lemma OpenHeardChanges(s: State, req: nat, end: OpenEnd)
    ensures var t := OpenHeard(s, req, end);
            && t == s.(current := t.current, dedup := t.dedup, fleet := t.fleet, open := t.open, due := t.due,
                       onScreen := t.onScreen)
            && Grown(s.fleet, t.fleet) && (t.due == s.due || t.due.None?)
  {
    if s.open.Some? && s.open.value.req == req {
      var t := s.(open := None);
      ScreenChanges(
        if end.Installed? then
          t.(current := Some(s.open.value.scan), dedup := Some(s.open.value.scan), onScreen := s.onScreen && !end.shown,
             fleet := if end.sends then s.fleet.Sent().0 else s.fleet)
        else if end.Lost? then t.(current := None, dedup := None)
        else t);
    }
    hide ScreenSettled;
  }

  lemma BegunChanges(s: State, e: Event)
    ensures var t := Begun(s, e);
            && t == s.(work := t.work, unsettled := t.unsettled, current := t.current, dedup := t.dedup, fleet := t.fleet,
                       open := t.open, due := t.due, onScreen := t.onScreen)
            && t.work == (if e.Starts() then Worked(s.work, e) else s.work)
            && (t.due == s.due || t.due.None?)
            && (s.fleet.actor.Closing? ==> t.fleet.actor == s.fleet.actor)
            && (!e.Replace? ==> Grown(s.fleet, t.fleet))
  {
    if e.Open? { OpenViaChanges(s, e.scan); }
    if e.Replace? { ReplacedChanges(s); }
    hide OpenVia, Replaced, Worked;
  }

  lemma ReplacedChanges(s: State)
    ensures var t := Replaced(s);
            && t == s.(unsettled := t.unsettled, fleet := t.fleet, open := t.open, due := t.due, onScreen := t.onScreen)
            && (t.due == s.due || t.due.None?)
            && (s.fleet.actor.Closing? ==> t.fleet.actor == s.fleet.actor)
            && (s.fleet.stranded && !t.fleet.stranded && !s.fleet.actor.Idle? ==> t.unsettled)
  {
    if s.fleet.actor.Idle? {
      if s.current.Some? { OpenViaChanges(s.(fleet := s.fleet.(successor := None)), s.current.value); }
    } else if s.fleet.(successor := Some(s.current)).CloseBegun().1 {
      RetiredChanges(s.(fleet := s.fleet.(successor := Some(s.current)).CloseBegun().0), false);
    }
    hide OpenVia, Retired;
  }

  lemma ScanShownChanges(s: State, end: ScanEnd)
    ensures var t := ScanShown(s, end);
            && t == s.(fleet := t.fleet, open := t.open, due := t.due, onScreen := t.onScreen) && Grown(s.fleet, t.fleet)
            && (t.fleet.actor.Idle? ==> t.open == s.open)
  {
    if end.Completed? {
      var t := OpenVia(s, end.scan);
      OpenViaChanges(s, end.scan);
      ScreenChanges(t.(due := if t.open.Some? && t.open.value.scan != end.scan then Some(end.scan) else None));
    }
    hide OpenVia, ScreenSettled;
  }

  lemma LookedKeeps(s: State, e: Event)
    requires Resting(s)
    ensures Stable(Looked(s, e))
  {
    BeforeReady(s, e);
    if Asks(s, e) { AdvanceKeeps(Before(s, e)); } else { BeforeStays(s, e); }
    hide Before, Asks, Advance;
  }

  /** What a handler leaves has been decided from what is true then. */
  lemma HandledKeeps(s: State, e: Event)
    requires Resting(s)
    ensures Stable(Handled(s, e))
  {
    LookedKeeps(s, e);
    if e.ScanFinished? && s.work.scan { ScanShownChanges(Looked(s, e), e.end); }
    hide Looked, ScanShown;
  }

  lemma RequestKeeps(s: State)
    requires Ready(s) && DoneIsIdle(s)
    ensures Resting(Requested(s))
  {
    AdvanceKeeps(Armed(s));
    hide Advance, Resting, Stable;
  }

  /** What advancing does not touch. */
  predicate Framed(s: State, t: State)
  {
    && t.signalled == s.signalled && t.work == s.work && t.current == s.current && t.dedup == s.dedup
    && t.nextBatch == s.nextBatch && (s.stage.Running? <==> t.stage.Running?) && (s.stage.Running? ==> t == s)
    && (s.stage.Past() ==> t.stage.Past()) && (!s.stage.Past() && t.stage.Past() ==> !s.work.Busy())
  }

  lemma ProducersFramed(s: State)
    requires s.stage.Producers?
    ensures Framed(s, ProducersTurn(s).0)
  {
    SentStays(s);
    hide SentOwed;
  }

  lemma DrainingFramed(s: State)
    requires s.stage.Draining?
    ensures Framed(s, DrainingTurn(s).0)
  {
    if s.fleet.CloseBegun().1 { RetiredChanges(s.(fleet := s.fleet.CloseBegun().0), false); }
    hide Retired;
  }

  lemma TurnFramed(s: State)
    ensures Framed(s, Turn(s).0)
  {
    if s.stage.Producers? { ProducersFramed(s); } else if s.stage.Draining? { DrainingFramed(s); }
    hide ProducersTurn, DrainingTurn;
  }

  lemma {:induction false} AdvanceFramed(s: State)
    ensures Framed(s, Advance(s))
    decreases Left(s)
  {
    TurnGoesOn(s);
    AdvanceTurns(s);
    TurnFramed(s);
    hide Advance, Turn;
    var (t, more) := Turn(s);
    if !more {
    } else {
      AdvanceFramed(t);
    }
  }

  /** Before the exit is looked at, a handler changes no stage but that it may begin the exit after a
      signal, or go on from the settlement it has been told of. */
  lemma BeforeFramed(s: State, e: Event)
    ensures var t := Before(s, e);
            && t.signalled == s.signalled && t.work == Worked(s.work, e)
            && (t.stage == s.stage || (s.stage.Running? && t.stage.Producers? && s.signalled)
                || (s.stage.Settling? && t.stage.Draining?))
  {
    if e.OpenReply? { OpenHeardChanges(s, e.req, e.result); }
    else if e.Ack? { }
    else if e.ActorClosed? { TakenFramed(s, e); }
    else if e.BatchFinished? { ReportedFramed(s, e.outcome, e.fromCommander); }
    else if e.Ends() { }
    else { BegunChanges(s, e); }
    hide OpenHeard, Begun, Reloaded, Taken, Reported;
  }

  lemma TakenFramed(s: State, e: Event)
    requires e.ActorClosed?
    ensures var t := Taken(s, e);
            t == s.(unsettled := t.unsettled, fleet := t.fleet, open := t.open, due := t.due, onScreen := t.onScreen)
            && (t.due == s.due || t.due.None?)
  {
    if !s.fleet.actor.Idle? && s.fleet.actor.id == e.actor {
      RetiredChanges(s.(fleet := s.fleet.(actor := Idle,
                     successor := if e.panicked then None else s.fleet.successor)), e.panicked);
    }
    hide Retired;
  }

  lemma ReportedFramed(s: State, outcome: Outcome, fromCommander: bool)
    ensures var t := Reported(s, outcome, fromCommander);
            t == s.(work := s.work.(apply := false), onScreen := false, unsettled := t.unsettled, fleet := t.fleet,
                    owed := t.owed, route := t.route, asked := t.asked, nextBatch := t.nextBatch)
            && Grown(s.fleet, t.fleet)
  {
  }

  lemma HandledFramed(s: State, e: Event)
    ensures var t := Handled(s, e);
            && t.signalled == s.signalled && t.work == Worked(s.work, e)
            && (s.stage.Running? && !t.stage.Running? ==> s.signalled)
            && (!s.stage.Running? ==> !t.stage.Running?) && (s.stage.Past() ==> t.stage.Past())
            && (!s.stage.Past() && t.stage.Past() ==> !t.work.Busy())
  {
    BeforeFramed(s, e);
    AdvanceFramed(Before(s, e));
    if e.ScanFinished? && s.work.scan { ScanShownChanges(Looked(s, e), e.end); }
    hide Before, Advance, Worked, ScanShown, Asks;
  }

  lemma NotedKeeps(s: State, e: Event)
    ensures var t := Noted(s, e);
            && (Stable(s) ==> Stable(t)) && (Resting(s) ==> Resting(t)) && (s.signalled ==> t.signalled)
            && t == s.(signalled := t.signalled, fleet := t.fleet)
  {
    NotedChanges(s, e);
    hide Noted;
  }

  /** What comes about beside the interface leaves the actor, but that it may be gone. */
  lemma NotedChanges(s: State, e: Event)
    ensures var t := Noted(s, e);
            && t == s.(signalled := s.signalled || e.SignalRaised?, fleet := t.fleet)
            && t.fleet == s.fleet.(actor := t.fleet.actor, stranded := t.fleet.stranded)
            && (t.fleet.actor == s.fleet.actor
                || (e.ActorGone? && s.fleet.actor.Live? && t.fleet.actor == Live(s.fleet.actor.id, true)))
            && (s.fleet.actor.Idle? && !s.fleet.stranded ==> !t.fleet.stranded)
  {
    hide Advance, Run;
  }

  lemma PassedKeeps(p: Process, drawFails: bool)
    requires Invariant(p) && !p.Over()
    ensures Invariant(Passed(p, drawFails))
  {
    if !(p.waiting && p.app.shouldQuit) {
      assert DoneIsIdle(p.app);
      RequestKeeps(p.app);
      RequestKeeps(Requested(p.app));
      AdvanceFramed(Armed(p.app));
      AdvanceFramed(Armed(Requested(p.app)));
    }
    hide Requested, Armed, Advance, Ready;
  }

  lemma ApplyKeeps(p: Process, e: Event)
    requires Invariant(p)
    ensures Invariant(Apply(p, e))
  {
    if !p.Over() {
      if e.Pass? { PassedKeeps(p, e.drawFails); }
      else if e.Beside() { NotedKeeps(p.app, e); }
      else if p.waiting {
        HandledKeeps(p.app, e);
        HandledFramed(p.app, e);
      }
    }
    hide Passed, Noted, Handled, Stable, Resting;
  }

  lemma {:induction false} RunKeeps(p: Process, events: seq<Event>)
    requires Invariant(p)
    ensures Invariant(Run(p, events))
    decreases |events|
  {
    hide Invariant, Apply;
    if events == [] {
    } else {
      ApplyKeeps(p, events[0]);
      RunKeeps(Apply(p, events[0]), events[1..]);
    }
  }

  lemma StartKeeps()
    ensures Invariant(START)
  {
  }
}
