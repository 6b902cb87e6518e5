/** Opening a scan: src/app.rs proposes an activation, the browsing actor of src/state/browse.rs serves
    requests in the order they were sent, and only a successful reply installs what was proposed. */
module Opening {
  import opened Wrappers

  datatype Route = Route(req: nat, act: nat, scan: nat)

  /** What the window sends: an open, or a read — one of the installed scan, held to its activation, or
      one that only needs the database. */
  datatype Request = Open(req: nat, act: nat, scan: nat) | ScanRead(act: nat) | AnyRead

  /** What comes back. `Lost` says the database file was replaced: the actor has let go of everything. */
  datatype Reply =
    | OpenDone(req: nat, act: nat, scan: nat) | OpenRefused(req: nat) | OpenLost(req: nat)
    | ReadDone | ReadLost(under: Option<nat>)

  /** The interface's side. */
  datatype Window = Window(installed: nat, current: Option<nat>, open: Option<Route>, next: nat)

  /** `open_via_actor`: the request that leaves, if one does. One open at a time: an open asked for
      while one is in flight is that one, or is refused. */
  function Asked(w: Window, scan: nat, accepting: bool): (r: (Window, Option<Request>))
    ensures r.1.Some? ==> r.1.value.Open? && r.0.open == Some(Route(r.1.value.req, r.1.value.act, r.1.value.scan))
  {
    if w.open.Some? || !accepting then (w, None)
    else
      var act := w.installed + 1;
      (w.(open := Some(Route(w.next, act, scan)), next := w.next + 1), Some(Open(w.next, act, scan)))
  }

  predicate Answers(w: Window, reply: Reply)
  {
    (reply.OpenDone? || reply.OpenRefused? || reply.OpenLost?) && w.open.Some? && w.open.value.req == reply.req
  }

  /** `on_open_finished`; and a read whose reply says the database was replaced uninstalls the view, if
      the reply is still routed and — held to an activation — of the one installed. */
  function Heard(w: Window, reply: Reply, routed: bool): Window
  {
    if reply.ReadDone? then w
    else if reply.ReadLost? then
      if routed && (reply.under.None? || reply.under.value == w.installed) then w.(current := None) else w
    else if !Answers(w, reply) then w
    else if reply.OpenDone? then w.(open := None, installed := w.open.value.act, current := Some(w.open.value.scan))
    else if reply.OpenLost? then w.(open := None, current := None)
    else w.(open := None)
  }

  class App {
    var installed: nat
    var current: Option<nat>
    var open: Option<Route>
    var next: nat

    ghost function Now(): Window
      reads this
    {
      Window(installed, current, open, next)
    }

    constructor ()
      ensures Now() == Window(0, None, None, 0)
    {
      installed, current, open, next := 0, None, None, 0;
    }

    method OpenViaActor(scan: nat, accepting: bool) returns (sent: Option<Request>)
      modifies this
      ensures (Now(), sent) == Asked(old(Now()), scan, accepting)
    {
      if open.Some? {
        return None;
      }
      var act := installed + 1;
      if !accepting {
        return None;
      }
      var req := next;
      next := next + 1;
      open := Some(Route(req, act, scan));
      sent := Some(Open(req, act, scan));
    }

    method OnReply(reply: Reply, routed: bool)
      modifies this
      ensures Now() == Heard(old(Now()), reply, routed)
    {
      if reply.ReadLost? {
        if routed && (reply.under.None? || reply.under.value == installed) {
          current := None;
        }
        return;
      }
      if reply.ReadDone? || open.None? || open.value.req != reply.req {
        return;
      }
      var route := open.value;
      open := None;
      if reply.OpenDone? {
        installed, current := route.act, Some(route.scan);
      } else if reply.OpenLost? {
        current := None;
      }
    }
  }

  // === The actor ===

  datatype Slot = Absent | Held | Poisoned

  datatype Active = Active(scan: nat, act: nat)

  datatype Actor = Actor(slot: Slot, active: Option<Active>)

  const POISONED := Actor(Poisoned, None)

  /** How an attempt at the database goes: it works, fails, or finds another file at the path. */
  datatype Luck = Good | Bad | Mismatch

  /** The `Open` arm. `found` is what the probe of the connection already held says, `connect` how a new
      one goes, and `build` how reading the scan goes. A mismatch that has let go of what was held
      makes every later failure one too. */
  function Opened(a: Actor, r: Request, found: Luck, connect: Luck, build: Luck): (Actor, Reply)
    requires r.Open?
  {
    var retained := a.slot.Poisoned? || (a.slot.Held? && found != Good);
    var reuse := a.slot.Held? && !retained;
    if !reuse && connect != Good then
      if retained || connect == Mismatch then (POISONED, OpenLost(r.req)) else (Actor(Absent, None), OpenRefused(r.req))
    else if build == Good then (Actor(Held, Some(Active(r.scan, r.act))), OpenDone(r.req, r.act, r.scan))
    else if build == Mismatch || retained then (POISONED, OpenLost(r.req))
    else (Actor(Held, if reuse then a.active else None), OpenRefused(r.req))
  }

  /** A read: `scan_gate` lets only reads of the active activation touch the database. */
  function Read(a: Actor, r: Request, connect: Luck, probe: Luck): (Actor, Reply)
    requires !r.Open?
  {
    var act := if r.ScanRead? then Some(r.act) else None;
    if a.slot.Poisoned? then (a, ReadLost(act))
    else if r.ScanRead? && (a.active.None? || a.active.value.act != r.act) then (a, ReadDone)
    else if a.slot.Absent? && connect != Good then if connect == Mismatch then (POISONED, ReadLost(act)) else (a, ReadDone)
    else if probe == Mismatch then (POISONED, ReadLost(act))
    else (Actor(Held, a.active), ReadDone)
  }

  // === Every run of the two ===

  /** `inbox` and `outbox` are what is on its way, oldest first. `missed`: since the last install some
      word that the database was replaced went unheard. */
  datatype State = State(window: Window, actor: Actor, inbox: seq<Request>, outbox: seq<Reply>, missed: bool)

  datatype Event =
    | AskOpen(scan: nat, accepting: bool)
    | AskScanRead
    | AskAnyRead
    | Serve(found: Luck, connect: Luck, build: Luck)
    | Deliver(routed: bool)

  const INITIAL := State(Window(0, None, None, 0), Actor(Absent, None), [], [], false)

  function Apply(s: State, e: Event): State
  {
    match e
    case AskOpen(scan, accepting) =>
      var (w, sent) := Asked(s.window, scan, accepting);
      s.(window := w, inbox := if sent.Some? then s.inbox + [sent.value] else s.inbox)
    case AskScanRead => s.(inbox := s.inbox + [ScanRead(s.window.installed)])
    case AskAnyRead => s.(inbox := s.inbox + [AnyRead])
    case Serve(found, connect, build) =>
      if s.inbox == [] then s
      else
        var (a, reply) :=
          if s.inbox[0].Open? then Opened(s.actor, s.inbox[0], found, connect, build) else Read(s.actor, s.inbox[0], connect, build);
        s.(actor := a, inbox := s.inbox[1..], outbox := s.outbox + [reply])
    case Deliver(routed) =>
      if s.outbox == [] then s
      else
        var reply, w := s.outbox[0], Heard(s.window, s.outbox[0], routed);
        s.(window := w, outbox := s.outbox[1..],
           missed := if Answers(s.window, reply) && reply.OpenDone? then false
                     else s.missed || (reply.ReadLost? && w.current.Some?))
  }

  function Run(s: State, events: seq<Event>): State
    decreases |events|
  {
    if events == [] then s else Run(Apply(s, events[0]), events[1..])
  }

  predicate IsOpenReply(r: Reply) { r.OpenDone? || r.OpenRefused? || r.OpenLost? }

  predicate IsLost(r: Reply) { r.OpenLost? || r.ReadLost? }

  /** The one request or reply that answers the route, wherever it is. */
  predicate OnItsWay(s: State)
  {
    && (forall i, j :: 0 <= i < j < |s.inbox| ==> !(s.inbox[i].Open? && s.inbox[j].Open?))
    && (forall i, j :: 0 <= i < j < |s.outbox| ==> !(IsOpenReply(s.outbox[i]) && IsOpenReply(s.outbox[j])))
    && (forall i, j :: 0 <= i < |s.inbox| && 0 <= j < |s.outbox| ==> !(s.inbox[i].Open? && IsOpenReply(s.outbox[j])))
    && (forall i :: 0 <= i < |s.inbox| && s.inbox[i].Open? ==>
          s.window.open == Some(Route(s.inbox[i].req, s.inbox[i].act, s.inbox[i].scan)))
    && (forall j :: 0 <= j < |s.outbox| && IsOpenReply(s.outbox[j]) ==>
          s.window.open.Some? && s.window.open.value.req == s.outbox[j].req
          && (s.outbox[j].OpenDone? ==> s.window.open.value == Route(s.outbox[j].req, s.outbox[j].act, s.outbox[j].scan)))
    && (s.window.open.Some? ==>
          || (exists i :: 0 <= i < |s.inbox| && s.inbox[i].Open?)
          || (exists j :: 0 <= j < |s.outbox| && IsOpenReply(s.outbox[j])))
    && (s.window.open.Some? ==> s.window.open.value.act == s.window.installed + 1)
  }

  /** What the actor serves is what the last install on its way will show, or what is shown and no word
      of a loss is on its way. */
  predicate Served(s: State)
  {
    s.actor.active.Some? ==>
      var a := s.actor.active.value;
      && s.actor.slot.Held?
      && (forall j :: 0 <= j < |s.outbox| && s.outbox[j].OpenDone? ==> s.outbox[j].scan == a.scan && s.outbox[j].act == a.act)
      && (forall j, k :: 0 <= j < k < |s.outbox| && s.outbox[j].OpenDone? ==> !IsLost(s.outbox[k]))
      && ((forall j :: 0 <= j < |s.outbox| ==> !s.outbox[j].OpenDone?) ==>
            && s.window.current == Some(a.scan) && s.window.installed == a.act
            && (forall k :: 0 <= k < |s.outbox| ==> !IsLost(s.outbox[k])))
  }

  /** And while the actor serves nothing, the window shows nothing, or word of the loss is on its way
      behind whatever else is — or went unheard. */
  predicate Unserved(s: State)
  {
    s.actor.active.None? ==>
      || LossFollows(s.outbox)
      || ((s.missed || s.window.current.None?) && forall j :: 0 <= j < |s.outbox| ==> !s.outbox[j].OpenDone?)
  }

  predicate LossFollows(outbox: seq<Reply>)
  {
    exists k :: 0 <= k < |outbox| && IsLost(outbox[k]) && forall j :: k < j < |outbox| ==> !outbox[j].OpenDone?
  }

  predicate Invariant(s: State) { OnItsWay(s) && Served(s) && Unserved(s) }

  lemma AskOpenKeeps(s: State, scan: nat, accepting: bool)
    requires Invariant(s)
    ensures Invariant(Apply(s, AskOpen(scan, accepting)))
  {
    var t := Apply(s, AskOpen(scan, accepting));
    if t != s {
      assert t.inbox[|s.inbox|].Open?;
    }
  }

  lemma AskReadKeeps(s: State, e: Event)
    requires Invariant(s) && (e.AskScanRead? || e.AskAnyRead?)
    ensures Invariant(Apply(s, e))
  {
    var t := Apply(s, e);
    if s.window.open.Some? {
      if i :| 0 <= i < |s.inbox| && s.inbox[i].Open? {
        assert t.inbox[i].Open?;
      }
    }
  }

  lemma ServeKeepsWay(s: State, e: Event)
    requires OnItsWay(s) && e.Serve?
    ensures OnItsWay(Apply(s, e))
  {
    var t := Apply(s, e);
    if s.inbox != [] && s.window.open.Some? {
      if i :| 0 <= i < |s.inbox| && s.inbox[i].Open? {
        if i > 0 { assert t.inbox[i - 1].Open?; } else { assert IsOpenReply(t.outbox[|s.outbox|]); }
      } else {
        var j :| 0 <= j < |s.outbox| && IsOpenReply(s.outbox[j]);
        assert IsOpenReply(t.outbox[j]);
      }
    }
  }

  lemma ServeKeepsServed(s: State, e: Event)
    requires Invariant(s) && e.Serve?
    ensures Served(Apply(s, e))
  {
    var t := Apply(s, e);
    if s.inbox != [] {
      assert t.outbox[..|s.outbox|] == s.outbox;
      assert t.outbox[|s.outbox|] == t.outbox[|t.outbox| - 1];
    }
  }

  lemma ServeKeepsUnserved(s: State, e: Event)
    requires Invariant(s) && e.Serve?
    ensures Unserved(Apply(s, e))
  {
    var t := Apply(s, e);
    if s.inbox != [] && t.actor.active.None? {
      var k := |s.outbox|;
      if IsLost(t.outbox[k]) {
        assert LossFollows(t.outbox);
      } else if LossFollows(s.outbox) {
        var l :| 0 <= l < |s.outbox| && IsLost(s.outbox[l]) && forall j :: l < j < |s.outbox| ==> !s.outbox[j].OpenDone?;
        assert IsLost(t.outbox[l]);
      }
    }
  }

  lemma DeliverKeepsWay(s: State, e: Event)
    requires OnItsWay(s) && e.Deliver?
    ensures OnItsWay(Apply(s, e))
  {
    var t := Apply(s, e);
    if s.outbox != [] && t.window.open.Some? {
      if j :| 0 <= j < |s.outbox| && IsOpenReply(s.outbox[j]) {
        if j > 0 { assert IsOpenReply(t.outbox[j - 1]); }
      }
    }
  }

  lemma DeliverKeepsServed(s: State, e: Event)
    requires Invariant(s) && e.Deliver?
    ensures Served(Apply(s, e))
  {
    var t := Apply(s, e);
    if s.outbox != [] {
      assert forall j :: 0 <= j < |t.outbox| ==> t.outbox[j] == s.outbox[j + 1];
      if s.actor.active.Some? && !s.outbox[0].OpenDone? {
        if j :| 0 <= j < |s.outbox| && s.outbox[j].OpenDone? {
          assert t.outbox[j - 1].OpenDone?;
        }
      }
    }
  }

  lemma DeliverKeepsUnserved(s: State, e: Event)
    requires Invariant(s) && e.Deliver?
    ensures Unserved(Apply(s, e))
  {
    var t := Apply(s, e);
    if s.outbox != [] && s.actor.active.None? {
      assert forall j :: 0 <= j < |t.outbox| ==> t.outbox[j] == s.outbox[j + 1];
      if LossFollows(s.outbox) {
        var k :| 0 <= k < |s.outbox| && IsLost(s.outbox[k]) && forall j :: k < j < |s.outbox| ==> !s.outbox[j].OpenDone?;
        if k > 0 { assert IsLost(t.outbox[k - 1]); }
      }
    }
  }

  lemma ApplyKeeps(s: State, e: Event)
    requires Invariant(s)
    ensures Invariant(Apply(s, e))
  {
    if e.AskOpen? { AskOpenKeeps(s, e.scan, e.accepting); }
    else if e.AskScanRead? || e.AskAnyRead? { AskReadKeeps(s, e); }
    else if e.Serve? { ServeKeepsWay(s, e); ServeKeepsServed(s, e); ServeKeepsUnserved(s, e); }
    else { DeliverKeepsWay(s, e); DeliverKeepsServed(s, e); DeliverKeepsUnserved(s, e); }
    hide OnItsWay, Served, Unserved, Apply;
  }

  lemma {:induction false} RunKeeps(s: State, events: seq<Event>)
    requires Invariant(s)
    ensures Invariant(Run(s, events))
    decreases |events|
  {
    hide Invariant, Apply;
    if events == [] {
    } else {
      ApplyKeeps(s, events[0]);
      RunKeeps(Apply(s, events[0]), events[1..]);
    }
  }

  // === What holds in every run ===

  /** At most one open is on its way, there and back, and exactly while the window waits for one; what
      it proposes is the activation after the installed one. */
  lemma OneOpenInFlight(events: seq<Event>)
    ensures var s := Run(INITIAL, events);
            && (forall i, j :: 0 <= i < j < |s.inbox| ==> !(s.inbox[i].Open? && s.inbox[j].Open?))
            && (forall i, j :: 0 <= i < j < |s.outbox| ==> !(IsOpenReply(s.outbox[i]) && IsOpenReply(s.outbox[j])))
            && (forall i, j :: 0 <= i < |s.inbox| && 0 <= j < |s.outbox| ==> !(s.inbox[i].Open? && IsOpenReply(s.outbox[j])))
            && (s.window.open.Some? <==>
                  || (exists i :: 0 <= i < |s.inbox| && s.inbox[i].Open?)
                  || (exists j :: 0 <= j < |s.outbox| && IsOpenReply(s.outbox[j])))
            && (forall i :: 0 <= i < |s.inbox| && s.inbox[i].Open? ==> s.inbox[i].act == s.window.installed + 1)
  {
    RunKeeps(INITIAL, events);
  }

  /** Whenever nothing is in flight: what the actor serves is what the window shows, under the
      activation it has installed — and the window shows nothing else, unless word that the database
      was replaced went unheard since its last install. */
  lemma SidesAgree(events: seq<Event>)
    ensures var s := Run(INITIAL, events);
            s.inbox == [] && s.outbox == [] ==>
              && s.window.open.None?
              && (s.actor.active.Some? ==>
                    s.window.current == Some(s.actor.active.value.scan) && s.window.installed == s.actor.active.value.act)
              && (s.actor.active.None? ==> s.window.current.None? || s.missed)
  {
    RunKeeps(INITIAL, events);
  }

  /** The installed activation changes only when the open on its way succeeds, and then by one. */
  lemma InstalledByOne(events: seq<Event>, e: Event)
    ensures var s := Run(INITIAL, events);
            var t := Apply(s, e);
            || t.window.installed == s.window.installed
            || (t.window.installed == s.window.installed + 1 && e.Deliver? && s.outbox != [] && s.outbox[0].OpenDone?
                && t.window.current == Some(s.outbox[0].scan) && t.window.installed == s.outbox[0].act)
  {
    RunKeeps(INITIAL, events);
  }

  // === When no reply loses its route ===

  predicate NoneDone(outbox: seq<Reply>, from: nat, to: nat)
    requires to <= |outbox|
  {
    forall j :: from <= j < to ==> !outbox[j].OpenDone?
  }

  /** When its turn comes the word of a loss finds the activation it is of installed, or nothing. */
  predicate InTurn(s: State, k: nat)
    requires k < |s.outbox| && s.outbox[k].ReadLost? && s.outbox[k].under.Some?
  {
    || (exists j: nat :: j < k && IsLost(s.outbox[j]) && NoneDone(s.outbox, j + 1, k))
    || (NoneDone(s.outbox, 0, k) && (s.window.current.None? || s.window.installed == s.outbox[k].under.value))
    || (exists j :: 0 <= j < k && s.outbox[j].OpenDone? && s.outbox[j].act == s.outbox[k].under.value)
  }

  predicate Heeded(s: State)
  {
    !s.missed && forall k: nat :: k < |s.outbox| && s.outbox[k].ReadLost? && s.outbox[k].under.Some? ==> InTurn(s, k)
  }

  lemma ServeHeeded(s: State, e: Event)
    requires Invariant(s) && Heeded(s) && e.Serve?
    ensures Heeded(Apply(s, e))
  {
    var t := Apply(s, e);
    forall k: nat | k < |t.outbox| && t.outbox[k].ReadLost? && t.outbox[k].under.Some? ensures InTurn(t, k) {
      if k < |s.outbox| {
        assert InTurn(s, k);
        if j: nat :| j < k && IsLost(s.outbox[j]) && NoneDone(s.outbox, j + 1, k) {
          assert IsLost(t.outbox[j]) && NoneDone(t.outbox, j + 1, k);
        } else if j :| 0 <= j < k && s.outbox[j].OpenDone? && s.outbox[j].act == s.outbox[k].under.value {
          assert t.outbox[j].OpenDone?;
        }
      } else {
        ServedLast(s, t, k);
      }
    }
  }

  lemma ServedLast(s: State, t: State, k: nat)
    requires Invariant(s) && !s.missed && s.inbox != [] && k == |s.outbox| && |t.outbox| == k + 1 && t.outbox[..k] == s.outbox
    requires t.window == s.window && t.outbox[k].ReadLost? && t.outbox[k].under.Some?
    requires s.actor.active.None? || s.actor.active.value.act == t.outbox[k].under.value
    ensures InTurn(t, k)
  {
    assert forall j :: 0 <= j < k ==> t.outbox[j] == s.outbox[j];
    if s.actor.active.None? && LossFollows(s.outbox) {
      var j: nat :| j < k && IsLost(s.outbox[j]) && forall l :: j < l < |s.outbox| ==> !s.outbox[l].OpenDone?;
      assert IsLost(t.outbox[j]) && NoneDone(t.outbox, j + 1, k);
    } else if j :| 0 <= j < k && s.outbox[j].OpenDone? {
      assert t.outbox[j].OpenDone? && t.outbox[j].act == s.actor.active.value.act;
    } else {
      assert NoneDone(t.outbox, 0, k);
    }
  }

  lemma DeliverHeeded(s: State)
    requires Invariant(s) && Heeded(s)
    ensures Heeded(Apply(s, Deliver(true)))
  {
    var t := Apply(s, Deliver(true));
    if s.outbox != [] {
      if s.outbox[0].ReadLost? && s.outbox[0].under.Some? {
        assert InTurn(s, 0);
      }
      assert !t.missed;
      forall k: nat | k < |t.outbox| && t.outbox[k].ReadLost? && t.outbox[k].under.Some? ensures InTurn(t, k) {
        TurnComes(s, t, k);
      }
    }
  }

  lemma TurnComes(s: State, t: State, k: nat)
    requires OnItsWay(s) && s.outbox != [] && t.outbox == s.outbox[1..] && t.window == Heard(s.window, s.outbox[0], true)
    requires IsLost(s.outbox[0]) ==> t.window.current.None?
    requires k < |t.outbox| && t.outbox[k].ReadLost? && t.outbox[k].under.Some? && InTurn(s, k + 1)
    ensures InTurn(t, k)
  {
    assert forall j :: 0 <= j < |t.outbox| ==> t.outbox[j] == s.outbox[j + 1];
    if j: nat :| j < k + 1 && IsLost(s.outbox[j]) && NoneDone(s.outbox, j + 1, k + 1) {
      if j > 0 {
        assert IsLost(t.outbox[j - 1]) && NoneDone(t.outbox, j, k);
      } else {
        assert NoneDone(t.outbox, 0, k);
      }
    } else if j :| 0 <= j < k + 1 && s.outbox[j].OpenDone? && s.outbox[j].act == s.outbox[k + 1].under.value {
      if j > 0 {
        assert t.outbox[j - 1].OpenDone?;
      } else {
        assert NoneDone(t.outbox, 0, k);
      }
    } else {
      assert NoneDone(t.outbox, 0, k);
    }
  }

  predicate AllRouted(events: seq<Event>) { forall e :: e in events && e.Deliver? ==> e.routed }

  lemma HeededStep(s: State, e: Event)
    requires Invariant(s) && Heeded(s) && (e.Deliver? ==> e.routed)
    ensures Heeded(Apply(s, e))
  {
    if e.Serve? { ServeHeeded(s, e); }
    else if e.Deliver? { DeliverHeeded(s); }
    else {
      var t := Apply(s, e);
      forall k: nat | k < |t.outbox| && t.outbox[k].ReadLost? && t.outbox[k].under.Some? ensures InTurn(t, k) {
        assert InTurn(s, k);
      }
    }
  }

  lemma {:induction false} RunHeeded(s: State, events: seq<Event>)
    requires Invariant(s) && Heeded(s) && AllRouted(events)
    ensures Heeded(Run(s, events))
    decreases |events|
  {
    hide Invariant, Heeded, Apply;
    if events == [] {
    } else {
      ApplyKeeps(s, events[0]);
      HeededStep(s, events[0]);
      RunHeeded(Apply(s, events[0]), events[1..]);
    }
  }

  /** Where no reply loses its route, word of a loss is never missed: whenever nothing is in flight the
      two sides agree exactly, though the database be replaced at any moment. */
  lemma RoutedSidesAgree(events: seq<Event>)
    requires AllRouted(events)
    ensures var s := Run(INITIAL, events);
            s.inbox == [] && s.outbox == [] ==>
              if s.actor.active.None? then s.window.current.None?
              else s.window.current == Some(s.actor.active.value.scan) && s.window.installed == s.actor.active.value.act
  {
    RunKeeps(INITIAL, events);
    RunHeeded(INITIAL, events);
  }

  // === What is asked and what is answered ===

  /** Over every run: an open leaves exactly if none is in flight and the actor accepts it, under a number no
      open on its way has had, and is then the one the window waits for. */
  lemma OpenLeavesIff(events: seq<Event>, scan: nat, accepting: bool)
    ensures var s := Run(INITIAL, events);
            var t := Apply(s, AskOpen(scan, accepting));
            if accepting && s.window.open.None? then
              && t.inbox == s.inbox + [Open(s.window.next, s.window.installed + 1, scan)] && s.window.next < t.window.next
              && t.window.open == Some(Route(s.window.next, s.window.installed + 1, scan))
            else t == s
    ensures var s := Run(INITIAL, events);
            && (forall r :: r in s.inbox && r.Open? ==> r.req < s.window.next)
            && (forall r :: r in s.outbox && IsOpenReply(r) ==> r.req < s.window.next)
  {
    RunKeeps(INITIAL, events);
    RunNumbers(INITIAL, events);
  }

  predicate Numbered(s: State) { s.window.open.Some? ==> s.window.open.value.req < s.window.next }

  lemma {:induction false} RunNumbers(s: State, events: seq<Event>)
    requires Numbered(s)
    ensures Numbered(Run(s, events))
    decreases |events|
  {
    if events != [] {
      assert Numbered(Apply(s, events[0]));
      hide Apply;
      RunNumbers(Apply(s, events[0]), events[1..]);
    }
  }

  /** The connection at hand is the database's own still. */
  predicate Usable(a: Actor, found: Luck) { a.slot.Held? && found == Good }

  /** An open succeeds exactly if there is a connection, at hand or new, and the scan can be read through it.
      Else it is a loss if another file was found, or if the actor lets go of what it held — now or before —
      and a refusal only if the file is the same as far as it knows; then what was served is served on, if it
      was at hand. */
  lemma OpenAnswers(a: Actor, r: Request, found: Luck, connect: Luck, build: Luck)
    requires r.Open?
    ensures var (b, reply) := Opened(a, r, found, connect, build);
            var through := Usable(a, found) || connect == Good;
            var other := (through && build == Mismatch) || (!through && connect == Mismatch);
            && IsOpenReply(reply) && reply.req == r.req
            && (reply.OpenDone? <==> through && build == Good)
            && (reply.OpenDone? ==> reply.act == r.act && reply.scan == r.scan && b == Actor(Held, Some(Active(r.scan, r.act))))
            && (reply.OpenLost? <==> !reply.OpenDone? && (other || (!a.slot.Absent? && !Usable(a, found))))
            && (reply.OpenLost? ==> b == POISONED)
            && (reply.OpenRefused? ==> b.active == (if Usable(a, found) then a.active else None))
            && (reply.OpenRefused? ==> (b.slot.Held? <==> through) && (b.slot.Absent? <==> !through))
  {
  }

  /** A read is a loss exactly if the actor has let go of the database before, or finds another file now;
      and it looks only for what it serves. */
  lemma ReadAnswers(a: Actor, r: Request, connect: Luck, probe: Luck)
    requires !r.Open?
    ensures var (b, reply) := Read(a, r, connect, probe);
            var looks := !a.slot.Poisoned? && (r.ScanRead? ==> a.active.Some? && a.active.value.act == r.act);
            var finds := looks && if a.slot.Absent? && connect != Good then connect == Mismatch else probe == Mismatch;
            && (reply.ReadLost? <==> a.slot.Poisoned? || finds)
            && !IsOpenReply(reply)
            && (reply.ReadLost? ==> b == POISONED || b == a) && (reply.ReadLost? ==> b.slot.Poisoned?)
            && (reply.ReadLost? ==> reply.under == if r.ScanRead? then Some(r.act) else None)
            && (reply.ReadDone? ==> b.active == a.active)
            && (reply.ReadDone? ==>
                  (b.slot.Held? <==> a.slot.Held? || (looks && connect == Good)) && (b.slot.Absent? ==> a.slot.Absent?))
  {
  }

  predicate NoneOpens(s: State, events: seq<Event>)
    decreases |events|
  {
    events == [] || (!Apply(s, events[0]).actor.active.Some? && NoneOpens(Apply(s, events[0]), events[1..]))
  }

  /** Once the actor has let go of the database, whatever it is asked is answered with the loss, until an open
      succeeds. */
  lemma {:induction false} LossIsTold(s: State, events: seq<Event>)
    requires s.actor == POISONED && NoneOpens(s, events)
    ensures Run(s, events).actor == POISONED
    ensures forall r :: r in Run(s, events).outbox ==> r in s.outbox || IsLost(r)
    decreases |events|
  {
    if events != [] {
      var t := Apply(s, events[0]);
      LossIsServed(s, events[0]);
      hide Apply;
      LossIsTold(t, events[1..]);
    }
  }

  lemma LossIsServed(s: State, e: Event)
    requires s.actor == POISONED && Apply(s, e).actor.active.None?
    ensures Apply(s, e).actor == POISONED
    ensures forall r :: r in Apply(s, e).outbox ==> r in s.outbox || IsLost(r)
  {
  }

  /** The interface lets go of what it shows exactly if the open it waits for is lost, or a read that is routed
      still and needs the database only, or the activation installed. */
  lemma LetsGoIff(w: Window, reply: Reply, routed: bool)
    ensures var v := Heard(w, reply, routed);
            && (reply.ReadLost? ==>
                  v == if routed && (reply.under == None || reply.under == Some(w.installed)) then w.(current := None) else w)
            && (reply.ReadDone? ==> v == w)
            && (IsOpenReply(reply) && (w.open.None? || w.open.value.req != reply.req) ==> v == w)
            && (IsOpenReply(reply) && w.open.Some? && w.open.value.req == reply.req ==>
                  && v.open.None? && v.next == w.next
                  && (reply.OpenDone? ==> v.installed == w.open.value.act && v.current == Some(w.open.value.scan))
                  && (!reply.OpenDone? ==> v.installed == w.installed && v.current == if reply.OpenLost? then None else w.current))
  {
  }

  /** Reads leave under the activation installed, in their order behind whatever is on its way; what is served
      and what is heard is the oldest. */
  lemma InOrder(s: State, e: Event)
    ensures e.AskScanRead? ==> Apply(s, e) == s.(inbox := s.inbox + [ScanRead(s.window.installed)])
    ensures e.AskAnyRead? ==> Apply(s, e) == s.(inbox := s.inbox + [AnyRead])
    ensures e.Serve? ==>
              var t := Apply(s, e);
              && t.window == s.window && (s.inbox == [] ==> t == s)
              && (s.inbox != [] ==> t.inbox == s.inbox[1..] && |t.outbox| == |s.outbox| + 1 && s.outbox <= t.outbox)
    ensures e.Deliver? ==>
              var t := Apply(s, e);
              && t.actor == s.actor && t.inbox == s.inbox && (s.outbox == [] ==> t == s)
              && (s.outbox != [] ==> t.outbox == s.outbox[1..] && t.window == Heard(s.window, s.outbox[0], e.routed))
  {
    hide Heard, Opened, Read;
  }

  /** Word of a loss is missed exactly if a read brings it while something is shown still afterwards; an open
      that is installed makes up for it. */
  lemma MissedIff(s: State, e: Event)
    ensures var t := Apply(s, e);
            t.missed <==>
              if e.Deliver? && s.outbox != [] && Answers(s.window, s.outbox[0]) && s.outbox[0].OpenDone? then false
              else s.missed || (e.Deliver? && s.outbox != [] && s.outbox[0].ReadLost? && t.window.current.Some?)
  {
    hide Opened, Read;
  }
}
