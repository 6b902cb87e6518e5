/** What src/app.rs shows of the results and what it lets be planned from them: replies routed to what
    was asked for, pages of the open group, the gate over the marks, and plans. Replies may come in any
    order, late, twice or not at all; that the actor answers in order is not relied on here. */
module Browsing {
  import opened Wrappers
  import Opening

  const PAGE: nat := 200
  const MOST: nat := 50_000

  datatype GroupId = GroupId(scan: nat, rank: nat, generation: nat)

  /** A file of a group, by its path: what marks do to a row is not modelled. */
  type File = nat

  /** The members of every group, which its identity fixes. */
  type Members = GroupId -> seq<File>

  datatype Request =
    | Open(act: nat, scan: nat)
    | GroupOpen(act: nat, id: GroupId, offset: nat)
    | GroupCount(act: nat, id: GroupId)
    | MarkedCount(act: nat)
    | DirOpen(act: nat)
    | SetMarks(act: nat)
    | AutoSelect(act: nat)
    | BuildPlan(act: nat, calm: bool)

  datatype Purpose =
    | BrowserOpen(id: GroupId)
    | BrowserMore(id: GroupId, loaded: nat)
    | BrowserReload(id: GroupId)
    | Watch(panel: nat, id: GroupId)

  datatype DirPurpose = WizardDirs | WatchDir(panel: nat) | WatchAt(panel: nat)

  datatype PlanWindow = Wizard | Commander

  datatype PlanRoute = PlanRoute(req: nat, window: PlanWindow)

  /** `BrowseRoutes`: what each request in flight was asked for. */
  datatype Routes = Routes(
    open: Option<Opening.Route>, groups: map<nat, Purpose>, counts: map<nat, GroupId>,
    marked: Option<nat>, dirs: map<nat, DirPurpose>, plan: Option<PlanRoute>)

  /** The open group. The program keeps and compares only the rank of `id`; `pages` are the requests whose
      replies put it there, page by page. */
  datatype OpenGroup = OpenGroup(id: GroupId, rows: seq<File>, pages: seq<nat>)

  /** What is shown. Of an answer that is shown as it came, only which request it answers is kept. */
  datatype View = View(
    installed: nat, current: Option<nat>, groups: seq<GroupId>, open: Option<OpenGroup>, total: nat, full: bool,
    marked: Option<nat>, dir: Option<nat>, watch: map<nat, Option<nat>>, watchDir: map<nat, Option<nat>>)

  /** `MarksGate`. */
  datatype Gate =
    | Settled
    | Reloading(act: nat, marked: nat, group: Option<nat>, markedOk: bool, groupOk: bool)
    | Blocked

  /** `MarkOrigin`; `of` is the group that was open. */
  datatype Origin = WizardGroup(of: GroupId, before: seq<File>) | CommanderMark

  datatype Marks = Marks(gate: Gate, pending: map<nat, Origin>, sweep: Option<nat>, unsettled: bool)

  datatype Reads = Reads(marked: nat, group: Option<nat>)

  /** What happened: every request sent, which good replies were taken in while the activation they
      were asked under was installed, the reads of the last reload, and every list of groups shown. */
  datatype Log = Log(next: nat, sent: map<nat, Request>, answered: set<nat>, reload: Option<Reads>,
                     catalogue: map<nat, seq<GroupId>>)

  datatype State = State(view: View, routes: Routes, marks: Marks, log: Log, accepting: bool)

  const INITIAL := State(View(0, None, [], None, 0, false, None, None, map[], map[]),
                         Routes(None, map[], map[], None, map[], None),
                         Marks(Settled, map[], None, false), Log(0, map[], {}, None, map[0 := []]), true)

  // === Requests ===

  /** `send_browse`. */
  function Sent(s: State, r: Request): (State, Option<nat>)
  {
    if !s.accepting then (s, None)
    else (s.(log := s.log.(next := s.log.next + 1, sent := s.log.sent[s.log.next := r])), Some(s.log.next))
  }

  /** `open_via_actor`, as `Opening` has it. */
  function OpenAsked(s: State, scan: nat): State
  {
    var window := Opening.Window(s.view.installed, s.view.current, s.routes.open, s.log.next);
    var (w, r) := Opening.Asked(window, scan, s.accepting);
    if r.None? then s
    else
      s.(routes := s.routes.(open := w.open),
         log := s.log.(next := w.next, sent := s.log.sent[r.value.req := Open(r.value.act, scan)]))
  }

  /** The request for a page of a group, routed. */
  function PageAsked(s: State, purpose: Purpose): (State, Option<nat>)
  {
    var offset := if purpose.BrowserMore? then purpose.loaded else 0;
    var (t, req) := Sent(s, GroupOpen(s.view.installed, purpose.id, offset));
    if req.None? then (t, None)
    else (t.(routes := t.routes.(groups := t.routes.groups[req.value := purpose])), req)
  }

  /** `open_selected_group`. */
  function GroupSelected(s: State, index: nat): State
  {
    if index >= |s.view.groups| then s.(view := s.view.(open := None))
    else
      var id := s.view.groups[index];
      var t := PageAsked(s, BrowserOpen(id)).0;
      var (u, req) := Sent(t, GroupCount(s.view.installed, id));
      if req.None? then u else u.(routes := u.routes.(counts := u.routes.counts[req.value := id]))
  }

  function FindRank(groups: seq<GroupId>, rank: nat): (r: Option<GroupId>)
    ensures r.Some? ==> r.value in groups && r.value.rank == rank
  {
    if groups == [] then None else if groups[0].rank == rank then Some(groups[0]) else FindRank(groups[1..], rank)
  }

  /** `maybe_load_more_files`. */
  function MoreAsked(s: State, cursor: nat): State
  {
    if s.view.full || s.view.open.None? then s
    else
      var loaded := |s.view.open.value.rows|;
      if loaded >= s.view.total then s
      else if loaded >= MOST then s.(view := s.view.(full := true))
      else if cursor + PAGE < loaded then s
      else if exists r | r in s.routes.groups :: s.routes.groups[r].BrowserMore? then s
      else
        var id := FindRank(s.view.groups, s.view.open.value.id.rank);
        if id.None? then s else PageAsked(s, BrowserMore(id.value, loaded)).0
  }

  /** A request of a directory group, for the window or for a watching panel. */
  function DirAsked(s: State, purpose: DirPurpose): State
  {
    var (t, req) := Sent(s, DirOpen(s.view.installed));
    if req.None? then t else t.(routes := t.routes.(dirs := t.routes.dirs[req.value := purpose]))
  }

  /** `refresh_marked_count`. */
  function MarkedAsked(s: State): (State, Option<nat>)
  {
    var t := s.(view := s.view.(marked := None));
    if s.view.current.None? then (t, None)
    else
      var (u, req) := Sent(t, MarkedCount(s.view.installed));
      (u.(routes := u.routes.(marked := req)), req)
  }

  // === Marks and plans ===

  predicate PlanIsBuilding(s: State) { Building(s.routes.plan) }

  predicate Building(plan: Option<PlanRoute>) { plan.Some? && plan.value.window.Wizard? }

  /** A mark or a keeper set in the group view: `browser_mark`, `browser_set_keeper`. */
  function GroupMarked(s: State, index: nat): State
  {
    if PlanIsBuilding(s) || s.view.open.None? || index >= |s.view.open.value.rows| || s.view.current.None? then s
    else
      var (t, req) := Sent(s, SetMarks(s.view.installed));
      if req.None? then t
      else
        var origin := WizardGroup(s.view.open.value.id, s.view.open.value.rows);
        t.(marks := t.marks.(pending := t.marks.pending[req.value := origin]))
  }

  /** A mark, or a clearing of all marks, in the commander. */
  function CommanderMarked(s: State): State
  {
    var (t, req) := Sent(s, SetMarks(s.view.installed));
    if req.None? then t else t.(marks := t.marks.(pending := t.marks.pending[req.value := CommanderMark]))
  }

  /** `browser_auto`. */
  function SweepAsked(s: State): State
  {
    if PlanIsBuilding(s) || s.view.current.None? || s.marks.sweep.Some? then s
    else
      var (t, req) := Sent(s, AutoSelect(s.view.installed));
      if req.None? then t else t.(marks := t.marks.(sweep := req))
  }

  /** `plan_gate_refusal` has nothing to say. */
  predicate Calm(m: Marks) { m.pending == map[] && m.sweep.None? && m.gate.Settled? }

  /** `open_review`, and the commander's request for a plan. */
  function PlanAsked(s: State, window: PlanWindow): State
  {
    if (window.Wizard? && s.view.current.None?) || !Calm(s.marks) then s
    else
      var (t, req) := Sent(s, BuildPlan(s.view.installed, Calm(s.marks)));
      if req.None? then t else t.(routes := t.routes.(plan := Some(PlanRoute(req.value, window))))
  }

  /** `start_gate_reload`: the count and the rows of the open group are read again, and planning waits. */
  function ReloadStarted(s: State): State
  {
    var (t, marked) := MarkedAsked(s);
    var id := if t.view.open.None? then None else FindRank(t.view.groups, t.view.open.value.id.rank);
    var (u, group) := if id.None? then (t, None) else PageAsked(t, BrowserReload(id.value));
    if marked.Some? then
      u.(marks := u.marks.(gate := Reloading(s.view.installed, marked.value, group, false, group.None?)),
         log := u.log.(reload := Some(Reads(marked.value, group))))
    else u.(marks := u.marks.(gate := Blocked, unsettled := true), log := u.log.(reload := None))
  }

  /** `settle_gate_marked` and `settle_gate_group`, each about its half of the reload. */
  function GateAfter(m: Marks, installed: nat, req: nat, ok: bool, group: bool): Marks
  {
    if !m.gate.Reloading? || m.gate.act != installed then m
    else if (if group then m.gate.group != Some(req) else m.gate.marked != req) then m
    else if !ok then m.(gate := Blocked, unsettled := true)
    else
      var gate := if group then m.gate.(groupOk := true) else m.gate.(markedOk := true);
      m.(gate := if gate.markedOk && gate.groupOk then Settled else gate)
  }

  /** `raise_unsettled` and the other refusals that keep planning shut. */
  function GateBlocked(s: State): State { s.(marks := s.marks.(gate := Blocked, unsettled := true)) }

  /** `restore_mark_origin`: the rows as they were before the mark, in whatever group is open. */
  function Restored(s: State, origin: Origin): State
  {
    if origin.WizardGroup? && s.view.open.Some? then
      s.(view := s.view.(open := Some(s.view.open.value.(rows := origin.before))))
    else s
  }

  /** `uninstall_browsing`. */
  function Uninstalled(s: State): State
  {
    s.(view := View(s.view.installed, None, [], None, 0, false, None, None, map[], map[]), marks := s.marks.(gate := Blocked))
  }

  // === Replies ===

  datatype Answer =
    | Opened(groups: seq<GroupId>)
    | Page(id: GroupId, total: nat)
    | Number(count: nat)
    | Done
    | Partial
    | Unreadable(lost: bool)
    | Refused
    | Lost

  /** One page of a group from an offset on. */
  function PageOf(members: Members, id: GroupId, offset: nat): seq<File>
  {
    var all := members(id);
    if offset >= |all| then [] else if offset + PAGE <= |all| then all[offset..offset + PAGE] else all[offset..]
  }

  predicate DistinctRanks(groups: seq<GroupId>)
  {
    forall i, j :: 0 <= i < j < |groups| ==> groups[i].rank != groups[j].rank
  }

  /** `on_open_finished` and `install_opened`. */
  function OpenAnswered(s: State, req: nat, a: Answer): State
  {
    if s.routes.open.None? || s.routes.open.value.req != req then s
    else
      var route, t := s.routes.open.value, s.(routes := s.routes.(open := None));
      if a.Lost? then Uninstalled(t)
      else if a.Opened? then
        var u := t.(view := View(route.act, Some(route.scan), a.groups, None, t.view.total, t.view.full, Some(req), None, map[], map[]),
                    marks := t.marks.(gate := Settled), log := t.log.(catalogue := t.log.catalogue[route.act := a.groups]));
        if a.groups == [] then u else GroupSelected(u, 0)
      else t
  }

  /** `install_open_group`. */
  function GroupInstalled(v: View, members: Members, id: GroupId, total: nat, req: nat): View
  {
    var rows := PageOf(members, id, 0);
    v.(open := Some(OpenGroup(id, rows, [req])), total := total, full := |rows| >= MOST)
  }

  /** `append_open_group`: a page for a group that was left, or for another end of it, changes nothing. */
  function Appended(v: View, members: Members, id: GroupId, loaded: nat, req: nat): View
  {
    if v.open.None? || v.open.value.id.rank != id.rank || |v.open.value.rows| != loaded then v
    else
      var page := PageOf(members, id, loaded);
      if page == [] then v.(full := true)
      else
        var rows := v.open.value.rows + page;
        v.(open := Some(v.open.value.(rows := rows, pages := v.open.value.pages + [req])),
           full := v.full || |rows| >= MOST || |rows| >= v.total)
  }

  function Watched(watch: map<nat, Option<nat>>, panel: nat, req: Option<nat>): map<nat, Option<nat>>
  {
    if panel in watch then watch[panel := req] else watch
  }

  /** `on_group`. */
  function PageAnswered(s: State, members: Members, req: nat, act: nat, a: Answer): State
  {
    if req !in s.routes.groups then s
    else
      var purpose, t := s.routes.groups[req], s.(routes := s.routes.(groups := s.routes.groups - {req}));
      if act != s.view.installed then t
      else if a.Lost? then Uninstalled(t)
      else if !a.Page? then PageMissed(t, purpose, req)
      else if a.id != purpose.id then t
      else PageTaken(t, members, purpose, req, a.total)
  }

  function PageMissed(s: State, purpose: Purpose, req: nat): State
  {
    if purpose.Watch? then s.(view := s.view.(watch := Watched(s.view.watch, purpose.panel, None)))
    else
      s.(view := s.view.(open := None),
         marks := if purpose.BrowserReload? then GateAfter(s.marks, s.view.installed, req, false, true) else s.marks)
  }

  function PageTaken(s: State, members: Members, purpose: Purpose, req: nat, total: nat): State
  {
    if purpose.BrowserOpen? then s.(view := GroupInstalled(s.view, members, purpose.id, total, req))
    else if purpose.BrowserMore? then s.(view := Appended(s.view, members, purpose.id, purpose.loaded, req))
    else if purpose.Watch? then s.(view := s.view.(watch := Watched(s.view.watch, purpose.panel, Some(req))))
    else
      s.(view := GroupInstalled(s.view, members, purpose.id, total, req), log := s.log.(answered := s.log.answered + {req}),
         marks := GateAfter(s.marks, s.view.installed, req, true, true))
  }

  /** `on_group_count`. */
  function CountAnswered(s: State, req: nat, act: nat, a: Answer): State
  {
    if req !in s.routes.counts then s
    else
      var id, t := s.routes.counts[req], s.(routes := s.routes.(counts := s.routes.counts - {req}));
      if act != s.view.installed then t
      else if a.Lost? then Uninstalled(t)
      else if a.Number? && t.view.open.Some? && t.view.open.value.id.rank == id.rank then t.(view := t.view.(total := a.count))
      else t
  }

  /** `on_marked_count`. */
  function MarkedAnswered(s: State, req: nat, act: nat, a: Answer): State
  {
    if s.routes.marked != Some(req) then s
    else
      var t := s.(routes := s.routes.(marked := None));
      if act != s.view.installed then t
      else if a.Lost? then Uninstalled(t)
      else if a.Number? then
        t.(view := t.view.(marked := Some(req)), log := t.log.(answered := t.log.answered + {req}),
           marks := GateAfter(t.marks, t.view.installed, req, true, false))
      else t.(view := t.view.(marked := None), marks := GateAfter(t.marks, t.view.installed, req, false, false))
  }

  /** `on_dir_group_opened` and `on_dir_group_at`. */
  function DirAnswered(s: State, req: nat, act: nat, a: Answer): State
  {
    if req !in s.routes.dirs then s
    else
      var purpose, t := s.routes.dirs[req], s.(routes := s.routes.(dirs := s.routes.dirs - {req}));
      if act != s.view.installed then t
      else if a.Lost? then Uninstalled(t)
      else t.(view := DirShown(t.view, purpose, if a.Done? then Some(req) else None))
  }

  function DirShown(v: View, purpose: DirPurpose, shown: Option<nat>): View
  {
    if purpose.WizardDirs? then v.(dir := shown)
    else if purpose.WatchDir? && shown.Some? then v.(watchDir := Watched(v.watchDir, purpose.panel, shown))
    else v.(watch := Watched(v.watch, purpose.panel, shown))
  }

  /** `on_mark_ack`. */
  function MarkAnswered(s: State, req: nat, act: nat, a: Answer): State
  {
    var t := s.(marks := s.marks.(pending := s.marks.pending - {req}));
    if act != s.view.installed then t
    else
      var u := if a.Unreadable? && req in s.marks.pending then Restored(t, s.marks.pending[req]) else t;
      MarkedAsked(if a.Lost? || (a.Unreadable? && a.lost) then Uninstalled(u) else u).0
  }

  /** `on_auto_select_done`. */
  function SweepAnswered(s: State, req: nat, act: nat, a: Answer): State
  {
    var t := if s.marks.sweep == Some(req) then s.(marks := s.marks.(sweep := None)) else s;
    if act != s.view.installed then t
    else if a.Lost? then Uninstalled(t)
    else if a.Done? || a.Partial? then ReloadStarted(t.(marks := t.marks.(unsettled := a.Partial?)))
    else t
  }

  /** `on_plan_ready` and `on_plan_refused`. */
  function PlanAnswered(s: State, req: nat): State
  {
    if s.routes.plan.Some? && s.routes.plan.value.req == req then s.(routes := s.routes.(plan := None)) else s
  }

  /** `on_browse`: a reply carries the number and the activation of the request it answers. */
  function Answered(s: State, members: Members, req: nat, a: Answer): State
    requires req in s.log.sent
  {
    var r := s.log.sent[req];
    if r.Open? then OpenAnswered(s, req, a)
    else if r.GroupOpen? then PageAnswered(s, members, req, r.act, a)
    else if r.GroupCount? then CountAnswered(s, req, r.act, a)
    else if r.MarkedCount? then MarkedAnswered(s, req, r.act, a)
    else if r.DirOpen? then DirAnswered(s, req, r.act, a)
    else if r.SetMarks? then MarkAnswered(s, req, r.act, a)
    else if r.AutoSelect? then SweepAnswered(s, req, r.act, a)
    else PlanAnswered(s, req)
  }

  // === Every run ===

  datatype Event =
    | OpenScan(scan: nat) | SelectGroup(index: nat) | LoadMore(cursor: nat) | AskDir(dirFor: DirPurpose)
    | WatchGroup(panel: nat, group: GroupId) | WatchPanels(panels: set<nat>) | WatchSource(panel: nat)
    | MarkGroup(index: nat) | MarkCommander | Sweep | Plan(window: PlanWindow)
    | Accept(on: bool) | Rewritten | Recount | Block | Strand(req: nat) | StrandSweep | DropOpen
    | Reply(req: nat, answer: Answer)
  {
    predicate Elsewhere() { Accept? || Rewritten? || Recount? || Block? || Strand? || StrandSweep? || DropOpen? }

    predicate Operators() { !Reply? && !Elsewhere() }
  }

  function Apply(members: Members, s: State, e: Event): State
  {
    if e.Reply? then if e.req in s.log.sent then Answered(s, members, e.req, e.answer) else s
    else if e.Elsewhere() then Disturbed(s, e)
    else Acted(s, e)
  }

  /** What the operator asks for. */
  function Acted(s: State, e: Event): State
    requires e.Operators()
  {
    if e.OpenScan? then OpenAsked(s, e.scan)
    else if e.SelectGroup? then GroupSelected(s, e.index)
    else if e.LoadMore? then MoreAsked(s, e.cursor)
    else if e.AskDir? then DirAsked(s, e.dirFor)
    else if e.WatchGroup? then PageAsked(s, Watch(e.panel, e.group)).0
    else if e.WatchPanels? then
      s.(view := s.view.(watch := map p | p in e.panels :: None, watchDir := map p | p in e.panels :: None))
    else if e.WatchSource? then s.(view := s.view.(watch := Watched(s.view.watch, e.panel, None)))
    else if e.MarkGroup? then GroupMarked(s, e.index)
    else if e.MarkCommander? then CommanderMarked(s)
    else if e.Sweep? then SweepAsked(s)
    else PlanAsked(s, e.window)
  }

  /** What comes from elsewhere: a batch that rewrote the marks, left them as they were or could not settle
      them, and what the retirement of an actor leaves unanswered. */
  function Disturbed(s: State, e: Event): State
    requires e.Elsewhere()
  {
    if e.Accept? then s.(accepting := e.on)
    else if e.Rewritten? then ReloadStarted(s)
    else if e.Recount? then MarkedAsked(s).0
    else if e.Block? then GateBlocked(s)
    else if e.Strand? then
      if e.req !in s.marks.pending then s
      else GateBlocked(Restored(s.(marks := s.marks.(pending := s.marks.pending - {e.req})), s.marks.pending[e.req]))
    else if e.StrandSweep? then GateBlocked(s.(marks := s.marks.(sweep := None)))
    else s.(routes := s.routes.(open := None))
  }

  function Run(members: Members, s: State, events: seq<Event>): State
    decreases |events|
  {
    if events == [] then s else Run(members, Apply(members, s, events[0]), events[1..])
  }

  // === The application, its fields changed in place ===

  class App {
    var view: View
    var routes: Routes
    var marks: Marks
    var next: nat
    var accepting: bool
    ghost var sent: map<nat, Request>
    ghost var answered: set<nat>
    ghost var reload: Option<Reads>
    ghost var catalogue: map<nat, seq<GroupId>>

    ghost function Now(): State
      reads this
    {
      State(view, routes, marks, Log(next, sent, answered, reload, catalogue), accepting)
    }

    constructor ()
      ensures Now() == INITIAL
    {
      view, routes := INITIAL.view, INITIAL.routes;
      marks, next, accepting := INITIAL.marks, 0, true;
      sent, answered, reload, catalogue := map[], {}, None, map[0 := []];
    }

    method SendBrowse(r: Request) returns (req: Option<nat>)
      modifies this`next, this`sent
      ensures (Now(), req) == Sent(old(Now()), r)
    {
      if !accepting {
        return None;
      }
      req := Some(next);
      sent := sent[next := r];
      next := next + 1;
    }

    method OpenViaActor(scan: nat)
      modifies this
      ensures Now() == OpenAsked(old(Now()), scan)
    {
      if routes.open.Some? {
        return;
      }
      var act := view.installed + 1;
      var req := SendBrowse(Open(act, scan));
      if req.Some? {
        routes := routes.(open := Some(Opening.Route(req.value, act, scan)));
      }
    }

    method AskPage(purpose: Purpose) returns (req: Option<nat>)
      modifies this
      ensures (Now(), req) == PageAsked(old(Now()), purpose)
    {
      var offset := if purpose.BrowserMore? then purpose.loaded else 0;
      req := SendBrowse(GroupOpen(view.installed, purpose.id, offset));
      if req.Some? {
        routes := routes.(groups := routes.groups[req.value := purpose]);
      }
    }

    method OpenSelectedGroup(index: nat)
      modifies this
      ensures Now() == GroupSelected(old(Now()), index)
    {
      if index >= |view.groups| {
        view := view.(open := None);
        return;
      }
      var id := view.groups[index];
      var _ := AskPage(BrowserOpen(id));
      var req := SendBrowse(GroupCount(view.installed, id));
      if req.Some? {
        routes := routes.(counts := routes.counts[req.value := id]);
      }
    }

    method GroupOfRank(rank: nat) returns (id: Option<GroupId>)
      ensures id == FindRank(view.groups, rank)
    {
      for i := 0 to |view.groups|
        invariant FindRank(view.groups, rank) == FindRank(view.groups[i..], rank)
      {
        assert view.groups[i..][1..] == view.groups[i + 1..];
        if view.groups[i].rank == rank {
          return Some(view.groups[i]);
        }
      }
      id := None;
    }

    method MaybeLoadMoreFiles(cursor: nat)
      modifies this
      ensures Now() == MoreAsked(old(Now()), cursor)
    {
      if view.full || view.open.None? {
        return;
      }
      var loaded := |view.open.value.rows|;
      if loaded >= view.total {
        return;
      }
      if loaded >= MOST {
        view := view.(full := true);
        return;
      }
      if cursor + PAGE < loaded || exists r | r in routes.groups :: routes.groups[r].BrowserMore? {
        return;
      }
      var id := GroupOfRank(view.open.value.id.rank);
      if id.Some? {
        var _ := AskPage(BrowserMore(id.value, loaded));
      }
    }

    method RefreshMarkedCount() returns (req: Option<nat>)
      modifies this
      ensures (Now(), req) == MarkedAsked(old(Now()))
    {
      view := view.(marked := None);
      if view.current.None? {
        return None;
      }
      req := SendBrowse(MarkedCount(view.installed));
      routes := routes.(marked := req);
    }

    method StartGateReload()
      modifies this
      ensures Now() == ReloadStarted(old(Now()))
    {
      hide FindRank;
      var marked := RefreshMarkedCount();
      var group: Option<nat> := None;
      if view.open.Some? {
        var id := GroupOfRank(view.open.value.id.rank);
        if id.Some? {
          group := AskPage(BrowserReload(id.value));
        }
      }
      if marked.Some? {
        marks := marks.(gate := Reloading(view.installed, marked.value, group, false, group.None?));
        reload := Some(Reads(marked.value, group));
      } else {
        marks := marks.(gate := Blocked, unsettled := true);
        reload := None;
      }
    }

    method SettleGate(req: nat, ok: bool, group: bool)
      modifies this`marks
      ensures marks == GateAfter(old(marks), view.installed, req, ok, group)
    {
      if !marks.gate.Reloading? || marks.gate.act != view.installed {
        return;
      }
      if (group && marks.gate.group != Some(req)) || (!group && marks.gate.marked != req) {
        return;
      }
      if !ok {
        marks := marks.(gate := Blocked, unsettled := true);
        return;
      }
      if group {
        marks := marks.(gate := marks.gate.(groupOk := true));
      } else {
        marks := marks.(gate := marks.gate.(markedOk := true));
      }
      if marks.gate.markedOk && marks.gate.groupOk {
        marks := marks.(gate := Settled);
      }
    }

    method OnMarkedCount(req: nat, act: nat, a: Answer)
      modifies this
      ensures Now() == MarkedAnswered(old(Now()), req, act, a)
    {
      if routes.marked != Some(req) {
        return;
      }
      routes := routes.(marked := None);
      if act != view.installed {
        return;
      }
      if a.Lost? {
        UninstallBrowsing();
      } else if a.Number? {
        view := view.(marked := Some(req));
        answered := answered + {req};
        SettleGate(req, true, false);
      } else {
        view := view.(marked := None);
        SettleGate(req, false, false);
      }
    }

    method UninstallBrowsing()
      modifies this`view, this`marks
      ensures Now() == Uninstalled(old(Now()))
    {
      view := View(view.installed, None, [], None, 0, false, None, None, map[], map[]);
      marks := marks.(gate := Blocked);
    }

    method OnOpenFinished(req: nat, a: Answer)
      modifies this
      ensures Now() == OpenAnswered(old(Now()), req, a)
    {
      hide GroupSelected;
      if routes.open.None? || routes.open.value.req != req {
        return;
      }
      var route := routes.open.value;
      routes := routes.(open := None);
      if a.Lost? {
        UninstallBrowsing();
      } else if a.Opened? {
        view := View(route.act, Some(route.scan), a.groups, None, view.total, view.full, Some(req), None, map[], map[]);
        marks := marks.(gate := Settled);
        catalogue := catalogue[route.act := a.groups];
        if a.groups != [] {
          OpenSelectedGroup(0);
        }
      }
    }

    method OnGroup(members: Members, req: nat, act: nat, a: Answer)
      modifies this
      ensures Now() == PageAnswered(old(Now()), members, req, act, a)
    {
      hide PageOf, GateAfter, Appended;
      if req !in routes.groups {
        return;
      }
      var purpose := routes.groups[req];
      routes := routes.(groups := routes.groups - {req});
      if act != view.installed {
        return;
      }
      if a.Lost? {
        UninstallBrowsing();
      } else if !a.Page? {
        if purpose.Watch? {
          view := view.(watch := Watched(view.watch, purpose.panel, None));
        } else {
          if purpose.BrowserReload? {
            SettleGate(req, false, true);
          }
          view := view.(open := None);
        }
      } else if a.id == purpose.id {
        if purpose.BrowserOpen? {
          InstallOpenGroup(members, purpose.id, a.total, req);
        } else if purpose.BrowserMore? {
          AppendOpenGroup(members, purpose.id, purpose.loaded, req);
        } else if purpose.Watch? {
          view := view.(watch := Watched(view.watch, purpose.panel, Some(req)));
        } else {
          InstallOpenGroup(members, purpose.id, a.total, req);
          answered := answered + {req};
          SettleGate(req, true, true);
        }
      }
    }

    method InstallOpenGroup(members: Members, id: GroupId, total: nat, req: nat)
      modifies this`view
      ensures view == GroupInstalled(old(view), members, id, total, req)
    {
      var rows := PageOf(members, id, 0);
      view := view.(open := Some(OpenGroup(id, rows, [req])), total := total, full := |rows| >= MOST);
    }

    method AppendOpenGroup(members: Members, id: GroupId, loaded: nat, req: nat)
      modifies this`view
      ensures view == Appended(old(view), members, id, loaded, req)
    {
      if view.open.None? || view.open.value.id.rank != id.rank || |view.open.value.rows| != loaded {
        return;
      }
      var page := PageOf(members, id, loaded);
      if page == [] {
        view := view.(full := true);
        return;
      }
      view := view.(open := Some(view.open.value.(rows := view.open.value.rows + page, pages := view.open.value.pages + [req])));
      if |view.open.value.rows| >= MOST || |view.open.value.rows| >= view.total {
        view := view.(full := true);
      }
    }

    method BrowserMark(index: nat)
      modifies this
      ensures Now() == GroupMarked(old(Now()), index)
    {
      if Building(routes.plan) || view.open.None? || index >= |view.open.value.rows| || view.current.None? {
        return;
      }
      var origin := WizardGroup(view.open.value.id, view.open.value.rows);
      var req := SendBrowse(SetMarks(view.installed));
      if req.Some? {
        marks := marks.(pending := marks.pending[req.value := origin]);
      }
    }

    method OpenReview()
      modifies this
      ensures Now() == PlanAsked(old(Now()), Wizard)
    {
      if view.current.None? || marks.pending != map[] || marks.sweep.Some? || !marks.gate.Settled? {
        return;
      }
      var req := SendBrowse(BuildPlan(view.installed, true));
      if req.Some? {
        routes := routes.(plan := Some(PlanRoute(req.value, Wizard)));
      }
    }

    method OnMarkAck(req: nat, act: nat, a: Answer)
      modifies this
      ensures Now() == MarkAnswered(old(Now()), req, act, a)
    {
      hide MarkedAsked;
      var origin := if req in marks.pending then Some(marks.pending[req]) else None;
      marks := marks.(pending := marks.pending - {req});
      if act != view.installed {
        return;
      }
      if a.Unreadable? && origin.Some? && origin.value.WizardGroup? && view.open.Some? {
        view := view.(open := Some(view.open.value.(rows := origin.value.before)));
      }
      if a.Lost? || (a.Unreadable? && a.lost) {
        UninstallBrowsing();
      }
      var _ := RefreshMarkedCount();
    }
  }

  // === What every step keeps ===

  predicate LogOk(log: Log, installed: nat)
  {
    && (forall r :: r in log.sent ==> r < log.next && (log.sent[r].Open? || log.sent[r].act <= installed))
    && (forall r :: r in log.sent && log.sent[r].BuildPlan? ==> log.sent[r].calm)
    && (forall r :: r in log.answered ==> r in log.sent)
    && installed in log.catalogue
    && (forall a :: a in log.catalogue ==> a <= installed)
  }

  /** The request asked for what its route says, and the browser's groups were on the list then shown. */
  predicate PurposeOk(log: Log, r: nat, p: Purpose)
  {
    && r in log.sent
    && log.sent[r] == GroupOpen(log.sent[r].act, p.id, if p.BrowserMore? then p.loaded else 0)
    && (!p.Watch? ==> log.sent[r].act in log.catalogue && p.id in log.catalogue[log.sent[r].act])
    && (p.BrowserMore? ==> p.loaded < MOST)
  }

  predicate RoutesOk(routes: Routes, log: Log, installed: nat)
  {
    && (routes.open.Some? ==>
          var o := routes.open.value; o.act == installed + 1 && o.req in log.sent && log.sent[o.req] == Open(o.act, o.scan))
    && (forall r :: r in routes.groups ==> PurposeOk(log, r, routes.groups[r]))
  }

  predicate Stamped(log: Log, act: nat, req: Option<nat>)
  {
    req.Some? ==> req.value in log.sent && log.sent[req.value].act == act
  }

  /** Everything shown answers a request of the installed activation. */
  predicate ViewOk(v: View, log: Log)
  {
    && v.installed in log.catalogue
    && (v.groups == [] || v.groups == log.catalogue[v.installed])
    && (v.open.Some? ==>
          && v.open.value.id in log.catalogue[v.installed] && v.open.value.pages != []
          && forall r :: r in v.open.value.pages ==> Stamped(log, v.installed, Some(r)))
    && Stamped(log, v.installed, v.marked) && Stamped(log, v.installed, v.dir)
    && (forall p :: p in v.watch ==> Stamped(log, v.installed, v.watch[p]))
    && (forall p :: p in v.watchDir ==> Stamped(log, v.installed, v.watchDir[p]))
  }

  predicate ReadOk(log: Log, act: nat, req: nat, ok: bool)
  {
    req in log.sent && log.sent[req].act == act && (ok ==> req in log.answered)
  }

  /** A reload waits for the reads of the last one, and counts only what they brought; a plan the group
      view waits for was asked for in a calm moment, and nothing of its own has disturbed it since. */
  predicate MarksOk(m: Marks, plan: Option<PlanRoute>, log: Log, installed: nat)
  {
    && (m.gate.Reloading? ==>
          && m.gate.act == installed && log.reload == Some(Reads(m.gate.marked, m.gate.group))
          && ReadOk(log, installed, m.gate.marked, m.gate.markedOk)
          && (if m.gate.group.None? then m.gate.groupOk else ReadOk(log, installed, m.gate.group.value, m.gate.groupOk)))
    && (plan.Some? ==> plan.value.req in log.sent && log.sent[plan.value.req] == BuildPlan(log.sent[plan.value.req].act, true))
    && (plan.Some? && plan.value.window.Wizard? ==>
          m.sweep.None? && forall r :: r in m.pending ==> m.pending[r].CommanderMark?)
  }

  predicate Invariant(s: State)
  {
    && LogOk(s.log, s.view.installed) && RoutesOk(s.routes, s.log, s.view.installed)
    && ViewOk(s.view, s.log) && MarksOk(s.marks, s.routes.plan, s.log, s.view.installed)
  }

  /** The log only ever grows. */
  predicate Grows(l: Log, m: Log)
  {
    && l.next <= m.next
    && (forall r :: r in l.sent ==> r in m.sent && m.sent[r] == l.sent[r])
    && (forall r :: r in l.answered ==> r in m.answered)
    && (forall a :: a in l.catalogue ==> a in m.catalogue && m.catalogue[a] == l.catalogue[a])
  }

  lemma RoutesGrow(routes: Routes, l: Log, m: Log, installed: nat)
    requires RoutesOk(routes, l, installed) && Grows(l, m)
    ensures RoutesOk(routes, m, installed)
  {
    forall r | r in routes.groups ensures PurposeOk(m, r, routes.groups[r]) {
      assert PurposeOk(l, r, routes.groups[r]);
    }
  }

  lemma ViewGrows(v: View, l: Log, m: Log)
    requires ViewOk(v, l) && Grows(l, m)
    ensures ViewOk(v, m)
  {
  }

  lemma MarksGrow(marks: Marks, plan: Option<PlanRoute>, l: Log, m: Log, installed: nat)
    requires MarksOk(marks, plan, l, installed) && Grows(l, m) && m.reload == l.reload
    ensures MarksOk(marks, plan, m, installed)
  {
  }

  /** Sending leaves everything as it was but the log, which gains the request. */
  lemma SendKeeps(s: State, r: Request)
    requires Invariant(s) && (r.Open? || r.act <= s.view.installed) && (r.BuildPlan? ==> r.calm)
    ensures var (t, req) := Sent(s, r);
            && Invariant(t) && t == s.(log := t.log) && t.log.answered == s.log.answered && t.log.reload == s.log.reload
            && t.log.catalogue == s.log.catalogue && Grows(s.log, t.log)
            && (req.Some? ==> req.value !in s.log.sent && req.value in t.log.sent && t.log.sent[req.value] == r)
  {
    var (t, req) := Sent(s, r);
    RoutesGrow(s.routes, s.log, t.log, s.view.installed);
    ViewGrows(s.view, s.log, t.log);
    MarksGrow(s.marks, s.routes.plan, s.log, t.log, s.view.installed);
    hide RoutesOk, ViewOk, MarksOk;
  }

  lemma PageAskedKeeps(s: State, p: Purpose)
    requires Invariant(s) && (!p.Watch? ==> p.id in s.log.catalogue[s.view.installed]) && (p.BrowserMore? ==> p.loaded < MOST)
    ensures var (t, req) := PageAsked(s, p);
            && Invariant(t) && t == s.(log := t.log, routes := s.routes.(groups := t.routes.groups))
            && t.log.answered == s.log.answered && t.log.reload == s.log.reload && t.log.catalogue == s.log.catalogue
            && Grows(s.log, t.log)
            && (req.Some? ==> req.value !in s.log.sent && req.value in t.log.sent
                              && t.log.sent[req.value].act == s.view.installed)
  {
    var r := GroupOpen(s.view.installed, p.id, if p.BrowserMore? then p.loaded else 0);
    SendKeeps(s, r);
    var (t, req) := Sent(s, r);
    hide Sent, ViewOk, MarksOk, Grows;
    if req.Some? {
      assert PurposeOk(t.log, req.value, p);
      var routes := t.routes.(groups := t.routes.groups[req.value := p]);
      assert RoutesOk(routes, t.log, s.view.installed);
    }
  }

  lemma MarkedAskedKeeps(s: State)
    requires Invariant(s)
    ensures var (t, req) := MarkedAsked(s);
            && Invariant(t)
            && t == s.(log := t.log, view := s.view.(marked := None), routes := s.routes.(marked := t.routes.marked))
            && t.log.answered == s.log.answered && t.log.reload == s.log.reload && t.log.catalogue == s.log.catalogue
            && Grows(s.log, t.log)
            && (req.Some? ==> req.value !in s.log.sent && req.value in t.log.sent
                              && t.log.sent[req.value].act == s.view.installed)
  {
    var t := s.(view := s.view.(marked := None));
    assert Invariant(t);
    SendKeeps(t, MarkedCount(s.view.installed));
    var (u, req) := Sent(t, MarkedCount(s.view.installed));
    assert RoutesOk(u.routes.(marked := req), u.log, s.view.installed);
    hide Sent, RoutesOk, ViewOk, MarksOk, LogOk, Grows;
  }

  lemma UninstallKeeps(s: State)
    requires Invariant(s)
    ensures Invariant(Uninstalled(s))
  {
    hide LogOk, RoutesOk;
  }

  lemma SelectKeeps(s: State, index: nat)
    requires Invariant(s)
    ensures Invariant(GroupSelected(s, index))
  {
    if index < |s.view.groups| {
      var id := s.view.groups[index];
      PageAskedKeeps(s, BrowserOpen(id));
      var t := PageAsked(s, BrowserOpen(id)).0;
      SendKeeps(t, GroupCount(s.view.installed, id));
      var (u, req) := Sent(t, GroupCount(s.view.installed, id));
      hide Sent, PageAsked, LogOk, ViewOk, MarksOk;
      if req.Some? {
        assert RoutesOk(u.routes.(counts := u.routes.counts[req.value := id]), u.log, u.view.installed);
      }
    } else {
      hide LogOk, RoutesOk, MarksOk;
    }
  }

  lemma ReloadKeeps(s: State)
    requires Invariant(s)
    ensures Invariant(ReloadStarted(s))
  {
    MarkedAskedKeeps(s);
    var (t, marked) := MarkedAsked(s);
    var id := if t.view.open.None? then None else FindRank(t.view.groups, t.view.open.value.id.rank);
    if id.Some? {
      PageAskedKeeps(t, BrowserReload(id.value));
    }
    var (u, group) := if id.None? then (t, None) else PageAsked(t, BrowserReload(id.value));
    var m := u.marks.(gate := if marked.Some? then Reloading(s.view.installed, marked.value, group, false, group.None?) else Blocked,
                      unsettled := u.marks.unsettled || marked.None?);
    var log := u.log.(reload := if marked.Some? then Some(Reads(marked.value, group)) else None);
    ReloadWaits(s, u, marked, group, m, log);
    RoutesGrow(u.routes, u.log, log, s.view.installed);
    ViewGrows(u.view, u.log, log);
    assert ReloadStarted(s) == u.(marks := m, log := log);
    assert LogOk(log, s.view.installed);
    hide ReloadStarted, MarkedAsked, PageAsked, LogOk, RoutesOk, ViewOk, MarksOk, FindRank, Grows;
  }

  lemma ReloadWaits(s: State, u: State, marked: Option<nat>, group: Option<nat>, m: Marks, log: Log)
    requires MarksOk(u.marks, u.routes.plan, u.log, s.view.installed)
    requires m == u.marks.(gate := m.gate, unsettled := m.unsettled) && log == u.log.(reload := log.reload)
    requires marked.Some? ==>
               && m.gate == Reloading(s.view.installed, marked.value, group, false, group.None?)
               && log.reload == Some(Reads(marked.value, group))
               && marked.value in u.log.sent && u.log.sent[marked.value].act == s.view.installed
               && (group.Some? ==> group.value in u.log.sent && u.log.sent[group.value].act == s.view.installed)
    requires marked.None? ==> m.gate.Blocked?
    ensures MarksOk(m, u.routes.plan, log, s.view.installed)
  {
  }

  lemma OpenAskedKeeps(s: State, scan: nat)
    requires Invariant(s)
    ensures Invariant(OpenAsked(s, scan))
  {
    if s.routes.open.None? {
      SendKeeps(s, Open(s.view.installed + 1, scan));
      hide Sent, LogOk, ViewOk, MarksOk, Grows;
    }
  }

  lemma MoreAskedKeeps(s: State, cursor: nat)
    requires Invariant(s)
    ensures Invariant(MoreAsked(s, cursor))
  {
    if s.view.open.Some? {
      var id := FindRank(s.view.groups, s.view.open.value.id.rank);
      if id.Some? && |s.view.open.value.rows| < MOST {
        PageAskedKeeps(s, BrowserMore(id.value, |s.view.open.value.rows|));
      }
    }
    hide PageAsked, LogOk, RoutesOk, MarksOk;
  }

  lemma DirAskedKeeps(s: State, purpose: DirPurpose)
    requires Invariant(s)
    ensures Invariant(DirAsked(s, purpose))
  {
    SendKeeps(s, DirOpen(s.view.installed));
    hide Sent, LogOk, ViewOk, MarksOk, Grows;
  }

  lemma MarkKeeps(s: State, origin: Origin)
    requires Invariant(s) && (PlanIsBuilding(s) ==> origin.CommanderMark?)
    ensures var (t, req) := Sent(s, SetMarks(s.view.installed));
            req.Some? ==> Invariant(t.(marks := t.marks.(pending := t.marks.pending[req.value := origin])))
  {
    SendKeeps(s, SetMarks(s.view.installed));
    hide Sent, LogOk, ViewOk, RoutesOk, Grows;
  }

  lemma MarksAskedKeeps(s: State, e: Event)
    requires Invariant(s) && (e.MarkGroup? || e.MarkCommander?)
    ensures Invariant(Acted(s, e))
  {
    SendKeeps(s, SetMarks(s.view.installed));
    if e.MarkCommander? {
      MarkKeeps(s, CommanderMark);
    } else if !PlanIsBuilding(s) && s.view.open.Some? {
      MarkKeeps(s, WizardGroup(s.view.open.value.id, s.view.open.value.rows));
    }
    hide Sent, Invariant, Grows;
  }

  lemma SweepAskedKeeps(s: State)
    requires Invariant(s)
    ensures Invariant(SweepAsked(s))
  {
    SendKeeps(s, AutoSelect(s.view.installed));
    hide Sent, LogOk, ViewOk, RoutesOk, Grows;
  }

  lemma PlanAskedKeeps(s: State, window: PlanWindow)
    requires Invariant(s)
    ensures Invariant(PlanAsked(s, window))
  {
    if Calm(s.marks) {
      SendKeeps(s, BuildPlan(s.view.installed, true));
      var (t, req) := Sent(s, BuildPlan(s.view.installed, true));
      hide Sent, LogOk, ViewOk, Grows;
      if req.Some? {
        assert RoutesOk(t.routes.(plan := Some(PlanRoute(req.value, window))), t.log, t.view.installed);
      }
    }
  }

  lemma ActedKeeps(s: State, e: Event)
    requires Invariant(s) && e.Operators()
    ensures Invariant(Acted(s, e))
  {
    if e.OpenScan? { OpenAskedKeeps(s, e.scan); }
    else if e.SelectGroup? { SelectKeeps(s, e.index); }
    else if e.LoadMore? { MoreAskedKeeps(s, e.cursor); }
    else if e.AskDir? { DirAskedKeeps(s, e.dirFor); }
    else if e.WatchGroup? { PageAskedKeeps(s, Watch(e.panel, e.group)); }
    else if e.MarkGroup? || e.MarkCommander? { MarksAskedKeeps(s, e); }
    else if e.Sweep? { SweepAskedKeeps(s); }
    else if e.Plan? { PlanAskedKeeps(s, e.window); }
    hide OpenAsked, GroupSelected, MoreAsked, DirAsked, PageAsked, GroupMarked, CommanderMarked, SweepAsked, PlanAsked;
    hide LogOk, RoutesOk, MarksOk, Grows;
  }

  lemma DisturbedKeeps(s: State, e: Event)
    requires Invariant(s) && e.Elsewhere()
    ensures Invariant(Disturbed(s, e))
  {
    if e.Rewritten? { ReloadKeeps(s); }
    else if e.Recount? { MarkedAskedKeeps(s); }
    hide ReloadStarted, MarkedAsked, LogOk;
  }

  lemma OpenAnsweredKeeps(s: State, req: nat, a: Answer)
    requires Invariant(s)
    ensures Invariant(OpenAnswered(s, req, a))
  {
    if s.routes.open.Some? && s.routes.open.value.req == req {
      var route, t := s.routes.open.value, s.(routes := s.routes.(open := None));
      UninstallKeeps(t);
      if a.Opened? {
        InstallKeeps(t, route, a.groups, req);
        var u := Shown(t, route, a.groups, req);
        if a.groups != [] {
          SelectKeeps(u, 0);
        }
      }
    }
    hide LogOk, ViewOk, MarksOk, GroupSelected, Uninstalled;
  }

  /** What an open shows before it asks for the first group. */
  function Shown(s: State, route: Opening.Route, groups: seq<GroupId>, req: nat): State
  {
    s.(view := View(route.act, Some(route.scan), groups, None, s.view.total, s.view.full, Some(req), None, map[], map[]),
       marks := s.marks.(gate := Settled), log := s.log.(catalogue := s.log.catalogue[route.act := groups]))
  }

  lemma InstallKeeps(s: State, route: Opening.Route, groups: seq<GroupId>, req: nat)
    requires Invariant(s) && s.routes.open.None? && route.act == s.view.installed + 1
    requires req in s.log.sent && s.log.sent[req] == Open(route.act, route.scan)
    ensures Invariant(Shown(s, route, groups, req))
  {
    var t := Shown(s, route, groups, req);
    assert Grows(s.log, t.log);
    RoutesGrow(s.routes, s.log, t.log, s.view.installed);
    hide Grows;
  }

  lemma GateAfterKeeps(s: State, req: nat, ok: bool, group: bool)
    requires Invariant(s) && (ok ==> req in s.log.answered)
    ensures MarksOk(GateAfter(s.marks, s.view.installed, req, ok, group), s.routes.plan, s.log, s.view.installed)
  {
    hide LogOk, RoutesOk, ViewOk;
  }

  /** A good reply is taken in. */
  lemma AnswerKeeps(s: State, req: nat)
    requires Invariant(s) && req in s.log.sent
    ensures Invariant(s.(log := s.log.(answered := s.log.answered + {req})))
  {
    var log := s.log.(answered := s.log.answered + {req});
    assert Grows(s.log, log);
    RoutesGrow(s.routes, s.log, log, s.view.installed);
    ViewGrows(s.view, s.log, log);
    MarksGrow(s.marks, s.routes.plan, s.log, log, s.view.installed);
    hide RoutesOk, ViewOk, MarksOk;
  }

  lemma PageAnsweredKeeps(s: State, members: Members, req: nat, act: nat, a: Answer)
    requires Invariant(s) && req in s.log.sent && s.log.sent[req].act == act
    ensures Invariant(PageAnswered(s, members, req, act, a))
  {
    if req in s.routes.groups {
      var p, t := s.routes.groups[req], s.(routes := s.routes.(groups := s.routes.groups - {req}));
      assert PurposeOk(s.log, req, p);
      assert Invariant(t);
      hide Invariant;
      UninstallKeeps(t);
      if act == s.view.installed {
        PageMissedKeeps(t, p, req);
        if a.Page? {
          PageTakenKeeps(t, members, p, req, a.total);
        }
      }
      hide PurposeOk, PageMissed, PageTaken, Uninstalled;
    }
  }

  lemma PageMissedKeeps(s: State, p: Purpose, req: nat)
    requires Invariant(s)
    ensures Invariant(PageMissed(s, p, req))
  {
    GateAfterKeeps(s, req, false, true);
    hide GateAfter, LogOk, RoutesOk, MarksOk;
  }

  lemma PageTakenKeeps(s: State, members: Members, p: Purpose, req: nat, total: nat)
    requires Invariant(s) && PurposeOk(s.log, req, p) && s.log.sent[req].act == s.view.installed
    ensures Invariant(PageTaken(s, members, p, req, total))
  {
    if p.BrowserReload? {
      AnswerKeeps(s, req);
      var t := s.(log := s.log.(answered := s.log.answered + {req}));
      GateAfterKeeps(t, req, true, true);
      InstalledView(t, members, p, req, total);
    } else if p.BrowserOpen? {
      InstalledView(s, members, p, req, total);
    }
    hide GateAfter, LogOk, RoutesOk, MarksOk, GroupInstalled;
  }

  lemma InstalledView(s: State, members: Members, p: Purpose, req: nat, total: nat)
    requires Invariant(s) && PurposeOk(s.log, req, p) && s.log.sent[req].act == s.view.installed
    requires p.BrowserReload? || p.BrowserOpen?
    ensures ViewOk(GroupInstalled(s.view, members, p.id, total, req), s.log)
    ensures GroupInstalled(s.view, members, p.id, total, req).installed == s.view.installed
  {
    hide LogOk, RoutesOk, MarksOk;
  }

  lemma CountAnsweredKeeps(s: State, req: nat, act: nat, a: Answer)
    requires Invariant(s)
    ensures Invariant(CountAnswered(s, req, act, a))
  {
    if req in s.routes.counts {
      UninstallKeeps(s.(routes := s.routes.(counts := s.routes.counts - {req})));
    }
    hide LogOk, MarksOk, Uninstalled;
  }

  lemma MarkedAnsweredKeeps(s: State, req: nat, act: nat, a: Answer)
    requires Invariant(s) && req in s.log.sent && s.log.sent[req].act == act
    ensures Invariant(MarkedAnswered(s, req, act, a))
  {
    var t := s.(routes := s.routes.(marked := None));
    assert Invariant(t);
    UninstallKeeps(t);
    GateAfterKeeps(t, req, false, false);
    AnswerKeeps(t, req);
    GateAfterKeeps(t.(log := t.log.(answered := t.log.answered + {req})), req, true, false);
    hide LogOk, RoutesOk, MarksOk, GateAfter, Uninstalled;
  }

  lemma DirAnsweredKeeps(s: State, req: nat, act: nat, a: Answer)
    requires Invariant(s) && req in s.log.sent && s.log.sent[req].act == act
    ensures Invariant(DirAnswered(s, req, act, a))
  {
    if req in s.routes.dirs {
      var t := s.(routes := s.routes.(dirs := s.routes.dirs - {req}));
      assert Invariant(t);
      UninstallKeeps(t);
      var shown := if a.Done? then Some(req) else None;
      DirShownKeeps(s.view, s.log, s.routes.dirs[req], shown);
      hide LogOk, RoutesOk, MarksOk, ViewOk, Uninstalled;
      assert DirShown(s.view, s.routes.dirs[req], shown).installed == s.view.installed;
    }
  }

  lemma DirShownKeeps(v: View, log: Log, purpose: DirPurpose, shown: Option<nat>)
    requires ViewOk(v, log) && (shown.Some? ==> shown.value in log.sent)
    ensures Stamped(log, v.installed, shown) ==> ViewOk(DirShown(v, purpose, shown), log)
  {
  }

  lemma MarkAnsweredKeeps(s: State, req: nat, act: nat, a: Answer)
    requires Invariant(s)
    ensures Invariant(MarkAnswered(s, req, act, a))
  {
    var t := s.(marks := s.marks.(pending := s.marks.pending - {req}));
    assert Invariant(t);
    var u := if a.Unreadable? && req in s.marks.pending then Restored(t, s.marks.pending[req]) else t;
    assert Invariant(u);
    UninstallKeeps(u);
    hide Invariant, MarkedAsked, Grows;
    var v := if a.Lost? || (a.Unreadable? && a.lost) then Uninstalled(u) else u;
    assert MarkAnswered(s, req, act, a) == if act != s.view.installed then t else MarkedAsked(v).0;
    hide MarkAnswered, Uninstalled, Restored;
    MarkedAskedKeeps(v);
  }

  lemma SweepAnsweredKeeps(s: State, req: nat, act: nat, a: Answer)
    requires Invariant(s)
    ensures Invariant(SweepAnswered(s, req, act, a))
  {
    var t := if s.marks.sweep == Some(req) then s.(marks := s.marks.(sweep := None)) else s;
    assert Invariant(t) && Invariant(t.(marks := t.marks.(unsettled := a.Partial?)));
    hide Invariant;
    UninstallKeeps(t);
    ReloadKeeps(t.(marks := t.marks.(unsettled := a.Partial?)));
    hide Uninstalled, ReloadStarted;
  }

  lemma AnsweredKeeps(s: State, members: Members, req: nat, a: Answer)
    requires Invariant(s) && req in s.log.sent
    ensures Invariant(Answered(s, members, req, a))
  {
    var r := s.log.sent[req];
    if r.Open? { OpenAnsweredKeeps(s, req, a); }
    else if r.GroupOpen? { PageAnsweredKeeps(s, members, req, r.act, a); }
    else if r.GroupCount? { CountAnsweredKeeps(s, req, r.act, a); }
    else if r.MarkedCount? { MarkedAnsweredKeeps(s, req, r.act, a); }
    else if r.DirOpen? { DirAnsweredKeeps(s, req, r.act, a); }
    else if r.SetMarks? { MarkAnsweredKeeps(s, req, r.act, a); }
    else if r.AutoSelect? { SweepAnsweredKeeps(s, req, r.act, a); }
    hide OpenAnswered, PageAnswered, CountAnswered, MarkedAnswered, DirAnswered, MarkAnswered, SweepAnswered;
  }

  lemma ApplyKeeps(members: Members, s: State, e: Event)
    requires Invariant(s)
    ensures Invariant(Apply(members, s, e))
  {
    hide Invariant, Answered, Acted, Disturbed;
    if e.Reply? { if e.req in s.log.sent { AnsweredKeeps(s, members, e.req, e.answer); } }
    else if e.Elsewhere() { DisturbedKeeps(s, e); }
    else { ActedKeeps(s, e); }
  }
}
