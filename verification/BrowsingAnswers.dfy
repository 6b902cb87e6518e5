/** What the operator may ask for, and what the answers show of it. */
module BrowsingAnswers {
  import opened Wrappers
  import Opening
  import opened Browsing
  import opened BrowsingRuns
  import opened BrowsingReplies
  import opened BrowsingPages

  // === What is asked for ===

  /** Nothing stands against what the operator asks for. */
  predicate MayAsk(s: State, e: Event)
  {
    && s.accepting
    && (e.OpenScan? ==> s.routes.open.None?)
    && (e.SelectGroup? ==> e.index < |s.view.groups|)
    && (e.LoadMore? ==>
          NearTheEnd(s, e.cursor) && !MoreOut(s) && exists id :: id in s.view.groups && id.rank == s.view.open.value.id.rank)
    && (e.MarkGroup? ==> !PlanIsBuilding(s) && s.view.current.Some? && s.view.open.Some? && e.index < |s.view.open.value.rows|)
    && (e.Sweep? ==> !PlanIsBuilding(s) && s.view.current.Some? && s.marks.sweep.None?)
    && (e.Plan? ==> Calm(s.marks) && (e.window.Wizard? ==> s.view.current.Some?))
    && !e.WatchPanels? && !e.WatchSource?
  }

  /** What the operator does is asked for exactly if nothing stands against it, and then under the installed
      activation or, for an open, the next; what he does never closes the gate or shows anything by itself. */
  lemma AskedIff(members: Members, s: State, e: Event)
    requires e.Operators()
    ensures var t := Apply(members, s, e);
            && (t.log.next > s.log.next <==> MayAsk(s, e))
            && (MayAsk(s, e) ==> s.log.next in t.log.sent
                                 && t.log.sent[s.log.next].act == s.view.installed + if e.OpenScan? then 1 else 0)
            && t.marks.gate == s.marks.gate && t.view.installed == s.view.installed && t.view.current == s.view.current
            && (e.SelectGroup? ==> t.view == if e.index < |s.view.groups| then s.view else s.view.(open := None))
            && (e.LoadMore? ==>
                  && t.view == s.view.(full := t.view.full)
                  && (t.view.full <==> s.view.full || (s.view.open.Some? && MOST <= |s.view.open.value.rows| < s.view.total)))
  {
    if e.LoadMore? {
      MoreIffNear(members, s, e.cursor);
      if s.view.open.Some? { RankIsFound(s.view.groups, s.view.open.value.id.rank); }
      MoreAsksAsInstalled(s, e.cursor);
      hide FindRank, MoreAsked;
    } else {
      hide FindRank, MoreAsked;
    }
  }

  lemma MoreAsksAsInstalled(s: State, cursor: nat)
    ensures var t := MoreAsked(s, cursor);
            && (t.log.next > s.log.next ==> s.log.next in t.log.sent && t.log.sent[s.log.next].act == s.view.installed)
            && t.marks.gate == s.marks.gate && t.view == s.view.(full := t.view.full)
            && (t.view.full <==> s.view.full || (s.view.open.Some? && MOST <= |s.view.open.value.rows| < s.view.total))
  {
  }

  /** And what the replies are taken for is what was asked. */
  lemma AskedForIt(members: Members, s: State, e: Event)
    requires MayAsk(s, e) && e.Operators()
    ensures var t, r := Apply(members, s, e), s.log.next;
            && (e.SelectGroup? ==>
                  var id := s.view.groups[e.index];
                  && t.log.sent[r] == GroupOpen(s.view.installed, id, 0) && t.routes.groups == s.routes.groups[r := BrowserOpen(id)]
                  && t.log.sent[r + 1] == GroupCount(s.view.installed, id) && t.routes.counts == s.routes.counts[r + 1 := id])
            && (e.WatchGroup? ==>
                  t.log.sent[r] == GroupOpen(s.view.installed, e.group, 0)
                  && t.routes.groups == s.routes.groups[r := Watch(e.panel, e.group)])
            && (e.AskDir? ==> t.log.sent[r].DirOpen? && t.routes.dirs == s.routes.dirs[r := e.dirFor])
            && (e.MarkGroup? ==>
                  t.log.sent[r].SetMarks?
                  && t.marks.pending == s.marks.pending[r := WizardGroup(s.view.open.value.id, s.view.open.value.rows)])
            && (e.MarkCommander? ==> t.log.sent[r].SetMarks? && t.marks.pending == s.marks.pending[r := CommanderMark])
            && (e.Plan? ==> t.log.sent[r].BuildPlan? && t.routes.plan == Some(PlanRoute(r, e.window)))
  {
    hide FindRank, MoreAsked;
  }

  // === The rows of a group ===

  /** The page that a further page was asked for arrives. */
  lemma NextPageArrives(members: Members, s: State, r: nat, total: nat)
    requires r in s.log.sent && s.log.sent[r].GroupOpen? && s.log.sent[r].act == s.view.installed
    requires r in s.routes.groups && s.routes.groups[r].BrowserMore? && s.view.open.Some?
    requires s.view.open.value.id == s.routes.groups[r].id && |s.view.open.value.rows| == s.routes.groups[r].loaded
    requires RowsOk(members, s.view.open.value.id, s.view.open.value.rows)
    ensures var t := Apply(members, s, Reply(r, Page(s.routes.groups[r].id, total)));
            var all, n := members(s.view.open.value.id), |s.view.open.value.rows|;
            && t.view.open.Some? && t.view.open.value.id == s.view.open.value.id
            && t.view.open.value.rows == all[..Min(n + PAGE, |all|)]
            && t.view.open.value.pages == s.view.open.value.pages + (if n < |all| then [r] else [])
            && (var m := |t.view.open.value.rows|; t.view.full <==> s.view.full || n == |all| || m >= MOST || m >= s.view.total)
            && t.view == s.view.(open := t.view.open, full := t.view.full)
            && t.routes == s.routes.(groups := s.routes.groups - {r}) && t.log == s.log && t.accepting == s.accepting
  {
    var all, n := members(s.view.open.value.id), |s.view.open.value.rows|;
    assert s.view.open.value.rows + PageOf(members, s.view.open.value.id, n) == all[..Min(n + PAGE, |all|)];
  }

  /** The open group is on the list, and nothing keeps its next page from coming. */
  predicate Scrolls(members: Members, s: State, id: GroupId)
  {
    && s.accepting && s.view.open.Some? && s.view.open.value.id == id && FindRank(s.view.groups, id.rank) == Some(id)
    && s.view.total == |members(id)| && RowsOk(members, id, s.view.open.value.rows) && !MoreOut(s)
    && (s.view.full ==> |s.view.open.value.rows| >= Min(MOST, |members(id)|))
  }

  /** The cursor moved to the end of the rows again and again, and each page answered. */
  function Scrolling(next: nat, loaded: nat, id: GroupId, total: nat): seq<Event>
    decreases total - loaded
  {
    if loaded >= Min(MOST, total) then []
    else [LoadMore(loaded), Reply(next, Page(id, total))] + Scrolling(next + 1, loaded + PAGE, id, total)
  }

  lemma ScrollsOn(members: Members, s: State, id: GroupId)
    requires Scrolls(members, s, id) && |s.view.open.value.rows| < Min(MOST, |members(id)|)
    ensures var n := |s.view.open.value.rows|;
            var t := Apply(members, Apply(members, s, LoadMore(n)), Reply(s.log.next, Page(id, |members(id)|)));
            && Scrolls(members, t, id) && t.log.next == s.log.next + 1
            && |t.view.open.value.rows| == Min(n + PAGE, |members(id)|)
  {
    var n := |s.view.open.value.rows|;
    var t := Apply(members, s, LoadMore(n));
    PageIsAsked(members, s, id);
    NextPageArrives(members, t, s.log.next, |members(id)|);
    var u := Apply(members, t, Reply(s.log.next, Page(id, |members(id)|)));
    NextPageOk(members, id, s.view.open.value.rows);
    NextRows(members, id, n);
    hide Apply, FindRank;
    assert forall r :: r in u.routes.groups ==> r in s.routes.groups && u.routes.groups[r] == s.routes.groups[r];
  }

  lemma NextRows(members: Members, id: GroupId, n: nat)
    requires n < MOST && n % PAGE == 0
    ensures RowsOk(members, id, members(id)[..Min(n + PAGE, |members(id)|)])
  {
  }

  lemma PageIsAsked(members: Members, s: State, id: GroupId)
    requires Scrolls(members, s, id) && |s.view.open.value.rows| < Min(MOST, |members(id)|)
    ensures var n := |s.view.open.value.rows|;
            Apply(members, s, LoadMore(n))
            == s.(routes := s.routes.(groups := s.routes.groups[s.log.next := BrowserMore(id, n)]),
                  log := s.log.(next := s.log.next + 1, sent := s.log.sent[s.log.next := GroupOpen(s.view.installed, id, n)]))
  {
    hide FindRank;
  }

  /** Scrolling on, each page being answered, shows the whole group in the end, or its first 50,000 files. */
  lemma {:induction false} ScrollingShowsAll(members: Members, s: State, id: GroupId)
    requires Scrolls(members, s, id)
    ensures var all := members(id);
            var t := Run(members, s, Scrolling(s.log.next, |s.view.open.value.rows|, id, |all|));
            t.view.open.Some? && t.view.open.value.id == id && t.view.open.value.rows == all[..Min(MOST, |all|)]
    decreases |members(id)| - |s.view.open.value.rows|
  {
    var n, all := |s.view.open.value.rows|, members(id);
    if n < Min(MOST, |all|) {
      var next := Scrolling(s.log.next + 1, n + PAGE, id, |all|);
      var t := Apply(members, Apply(members, s, LoadMore(n)), Reply(s.log.next, Page(id, |all|)));
      ScrollsOn(members, s, id);
      ScrollingShowsAll(members, t, id);
      hide Apply, FindRank;
      ScrollingEnds(s.log.next + 1, n, id, |all|);
      assert Scrolling(s.log.next, n, id, |all|) == [LoadMore(n), Reply(s.log.next, Page(id, |all|))] + next;
      TwoMore(members, s, LoadMore(n), Reply(s.log.next, Page(id, |all|)), next);
    } else {
      assert Scrolling(s.log.next, n, id, |all|) == [];
    }
  }

  lemma ScrollingEnds(next: nat, n: nat, id: GroupId, total: nat)
    ensures Scrolling(next, n + PAGE, id, total) == Scrolling(next, Min(n + PAGE, total), id, total)
  {
  }

  // === What a reply shows ===

  /** The reply is heard, under the installed activation, and does not say that the database is gone. */
  predicate Told(s: State, r: nat, a: Answer)
  {
    && Waits(s, r) && s.log.sent[r].act == s.view.installed && !a.Lost? && !(a.Unreadable? && a.lost)
    && (a.Page? && s.log.sent[r].GroupOpen? ==> a.id == s.routes.groups[r].id)
  }

  /** The members a group is said to have are what the last reply about it said; and nothing else says so. */
  lemma TotalIsTold(members: Members, s: State, r: nat, a: Answer)
    requires Told(s, r, a)
    ensures var t := Apply(members, s, Reply(r, a));
            var q := s.log.sent[r];
            && (q.GroupOpen? && a.Page? && (s.routes.groups[r].BrowserOpen? || s.routes.groups[r].BrowserReload?) ==>
                  && t.view.total == a.total && t.view.open.Some? && t.view.open.value.id == s.routes.groups[r].id
                  && t.view.open.value.rows == PageOf(members, s.routes.groups[r].id, 0) && t.view.open.value.pages == [r]
                  && (t.view.full <==> |t.view.open.value.rows| >= MOST))
            && (q.GroupCount? && a.Number? && s.view.open.Some? && s.view.open.value.id.rank == s.routes.counts[r].rank ==>
                  t.view == s.view.(total := a.count))
  {
    hide PageOf, GateAfter, Appended;
  }

  lemma TotalStays(members: Members, s: State, r: nat, a: Answer)
    requires Told(s, r, a)
    ensures var t, q := Apply(members, s, Reply(r, a)), s.log.sent[r];
            t.view.total != s.view.total ==>
              || (q.GroupOpen? && a.Page? && !s.routes.groups[r].BrowserMore? && !s.routes.groups[r].Watch? && t.view.total == a.total)
              || (q.GroupCount? && a.Number? && t.view.total == a.count
                  && s.view.open.Some? && s.view.open.value.id.rank == s.routes.counts[r].rank)
  {
    var q := s.log.sent[r];
    if q.SetMarks? { MarkAcknowledged(members, s, r, a); }
    else if q.AutoSelect? { SweepEnds(members, s, r, a); }
    else if q.MarkedCount? { WindowHears(members, s, r, a); }
    hide PageOf, GateAfter, FindRank, ReloadStarted, MarkAnswered, SweepAnswered, MarkedAnswered;
  }

  lemma ReloadShows(s: State)
    ensures ReloadStarted(s).view == s.view.(marked := None)
  {
    hide FindRank;
  }

  /** The gate waits for this reply. */
  predicate AwaitsRows(s: State, r: nat)
  {
    s.marks.gate.Reloading? && s.marks.gate.act == s.view.installed && s.marks.gate.group == Some(r)
  }

  predicate AwaitsCount(s: State, r: nat)
  {
    s.marks.gate.Reloading? && s.marks.gate.act == s.view.installed && s.marks.gate.marked == r
  }

  /** A page of another group than the one asked for is nobody's. */
  lemma AnotherGroupIsNotShown(members: Members, s: State, r: nat, id: GroupId, total: nat)
    requires Waits(s, r) && s.log.sent[r].GroupOpen? && id != s.routes.groups[r].id
    ensures Apply(members, s, Reply(r, Page(id, total))) == s.(routes := s.routes.(groups := s.routes.groups - {r}))
  {
  }

  /** A group that cannot be read is shown by nothing, and what waited for it is refused. */
  lemma MissIsNotShown(members: Members, s: State, r: nat, a: Answer)
    requires Told(s, r, a) && s.log.sent[r].GroupOpen? && !a.Page?
    ensures var t, p := Apply(members, s, Reply(r, a)), s.routes.groups[r];
            if p.Watch? then t.view == s.view.(watch := t.view.watch) && t.marks == s.marks
            else
              && t.view == s.view.(open := None)
              && (p.BrowserReload? && AwaitsRows(s, r) ==> t.marks.gate.Blocked? && t.marks.unsettled)
  {
  }

  /** What a reply shows to a panel: its answer, or that there is none; only to the panel it is for, if that
      still watches. */
  lemma PanelHears(members: Members, s: State, r: nat, a: Answer)
    requires Told(s, r, a)
    requires (s.log.sent[r].GroupOpen? && s.routes.groups[r].Watch?) || (s.log.sent[r].DirOpen? && !s.routes.dirs[r].WizardDirs?)
    ensures var t := Apply(members, s, Reply(r, a));
            var page := s.log.sent[r].GroupOpen?;
            var panel := if page then s.routes.groups[r].panel else s.routes.dirs[r].panel;
            var good := if page then a.Page? else a.Done?;
            var inPlace := !page && s.routes.dirs[r].WatchDir? && good;
            && t.view == s.view.(watch := t.view.watch, watchDir := t.view.watchDir) && t.marks == s.marks
            && t.view.watch.Keys == s.view.watch.Keys && t.view.watchDir.Keys == s.view.watchDir.Keys
            && (forall p :: p in s.view.watch && (p != panel || inPlace) ==> t.view.watch[p] == s.view.watch[p])
            && (forall p :: p in s.view.watchDir && (p != panel || !inPlace) ==> t.view.watchDir[p] == s.view.watchDir[p])
            && (panel in s.view.watch && !inPlace ==> t.view.watch[panel] == if good then Some(r) else None)
            && (panel in s.view.watchDir && inPlace ==> t.view.watchDir[panel] == Some(r))
  {
  }

  /** The directory group of the window and the count of the marks: the answer, or none. */
  lemma WindowHears(members: Members, s: State, r: nat, a: Answer)
    requires Told(s, r, a)
    requires s.log.sent[r].MarkedCount? || (s.log.sent[r].DirOpen? && s.routes.dirs[r].WizardDirs?)
    ensures var t := Apply(members, s, Reply(r, a));
            && (s.log.sent[r].DirOpen? ==> t.view == s.view.(dir := if a.Done? then Some(r) else None) && t.marks == s.marks)
            && (s.log.sent[r].MarkedCount? ==>
                  && t.view == s.view.(marked := if a.Number? then Some(r) else None)
                  && (!a.Number? && AwaitsCount(s, r) ==> t.marks.gate.Blocked? && t.marks.unsettled))
  {
  }

  /** A scan that is opened shows its groups and none of them open, asks for the first one and for its
      number of files, and lets be planned. */
  lemma OpenShows(members: Members, s: State, r: nat, groups: seq<GroupId>)
    requires Waits(s, r) && s.log.sent[r].Open?
    ensures var t, route := Apply(members, s, Reply(r, Answer.Opened(groups))), s.routes.open.value;
            && t.view.installed == route.act && t.view.current == Some(route.scan) && t.view.groups == groups
            && t.view.open.None? && t.view.marked == Some(r) && t.view.dir.None? && t.view.watch == map[] && t.view.watchDir == map[]
            && t.marks == s.marks.(gate := Settled) && t.routes.open.None?
            && (groups != [] && s.accepting ==>
                  && t.log.sent == s.log.sent[s.log.next := GroupOpen(route.act, groups[0], 0)]
                                             [s.log.next + 1 := GroupCount(route.act, groups[0])]
                  && t.routes.groups == s.routes.groups[s.log.next := BrowserOpen(groups[0])])
            && (groups == [] || !s.accepting ==> t.log.sent == s.log.sent)
  {
  }

  /** A mark that is acknowledged stays; one whose answer cannot be read is taken back, in whatever group is
      open. Either way the marks are counted again. */
  lemma MarkAcknowledged(members: Members, s: State, r: nat, a: Answer)
    requires Told(s, r, a) && s.log.sent[r].SetMarks?
    ensures var t, origin := Apply(members, s, Reply(r, a)), s.marks.pending[r];
            && t.view.open == (if a.Unreadable? && origin.WizardGroup? && s.view.open.Some?
                               then Some(s.view.open.value.(rows := origin.before)) else s.view.open)
            && t.view == s.view.(open := t.view.open, marked := None)
            && t.marks == s.marks.(pending := s.marks.pending - {r})
            && (s.accepting && s.view.current.Some? ==>
                  t.routes.marked == Some(s.log.next) && t.log.sent == s.log.sent[s.log.next := MarkedCount(s.view.installed)])
  {
  }

  /** A sweep that ran, whole or in part, has the marks and the rows read again; one that did not changes
      nothing, but that it is over. */
  lemma SweepEnds(members: Members, s: State, r: nat, a: Answer)
    requires Told(s, r, a) && s.log.sent[r].AutoSelect?
    ensures var t := Apply(members, s, Reply(r, a));
            && t.marks.sweep.None? && t.marks.pending == s.marks.pending
            && (!a.Done? && !a.Partial? ==> t == s.(marks := s.marks.(sweep := None)))
            && (a.Done? || a.Partial? ==>
                  && t.view == s.view.(marked := None)
                  && (if s.accepting && s.view.current.Some?
                      then t.marks.gate.Reloading? && t.marks.gate.act == s.view.installed && t.marks.gate.marked == s.log.next
                           && !t.marks.gate.markedOk && (t.marks.unsettled <==> a.Partial?)
                      else t.marks.gate.Blocked? && t.marks.unsettled))
  {
    ReloadShows(s.(marks := s.marks.(sweep := None, unsettled := a.Partial?)));
    hide FindRank;
  }

  /** A plan that is ready, or refused, is no longer waited for. */
  lemma PlanEnds(members: Members, s: State, r: nat, a: Answer)
    requires Waits(s, r) && s.log.sent[r].BuildPlan?
    ensures Apply(members, s, Reply(r, a)) == s.(routes := s.routes.(plan := None))
  {
  }

  /** A reply of an activation that is installed no more shows nothing and settles nothing. */
  lemma StaleShowsNothing(members: Members, s: State, r: nat, a: Answer)
    requires r in s.log.sent && !s.log.sent[r].Open? && s.log.sent[r].act != s.view.installed
    ensures var t := Apply(members, s, Reply(r, a));
            && t.view == s.view && t.log == s.log && t.marks.gate == s.marks.gate && t.marks.unsettled == s.marks.unsettled
            && t.marks.pending == (if s.log.sent[r].SetMarks? then s.marks.pending - {r} else s.marks.pending)
  {
    hide PageTaken, PageMissed, Uninstalled, DirShown, ReloadStarted, MarkedAsked, GateAfter;
  }

  /** What a batch or a retired actor leaves: the marks nobody acknowledged are taken back, and planning is
      refused. */
  lemma RetiredMarks(members: Members, s: State, r: nat)
    requires r in s.marks.pending
    ensures var t, origin := Apply(members, s, Strand(r)), s.marks.pending[r];
            && t.marks == Marks(Blocked, s.marks.pending - {r}, s.marks.sweep, true)
            && t.view.open == (if origin.WizardGroup? && s.view.open.Some?
                               then Some(s.view.open.value.(rows := origin.before)) else s.view.open)
            && t.view == s.view.(open := t.view.open) && t.routes == s.routes
  {
  }

  /** What else comes from elsewhere. */
  lemma ElsewhereIs(members: Members, s: State)
    ensures Apply(members, s, StrandSweep).marks == s.marks.(gate := Blocked, unsettled := true, sweep := None)
    ensures Apply(members, s, Block).marks == s.marks.(gate := Blocked, unsettled := true)
    ensures Apply(members, s, DropOpen) == s.(routes := s.routes.(open := None))
    ensures forall on :: Apply(members, s, Accept(on)) == s.(accepting := on)
    ensures var t := Apply(members, s, Recount);
            && t.marks == s.marks && t.view == s.view.(marked := None)
            && (s.accepting && s.view.current.Some? ==>
                  t.routes.marked == Some(s.log.next) && t.log.sent == s.log.sent[s.log.next := MarkedCount(s.view.installed)])
  {
  }

  /** The panels that watch are those that were told to, and show nothing until they hear something. */
  lemma PanelsWatch(members: Members, s: State, panels: set<nat>, panel: nat)
    ensures var t := Apply(members, s, WatchPanels(panels));
            && t == s.(view := s.view.(watch := t.view.watch, watchDir := t.view.watchDir))
            && t.view.watch.Keys == t.view.watchDir.Keys == panels
            && forall p :: p in panels ==> t.view.watch[p] == t.view.watchDir[p] == None
    ensures var t := Apply(members, s, WatchSource(panel));
            && t == s.(view := s.view.(watch := t.view.watch)) && t.view.watch.Keys == s.view.watch.Keys
            && forall p :: p in s.view.watch ==> t.view.watch[p] == if p == panel then None else s.view.watch[p]
  {
  }
}
