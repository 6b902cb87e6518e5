/** The rows of the open group in every run: its pages, one at a time, and what a rolled back mark does to
    them. */
module BrowsingPages {
  import opened Wrappers
  import Opening
  import opened Browsing
  import opened BrowsingRuns

  // === The rows of the open group ===

  /** The first files of the group, whole pages of them or all there are, and never too many. */
  predicate RowsOk(members: Members, id: GroupId, rows: seq<File>)
  {
    && |rows| <= |members(id)| && rows == members(id)[..|rows|]
    && |rows| <= MOST && (|rows| % PAGE == 0 || |rows| == |members(id)|)
  }

  predicate Paged(members: Members, s: State)
  {
    && (forall a :: a in s.log.catalogue ==> DistinctRanks(s.log.catalogue[a]))
    && (s.view.open.Some? ==> RowsOk(members, s.view.open.value.id, s.view.open.value.rows))
    && (forall r :: r in s.marks.pending && s.marks.pending[r].WizardGroup? ==>
          RowsOk(members, s.marks.pending[r].of, s.marks.pending[r].before))
  }

  predicate Restores(s: State, e: Event)
  {
    (e.Strand? || (e.Reply? && e.answer.Unreadable?)) && e.req in s.marks.pending && s.view.open.Some?
  }

  /** No rank occurs twice in a list of groups the actor publishes. */
  predicate Published(e: Event) { e.Reply? && e.answer.Opened? ==> DistinctRanks(e.answer.groups) }

  /** A mark is rolled back only while the group it was made in is open, or none is. */
  predicate AtHome(s: State, e: Event)
  {
    Restores(s, e) && s.marks.pending[e.req].WizardGroup? ==> s.view.open.value.id == s.marks.pending[e.req].of
  }

  lemma FirstPageOk(members: Members, id: GroupId)
    ensures RowsOk(members, id, PageOf(members, id, 0))
  {
  }

  lemma NextPageOk(members: Members, id: GroupId, rows: seq<File>)
    requires RowsOk(members, id, rows) && |rows| < MOST
    ensures RowsOk(members, id, rows + PageOf(members, id, |rows|))
  {
    var all, page := members(id), PageOf(members, id, |rows|);
    if |rows| < |all| {
      assert rows + page == all[..|rows| + |page|];
    } else {
      assert rows + page == rows;
    }
  }

  /** No two groups of the list shown share a rank, so a page of the rank that is open is a page of the
      group that is open. */
  lemma AppendedOk(members: Members, s: State, req: nat)
    requires Invariant(s) && Paged(members, s) && req in s.routes.groups && s.routes.groups[req].BrowserMore?
    requires req in s.log.sent && s.log.sent[req].act == s.view.installed
    ensures var v := Appended(s.view, members, s.routes.groups[req].id, s.routes.groups[req].loaded, req);
            v.open.Some? ==> RowsOk(members, v.open.value.id, v.open.value.rows)
  {
    var p := s.routes.groups[req];
    assert PurposeOk(s.log, req, p);
    hide MarksOk;
    if s.view.open.Some? && s.view.open.value.id.rank == p.id.rank && |s.view.open.value.rows| == p.loaded {
      var groups := s.log.catalogue[s.view.installed];
      assert p.id in groups && s.view.open.value.id in groups && DistinctRanks(groups);
      assert p.id == s.view.open.value.id;
      NextPageOk(members, p.id, s.view.open.value.rows);
    }
  }

  lemma PagePaged(members: Members, s: State, req: nat, a: Answer)
    requires Invariant(s) && Paged(members, s) && req in s.log.sent
    ensures Paged(members, PageAnswered(s, members, req, s.log.sent[req].act, a))
  {
    if req in s.routes.groups && s.log.sent[req].act == s.view.installed {
      var p := s.routes.groups[req];
      FirstPageOk(members, p.id);
      if p.BrowserMore? { AppendedOk(members, s, req); }
      hide Invariant, RowsOk, PageOf, Appended;
    }
  }

  lemma OtherPaged(members: Members, s: State, req: nat, a: Answer)
    requires Paged(members, s) && req in s.log.sent && AtHome(s, Reply(req, a)) && Published(Reply(req, a))
    requires !s.log.sent[req].GroupOpen?
    ensures Paged(members, Answered(s, members, req, a))
  {
    var r := s.log.sent[req];
    if r.SetMarks? { MarkPaged(members, s, req, a); }
    else if r.AutoSelect? { SweepPaged(members, s, req, r.act, a); }
    else if r.Open? { OpenPaged(members, s, req, a); }
    else if r.GroupCount? { CountPaged(members, s, req, r.act, a); }
    else if r.DirOpen? { DirPaged(members, s, req, r.act, a); }
    hide CountAnswered, DirAnswered, RowsOk, PageAnswered, MarkAnswered, SweepAnswered, OpenAnswered, GateAfter, DirShown, AtHome;
  }

  lemma CountPaged(members: Members, s: State, req: nat, act: nat, a: Answer)
    requires Paged(members, s)
    ensures Paged(members, CountAnswered(s, req, act, a))
  {
    hide RowsOk;
  }

  lemma DirPaged(members: Members, s: State, req: nat, act: nat, a: Answer)
    requires Paged(members, s)
    ensures Paged(members, DirAnswered(s, req, act, a))
  {
    hide RowsOk;
  }

  lemma OpenPaged(members: Members, s: State, req: nat, a: Answer)
    requires Paged(members, s) && Published(Reply(req, a))
    ensures Paged(members, OpenAnswered(s, req, a))
  {
    hide RowsOk;
  }

  lemma MarkPaged(members: Members, s: State, req: nat, a: Answer)
    requires Paged(members, s) && req in s.log.sent && AtHome(s, Reply(req, a))
    ensures Paged(members, MarkAnswered(s, req, s.log.sent[req].act, a))
  {
    hide RowsOk;
    var t := s.(marks := s.marks.(pending := s.marks.pending - {req}));
    assert Paged(members, t);
    if a.Unreadable? && req in s.marks.pending {
      assert Restores(s, Reply(req, a)) || s.view.open.None?;
      assert Paged(members, Restored(t, s.marks.pending[req]));
    }
    hide Paged, AtHome, Restores;
    var u := if a.Unreadable? && req in s.marks.pending then Restored(t, s.marks.pending[req]) else t;
    MarkedPaged(members, u);
    UninstalledPaged(members, u);
    MarkedPaged(members, Uninstalled(u));
    hide Uninstalled, MarkedAsked, Restored;
  }

  lemma MarkedPaged(members: Members, s: State)
    requires Paged(members, s)
    ensures Paged(members, MarkedAsked(s).0)
  {
    hide RowsOk;
  }

  lemma UninstalledPaged(members: Members, s: State)
    requires Paged(members, s)
    ensures Paged(members, Uninstalled(s))
  {
    hide RowsOk;
  }

  lemma SweepPaged(members: Members, s: State, req: nat, act: nat, a: Answer)
    requires Paged(members, s)
    ensures Paged(members, SweepAnswered(s, req, act, a))
  {
    var t := if s.marks.sweep == Some(req) then s.(marks := s.marks.(sweep := None)) else s;
    ReloadPaged(members, t.(marks := t.marks.(unsettled := a.Partial?)));
    hide RowsOk, ReloadStarted;
  }

  lemma ReloadPaged(members: Members, s: State)
    requires Paged(members, s)
    ensures Paged(members, ReloadStarted(s))
  {
    ReloadKeepsRows(s);
    hide ReloadStarted, RowsOk;
  }

  lemma ReloadKeepsRows(s: State)
    ensures ReloadStarted(s).view.open == s.view.open && ReloadStarted(s).marks.pending == s.marks.pending
    ensures ReloadStarted(s).log.catalogue == s.log.catalogue
  {
    hide FindRank;
  }

  lemma UnansweredPaged(members: Members, s: State, e: Event)
    requires Paged(members, s) && !e.Reply? && AtHome(s, e)
    ensures Paged(members, Apply(members, s, e))
  {
    hide Paged, AtHome, Answered, Acted, Disturbed;
    if e.Elsewhere() {
      DisturbedPaged(members, s, e);
    } else {
      ActedPaged(members, s, e);
    }
  }

  lemma DisturbedPaged(members: Members, s: State, e: Event)
    requires Paged(members, s) && AtHome(s, e)
    requires e.Elsewhere()
    ensures Paged(members, Disturbed(s, e))
  {
    if e.Rewritten? { ReloadPaged(members, s); }
    hide RowsOk, ReloadStarted;
  }

  lemma ActedPaged(members: Members, s: State, e: Event)
    requires Paged(members, s) && e.Operators()
    ensures Paged(members, Acted(s, e))
  {
    hide RowsOk, FindRank;
  }

  lemma ApplyPaged(members: Members, s: State, e: Event)
    requires Invariant(s) && Paged(members, s) && AtHome(s, e) && Published(e)
    ensures Paged(members, Apply(members, s, e))
  {
    if !e.Reply? { UnansweredPaged(members, s, e); }
    else if e.req in s.log.sent {
      if s.log.sent[e.req].GroupOpen? { PagePaged(members, s, e.req, e.answer); } else { OtherPaged(members, s, e.req, e.answer); }
      hide Invariant, Paged, PageAnswered, OpenAnswered, CountAnswered, MarkedAnswered, DirAnswered, MarkAnswered, SweepAnswered, PlanAnswered;
    }
  }

  predicate AllAtHome(members: Members, s: State, events: seq<Event>)
    decreases |events|
  {
    events != [] ==>
      AtHome(s, events[0]) && Published(events[0]) && AllAtHome(members, Apply(members, s, events[0]), events[1..])
  }

  lemma {:induction false} RunPaged(members: Members, s: State, events: seq<Event>)
    requires Invariant(s) && Paged(members, s) && AllAtHome(members, s, events)
    ensures Paged(members, Run(members, s, events))
    decreases |events|
  {
    hide Invariant, Paged, Apply, AtHome;
    if events == [] {
    } else {
      ApplyKeeps(members, s, events[0]);
      ApplyPaged(members, s, events[0]);
      RunPaged(members, Apply(members, s, events[0]), events[1..]);
    }
  }

  /** The rows of the open group are its first ones — no page missing, twice, or another group's — and
      never more than can be held, over every run in which marks are rolled back at home. */
  lemma RowsAreThePages(members: Members, events: seq<Event>)
    requires AllAtHome(members, INITIAL, events)
    ensures var s := Run(members, INITIAL, events);
            s.view.open.Some? ==>
              var open := s.view.open.value;
              && |open.rows| <= |members(open.id)| && |open.rows| <= MOST && open.rows == members(open.id)[..|open.rows|]
              && s.view.installed in s.log.catalogue && open.id in s.log.catalogue[s.view.installed]
  {
    RunKeeps(members, INITIAL, events);
    RunPaged(members, INITIAL, events);
  }

  // === One page at a time ===

  predicate OneMore(groups: map<nat, Purpose>)
  {
    forall a, b | a in groups && b in groups :: groups[a].BrowserMore? && groups[b].BrowserMore? ==> a == b
  }

  /** No second page of the open group is ever asked for while one is on its way. */
  lemma OnePageInFlight(members: Members, events: seq<Event>)
    ensures OneMore(Run(members, INITIAL, events).routes.groups)
  {
    RunOneMore(members, INITIAL, events);
  }

  lemma {:induction false} RunOneMore(members: Members, s: State, events: seq<Event>)
    requires Invariant(s) && OneMore(s.routes.groups)
    ensures OneMore(Run(members, s, events).routes.groups)
    decreases |events|
  {
    hide Invariant, OneMore, Apply;
    if events == [] {
    } else {
      ApplyKeeps(members, s, events[0]);
      MoreStep(members, s, events[0]);
      RunOneMore(members, Apply(members, s, events[0]), events[1..]);
    }
  }

  /** What a step may do to the routes of pages: drop some, and add some that are no further page. */
  predicate NoneMore(was: map<nat, Purpose>, groups: map<nat, Purpose>)
  {
    forall r | r in groups :: groups[r].BrowserMore? ==> r in was && was[r] == groups[r]
  }

  lemma MoreStep(members: Members, s: State, e: Event)
    requires OneMore(s.routes.groups) && Invariant(s)
    ensures OneMore(Apply(members, s, e).routes.groups)
  {
    hide ViewOk, MarksOk;
    if e.LoadMore? {
      hide FindRank;
    } else if e.Reply? {
      if e.req in s.log.sent { RepliesAskNoMore(members, s, e.req, e.answer); }
      hide Answered;
    } else {
      OthersAskNoMore(s, e);
      hide Acted, Disturbed;
    }
  }

  lemma RepliesAskNoMore(members: Members, s: State, req: nat, a: Answer)
    requires req in s.log.sent
    ensures NoneMore(s.routes.groups, Answered(s, members, req, a).routes.groups)
  {
    var act := s.log.sent[req].act;
    SelectionAsksNoMore(s, req, a);
    SweepAsksNoMore(s, req, act, a);
    PageAsksNoMore(members, s, req, act, a);
    hide OpenAnswered, PageAnswered, SweepAnswered, DirShown, GateAfter;
  }

  lemma SelectionAsksNoMore(s: State, req: nat, a: Answer)
    ensures NoneMore(s.routes.groups, OpenAnswered(s, req, a).routes.groups)
  {
  }

  lemma PageAsksNoMore(members: Members, s: State, req: nat, act: nat, a: Answer)
    ensures NoneMore(s.routes.groups, PageAnswered(s, members, req, act, a).routes.groups)
  {
    hide PageOf, GateAfter, Appended;
  }

  lemma SweepAsksNoMore(s: State, req: nat, act: nat, a: Answer)
    ensures NoneMore(s.routes.groups, SweepAnswered(s, req, act, a).routes.groups)
  {
    var t := if s.marks.sweep == Some(req) then s.(marks := s.marks.(sweep := None)) else s;
    ReloadAsksNoMore(t.(marks := t.marks.(unsettled := a.Partial?)));
    hide ReloadStarted;
  }

  lemma ReloadAsksNoMore(s: State)
    ensures NoneMore(s.routes.groups, ReloadStarted(s).routes.groups)
  {
    hide FindRank;
  }

  lemma OthersAskNoMore(s: State, e: Event)
    requires !e.Reply? && !e.LoadMore?
    ensures e.Elsewhere() ==>
              NoneMore(s.routes.groups, Disturbed(s, e).routes.groups)
    ensures !e.Elsewhere() ==>
              NoneMore(s.routes.groups, Acted(s, e).routes.groups)
  {
    hide FindRank;
  }

  // === A mark rolled back elsewhere ===

  /** No file is in two groups. */
  ghost predicate Disjoint(members: Members)
  {
    forall a, b :: a != b ==> forall f :: f in members(a) ==> f !in members(b)
  }

  /** A rollback leaves the open group its own rows exactly if it is the group the mark was made in. */
  lemma RollbackKeepsRows(members: Members, s: State, origin: Origin)
    requires Disjoint(members) && s.view.open.Some? && origin.WizardGroup? && origin.before != []
    requires RowsOk(members, origin.of, origin.before)
    ensures var open := Restored(s, origin).view.open.value;
            RowsOk(members, open.id, open.rows) <==> s.view.open.value.id == origin.of
  {
    var id := s.view.open.value.id;
    FirstRow(members, origin.of, origin.before);
    if RowsOk(members, id, origin.before) && id != origin.of {
      FirstRow(members, id, origin.before);
      assert false;
    }
  }

  lemma FirstRow(members: Members, id: GroupId, rows: seq<File>)
    requires RowsOk(members, id, rows) && rows != []
    ensures rows[0] in members(id)
  {
    assert members(id)[..|rows|][0] == members(id)[0];
  }

  /** And it may be another: a group asked for before the mark and shown after it gets the rows of the
      one that was left, none of which are its own. */
  lemma RollbackElsewhere(members: Members, s: State, r: nat, total: nat)
    requires Invariant(s) && s.accepting && s.view.current.Some? && !PlanIsBuilding(s)
    requires s.view.open.Some? && s.view.open.value.rows != []
    requires r in s.routes.groups && s.routes.groups[r].BrowserOpen? && r in s.log.sent && s.log.sent[r].act == s.view.installed
    requires Disjoint(members) && Paged(members, s) && s.routes.groups[r].id != s.view.open.value.id
    ensures var id := s.routes.groups[r].id;
            var t := Run(members, s, [MarkGroup(0), Reply(r, Page(id, total)), Reply(s.log.next, Unreadable(false))]);
            && t.view.open == Some(OpenGroup(id, s.view.open.value.rows, [r]))
            && !RowsOk(members, id, s.view.open.value.rows)
            && forall f :: f in s.view.open.value.rows ==> f !in members(id)
  {
    var id := s.routes.groups[r].id;
    var events := [MarkGroup(0), Reply(r, Page(id, total)), Reply(s.log.next, Unreadable(false))];
    var t := Apply(members, s, events[0]);
    RollbackMarked(members, s);
    var u := Apply(members, t, events[1]);
    assert PurposeOk(s.log, r, s.routes.groups[r]);
    RollbackShown(members, t, r, total);
    var v := Apply(members, u, events[2]);
    RollbackDone(members, u, s.log.next, WizardGroup(s.view.open.value.id, s.view.open.value.rows));
    hide Apply, Invariant, PlanIsBuilding;
    assert events[1..][1..][1..] == [];
    assert Run(members, s, events) == Run(members, t, events[1..]) == Run(members, u, events[1..][1..]) == v;
    RowsApart(members, s.view.open.value.id, id, s.view.open.value.rows);
  }

  lemma RowsApart(members: Members, a: GroupId, b: GroupId, rows: seq<File>)
    requires Disjoint(members) && a != b && RowsOk(members, a, rows) && rows != []
    ensures !RowsOk(members, b, rows) && forall f :: f in rows ==> f !in members(b)
  {
    forall f | f in rows ensures f !in members(b) {
      assert f in members(a)[..|rows|];
      assert f in members(a);
    }
    if RowsOk(members, b, rows) {
      FirstRow(members, b, rows);
    }
  }

  /** A scan opened, its first group shown, the second one asked for; then a mark in the first, the second
      shown, and the mark's write failing unread. */
  function AskAhead(scan: nat, a: GroupId, b: GroupId): seq<Event>
  {
    [OpenScan(scan), Reply(0, Opened([a, b])), Reply(1, Page(a, 1)), SelectGroup(1)]
  }

  function FailBehind(b: GroupId): seq<Event> { [MarkGroup(0), Reply(3, Page(b, 1)), Reply(5, Unreadable(false))] }

  /** So from the start of the program the rows of the open group can become another's. */
  lemma RowsGoWrong(members: Members, scan: nat, a: GroupId, b: GroupId)
    requires Disjoint(members) && a.rank != b.rank && members(a) != []
    ensures var s := Run(members, INITIAL, AskAhead(scan, a, b) + FailBehind(b));
            && s.view.open.Some? && s.view.open.value.id == b
            && s.view.open.value.rows != [] && forall f :: f in s.view.open.value.rows ==> f !in members(b)
    ensures !AllAtHome(members, INITIAL, AskAhead(scan, a, b) + FailBehind(b))
  {
    var events := AskAhead(scan, a, b) + FailBehind(b);
    var s := AsksAhead(members, scan, a, b);
    FirstPage(members, a);
    hide Invariant, Paged, AllAtHome, Apply, Disjoint, PageOf, RowsOk;
    RunAdd(members, INITIAL, AskAhead(scan, a, b), FailBehind(b));
    RollbackElsewhere(members, s, 3, 1);
    if AllAtHome(members, INITIAL, events) {
      RowsAreThePages(members, events);
      TakeIsOwn(members(b), Run(members, INITIAL, events).view.open.value.rows);
      assert false;
    }
  }

  lemma TakeIsOwn(all: seq<File>, rows: seq<File>)
    requires |rows| <= |all| && rows == all[..|rows|] && rows != []
    ensures rows[0] in rows && rows[0] in all
  {
  }

  lemma FirstPage(members: Members, id: GroupId)
    requires members(id) != []
    ensures PageOf(members, id, 0) != []
  {
  }

  lemma {:induction false} RunAdd(members: Members, s: State, a: seq<Event>, b: seq<Event>)
    ensures Run(members, s, a + b) == Run(members, Run(members, s, a), b)
    decreases |a|
  {
    hide Apply;
    if a == [] {
      assert a + b == b;
    } else {
      assert (a + b)[1..] == a[1..] + b;
      RunAdd(members, Apply(members, s, a[0]), a[1..], b);
    }
  }

  lemma AsksAhead(members: Members, scan: nat, a: GroupId, b: GroupId) returns (s: State)
    requires a.rank != b.rank
    ensures s == Run(members, INITIAL, AskAhead(scan, a, b)) && Invariant(s) && Paged(members, s)
    ensures s.accepting && s.view.current == Some(scan) && !PlanIsBuilding(s) && s.log.next == 5
    ensures s.view.open == Some(OpenGroup(a, PageOf(members, a, 0), [1]))
    ensures 3 in s.routes.groups && s.routes.groups[3] == BrowserOpen(b) && 3 in s.log.sent && s.log.sent[3].act == s.view.installed
  {
    var events := AskAhead(scan, a, b);
    var asked := Apply(members, INITIAL, events[0]);
    AheadOpens(members, scan);
    var shown := Apply(members, asked, events[1]);
    AheadShows(members, asked, a, b);
    var paged := Apply(members, shown, events[2]);
    AheadPages(members, shown, a);
    s := Apply(members, paged, events[3]);
    AheadSelects(members, paged, b);
    hide Apply, PageOf, Invariant, Paged;
    RunFour(members, INITIAL, asked, shown, paged, events);
    AheadIsSound(members, events);
  }

  lemma AheadIsSound(members: Members, events: seq<Event>)
    requires forall e :: e in events ==> !e.Strand? && (e.Reply? ==> !e.answer.Unreadable?) && Published(e)
    ensures Invariant(Run(members, INITIAL, events)) && Paged(members, Run(members, INITIAL, events))
  {
    RunKeeps(members, INITIAL, events);
    NoRollbacks(members, INITIAL, events);
    RunPaged(members, INITIAL, events);
  }

  lemma RunFour(members: Members, s: State, a: State, b: State, c: State, events: seq<Event>)
    requires |events| == 4 && Apply(members, s, events[0]) == a && Apply(members, a, events[1]) == b
    requires Apply(members, b, events[2]) == c
    ensures Run(members, s, events) == Apply(members, c, events[3])
  {
    hide Apply;
    var two, three, four := events[1..], events[2..], events[3..];
    assert two[1..] == three && three[1..] == four && four[1..] == [];
    RunHead(members, s, events);
    RunHead(members, a, two);
    RunHead(members, b, three);
    RunHead(members, c, four);
  }

  lemma RunHead(members: Members, s: State, events: seq<Event>)
    requires events != []
    ensures Run(members, s, events) == Run(members, Apply(members, s, events[0]), events[1..])
  {
  }

  lemma {:induction false} NoRollbacks(members: Members, s: State, events: seq<Event>)
    requires forall e :: e in events ==> !e.Strand? && (e.Reply? ==> !e.answer.Unreadable?) && Published(e)
    ensures AllAtHome(members, s, events)
    decreases |events|
  {
    hide Apply;
    if events == [] {
    } else {
      NoRollbacks(members, Apply(members, s, events[0]), events[1..]);
    }
  }

  lemma AheadOpens(members: Members, scan: nat)
    ensures var s := Apply(members, INITIAL, OpenScan(scan));
            s == INITIAL.(routes := INITIAL.routes.(open := Some(Opening.Route(0, 1, scan))),
                          log := INITIAL.log.(next := 1, sent := map[0 := Open(1, scan)]))
  {
  }

  lemma AheadShows(members: Members, s: State, a: GroupId, b: GroupId)
    requires s.accepting && s.routes.open.Some? && s.routes.open.value.req == 0 && s.routes.open.value.act == 1
    requires s.routes.groups == map[] && s.routes.plan.None?
    requires s.log.next == 1 && 0 in s.log.sent && s.log.sent[0].Open?
    ensures var t := Apply(members, s, Reply(0, Opened([a, b])));
            && t.accepting && t.view.installed == 1 && t.view.current == Some(s.routes.open.value.scan) && t.view.groups == [a, b]
            && t.routes.groups == map[1 := BrowserOpen(a)] && t.routes.plan.None?
            && t.log.next == 3 && 1 in t.log.sent && t.log.sent[1] == GroupOpen(1, a, 0)
  {
    var groups := [a, b];
    var route, v := s.routes.open.value, s.(routes := s.routes.(open := None));
    var u := Shown(v, route, groups, 0);
    assert Apply(members, s, Reply(0, Opened(groups))) == GroupSelected(u, 0);
  }

  lemma AheadPages(members: Members, s: State, a: GroupId)
    requires 1 in s.routes.groups && s.routes.groups[1] == BrowserOpen(a) && s.routes.groups - {1} == map[]
    requires 1 in s.log.sent && s.log.sent[1] == GroupOpen(s.view.installed, a, 0)
    ensures var t := Apply(members, s, Reply(1, Page(a, 1)));
            && t.view.open == Some(OpenGroup(a, PageOf(members, a, 0), [1])) && t.routes.groups == map[]
            && t.view == s.view.(open := t.view.open, total := t.view.total, full := t.view.full)
            && t.log == s.log && t.routes == s.routes.(groups := map[]) && t.accepting == s.accepting
  {
    hide PageOf;
  }

  lemma AheadSelects(members: Members, s: State, b: GroupId)
    requires s.accepting && |s.view.groups| == 2 && s.view.groups[1] == b && s.log.next == 3
    ensures var t := Apply(members, s, SelectGroup(1));
            && t.view == s.view && t.accepting && t.routes.plan == s.routes.plan && t.log.next == 5
            && 3 in t.routes.groups && t.routes.groups[3] == BrowserOpen(b) && 3 in t.log.sent
            && t.log.sent[3] == GroupOpen(s.view.installed, b, 0)
  {
  }

  lemma RollbackMarked(members: Members, s: State)
    requires s.accepting && s.view.current.Some? && !PlanIsBuilding(s) && s.view.open.Some? && s.view.open.value.rows != []
    ensures var t := Apply(members, s, MarkGroup(0));
            && t.view == s.view && t.routes == s.routes
            && t.marks.pending == s.marks.pending[s.log.next := WizardGroup(s.view.open.value.id, s.view.open.value.rows)]
            && t.log.sent == s.log.sent[s.log.next := SetMarks(s.view.installed)]
  {
  }

  lemma RollbackShown(members: Members, s: State, r: nat, total: nat)
    requires r in s.routes.groups && s.routes.groups[r].BrowserOpen?
    requires r in s.log.sent && s.log.sent[r].GroupOpen? && s.log.sent[r].act == s.view.installed
    ensures var id := s.routes.groups[r].id;
            var t := Apply(members, s, Reply(r, Page(id, total)));
            && t.view.open == Some(OpenGroup(id, PageOf(members, id, 0), [r]))
            && t.view.installed == s.view.installed && t.marks == s.marks && t.log == s.log
  {
  }

  lemma RollbackDone(members: Members, s: State, req: nat, origin: Origin)
    requires s.view.open.Some? && origin.WizardGroup? && req in s.marks.pending && s.marks.pending[req] == origin
    requires req in s.log.sent && s.log.sent[req] == SetMarks(s.view.installed)
    ensures Apply(members, s, Reply(req, Unreadable(false))).view.open == Some(s.view.open.value.(rows := origin.before))
  {
  }


  // === When the next page is asked for ===

  /** The cursor is within a page of the end of what is loaded of the open group, which has more. */
  predicate NearTheEnd(s: State, cursor: nat)
  {
    && s.view.open.Some? && !s.view.full
    && var loaded := |s.view.open.value.rows|;
       loaded < s.view.total && loaded < MOST && loaded <= cursor + PAGE
  }

  predicate MoreOut(s: State) { exists r | r in s.routes.groups :: s.routes.groups[r].BrowserMore? }

  /** A further page is asked for exactly if the cursor is near the end, none is on its way, the group is
      still in the list and the request is accepted; it is for the rows after the last loaded one. */
  lemma MoreIffNear(members: Members, s: State, cursor: nat)
    ensures var t := Apply(members, s, LoadMore(cursor));
            && (t.log.next > s.log.next <==>
                  && s.accepting && NearTheEnd(s, cursor) && !MoreOut(s)
                  && FindRank(s.view.groups, s.view.open.value.id.rank).Some?)
            && (t.log.next > s.log.next ==>
                  && s.log.next in t.log.sent && s.log.next in t.routes.groups
                  && t.routes.groups[s.log.next].BrowserMore? && t.log.sent[s.log.next].GroupOpen?
                  && t.routes.groups[s.log.next].loaded == |s.view.open.value.rows| == t.log.sent[s.log.next].offset
                  && t.log.sent[s.log.next].id == t.routes.groups[s.log.next].id
                  && t.log.sent[s.log.next].id.rank == s.view.open.value.id.rank)
  {
  }

  lemma RankIsFound(groups: seq<GroupId>, rank: nat)
    ensures FindRank(groups, rank).Some? <==> exists id :: id in groups && id.rank == rank
    decreases |groups|
  {
    if groups == [] {
    } else if groups[0].rank == rank {
      assert groups[0] in groups;
    } else {
      RankIsFound(groups[1..], rank);
      assert forall id :: id in groups <==> id == groups[0] || id in groups[1..];
    }
  }
}
