/** What becomes of a request of the browser: from the moment it is sent until its first reply it waits,
    under what it was asked for, and then no more. */
module BrowsingReplies {
  import opened Wrappers
  import Opening
  import opened Browsing
  import opened BrowsingRuns

  /** A reply to the request will be heard. */
  predicate Waits(s: State, r: nat)
  {
    r in s.log.sent &&
    var q := s.log.sent[r];
    if q.Open? then s.routes.open.Some? && s.routes.open.value.req == r
    else if q.GroupOpen? then r in s.routes.groups
    else if q.GroupCount? then r in s.routes.counts
    else if q.MarkedCount? then s.routes.marked == Some(r)
    else if q.DirOpen? then r in s.routes.dirs
    else if q.SetMarks? then r in s.marks.pending
    else if q.AutoSelect? then s.marks.sweep == Some(r)
    else s.routes.plan.Some? && s.routes.plan.value.req == r
  }

  /** Of the count of the marks and of plans only the last one asked for is heard. */
  datatype Place = NoPlace | CountPlace | PlanPlace

  predicate Of(q: Request, place: Place) { (q.MarkedCount? && place.CountPlace?) || (q.BuildPlan? && place.PlanPlace?) }

  /** Whose place a step may give to another request. */
  function Given(s: State, e: Event): Place
  {
    if e.Plan? then PlanPlace
    else if e.Rewritten? || e.Recount? then CountPlace
    else if e.Reply? && e.req in s.log.sent && (s.log.sent[e.req].SetMarks? || s.log.sent[e.req].AutoSelect?) then CountPlace
    else NoPlace
  }

  /** Its reply, or the retirement of the actor that would have sent it. */
  predicate Settling(q: Request, e: Event, r: nat)
  {
    || (e.Reply? && e.req == r)
    || (e.Strand? && e.req == r && q.SetMarks?)
    || (e.StrandSweep? && q.AutoSelect?)
    || (e.DropOpen? && q.Open?)
  }

  /** Nothing is heard that was not waited for, what keeps its place waits on, and what is asked now waits. */
  predicate Keeps(s: State, t: State, given: Place)
  {
    && Ordered(t)
    && (forall r :: r in s.log.sent ==> r in t.log.sent && t.log.sent[r] == s.log.sent[r])
    && (forall r :: r in s.log.sent && Waits(t, r) ==> Waits(s, r))
    && (forall r :: r in s.log.sent && !Of(s.log.sent[r], given) && Waits(s, r) ==> Waits(t, r))
    && (forall r :: r in t.log.sent && r !in s.log.sent ==> Waits(t, r))
  }

  /** The requests waited for are those of s but for r. */
  predicate Settles(s: State, t: State, r: nat)
  {
    && t.log.sent == s.log.sent && t.log.next == s.log.next
    && (forall q :: q in s.log.sent ==> (Waits(t, q) <==> Waits(s, q) && q != r))
  }

  /** Nothing that is waited for changes. */
  predicate Alike(s: State, t: State)
  {
    && t.log.sent == s.log.sent && t.log.next == s.log.next && t.routes == s.routes
    && t.marks.pending == s.marks.pending && t.marks.sweep == s.marks.sweep
  }

  lemma AlikeKeeps(s: State, t: State)
    requires Ordered(s) && Alike(s, t)
    ensures Keeps(s, t, NoPlace)
  {
  }

  lemma KeepsOn(s: State, t: State, u: State, given: Place)
    requires Keeps(s, t, given) && Keeps(t, u, NoPlace) && s.log.next <= t.log.next
    ensures Keeps(s, u, given)
  {
    hide Waits;
  }

  lemma SettlesAlike(s: State, t: State, u: State, r: nat)
    requires Settles(s, t, r) && Alike(t, u)
    ensures Settles(s, u, r)
  {
  }

  // === Requests ===

  lemma PageAskedWaits(s: State, purpose: Purpose)
    requires Ordered(s)
    ensures Keeps(s, PageAsked(s, purpose).0, NoPlace) && s.log.next <= PageAsked(s, purpose).0.log.next
  {
  }

  lemma MarkedAskedWaits(s: State)
    requires Ordered(s)
    ensures Keeps(s, MarkedAsked(s).0, CountPlace) && s.log.next <= MarkedAsked(s).0.log.next
  {
  }

  lemma SelectWaits(s: State, index: nat)
    requires Ordered(s)
    ensures Keeps(s, GroupSelected(s, index), NoPlace) && s.log.next <= GroupSelected(s, index).log.next
  {
    if index < |s.view.groups| {
      var id := s.view.groups[index];
      var t := PageAsked(s, BrowserOpen(id)).0;
      PageAskedWaits(s, BrowserOpen(id));
      CountAskedWaits(t, s.view.installed, id);
      KeepsOn(s, t, GroupSelected(s, index), NoPlace);
      hide PageAsked, Waits;
    }
  }

  lemma CountAskedWaits(s: State, act: nat, id: GroupId)
    requires Ordered(s)
    ensures var (u, req) := Sent(s, GroupCount(act, id));
            var t := if req.None? then u else u.(routes := u.routes.(counts := u.routes.counts[req.value := id]));
            Keeps(s, t, NoPlace) && s.log.next <= t.log.next
  {
  }

  lemma ReloadStartedWaits(s: State)
    requires Ordered(s)
    ensures Keeps(s, ReloadStarted(s), CountPlace)
  {
    MarkedAskedWaits(s);
    var t := MarkedAsked(s).0;
    var id := if t.view.open.None? then None else FindRank(t.view.groups, t.view.open.value.id.rank);
    if id.Some? { PageAskedWaits(t, BrowserReload(id.value)); } else { AlikeKeeps(t, t); }
    var u := if id.None? then t else PageAsked(t, BrowserReload(id.value)).0;
    KeepsOn(s, t, u, CountPlace);
    AlikeKeeps(u, ReloadStarted(s));
    KeepsOn(s, u, ReloadStarted(s), CountPlace);
    hide Keeps, MarkedAsked, PageAsked;
  }

  lemma ActedWaits(s: State, e: Event)
    requires Ordered(s) && !e.Reply?
    requires !e.Elsewhere()
    ensures Keeps(s, Acted(s, e), Given(s, e))
  {
    if e.SelectGroup? { SelectWaits(s, e.index); }
    else if e.LoadMore? { MoreWaits(s, e.cursor); }
    else if e.WatchGroup? { PageAskedWaits(s, Watch(e.panel, e.group)); }
    else if e.OpenScan? || e.AskDir? { OpenAskedWaits(s, e); }
    else if e.MarkGroup? || e.MarkCommander? { MarkWaits(s, e); }
    else if e.Sweep? { SweepWaits(s); }
    else if e.Plan? { PlanWaits(s, e.window); }
    else { AlikeKeeps(s, Acted(s, e)); }
    hide GroupSelected, MoreAsked, PageAsked, Watched, GroupMarked, CommanderMarked, SweepAsked, PlanAsked, Keeps, OpenAsked, DirAsked;
  }

  lemma MoreWaits(s: State, cursor: nat)
    requires Ordered(s)
    ensures Keeps(s, MoreAsked(s, cursor), NoPlace)
  {
    if MoreAsked(s, cursor).log == s.log {
      AlikeKeeps(s, MoreAsked(s, cursor));
    } else {
      var id := FindRank(s.view.groups, s.view.open.value.id.rank);
      PageAskedWaits(s, BrowserMore(id.value, |s.view.open.value.rows|));
    }
    hide Keeps;
  }

  lemma OpenAskedWaits(s: State, e: Event)
    requires Ordered(s) && (e.OpenScan? || e.AskDir?)
    ensures Keeps(s, Acted(s, e), Given(s, e))
  {
    hide GroupSelected, MoreAsked, PageAsked, Watched, GroupMarked, CommanderMarked, SweepAsked, PlanAsked;
  }

  lemma MarkWaits(s: State, e: Event)
    requires Ordered(s) && (e.MarkGroup? || e.MarkCommander?)
    ensures Keeps(s, Acted(s, e), Given(s, e))
  {
    hide GroupSelected, MoreAsked, PageAsked, Watched, SweepAsked, PlanAsked, OpenAsked, DirAsked;
  }

  lemma SweepWaits(s: State)
    requires Ordered(s)
    ensures Keeps(s, SweepAsked(s), NoPlace)
  {
  }

  lemma PlanWaits(s: State, window: PlanWindow)
    requires Ordered(s)
    ensures Keeps(s, PlanAsked(s, window), PlanPlace)
  {
  }

  // === Replies ===

  /** A heard reply settles its request; what it asks for in turn waits. */
  predicate Heard(s: State, t: State, r: nat, given: Place)
  {
    && Ordered(t)
    && (forall q :: q in s.log.sent ==> q in t.log.sent && t.log.sent[q] == s.log.sent[q])
    && (forall q :: q in s.log.sent && Waits(t, q) ==> Waits(s, q) && q != r)
    && (forall q :: q in s.log.sent && !Of(s.log.sent[q], given) && Waits(s, q) && q != r ==> Waits(t, q))
    && (forall q :: q in t.log.sent && q !in s.log.sent ==> Waits(t, q))
  }

  lemma HeardOn(s: State, t: State, u: State, r: nat, given: Place)
    requires Ordered(s) && Settles(s, t, r) && Keeps(t, u, given)
    ensures Heard(s, u, r, given)
  {
    hide Waits;
  }

  lemma OpenHeard(s: State, req: nat, a: Answer)
    requires Ordered(s) && req in s.log.sent && s.log.sent[req].Open?
    ensures Heard(s, OpenAnswered(s, req, a), req, NoPlace)
  {
    if Waits(s, req) {
      var route, t := s.routes.open.value, s.(routes := s.routes.(open := None));
      assert Settles(s, t, req);
      var u := Shown(t, route, if a.Opened? then a.groups else [], req);
      if a.Opened? {
        AlikeKeeps(t, u);
        if a.groups != [] {
          SelectWaits(u, 0);
          KeepsOn(t, u, OpenAnswered(s, req, a), NoPlace);
        }
      } else {
        AlikeKeeps(t, OpenAnswered(s, req, a));
      }
      HeardOn(s, t, OpenAnswered(s, req, a), req, NoPlace);
      hide Waits, GroupSelected, Keeps, Settles, Heard;
    } else {
      Unheard(s, req);
      hide Waits, Heard;
    }
  }

  lemma Unheard(s: State, req: nat)
    requires Ordered(s) && !Waits(s, req)
    ensures Heard(s, s, req, NoPlace)
  {
    hide Waits;
  }

  /** The replies that are only routed: what follows is what is shown and the gate. */
  lemma RoutedHeard(members: Members, s: State, req: nat, a: Answer)
    requires Ordered(s) && req in s.log.sent
    requires var q := s.log.sent[req]; !q.Open? && !q.SetMarks? && !q.AutoSelect?
    ensures Heard(s, Answered(s, members, req, a), req, NoPlace)
  {
    var q, t := s.log.sent[req], Answered(s, members, req, a);
    if q.GroupOpen? { PageSettles(members, s, req, a); }
    else if q.GroupCount? { CountSettles(s, req, a); }
    else if q.MarkedCount? { MarkedSettles(s, req, a); }
    else if q.DirOpen? { DirSettles(s, req, a); }
    else { PlanSettles(s, req); }
    hide PageAnswered, CountAnswered, MarkedAnswered, DirAnswered, PlanAnswered, Settles, Heard, Keeps;
    AlikeKeeps(t, t) by { NumbersAlike(s, t, req); }
    HeardOn(s, t, t, req, NoPlace);
  }

  lemma NumbersAlike(s: State, t: State, r: nat)
    requires Ordered(s) && Settles(s, t, r)
    ensures Ordered(t)
  {
  }

  lemma PageSettles(members: Members, s: State, req: nat, a: Answer)
    requires req in s.log.sent && s.log.sent[req].GroupOpen?
    ensures Settles(s, PageAnswered(s, members, req, s.log.sent[req].act, a), req)
  {
    if Waits(s, req) {
      var t := s.(routes := s.routes.(groups := s.routes.groups - {req}));
      assert Settles(s, t, req);
      PageAlike(members, s, req, s.log.sent[req].act, a);
      hide PageAnswered, Settles;
      SettlesAlike(s, t, PageAnswered(s, members, req, s.log.sent[req].act, a), req);
    }
  }

  lemma PageAlike(members: Members, s: State, req: nat, act: nat, a: Answer)
    requires req in s.routes.groups
    ensures Alike(s.(routes := s.routes.(groups := s.routes.groups - {req})), PageAnswered(s, members, req, act, a))
  {
    hide PageOf, GateAfter, Appended;
    GateKeepsMarks(s.marks, s.view.installed, req);
  }

  lemma GateKeepsMarks(m: Marks, installed: nat, req: nat)
    ensures forall ok, group :: var n := GateAfter(m, installed, req, ok, group); n.pending == m.pending && n.sweep == m.sweep
  {
  }

  lemma CountSettles(s: State, req: nat, a: Answer)
    requires req in s.log.sent && s.log.sent[req].GroupCount?
    ensures Settles(s, CountAnswered(s, req, s.log.sent[req].act, a), req)
  {
  }

  lemma MarkedSettles(s: State, req: nat, a: Answer)
    requires req in s.log.sent && s.log.sent[req].MarkedCount?
    ensures Settles(s, MarkedAnswered(s, req, s.log.sent[req].act, a), req)
  {
    GateKeepsMarks(s.marks, s.view.installed, req);
    hide GateAfter;
  }

  lemma DirSettles(s: State, req: nat, a: Answer)
    requires req in s.log.sent && s.log.sent[req].DirOpen?
    ensures Settles(s, DirAnswered(s, req, s.log.sent[req].act, a), req)
  {
    hide DirShown;
  }

  lemma PlanSettles(s: State, req: nat)
    requires req in s.log.sent && s.log.sent[req].BuildPlan?
    ensures Settles(s, PlanAnswered(s, req), req)
  {
  }

  lemma MarkHeard(s: State, req: nat, a: Answer)
    requires Ordered(s) && req in s.log.sent && s.log.sent[req].SetMarks?
    ensures Heard(s, MarkAnswered(s, req, s.log.sent[req].act, a), req, CountPlace)
  {
    var act, u := s.log.sent[req].act, MarkAnswered(s, req, s.log.sent[req].act, a);
    var t := s.(marks := s.marks.(pending := s.marks.pending - {req}));
    assert Settles(s, t, req);
    if act != s.view.installed {
      AlikeKeeps(t, t);
      HeardOn(s, t, t, req, CountPlace);
      hide Waits, Settles, Heard, MarkedAsked, Keeps;
    } else {
      var v := if a.Unreadable? && req in s.marks.pending then Restored(t, s.marks.pending[req]) else t;
      var w := if a.Lost? || (a.Unreadable? && a.lost) then Uninstalled(v) else v;
      assert Alike(t, w);
      SettlesAlike(s, t, w, req);
      NumbersAlike(s, w, req);
      MarkedAskedWaits(w);
      HeardOn(s, w, u, req, CountPlace);
      hide Waits, Settles, Heard, MarkedAsked, Keeps;
    }
  }

  lemma SweepHeard(s: State, req: nat, a: Answer)
    requires Ordered(s) && req in s.log.sent && s.log.sent[req].AutoSelect?
    ensures Heard(s, SweepAnswered(s, req, s.log.sent[req].act, a), req, CountPlace)
  {
    var act, u := s.log.sent[req].act, SweepAnswered(s, req, s.log.sent[req].act, a);
    var t := if s.marks.sweep == Some(req) then s.(marks := s.marks.(sweep := None)) else s;
    assert Settles(s, t, req);
    if act == s.view.installed && (a.Done? || a.Partial?) {
      var v := t.(marks := t.marks.(unsettled := a.Partial?));
      assert Alike(t, v);
      SettlesAlike(s, t, v, req);
      NumbersAlike(s, v, req);
      ReloadStartedWaits(v);
      HeardOn(s, v, u, req, CountPlace);
    } else {
      assert Alike(t, u);
      SettlesAlike(s, t, u, req);
      NumbersAlike(s, u, req);
      AlikeKeeps(u, u);
      HeardOn(s, u, u, req, CountPlace);
    }
    hide Waits, Settles, Heard, ReloadStarted, Keeps;
  }

  // === Every step ===

  /** A step settles what it settles and nothing else; what it asks for waits. */
  predicate Stepped(s: State, e: Event, t: State)
  {
    && Ordered(t)
    && (forall q :: q in s.log.sent ==> q in t.log.sent && t.log.sent[q] == s.log.sent[q])
    && (forall q :: q in s.log.sent && Waits(t, q) ==> Waits(s, q) && !Settling(s.log.sent[q], e, q))
    && (forall q :: q in s.log.sent && !Of(s.log.sent[q], Given(s, e)) && Waits(s, q) && !Settling(s.log.sent[q], e, q) ==> Waits(t, q))
    && (forall q :: q in t.log.sent && q !in s.log.sent ==> Waits(t, q))
  }

  lemma StepWaits(members: Members, s: State, e: Event)
    requires Ordered(s)
    ensures Stepped(s, e, Apply(members, s, e))
  {
    var t := Apply(members, s, e);
    if e.Reply? && e.req in s.log.sent {
      var q := s.log.sent[e.req];
      if q.Open? { OpenHeard(s, e.req, e.answer); }
      else if q.SetMarks? { MarkHeard(s, e.req, e.answer); }
      else if q.AutoSelect? { SweepHeard(s, e.req, e.answer); }
      else { RoutedHeard(members, s, e.req, e.answer); }
      ReplyStepped(s, e, t);
    } else if e.Elsewhere() {
      DisturbedStepped(s, e);
    } else if e.Reply? {
      AlikeKeeps(s, s);
      KeepsStepped(s, e, s);
    } else {
      ActedWaits(s, e);
      KeepsStepped(s, e, t);
    }
    hide Acted, Disturbed, Stepped, Keeps, Heard, OpenAnswered, MarkAnswered, SweepAnswered, PageAnswered, CountAnswered,
         DirAnswered, MarkedAnswered, PlanAnswered;
  }

  lemma ReplyStepped(s: State, e: Event, t: State)
    requires e.Reply? && e.req in s.log.sent && Heard(s, t, e.req, Given(s, e))
    ensures Stepped(s, e, t)
  {
    hide Waits;
  }

  lemma KeepsStepped(s: State, e: Event, t: State)
    requires Keeps(s, t, Given(s, e)) && (e.Reply? ==> e.req !in s.log.sent) && !e.Strand? && !e.StrandSweep? && !e.DropOpen?
    ensures Stepped(s, e, t)
  {
    hide Waits;
  }

  lemma DisturbedStepped(s: State, e: Event)
    requires Ordered(s)
    requires e.Elsewhere()
    ensures Stepped(s, e, Disturbed(s, e))
  {
    hide Stepped, Keeps;
    if e.Rewritten? {
      ReloadStartedWaits(s);
      KeepsStepped(s, e, ReloadStarted(s));
      hide ReloadStarted;
    } else if e.Recount? {
      MarkedAskedWaits(s);
      KeepsStepped(s, e, MarkedAsked(s).0);
      hide MarkedAsked;
    } else if e.Accept? || e.Block? {
      AlikeKeeps(s, Disturbed(s, e));
      KeepsStepped(s, e, Disturbed(s, e));
    } else {
      RetiredStepped(s, e);
    }
  }

  /** What the retirement of an actor leaves unanswered. */
  lemma RetiredStepped(s: State, e: Event)
    requires Ordered(s) && (e.Strand? || e.StrandSweep? || e.DropOpen?)
    ensures Stepped(s, e, Disturbed(s, e))
  {
    var t := Disturbed(s, e);
    assert t.log == s.log;
    forall q | q in s.log.sent
      ensures Waits(t, q) ==> Waits(s, q) && !Settling(s.log.sent[q], e, q)
      ensures Waits(s, q) && !Settling(s.log.sent[q], e, q) ==> Waits(t, q)
    {
      RetiredWaits(s, e, q);
    }
    hide Waits, Settling, Disturbed;
  }

  lemma RetiredWaits(s: State, e: Event, q: nat)
    requires q in s.log.sent && (e.Strand? || e.StrandSweep? || e.DropOpen?)
    ensures Waits(Disturbed(s, e), q) <==> Waits(s, q) && !Settling(s.log.sent[q], e, q)
  {
  }

  // === Every run ===

  predicate SettledIn(q: Request, events: seq<Event>, r: nat) { exists i :: 0 <= i < |events| && Settling(q, events[i], r) }

  lemma {:induction false} RunWaits(members: Members, s: State, events: seq<Event>, r: nat)
    requires Ordered(s) && r in s.log.sent
    ensures var t := Run(members, s, events);
            && Ordered(t) && r in t.log.sent && t.log.sent[r] == s.log.sent[r]
            && (Waits(t, r) ==> Waits(s, r) && !SettledIn(s.log.sent[r], events, r))
            && (Waits(s, r) && !SettledIn(s.log.sent[r], events, r) && !Superseded(members, s, events, s.log.sent[r]) ==> Waits(t, r))
    decreases |events|
  {
    hide Apply, Waits, Settling, Given;
    if events != [] {
      var t := Apply(members, s, events[0]);
      StepWaits(members, s, events[0]);
      RunWaits(members, t, events[1..], r);
      SettledNext(s.log.sent[r], events, r);
    }
  }

  lemma SettledNext(q: Request, events: seq<Event>, r: nat)
    requires events != []
    ensures SettledIn(q, events, r) <==> Settling(q, events[0], r) || SettledIn(q, events[1..], r)
  {
    hide Settling;
    if i :| 0 <= i < |events| && Settling(q, events[i], r) {
      if i > 0 { assert events[1..][i - 1] == events[i]; }
    }
    if i :| 0 <= i < |events[1..]| && Settling(q, events[1..][i], r) {
      assert events[i + 1] == events[1..][i];
    }
  }

  lemma {:induction false} NumberedRun(members: Members, s: State, events: seq<Event>)
    requires Ordered(s)
    ensures Ordered(Run(members, s, events))
    decreases |events|
  {
    hide Apply, Waits;
    if events != [] {
      StepWaits(members, s, events[0]);
      NumberedRun(members, Apply(members, s, events[0]), events[1..]);
    }
  }

  /** Some step may give the place of such a request to another. */
  predicate Superseded(members: Members, s: State, events: seq<Event>, q: Request)
    decreases |events|
  {
    events != [] && (Of(q, Given(s, events[0])) || Superseded(members, Apply(members, s, events[0]), events[1..], q))
  }

  lemma {:induction false} NeverSuperseded(members: Members, s: State, events: seq<Event>, q: Request)
    requires !q.MarkedCount? && !q.BuildPlan?
    ensures !Superseded(members, s, events, q)
    decreases |events|
  {
    hide Apply, Given;
    if events != [] { NeverSuperseded(members, Apply(members, s, events[0]), events[1..], q); }
  }

  /** Over every run, from the step that sends it: a request waits for its reply until that comes, or the
      actor that would send it is retired — exactly until then, unless it is for the count of the marks or
      for a plan. Those wait so long while none is asked for after them. */
  lemma WaitsUntilSettled(members: Members, before: seq<Event>, e: Event, after: seq<Event>, r: nat)
    requires var s := Run(members, INITIAL, before);
             r in Apply(members, s, e).log.sent && r !in s.log.sent
    ensures var t := Apply(members, Run(members, INITIAL, before), e);
            var q := t.log.sent[r];
            && (Waits(Run(members, t, after), r) ==> !SettledIn(q, after, r))
            && (!SettledIn(q, after, r) && !Superseded(members, t, after, q) ==> Waits(Run(members, t, after), r))
            && (!q.MarkedCount? && !q.BuildPlan? ==> (Waits(Run(members, t, after), r) <==> !SettledIn(q, after, r)))
  {
    hide Apply, Waits, SettledIn;
    NumberedRun(members, INITIAL, before);
    var s := Run(members, INITIAL, before);
    var t := Apply(members, s, e);
    StepWaits(members, s, e);
    RunWaits(members, t, after, r);
    if !t.log.sent[r].MarkedCount? && !t.log.sent[r].BuildPlan? { NeverSuperseded(members, t, after, t.log.sent[r]); }
  }

  /** Over every run: whatever is asked for, only its first reply is heard. A second one changes nothing;
      but a second acknowledgement of marks or of a sweep makes what is shown be read again. */
  lemma HeardOnce(members: Members, before: seq<Event>, r: nat, a: Answer, between: seq<Event>, b: Answer)
    requires var s := Run(members, INITIAL, before); r in s.log.sent && !s.log.sent[r].SetMarks? && !s.log.sent[r].AutoSelect?
    ensures var t := Run(members, Apply(members, Run(members, INITIAL, before), Reply(r, a)), between);
            Apply(members, t, Reply(r, b)) == t
  {
    hide Apply, Waits;
    NumberedRun(members, INITIAL, before);
    var s := Run(members, INITIAL, before);
    StepWaits(members, s, Reply(r, a));
    RunWaits(members, Apply(members, s, Reply(r, a)), between, r);
    UnheardIsNothing(members, Run(members, Apply(members, s, Reply(r, a)), between), r, b);
  }

  lemma UnheardIsNothing(members: Members, s: State, r: nat, a: Answer)
    requires r in s.log.sent && !Waits(s, r) && !s.log.sent[r].SetMarks? && !s.log.sent[r].AutoSelect?
    ensures Apply(members, s, Reply(r, a)) == s
  {
    hide PageOf, GateAfter, Appended, Uninstalled, GroupSelected, PageTaken, PageMissed, DirShown;
  }
}
