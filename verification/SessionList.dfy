/** The list of saved sessions of src/app.rs, loaded in the background: requests are numbered, a new one
    supersedes the one in flight, and a reply to any but the newest is dropped whole. */
module SessionList {
  import opened Wrappers

  datatype Result = Ok(scans: seq<nat>) | Err(error: string)

  /** `pending` are the loads still running, and `replied` what those that ended said. */
  datatype State = State(
    list: seq<nat>, cursor: nat, loading: bool, loaded: bool, generation: nat,
    owned: Option<string>, status: string, pending: set<nat>, replied: map<nat, Result>)

  function Initial(loaded: bool): State { State([], 0, false, loaded, 0, None, "", {}, map[]) }

  /** `spawn_sessions_load`. */
  function Spawned(s: State): State
  {
    if s.loaded || s.loading then s
    else s.(generation := s.generation + 1, loading := true, pending := s.pending + {s.generation + 1})
  }

  /** `supersede_sessions_load`. */
  function Superseded(s: State): State { Spawned(s.(loaded := false, loading := false)) }

  function Position(list: seq<nat>, scan: nat): (r: Option<nat>)
    ensures r.Some? ==> r.value < |list| && list[r.value] == scan
    ensures r.None? ==> scan !in list
  {
    if list == [] then None
    else if list[0] == scan then Some(0)
    else
      var rest := Position(list[1..], scan);
      if rest.None? then None else Some(rest.value + 1)
  }

  /** Where the cursor goes: while the list is in use it holds a scan, not a row. */
  function Moved(s: State, list: seq<nat>, inList: bool): nat
  {
    if !inList then 0
    else
      var found := if s.cursor < |s.list| then Position(list, s.list[s.cursor]) else None;
      if found.Some? then found.value
      else if s.cursor < |list| then s.cursor
      else if list == [] then 0 else |list| - 1
  }

  /** `SessionsReady`. */
  function Ready(s: State, generation: nat, result: Result, inList: bool): State
  {
    if generation != s.generation then s
    else if result.Ok? then
      s.(list := result.scans, cursor := Moved(s, result.scans, inList), loading := false, loaded := true, owned := None,
         status := if s.owned == Some(s.status) then "" else s.status)
    else s.(loading := false, loaded := false, status := result.error, owned := Some(result.error))
  }

  class App {
    var list: seq<nat>
    var cursor: nat
    var loading: bool
    var loaded: bool
    var generation: nat
    var owned: Option<string>
    var status: string
    ghost var pending: set<nat>
    ghost var replied: map<nat, Result>

    ghost function Now(): State
      reads this
    {
      State(list, cursor, loading, loaded, generation, owned, status, pending, replied)
    }

    constructor (wizard: bool)
      ensures Now() == Initial(wizard)
    {
      list, cursor, loading, loaded, generation, owned, status := [], 0, false, wizard, 0, None, "";
      pending, replied := {}, map[];
    }

    method SpawnSessionsLoad()
      modifies this
      ensures Now() == Spawned(old(Now()))
    {
      if loaded || loading {
        return;
      }
      generation := generation + 1;
      loading := true;
      pending := pending + {generation};
    }

    method SupersedeSessionsLoad()
      modifies this
      ensures Now() == Superseded(old(Now()))
    {
      loaded, loading := false, false;
      SpawnSessionsLoad();
    }

    method OnSessionsReady(of: nat, result: Result, inList: bool)
      modifies this
      ensures Now() == Ready(old(Now()), of, result, inList)
    {
      if of != generation {
        return;
      }
      if result.Err? {
        loading, loaded, status, owned := false, false, result.error, Some(result.error);
        return;
      }
      var picked := if cursor < |list| then Some(list[cursor]) else None;
      list, loading, loaded := result.scans, false, true;
      if !inList {
        cursor := 0;
      } else {
        var found := if picked.Some? then Position(list, picked.value) else None;
        if found.Some? {
          cursor := found.value;
        } else if cursor >= |list| {
          cursor := if list == [] then 0 else |list| - 1;
        }
      }
      if owned.Some? {
        if status == owned.value {
          status := "";
        }
        owned := None;
      }
    }
  }

  // === Every run ===

  datatype Event = Spawn | Supersede | Reply(generation: nat, result: Result, inList: bool) | Say(status: string) | MoveTo(row: nat)

  /** Each load ends once, in any order. */
  function Apply(s: State, e: Event): State
  {
    match e
    case Spawn => Spawned(s)
    case Supersede => Superseded(s)
    case Reply(g, result, inList) =>
      if g !in s.pending then s
      else Ready(s, g, result, inList).(pending := s.pending - {g}, replied := s.replied[g := result])
    case Say(status) => s.(status := status)
    case MoveTo(row) => s.(cursor := row)
  }

  function Run(s: State, events: seq<Event>): State
    decreases |events|
  {
    if events == [] then s else Run(Apply(s, events[0]), events[1..])
  }

  /** What the reply to the newest request, if it has come, makes of the list. */
  predicate FromNewest(s: State)
  {
    s.generation in s.replied ==>
      var r := s.replied[s.generation];
      if r.Ok? then s.list == r.scans && s.loaded && s.owned == None else !s.loaded && s.owned == Some(r.error)
  }

  predicate Invariant(s: State)
  {
    && (forall g :: g in s.pending ==> 0 < g <= s.generation && g !in s.replied)
    && (forall g :: g in s.replied ==> 0 < g <= s.generation)
    && (s.generation > 0 ==> s.generation in s.pending || s.generation in s.replied)
    && (s.loading <==> s.generation in s.pending)
    && (s.loading ==> !s.loaded)
    && FromNewest(s)
  }

  lemma ApplyKeeps(s: State, e: Event)
    requires Invariant(s)
    ensures Invariant(Apply(s, e))
  {
    hide Moved;
  }

  lemma {:induction false} RunKeeps(s: State, events: seq<Event>)
    requires Invariant(s)
    ensures Invariant(Run(s, events))
    decreases |events|
  {
    hide Invariant, Apply;
    if events == [] {
    } else {
      ApplyKeeps(s, events[0]);
      RunKeeps(Apply(s, events[0]), events[1..]);
    }
  }

  /** However many requests supersede one another and in whatever order their replies come: the spinner
      turns exactly while the newest is out, and once it has answered, the list, the flags and the error
      this list owns are what that answer makes them. */
  lemma NewestDecides(loaded: bool, events: seq<Event>)
    ensures var s := Run(Initial(loaded), events);
            && (s.loading <==> s.generation in s.pending)
            && (s.generation > 0 ==> (s.loading <==> s.generation !in s.replied))
            && (s.generation > 0 && !s.loading ==>
                  var r := s.replied[s.generation];
                  if r.Ok? then s.list == r.scans && s.loaded && s.owned == None else !s.loaded && s.owned == Some(r.error))
  {
    RunKeeps(Initial(loaded), events);
  }

  /** What is on screen, as far as a late reply could touch it. */
  function Shown(s: State): (seq<nat>, nat, bool, bool, nat, Option<string>, string)
  {
    (s.list, s.cursor, s.loading, s.loaded, s.generation, s.owned, s.status)
  }

  /** The events without the replies to requests that were superseded when they came. */
  function Heard(s: State, events: seq<Event>): seq<Event>
    decreases |events|
  {
    if events == [] then []
    else
      var rest := Heard(Apply(s, events[0]), events[1..]);
      if events[0].Reply? && events[0].generation != s.generation then rest else [events[0]] + rest
  }

  predicate Alike(s: State,
                  t: State) { Shown(s) == Shown(t) && (s.generation in s.pending <==> t.generation in t.pending) }

  lemma AlikeKept(s: State, t: State, e: Event)
    requires Alike(s, t) && Invariant(s)
    requires forall g :: g in t.pending ==> g <= t.generation
    requires e.Reply? ==> e.generation == s.generation
    ensures Alike(Apply(s, e), Apply(t, e))
    ensures forall g :: g in Apply(t, e).pending ==> g <= Apply(t, e).generation
  {
    hide FromNewest;
  }

  /** Late replies leave no trace: the screen is what it would be had they never come. */
  lemma {:induction false} LateRepliesDoNothing(s: State, t: State, events: seq<Event>)
    requires Invariant(s) && Alike(s, t) && forall g :: g in t.pending ==> g <= t.generation
    ensures Shown(Run(s, events)) == Shown(Run(t, Heard(s, events)))
    decreases |events|
  {
    if events == [] {
    } else {
      var e, s1 := events[0], Apply(s, events[0]);
      ApplyKeeps(s, e);
      if e.Reply? && e.generation != s.generation {
        assert Shown(s1) == Shown(s) && (s1.generation in s1.pending <==> s.generation in s.pending);
        LateRepliesDoNothing(s1, t, events[1..]);
      } else {
        AlikeKept(s, t, e);
        LateRepliesDoNothing(s1, Apply(t, e), events[1..]);
        assert Heard(s, events)[0] == e && Heard(s, events)[1..] == Heard(s1, events[1..]);
      }
    }
  }

  /** The reply of the newest request, still out. */
  predicate Answers(s: State, e: Event) { e.Reply? && e.generation in s.pending && e.generation == s.generation }

  /** What the last reply that was not dropped said. */
  function LastHeard(s: State, events: seq<Event>, last: Option<Result>): Option<Result>
    decreases |events|
  {
    if events == [] then last
    else LastHeard(Apply(s, events[0]), events[1..], if Answers(s, events[0]) then Some(events[0].result) else last)
  }

  function ErrorOf(last: Option<Result>): Option<string>
  {
    if last.Some? && last.value.Err? then Some(last.value.error) else None
  }

  lemma {:induction false} OwnedIsLast(s: State, events: seq<Event>, last: Option<Result>)
    requires s.owned == ErrorOf(last)
    ensures Run(s, events).owned == ErrorOf(LastHeard(s, events, last))
    decreases |events|
  {
    if events == [] {
    } else {
      var e := events[0];
      OwnedStep(s, e, last);
      hide Apply, Answers, ErrorOf;
      OwnedIsLast(Apply(s, e), events[1..], if Answers(s, e) then Some(e.result) else last);
    }
  }

  lemma OwnedStep(s: State, e: Event, last: Option<Result>)
    requires s.owned == ErrorOf(last)
    ensures Apply(s, e).owned == ErrorOf(if Answers(s, e) then Some(e.result) else last)
  {
    hide Moved;
  }

  /** After any run, a success that is heard takes the status back exactly if it is what the last reply
      heard before it failed with, however many loads were superseded in between. */
  lemma StatusTakenBack(loaded: bool, events: seq<Event>, e: Event)
    requires Answers(Run(Initial(loaded), events), e) && e.result.Ok?
    ensures var s := Run(Initial(loaded), events);
            Apply(s, e).status == if LastHeard(Initial(loaded), events,
                  None) == Some(Err(s.status)) then "" else s.status
  {
    OwnedIsLast(Initial(loaded), events, None);
    hide Moved, Run, LastHeard;
  }

  /** The scan the operator last moved the cursor to. */
  function Picked(s: State, events: seq<Event>, scan: nat): nat
    decreases |events|
  {
    if events == [] then scan
    else
      Picked(Apply(s, events[0]), events[1..],
             if events[0].MoveTo? && events[0].row < |s.list| then s.list[events[0].row] else scan)
  }

  /** The list is in use all the while, the cursor moves to rows that are there, and every list that is
      not dropped still has the scan it is on. */
  predicate InUse(s: State, events: seq<Event>, scan: nat)
    decreases |events|
  {
    events != [] ==>
      var e := events[0];
      && (e.MoveTo? ==> e.row < |s.list|)
      && (Answers(s, e) && e.result.Ok? ==> e.inList && scan in e.result.scans)
      && InUse(Apply(s, e), events[1..], if e.MoveTo? then s.list[e.row] else scan)
  }

  lemma CursorStep(s: State, e: Event, scan: nat)
    requires s.cursor < |s.list| && s.list[s.cursor] == scan
    requires e.MoveTo? ==> e.row < |s.list|
    requires Answers(s, e) && e.result.Ok? ==> e.inList && scan in e.result.scans
    ensures var t := Apply(s, e); t.cursor < |t.list| && t.list[t.cursor] == if e.MoveTo? then s.list[e.row] else scan
  {
  }

  /** So over every run the cursor is on the scan it was last moved to, whatever superseded loads say and
      however the rows shift. */
  lemma {:induction false} CursorKeepsItsScan(s: State, events: seq<Event>, scan: nat)
    requires s.cursor < |s.list| && s.list[s.cursor] == scan && InUse(s, events, scan)
    ensures var t := Run(s, events); t.cursor < |t.list| && t.list[t.cursor] == Picked(s, events, scan)
    decreases |events|
  {
    if events == [] {
    } else {
      var e := events[0];
      CursorStep(s, e, scan);
      hide Apply, Answers;
      CursorKeepsItsScan(Apply(s, e), events[1..], if e.MoveTo? then s.list[e.row] else scan);
    }
  }

  predicate MovesToRows(s: State, events: seq<Event>)
    decreases |events|
  {
    events != [] ==> (events[0].MoveTo? ==> events[0].row < |s.list|) && MovesToRows(Apply(s, events[0]), events[1..])
  }

  predicate OnARow(s: State) { s.list == [] || s.cursor < |s.list| }

  lemma OnARowStep(s: State, e: Event)
    requires OnARow(s) && (e.MoveTo? ==> e.row < |s.list|)
    ensures OnARow(Apply(s, e))
  {
  }

  /** And where its scan is gone, or the list was not in use, it is on some row all the same. */
  lemma {:induction false} CursorStaysOnARow(s: State, events: seq<Event>)
    requires OnARow(s) && MovesToRows(s, events)
    ensures OnARow(Run(s, events))
    decreases |events|
  {
    if events == [] {
    } else {
      OnARowStep(s, events[0]);
      hide Apply, OnARow;
      CursorStaysOnARow(Apply(s, events[0]), events[1..]);
    }
  }


  /** Superseding always puts a new load out, under a number never used before, and nothing but its answer
      counts from then on; asking for the list does so exactly if none is out and it is not loaded. */
  lemma AskedAnew(loaded: bool, events: seq<Event>)
    ensures var s := Run(Initial(loaded), events);
            && NewLoad(s, Apply(s, Supersede))
            && (if s.loaded || s.loading then Apply(s, Spawn) == s else NewLoad(s, Apply(s, Spawn)))
  {
    RunKeeps(Initial(loaded), events);
  }

  predicate NewLoad(s: State, t: State)
  {
    && t.generation !in s.pending && t.generation !in s.replied && t.pending == s.pending + {t.generation}
    && t.loading && !t.loaded && t.generation > s.generation
    && (t.list, t.cursor, t.status, t.owned) == (s.list, s.cursor, s.status, s.owned)
  }

  /** Where the scan the cursor was on is gone from the list in use, the cursor keeps its row, or goes to the
      last one if there are fewer; where the list is not in use it goes to the first. */
  lemma CursorWithoutItsScan(s: State, scans: seq<nat>, inList: bool)
    requires s.cursor < |s.list| ==> s.list[s.cursor] !in scans
    ensures var t := Apply(s, Reply(s.generation, Ok(scans), inList));
            s.generation in s.pending ==>
              t.cursor == if !inList || scans == [] then 0 else if s.cursor < |scans| then s.cursor else |scans| - 1
  {
  }

  /** A failure of the newest load is what the status line says. */
  lemma FailureIsSaid(s: State, error: string, inList: bool)
    requires s.generation in s.pending
    ensures var t := Apply(s, Reply(s.generation, Err(error), inList));
            && t.status == error && t.owned == Some(error) && !t.loading && !t.loaded
            && t.list == s.list && t.cursor == s.cursor
  {
  }
}
