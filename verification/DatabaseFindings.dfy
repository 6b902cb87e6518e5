/** Where the list of open databases falls short: a look made before the list is held, and a close that is
    not announced. */
module DatabaseFindings {
  import opened Wrappers
  import opened FileTree
  import opened OpenDatabases
  import opened DatabaseSteps
  import opened DatabaseRuns

  // === The look that comes before the list ===

  /** The file SQLite opens for the connection is answered for by no other entry and lies at neither of
      its two other names. */
  ghost predicate OnlyItsOwn(s: System, t: Tree, db: Path, file: nat)
    requires db != []
  {
    && (forall h :: h in s.open && h.Shape() ==> !Covers(t, h, file))
    && (forall i: nat :: 1 <= i < FILES ==> t.Lstat(Name(db, i)) != Some(file))
  }

  /** Of every state, and whatever the look found at whatever moment before the entry: once SQLite has
      opened the database and a descriptor of that file has been closed as the list lets it, the
      connection has the file open still, and its lock on it exactly if the look had found nothing or that
      very file. */
  lemma LockSurvivesIff(s: System, c: nat, db: Path, looked: Option<nat>, made: nat)
    requires Invariant(s) && c !in s.connections && Verified(s.tree, db)
    requires var (t, file) := OpenAt(s.tree, db, made); file.Some? && OnlyItsOwn(s, t, db, file.value)
    ensures var file := OpenAt(s.tree, db, made).1;
            var connected := Apply(EnterWith(s, c, db, looked), SqliteOpen(c, made));
            var closed := Apply(connected, GuardedClose(file.value));
            && c in connected.connections && |connected.connections[c].held| == FILES
            && connected.connections[c].held[0] == file && file.value in connected.connections[c].locked
            && c in closed.connections && closed.connections[c].held == connected.connections[c].held
            && (file.value in closed.connections[c].locked <==> looked.None? || looked == file)
    ensures var file := OpenAt(s.tree, db, made).1;
            file == if s.tree.Walk(db).Some? then s.tree.Walk(db) else Some(made)
  {
    var h, x := HeldFiles(c, db, [looked, None, None]), Connection(db, Entered, NOTHING, {});
    var entered := EnterWith(s, c, db, looked);
    var (t, file) := OpenAt(s.tree, db, made);
    var connected := Put(entered, c, x.(stage := Open, held := [file, None, None], locked := {file.value})).(tree := t);
    OpenApplies(entered, c, made);
    assert Apply(entered, SqliteOpen(c, made)) == connected;
    OpensWhatIsThere(s, db, made);
    TreeIsOk(s);
    OpenAtKeeps(s.tree, db, made);
    OwnAnswer(t, h, file.value);
    EveryEntryHasShape(s);
    HoldsOneMore(t, s.open, h, file.value);
    CloseUnlocks(connected, c, file.value);
    hide Invariant, OpenAt, Apply, Holds, Covers, Verified, OnlyItsOwn, LeadsTo;
  }

  lemma EveryEntryHasShape(s: System)
    requires Invariant(s)
    ensures forall h :: h in s.open ==> h.Shape()
  {
  }

  lemma CloseUnlocks(s: System, c: nat, file: nat)
    requires c in s.connections && file in s.connections[c].locked
    ensures var u := Apply(s, GuardedClose(file));
            && c in u.connections && u.connections[c].held == s.connections[c].held
            && (file in u.connections[c].locked <==> Holds(s.tree, s.open, file))
  {
    hide Holds;
  }

  lemma HoldsOneMore(t: Tree, open: seq<HeldFiles>, h: HeldFiles, file: nat)
    requires h.Shape() && forall g :: g in open ==> g.Shape() && !Covers(t, g, file)
    ensures Holds(t, open + [h], file) <==> Covers(t, h, file)
  {
    hide Covers;
    if Covers(t, h, file) {
      assert (open + [h])[|open|] == h;
    }
  }

  lemma OwnAnswer(t: Tree, h: HeldFiles, file: nat)
    requires h.Shape() && h.noted == [h.noted[0], None, None] && LeadsTo(t, h.db, file)
    requires forall i: nat :: 1 <= i < FILES ==> t.Lstat(Name(h.db, i)) != Some(file)
    ensures Covers(t, h, file) <==> h.noted[0].None? || h.noted[0] == Some(file)
  {
    NameParts(h.db);
    WalkLstat(t, h.db);
  }

  lemma OpensWhatIsThere(s: System, db: Path, made: nat)
    requires Verified(s.tree, db) && OpenAt(s.tree, db, made).1.Some?
    ensures OpenAt(s.tree, db, made).1 == if s.tree.Walk(db).Some? then s.tree.Walk(db) else Some(made)
  {
  }

  const DB: Path := ["d"]

  const BEFORE := Tree(map[ROOT := Dir(map["d" := 2]), 2 := File])

  const MOVED := Tree(map[ROOT := Dir(map["x" := 2]), 2 := File])

  const MADE := Tree(map[ROOT := Dir(map["x" := 2, "d" := 3]), 2 := File, 3 := File])

  /** `OpenDatabase::at` looks at the file before it holds the list. A rename let through in between
      leaves a number on the list that is no longer the database's; SQLite then opens a file the list
      does not answer for, and closing a descriptor of it is let through and drops its lock. */
  lemma LateEntry()
    ensures var looked := BEFORE.Lstat(DB);
            var renamed := Run(System(BEFORE, [], map[], map[], 0), [Look(0, DB, ["x"]), Act(0)]);
            var connected := Apply(EnterWith(renamed, 0, DB, looked), SqliteOpen(0, 3));
            var closed := Apply(connected, GuardedClose(3));
            && Initial(System(BEFORE, [], map[], map[], 0)) && Verified(BEFORE, DB) && Verified(renamed.tree, DB)
            && 0 in connected.connections && |connected.connections[0].held| == FILES && connected.connections[0].held[0] == Some(3)
            && 3 in connected.connections[0].locked && 0 in closed.connections
            && closed.connections[0] == connected.connections[0].(locked := {})
  {
    LateRename();
    var renamed := System(MOVED, [], map[], map[], 1);
    var entered := EnterWith(renamed, 0, DB, Some(2));
    LateOpen(entered);
    LateClose(entered.open);
    var connected := Put(entered, 0, Connection(DB, Open, [Some(3), None, None], {3})).(tree := MADE);
    var closed := Apply(connected, GuardedClose(3));
    assert closed.connections[0] == Unlock(connected.connections[0], 3);
    assert {3} - {3} == {};
  }

  lemma LateRename()
    ensures BEFORE.Ok() && BEFORE.Lstat(DB) == Some(2) && BEFORE.Rename(DB, ["x"]) == MOVED
    ensures Verified(BEFORE, DB) && Verified(MOVED, DB) && PartHeld(BEFORE, [], DB) == Some(NotPart)
    ensures Run(System(BEFORE, [], map[], map[], 0), [Look(0, DB, ["x"]), Act(0)]) == System(MOVED, [], map[], map[], 1)
  {
    LateRenameMoves();
    LateRenameRuns();
  }

  lemma LateRenameRuns()
    requires PartHeld(BEFORE, [], DB) == Some(NotPart) && BEFORE.Rename(DB, ["x"]) == MOVED
    ensures Run(System(BEFORE, [], map[], map[], 0), [Look(0, DB, ["x"]), Act(0)]) == System(MOVED, [], map[], map[], 1)
  {
    hide PartHeld, Tree.Rename;
    var s, events := System(BEFORE, [], map[], map[], 0), [Look(0, DB, ["x"]), Act(0)];
    var looked := s.(moving := map[0 := Move(DB, ["x"], BEFORE, 0)]);
    assert Apply(s, events[0]) == looked;
    assert looked.moving - {0} == map[];
    assert Apply(looked, events[1]) == System(MOVED, [], map[], map[], 1);
    hide Apply;
    assert events[1..][1..] == [];
    assert Run(s, events) == Run(looked, events[1..]) == Run(System(MOVED, [], map[], map[], 1), []);
  }

  lemma LateRenameMoves()
    ensures BEFORE.Ok() && BEFORE.Lstat(DB) == Some(2) && BEFORE.Rename(DB, ["x"]) == MOVED
    ensures Verified(BEFORE, DB) && Verified(MOVED, DB) && PartHeld(BEFORE, [], DB) == Some(NotPart)
  {
    assert BEFORE.Walk([]) == Some(ROOT) && MOVED.Walk([]) == Some(ROOT);
    assert Parent(DB) == [] && Base(DB) == "d" && Parent(["x"]) == [] && Base(["x"]) == "x";
    assert BEFORE.Resolve(ROOT, [], MAX_LINKS) == Some(ROOT);
    assert BEFORE.DirOf(DB) == Some(ROOT) && BEFORE.DirOf(["x"]) == Some(ROOT);
    assert BEFORE.Without(ROOT, "d").nodes[ROOT] == Dir(map[]);
  }

  lemma LateOpen(entered: System)
    requires entered == EnterWith(System(MOVED, [], map[], map[], 1), 0, DB, Some(2))
    ensures Apply(entered, SqliteOpen(0, 3))
            == Put(entered, 0, Connection(DB, Open, [Some(3), None, None], {3})).(tree := MADE)
  {
    assert MOVED.Walk([]) == Some(ROOT);
    assert Parent(DB) == [] && Base(DB) == "d";
    assert MOVED.Make(ROOT, "d", 3, File) == MADE;
    assert OpenAt(MOVED, DB, 3) == (MADE, Some(3));
  }

  lemma LateClose(open: seq<HeldFiles>)
    requires open == [HeldFiles(0, DB, [Some(2), None, None])]
    ensures !Holds(MADE, open, 3)
  {
    var h := open[0];
    NameParts(DB);
    forall i: nat | 1 <= i < FILES ensures MADE.Lstat(Name(DB, i)) == None {
      assert |Base(Name(DB, i))| == 5;
      assert MADE.DirOf(Name(DB, i)) == Some(ROOT);
    }
  }

  // === The close that is not announced ===

  const WAL := "d-wal"
  const SHM := "d-shm"

  const NOTED: seq<Option<nat>> := [Some(2), Some(3), Some(4)]

  const IN_USE := System(Tree(map[ROOT := Dir(map["d" := 2, WAL := 3, SHM := 4]), 2 := File, 3 := File, 4 := File]),
                         [HeldFiles(0, DB, NOTED)], map[0 := Connection(DB, Reading, NOTED, {2, 3, 4})], map[], 0)

  const LEFT := Tree(map[ROOT := Dir(map["d" := 2]), 2 := File, 3 := File, 4 := File])

  const RECYCLED := Tree(map[ROOT := Dir(map["d" := 2, "o" := 3]), 2 := File, 3 := File, 4 := File])

  /** A database opened, read and noted; closed without a word, the last connection taking the journal;
      then the journal's number given to another file. */
  function Unannounced(): seq<Event>
  {
    [Enter(0, DB), SqliteOpen(0, 9), SqliteRead(0, 3, 4), Note(0)] + [Close(0, true), Reclaim(3), Make(ROOT, "o", 3, File)]
  }

  const FRESH := System(BEFORE, [], map[], map[], 0)

  /** Where the close is not announced, the number of the journal stays on the list after SQLite has
      removed it, and the file that gets the number next is refused though it lies at no listed name. */
  lemma StaleNote()
    ensures Initial(FRESH) && Disciplined(FRESH, Unannounced()) && !Announces(FRESH, Unannounced())
    ensures var u := Run(FRESH, Unannounced());
            && u.tree.Walk(["o"]) == Some(3) && Holds(u.tree, u.open, 3)
            && forall h, i: nat :: h in u.open && i < FILES && h.db != [] ==> u.tree.Lstat(Name(h.db, i)) != Some(3)
  {
    FreshIsInitial();
    OpensReadsNotes();
    var u := ClosesUnannounced();
    Elsewhere();
    StillCovered();
    hide Invariant, Apply, Holds, Initial, InOrder;
    RunAdd(FRESH, Unannounced()[..4], Unannounced()[4..]);
    assert Unannounced() == Unannounced()[..4] + Unannounced()[4..];
    OnlyThisEntry(u.open);
    NoRenames(FRESH, Unannounced());
    if Announces(FRESH, Unannounced()) {
      AnswersAreCurrent(FRESH, Unannounced(), 3);
      assert false;
    }
  }

  lemma OnlyThisEntry(open: seq<HeldFiles>)
    requires open == [HeldFiles(0, DB, NOTED)]
    ensures forall h :: h in open ==> h.db == DB
  {
  }

  lemma FreshIsInitial()
    ensures Initial(FRESH)
  {
  }

  lemma {:induction false} RunAdd(s: System, a: seq<Event>, b: seq<Event>)
    ensures Run(s, a + b) == Run(Run(s, a), b)
    decreases |a|
  {
    hide Apply;
    if a == [] {
      assert a + b == b;
    } else {
      assert (a + b)[1..] == a[1..] + b;
      RunAdd(Apply(s, a[0]), a[1..], b);
    }
  }

  lemma {:induction false} NoRenames(s: System, events: seq<Event>)
    requires forall e :: e in events ==> !e.Act? && !e.OtherRename?
    ensures Disciplined(s, events)
    decreases |events|
  {
    hide Apply;
    if events == [] {
    } else {
      NoRenames(Apply(s, events[0]), events[1..]);
    }
  }

  lemma OpensReadsNotes()
    ensures Run(FRESH, Unannounced()[..4]) == IN_USE
  {
    var events := Unannounced()[..4];
    assert events == [Enter(0, DB), SqliteOpen(0, 9), SqliteRead(0, 3, 4), Note(0)];
    var x := Connection(DB, Entered, NOTHING, {});
    var open := [HeldFiles(0, DB, [Some(2), None, None])];
    var entered := System(BEFORE, open, map[0 := x], map[], 0);
    var connected := System(BEFORE, open, map[0 := Connection(DB, Open, [Some(2), None, None], {2})], map[], 0);
    var reading := System(IN_USE.tree, open, map[0 := Connection(DB, Reading, NOTED, {2, 3, 4})], map[], 0);
    UseEnters(entered);
    UseOpens(entered, connected);
    UseReads(connected, reading);
    UseNotes(reading);
    hide Apply;
    var two, three, four := events[1..], events[2..], events[3..];
    assert two[1..] == three && three[1..] == four && four[1..] == [];
    RunHead(FRESH, events);
    RunHead(entered, two);
    RunHead(connected, three);
    RunHead(reading, four);
  }

  lemma RunHead(s: System, es: seq<Event>)
    requires es != []
    ensures Run(s, es) == Run(Apply(s, es[0]), es[1..])
  {
  }

  lemma UseEnters(entered: System)
    requires entered == System(BEFORE, [HeldFiles(0, DB, [Some(2), None, None])], map[0 := Connection(DB, Entered, NOTHING, {})], map[], 0)
    ensures Apply(FRESH, Enter(0, DB)) == entered
  {
    LateRenameMoves();
    assert [] + [HeldFiles(0, DB, [Some(2), None, None])] == [HeldFiles(0, DB, [Some(2), None, None])];
  }

  lemma UseOpens(entered: System, connected: System)
    requires entered.tree == BEFORE && entered.connections == map[0 := Connection(DB, Entered, NOTHING, {})] && entered.moving == map[]
    requires connected == entered.(connections := map[0 := Connection(DB, Open, [Some(2), None, None], {2})])
    ensures Apply(entered, SqliteOpen(0, 9)) == connected
  {
    assert BEFORE.Walk([]) == Some(ROOT);
    assert Parent(DB) == [] && Base(DB) == "d";
    assert OpenAt(BEFORE, DB, 9) == (BEFORE, Some(2));
  }

  lemma UseReads(connected: System, reading: System)
    requires connected.tree == BEFORE && connected.moving == map[]
    requires connected.connections == map[0 := Connection(DB, Open, [Some(2), None, None], {2})]
    requires reading == connected.(tree := IN_USE.tree, connections := map[0 := Connection(DB, Reading, NOTED, {2, 3, 4})])
    ensures Apply(connected, SqliteRead(0, 3, 4)) == reading
  {
    DatabaseNames();
    ReadApplies(connected, 0, 3, 4);
    JournalMade();
    assert {2} + {3, 4} == {2, 3, 4};
    hide OpenAt, Apply;
  }

  const JOURNALED := Tree(map[ROOT := Dir(map["d" := 2, WAL := 3]), 2 := File, 3 := File])

  lemma JournalMade()
    ensures OpenAt(BEFORE, [WAL], 3) == (JOURNALED, Some(3)) && OpenAt(JOURNALED, [SHM], 4) == (IN_USE.tree, Some(4))
  {
    assert BEFORE.Walk([]) == Some(ROOT) && JOURNALED.Walk([]) == Some(ROOT);
    assert WAL != "d" && SHM != "d" && WAL != SHM by { assert WAL[2] != SHM[2]; }
    assert BEFORE.Make(ROOT, WAL, 3, File) == JOURNALED;
    assert JOURNALED.Make(ROOT, SHM, 4, File) == IN_USE.tree;
  }

  lemma UseNotes(reading: System)
    requires reading == IN_USE.(open := [HeldFiles(0, DB, [Some(2), None, None])])
    ensures Apply(reading, Note(0)) == IN_USE
  {
    var h := HeldFiles(0, DB, [Some(2), None, None]);
    assert Apply(reading, Note(0)) == ChangeEntry(reading, 0, FILES);
    ChangesOneEntry(reading, 0, FILES);
    InUseNoted(h);
    hide *;
    OneEntry(reading, ChangeEntry(reading, 0, FILES), HeldFiles(0, DB, NOTED));
  }

  lemma OneEntry(s: System, u: System, h: HeldFiles)
    requires |s.open| == 1 && u == s.(open := u.open) && |u.open| == 1 && u.open[0] == h
    ensures u == s.(open := [h])
  {
  }

  lemma InUseNoted(h: HeldFiles)
    requires h == HeldFiles(0, DB, [Some(2), None, None])
    ensures Noted(IN_USE.tree, h, FILES) == HeldFiles(0, DB, NOTED)
  {
    var t := IN_USE.tree;
    forall i: nat | 1 <= i < FILES ensures t.Lstat(Name(DB, i)) == NOTED[i] {
      InUseLeads(i);
      WalkLstat(t, Name(DB, i));
    }
    hide Tree.Lstat, Name;
    assert Noted(t, h, FILES).noted == NOTED;
  }

  lemma InUseLeads(i: nat)
    requires i < FILES
    ensures IN_USE.tree.Walk(Name(DB, i)) == NOTED[i]
  {
    DatabaseNames();
    assert IN_USE.tree.Walk([]) == Some(ROOT);
  }

  lemma ClosesUnannounced() returns (u: System)
    ensures u == Run(IN_USE, Unannounced()[4..]) && u.tree == RECYCLED && u.open == [HeldFiles(0, DB, NOTED)]
  {
    var events := Unannounced()[4..];
    assert events == [Close(0, true), Reclaim(3), Make(ROOT, "o", 3, File)];
    var closed := LeavesTheDatabase();
    NumberPasses(closed);
    var bare := Apply(closed, events[1]);
    u := Apply(bare, events[2]);
    hide Apply;
    assert events[1..][1..] == events[2..] && events[2..][1..] == [];
    RunHead(IN_USE, events);
    RunHead(closed, events[1..]);
    RunHead(bare, events[2..]);
  }

  lemma StillCovered()
    ensures Holds(RECYCLED, IN_USE.open, 3) && RECYCLED.Walk(["o"]) == Some(3)
  {
    assert Covers(RECYCLED, IN_USE.open[0], 3);
    assert RECYCLED.Walk([]) == Some(ROOT);
    assert Parent(["o"]) == [] && Base(["o"]) == "o";
  }

  lemma NumberPasses(closed: System)
    requires closed.tree == LEFT && closed.connections.Keys == {0} && closed.connections[0].held == NOTHING
    ensures Apply(Apply(closed, Reclaim(3)), Make(ROOT, "o", 3, File)) == closed.(tree := RECYCLED)
  {
    assert Unused(closed, 3);
    var bare := Tree(LEFT.nodes - {3});
    assert Apply(closed, Reclaim(3)) == closed.(tree := bare);
    assert bare.Make(ROOT, "o", 3, File) == RECYCLED;
  }

  lemma DatabaseNames()
    ensures PlainName(DB) && Name(DB, 0) == DB && Name(DB, 1) == [WAL] && Name(DB, 2) == [SHM]
  {
    NameParts(DB);
    assert Base(DB) + "-wal" == WAL && Base(DB) + "-shm" == SHM;
  }

  lemma LeavesTheDatabase() returns (closed: System)
    ensures closed == Apply(IN_USE, Close(0, true)) && closed.tree == LEFT && closed.open == IN_USE.open
    ensures closed.connections.Keys == {0} && closed.connections[0].held == NOTHING
  {
    closed := Apply(IN_USE, Close(0, true));
    var t := IN_USE.tree;
    DatabaseNames();
    assert t.Walk([]) == Some(ROOT);
    var u := RemoveFile(t, ROOT, WAL);
    assert WAL != SHM by { assert WAL[2] != SHM[2]; }
    assert u.nodes[ROOT].entries == map["d" := 2, SHM := 4];
    var v := RemoveFile(u, ROOT, SHM);
    assert v.nodes[ROOT].entries == map["d" := 2];
    assert RemoveJournal(t, DB) == v == LEFT;
    assert !Shared(IN_USE, 0);
    hide RemoveJournal, RemoveFile, Shared;
  }

  lemma Elsewhere()
    ensures forall i: nat :: i < FILES ==> RECYCLED.Lstat(Name(DB, i)) != Some(3)
  {
    DatabaseNames();
    assert RECYCLED.Resolve(ROOT, [], MAX_LINKS) == Some(ROOT);
    forall i: nat | i < FILES ensures RECYCLED.Lstat(Name(DB, i)) != Some(3) {
      assert RECYCLED.DirOf(Name(DB, i)) == Some(ROOT);
      assert Base(Name(DB, i)) != "o";
    }
  }
}
