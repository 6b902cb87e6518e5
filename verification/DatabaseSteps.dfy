/** That a connection's steps, and the renames that are still let through, keep what the connections rely
    on, and what is kept of the renames in hand. */
module DatabaseSteps {
  import opened Wrappers
  import opened FileTree
  import opened OpenDatabases

  lemma CloseKeeps(s: System, c: nat, o: nat)
    requires Invariant(s) && c in s.connections && o in s.connections && o != c && !Shared(s, c)
    requires s.connections[c].held[0].Some?
    ensures Keeps(s.tree, RemoveJournal(s.tree, s.connections[c].db), s.connections[o])
  {
    var t, x, y := s.tree, s.connections[c], s.connections[o];
    InvariantAt(s, c);
    InvariantAt(s, o);
    EnteredApart(s, c, o);
    forall i: nat | i < FILES && y.held[i].Some? ensures LeadsTo(RemoveJournal(t, x.db), Name(y.db, i), y.held[i].value) {
      CloseKeepsHeld(s, c, o, i);
    }
    hide Invariant, RemoveJournal, ConnectionOk;
    if y.stage != Closed {
      CloseKeepsPlace(t, x.db, y.db);
    }
  }

  lemma CloseKeepsPlace(t: Tree, x: Path, y: Path)
    requires t.Ok() && x != [] && y != [] && t.Walk(Parent(y)).Some? && t.IsDir(t.Walk(Parent(y)).value)
    requires forall j: nat :: 1 <= j < FILES ==> Base(y) != Base(Name(x, j))
    ensures var u := RemoveJournal(t, x);
            && u.Walk(Parent(y)).Some? && u.IsDir(u.Walk(Parent(y)).value)
            && forall file :: LeadsTo(t, y, file) ==> LeadsTo(u, y, file)
  {
    RemoveJournalKeepsWalk(t, x, Parent(y));
    RemoveJournalKeepsKinds(t, x);
    hide RemoveJournal, Suffix, Name;
    if t.Walk(y).Some? && t.IsFile(t.Walk(y).value) {
      CloseKeepsName(t, x, y, t.Walk(y).value);
    }
  }

  lemma RemoveJournalKeepsKinds(t: Tree, db: Path)
    requires db != []
    ensures forall i :: (t.IsFile(i) ==> RemoveJournal(t, db).IsFile(i)) && (t.IsDir(i) ==> RemoveJournal(t, db).IsDir(i))
  {
  }

  lemma CloseKeepsHeld(s: System, c: nat, o: nat, i: nat)
    requires Invariant(s) && c in s.connections && o in s.connections && o != c && !Shared(s, c)
    requires s.connections[c].held[0].Some? && i < FILES && s.connections[o].held[i].Some?
    ensures LeadsTo(RemoveJournal(s.tree, s.connections[c].db), Name(s.connections[o].db, i), s.connections[o].held[i].value)
  {
    var t, x, y := s.tree, s.connections[c], s.connections[o];
    InvariantAt(s, c);
    InvariantAt(s, o);
    HeldApart(s, c, o, i);
    hide Invariant, RemoveJournal, Shared;
    CloseKeepsName(t, x.db, Name(y.db, i), y.held[i].value);
  }

  lemma CloseKeepsName(t: Tree, db: Path, name: Path, file: nat)
    requires t.Ok() && db != [] && name != [] && LeadsTo(t, name, file)
    requires forall j :: 1 <= j < FILES ==> !(t.Walk(Parent(name)) == t.Walk(Parent(db)) && Base(name) == Base(Name(db, j)))
    ensures LeadsTo(RemoveJournal(t, db), name, file)
  {
    RemoveJournalKeepsWalk(t, db, name);
  }

  /** A database is not named like a journal. */
  lemma EnteredApart(s: System, c: nat, o: nat)
    requires Invariant(s) && c in s.connections && o in s.connections
    ensures forall j :: 1 <= j < FILES ==> Base(s.connections[o].db) != Base(Name(s.connections[c].db, j))
  {
    var x, y := s.connections[c], s.connections[o];
    InvariantAt(s, c);
    InvariantAt(s, o);
    NameParts(y.db);
    forall j: nat | 1 <= j < FILES && Base(y.db) == Base(Name(x.db, j)) ensures false {
      NamesApart(y.db, x.db, 0, j);
    }
  }

  /** A journal that another connection has open is not the last one's to take. */
  lemma HeldApart(s: System, c: nat, o: nat, i: nat)
    requires Invariant(s) && c in s.connections && o in s.connections && o != c && !Shared(s, c) && i < FILES
    requires s.connections[c].held[0].Some? && s.connections[o].held[i].Some?
    ensures forall j :: 1 <= j < FILES ==>
              !(s.tree.Walk(Parent(s.connections[o].db)) == s.tree.Walk(Parent(s.connections[c].db))
                && Base(Name(s.connections[o].db, i)) == Base(Name(s.connections[c].db, j)))
  {
    var t, x, y := s.tree, s.connections[c], s.connections[o];
    InvariantAt(s, c);
    InvariantAt(s, o);
    NameParts(x.db);
    NameParts(y.db);
    LedTo(t, x.db);
    LedTo(t, y.db);
    assert x.held[0] == t.Walk(x.db) && y.held[0] == t.Walk(y.db);
    forall j: nat | 1 <= j < FILES && t.Walk(Parent(y.db)) == t.Walk(Parent(x.db)) && Base(Name(y.db, i)) == Base(Name(x.db, j))
      ensures false
    {
      NamesApart(y.db, x.db, i, j);
    }
  }

  lemma CloseApplies(s: System, c: nat, last: bool)
    requires c in s.connections && s.connections[c].stage != Entered && s.connections[c].stage != Closed
    requires s.connections[c].db != [] && |s.connections[c].held| == FILES
    ensures var x := s.connections[c];
            var t := if last && !Shared(s, c) then RemoveJournal(s.tree, x.db) else s.tree;
            Apply(s, Close(c, last)) == Put(s, c, x.(stage := Closed, held := NOTHING, locked := {})).(tree := t)
  {
  }

  lemma ClosedFits(t: Tree, u: Tree, x: Connection)
    requires ConnectionOk(t, x)
    ensures var y := x.(stage := Closed, held := NOTHING, locked := {});
            ConnectionOk(u, y) && forall h :: EntryOk(t, x, h) ==> EntryOk(u, y, h)
  {
  }

  /** The tree a close leaves, and what it leaves to the other connections. */
  function ClosedTree(s: System, c: nat, last: bool): Tree
    requires c in s.connections && |s.connections[c].held| == FILES && s.connections[c].db != []
  {
    if last && !Shared(s, c) then RemoveJournal(s.tree, s.connections[c].db) else s.tree
  }

  lemma CloseKeepsOthers(s: System, c: nat, last: bool)
    requires Invariant(s) && c in s.connections && s.connections[c].held[0].Some?
    ensures var t := ClosedTree(s, c, last);
            t.Ok() && forall o :: o in s.connections && o != c ==> Keeps(s.tree, t, s.connections[o])
  {
    InvariantAt(s, c);
    RemoveJournalKeepsWalk(s.tree, s.connections[c].db, []);
    forall o | o in s.connections && o != c ensures Keeps(s.tree, ClosedTree(s, c, last), s.connections[o]) {
      StillKeeps(s, o);
      if last && !Shared(s, c) {
        CloseKeeps(s, c, o);
      }
    }
    hide Invariant, Keeps, RemoveJournal, Shared;
  }

  lemma CloseConnectionStep(s: System, c: nat, last: bool)
    requires Invariant(s) && c in s.connections
    requires s.connections[c].stage != Entered && s.connections[c].stage != Closed
    ensures Invariant(Apply(s, Close(c, last)))
  {
    var x := s.connections[c];
    InvariantAt(s, c);
    CloseKeepsOthers(s, c, last);
    CloseApplies(s, c, last);
    var t, y := ClosedTree(s, c, last), x.(stage := Closed, held := NOTHING, locked := {});
    ClosedFits(s.tree, t, x);
    assert Apply(s, Close(c, last)) == Put(s, c, y).(tree := t);
    hide *;
    PutIsOwn(s, Apply(s, Close(c, last)), c, t, y);
    OwnStep(s, Apply(s, Close(c, last)), c);
  }

  lemma EnterStep(s: System, c: nat, db: Path, looked: Option<nat>)
    requires Invariant(s) && c !in s.connections && Verified(s.tree, db)
    ensures Invariant(EnterWith(s, c, db, looked)) <==> looked.None? || looked == s.tree.Walk(db)
  {
    var u := EnterWith(s, c, db, looked);
    var h, x := HeldFiles(c, db, [looked, None, None]), Connection(db, Entered, NOTHING, {});
    EnteredFits(s.tree, h, x);
    AllStillKeep(s);
    assert u.open[|s.open|] == h;
    if Invariant(u) {
      assert h in u.open;
      assert EntryOk(s.tree, x, h);
    }
    if looked.None? || looked == s.tree.Walk(db) {
      Grows(s, u, c, h);
    }
  }

  lemma EnteredFits(t: Tree, h: HeldFiles, x: Connection)
    requires Verified(t, h.db) && x == Connection(h.db, Entered, NOTHING, {}) && h.Shape() && h.noted == [h.noted[0], None, None]
    ensures ConnectionOk(t, x) && (EntryOk(t, x, h) <==> h.noted[0].None? || h.noted[0] == t.Walk(h.db))
  {
    if EntryOk(t, x, h) && h.noted[0].Some? {
      assert LeadsTo(t, h.db, h.noted[0].value);
    }
  }

  ghost predicate Grown(s: System, u: System, c: nat, h: HeldFiles)
  {
    && Invariant(s) && c !in s.connections && c in u.connections && h.connection == c
    && u == s.(open := s.open + [h], connections := s.connections[c := u.connections[c]])
    && ConnectionOk(u.tree, u.connections[c]) && EntryOk(u.tree, u.connections[c], h)
  }

  lemma GrowsListed(s: System, u: System, c: nat, h: HeldFiles)
    requires Grown(s, u, c, h)
    ensures AllListed(u) && Distinct(u.open, NumberOf)
  {
    hide ConnectionOk, EntryOk, HasEntry;
    forall o | o in u.connections ensures HasEntry(u.open, o) {
      if o != c { assert HasEntry(s.open, o); }
      ListGrows(s.open, h, o);
    }
    assert forall e :: e in s.open ==> e.connection != c;
  }

  lemma Grows(s: System, u: System, c: nat, h: HeldFiles)
    requires Grown(s, u, c, h)
    ensures Invariant(u)
  {
    GrowsListed(s, u, c, h);
    hide ConnectionOk, EntryOk, AllListed, Distinct;
    assert ConnectionsOk(u);
    assert EntriesOk(u);
  }

  lemma ListGrows(open: seq<HeldFiles>, h: HeldFiles, o: nat)
    ensures HasEntry(open + [h], o) <==> HasEntry(open, o) || h.connection == o
  {
    if h.connection == o {
      assert (open + [h])[|open|].connection == o;
    }
    if HasEntry(open, o) {
      var k :| 0 <= k < |open| && open[k].connection == o;
      assert (open + [h])[k].connection == o;
    }
  }

  lemma DropKeepsEntries(s: System, u: System, c: nat)
    requires Invariant(s) && u == s.(open := Without(s.open, NumberOf, c), connections := s.connections - {c})
    ensures ConnectionsOk(u) && EntriesOk(u)
  {
    hide Without, ConnectionOk, Distinct, AllListed;
  }

  lemma DropKeepsListed(s: System, u: System, c: nat)
    requires Invariant(s) && u == s.(open := Without(s.open, NumberOf, c), connections := s.connections - {c})
    ensures AllListed(u)
  {
    hide Without, ConnectionOk, Distinct;
    forall o | o in u.connections ensures HasEntry(u.open, o) {
      var h := EntryOf(s, o);
      var k :| 0 <= k < |u.open| && u.open[k] == h;
    }
  }

  lemma DropStep(s: System, c: nat)
    requires Invariant(s) && c in s.connections
    ensures Invariant(s.(open := Without(s.open, NumberOf, c), connections := s.connections - {c}))
  {
    var u := s.(open := Without(s.open, NumberOf, c), connections := s.connections - {c});
    WithoutDistinct(s.open, NumberOf, c);
    DropKeepsEntries(s, u, c);
    DropKeepsListed(s, u, c);
    hide EntriesOk, ConnectionsOk, AllListed, Distinct, Without;
  }

  lemma OwnStepKeeps(s: System, e: Event)
    requires Invariant(s) && (e.SqliteOpen? || e.SqliteRead? || e.Note? || e.Announce? || e.Close? || e.Drop?)
    requires e.c in s.connections
    ensures Invariant(Apply(s, e))
  {
    var x := s.connections[e.c];
    InvariantAt(s, e.c);
    hide Invariant, Without, ConnectionOk;
    if s.moving != map[] && (e.Note? || e.Announce? || e.Drop?) { assert Apply(s, e) == s; }
    else if e.SqliteOpen? && x.stage == Entered { OpenStep(s, e.c, e.made); }
    else if e.SqliteRead? && x.stage == Open { ReadStep(s, e.c, e.made, e.also); }
    else if e.Note? && x.stage == Reading { NoteStep(s, e.c); }
    else if e.Announce? && (x.stage == Open || x.stage == Reading) { AnnounceStep(s, e.c); }
    else if e.Close? && x.stage != Entered && x.stage != Closed { CloseConnectionStep(s, e.c, e.last); }
    else if e.Drop? && (x.stage == Closed || x.stage == Entered) { DropStep(s, e.c); }
    else { assert Apply(s, e) == s; }
  }

  /** The list would let the rename through when it is made, whenever it looked. */
  ghost predicate Timely(s: System, from: Path, to: Path)
  {
    PartHeld(s.tree, s.open, from) == Some(NotPart) || s.tree.Rename(from, to) == s.tree
  }

  /** A rename is timely, or nothing was renamed between its look and itself; another process's, whose
      look asked another list, is timely. */
  ghost predicate InOrder(s: System, e: Event)
  {
    && (e.Act? && e.thread in s.moving ==>
          var m := s.moving[e.thread]; Timely(s, m.from, m.to) || m.at == s.renames)
    && (e.OtherRename? ==> Timely(s, e.from, e.to))
  }

  ghost predicate Disciplined(s: System, events: seq<Event>)
    decreases |events|
  {
    events != [] ==> InOrder(s, events[0]) && Disciplined(Apply(s, events[0]), events[1..])
  }

  /** A rename in hand was let through by the list as it still is, with every open connection's directory
      there; and the tree it looked at has not been disturbed if nothing has been renamed since. */
  ghost predicate MoveOk(s: System, m: Move)
  {
    && m.looked.Ok() && PartHeld(m.looked, s.open, m.from) == Some(NotPart) && m.at <= s.renames
    && (m.at == s.renames ==> Undisturbed(m.looked, s.tree))
    && (forall c :: c in s.connections && s.connections[c].stage != Closed && s.connections[c].db != [] ==>
          DirThere(m.looked, s.connections[c].db))
  }

  predicate DirThere(t: Tree, db: Path)
    requires db != []
  {
    t.Walk(Parent(db)).Some? && t.IsDir(t.Walk(Parent(db)).value)
  }

  ghost predicate MovesOk(s: System) { forall thread :: thread in s.moving ==> MoveOk(s, s.moving[thread]) }

  /** A timely rename is clear of every open connection, and so is one in hand since whose look nothing
      was renamed. */
  lemma TimelyIsClear(s: System, from: Path)
    requires Invariant(s) && PartHeld(s.tree, s.open, from) == Some(NotPart)
    ensures AllClear(s, from)
  {
    forall c | c in s.connections && s.connections[c].stage != Closed ensures Clear(s.tree, s.connections[c].db, from) {
      InvariantAt(s, c);
      var h := EntryOf(s, c);
      hide Invariant, PartHeld;
      ClearNow(s.tree, s.open, h, from);
    }
    hide Clear, Invariant;
  }

  lemma ApartIsClear(s: System, m: Move)
    requires Invariant(s) && MoveOk(s, m) && m.at == s.renames
    ensures AllClear(s, m.from)
  {
    forall c | c in s.connections && s.connections[c].stage != Closed ensures Clear(s.tree, s.connections[c].db, m.from) {
      InvariantAt(s, c);
      var h := EntryOf(s, c);
      hide Invariant, PartHeld, Undisturbed;
      ClearSince(m.looked, s.tree, s.open, h, m.from);
    }
    hide Clear, Invariant, MoveOk;
  }

  lemma RenameInOrderKeeps(s: System, from: Path, to: Path)
    requires Invariant(s) && (AllClear(s, from) || s.tree.Rename(from, to) == s.tree)
    ensures Invariant(Renamed(s, from, to))
  {
    var u := s.(tree := s.tree.Rename(from, to));
    if u.tree != s.tree { RenameStep(s, from, to); }
    hide AllClear, Tree.Rename;
    HandsKeep(u, Renamed(s, from, to));
  }

  /** The invariant says nothing of renames. */
  lemma HandsKeep(s: System, u: System)
    requires Invariant(s) && u == s.(moving := u.moving, renames := u.renames)
    ensures Invariant(u)
  {
    hide ConnectionOk, EntryOk, HasEntry, Distinct;
  }

  lemma RenamesKeep(s: System, e: Event)
    requires Invariant(s) && MovesOk(s) && InOrder(s, e) && (e.Look? || e.Act? || e.OtherRename?)
    ensures Invariant(Apply(s, e))
  {
    hide Invariant, MoveOk, PartHeld, Tree.Rename, AllClear;
    if e.Act? && e.thread in s.moving {
      var m := s.moving[e.thread];
      if PartHeld(s.tree, s.open, m.from) == Some(NotPart) { TimelyIsClear(s, m.from); }
      else if m.at == s.renames { ApartIsClear(s, m); }
      RenameInOrderKeeps(s, m.from, m.to);
      HandsKeep(Renamed(s, m.from, m.to), Apply(s, e));
    } else if e.OtherRename? {
      if PartHeld(s.tree, s.open, e.from) == Some(NotPart) { TimelyIsClear(s, e.from); }
      RenameInOrderKeeps(s, e.from, e.to);
    } else {
      HandsKeep(s, Apply(s, e));
    }
  }

  lemma ApplyKeeps(s: System, e: Event)
    requires Invariant(s) && MovesOk(s) && InOrder(s, e)
    ensures Invariant(Apply(s, e))
  {
    hide Invariant, ApplyConnection, MovesOk, InOrder;
    if e.GuardedClose? { if !Holds(s.tree, s.open, e.file) { CloseStep(s, e.file); } }
    else if e.Look? || e.Act? || e.OtherRename? { RenamesKeep(s, e); }
    else if e.Make? { MakeStep(s, e.dir, e.name, e.made, e.node); }
    else if e.HardLink? { HardLinkStep(s, e.from, e.dir, e.name); }
    else if e.Reclaim? { if Unused(s, e.file) { ReclaimStep(s, e.file); } }
    else if e.Enter? { if s.moving == map[] && e.c !in s.connections && Verified(s.tree, e.db) { EnterNow(s, e.c, e.db); } }
    else if e.c in s.connections { OwnStepKeeps(s, e); }
  }

  // === What is kept of the renames in hand ===

  lemma RemoveFileUndisturbs(t: Tree, d: nat, name: string)
    requires t.Ok()
    ensures RemoveFile(t, d, name).Ok() && Undisturbed(t, RemoveFile(t, d, name))
  {
  }

  lemma RemoveJournalUndisturbs(t: Tree, db: Path)
    requires t.Ok() && db != []
    ensures Undisturbed(t, RemoveJournal(t, db))
  {
    NothingDisturbs(t);
    var d := t.Walk(Parent(db));
    if d.Some? {
      var u := RemoveFile(t, d.value, Base(Name(db, 1)));
      RemoveFileUndisturbs(t, d.value, Base(Name(db, 1)));
      RemoveFileUndisturbs(u, d.value, Base(Name(db, 2)));
      UndisturbedTrans(t, u, RemoveFile(u, d.value, Base(Name(db, 2))));
    }
    hide Undisturbed, RemoveFile;
  }

  lemma OpenAtUndisturbs(t: Tree, name: Path, made: nat)
    requires t.Ok() && name != []
    ensures Undisturbed(t, OpenAt(t, name, made).0)
  {
    NothingDisturbs(t);
    if t.Walk(Parent(name)).Some? {
      MakeUndisturbs(t, t.Walk(Parent(name)).value, Base(name), made, File);
    }
    hide Undisturbed;
  }

  lemma ReclaimUndisturbs(s: System, file: nat)
    requires Unused(s, file)
    ensures Undisturbed(s.tree, Tree(s.tree.nodes - {file}))
  {
    var u := Tree(s.tree.nodes - {file});
    forall d, n ensures Lasting(s.tree, s.tree.Child(d, n)) ==> u.Child(d, n) == s.tree.Child(d, n) {
    }
  }

  lemma OpeningDisturbsNothing(s: System, c: nat, made: nat)
    requires s.tree.Ok() && c in s.connections
    ensures Undisturbed(s.tree, Apply(s, SqliteOpen(c, made)).tree)
  {
    NothingDisturbs(s.tree);
    if s.connections[c].db != [] { OpenAtUndisturbs(s.tree, s.connections[c].db, made); }
    hide Undisturbed, OpenAt;
  }

  lemma ReadingDisturbsNothing(s: System, c: nat, made: nat, also: nat)
    requires s.tree.Ok() && c in s.connections
    ensures Undisturbed(s.tree, Apply(s, SqliteRead(c, made, also)).tree)
  {
    NothingDisturbs(s.tree);
    var x := s.connections[c];
    if x.db != [] {
      OpenAtUndisturbs(s.tree, Name(x.db, 1), made);
      OpenAtKeeps(s.tree, Name(x.db, 1), made);
      var t := OpenAt(s.tree, Name(x.db, 1), made).0;
      OpenAtUndisturbs(t, Name(x.db, 2), also);
      UndisturbedTrans(s.tree, t, OpenAt(t, Name(x.db, 2), also).0);
    }
    hide Undisturbed, OpenAt, LeadsTo;
  }

  lemma ClosingDisturbsNothing(s: System, c: nat, last: bool)
    requires s.tree.Ok() && c in s.connections
    ensures Undisturbed(s.tree, Apply(s, Close(c, last)).tree)
  {
    NothingDisturbs(s.tree);
    if s.connections[c].db != [] { RemoveJournalUndisturbs(s.tree, s.connections[c].db); }
    hide Undisturbed, RemoveJournal, Shared;
  }

  /** What SQLite does to the tree disturbs no look. */
  lemma SqliteDisturbsNothing(s: System, e: Event)
    requires Invariant(s) && (e.SqliteOpen? || e.SqliteRead? || e.Close?) && e.c in s.connections
    ensures Undisturbed(s.tree, Apply(s, e).tree)
  {
    TreeIsOk(s);
    hide Invariant, Undisturbed, Apply;
    if e.SqliteOpen? { OpeningDisturbsNothing(s, e.c, e.made); }
    else if e.SqliteRead? { ReadingDisturbsNothing(s, e.c, e.made, e.also); }
    else { ClosingDisturbsNothing(s, e.c, e.last); }
  }

  lemma OthersDisturbNothing(s: System, e: Event)
    requires Invariant(s) && !e.Act? && !e.OtherRename?
    ensures Undisturbed(s.tree, Apply(s, e).tree) && Apply(s, e).renames == s.renames
  {
    TreeIsOk(s);
    NothingDisturbs(s.tree);
    RenamesCounted(s, e);
    hide Invariant, Undisturbed;
    if (e.SqliteOpen? || e.SqliteRead? || e.Close?) && e.c in s.connections { SqliteDisturbsNothing(s, e); }
    else if e.Make? || e.HardLink? || e.Reclaim? { NamesDisturbNothing(s, e); }
    else { TreeStays(s, e); }
    hide Apply;
  }

  lemma RenamesCounted(s: System, e: Event)
    requires !e.Act? && !e.OtherRename?
    ensures Apply(s, e).renames == s.renames
  {
    hide Unused, OpenAt, RemoveJournal, Shared, Holds, PartHeld, Tree.Make, Tree.HardLink, Verified;
  }

  lemma TreeStays(s: System, e: Event)
    requires !e.Act? && !e.OtherRename? && !e.Make? && !e.HardLink? && !e.Reclaim?
    requires (e.SqliteOpen? || e.SqliteRead? || e.Close?) ==> e.c !in s.connections
    ensures Apply(s, e).tree == s.tree
  {
    hide Holds, PartHeld, Verified;
  }

  lemma NamesDisturbNothing(s: System, e: Event)
    requires s.tree.Ok() && (e.Make? || e.HardLink? || e.Reclaim?)
    ensures Undisturbed(s.tree, Apply(s, e).tree)
  {
    NothingDisturbs(s.tree);
    if e.Make? { MakeUndisturbs(s.tree, e.dir, e.name, e.made, e.node); }
    else if e.HardLink? { HardLinkUndisturbs(s.tree, e.from, e.dir, e.name); }
    else if Unused(s, e.file) { ReclaimUndisturbs(s, e.file); }
    hide Undisturbed, Unused, Tree.Make, Tree.HardLink;
  }

  /** While a rename is in hand the list stays as it is, and connections only go on towards their close. */
  lemma ListWaits(s: System, e: Event)
    requires s.moving != map[]
    ensures var u := Apply(s, e);
            && u.open == s.open && u.connections.Keys == s.connections.Keys
            && forall c :: c in s.connections ==>
                 u.connections[c].db == s.connections[c].db && (s.connections[c].stage == Closed ==> u.connections[c].stage == Closed)
  {
    hide Unused, OpenAt, RemoveJournal, Shared, Holds, PartHeld, Tree.Make, Tree.HardLink, Tree.Rename, Verified;
  }

  lemma MoveStays(s: System, e: Event, m: Move)
    requires Invariant(s) && MoveOk(s, m) && s.moving != map[]
    ensures MoveOk(Apply(s, e), m)
  {
    var u := Apply(s, e);
    ListWaits(s, e);
    if e.Act? || e.OtherRename? {
      assert u.renames == s.renames + 1 || u == s;
    } else {
      OthersDisturbNothing(s, e);
      if m.at == s.renames { UndisturbedTrans(m.looked, s.tree, u.tree); }
    }
    hide Apply, Invariant, Undisturbed, PartHeld, DirThere;
  }

  lemma MovesKept(s: System, e: Event)
    requires Invariant(s) && MovesOk(s)
    ensures MovesOk(Apply(s, e))
  {
    var u := Apply(s, e);
    forall thread | thread in u.moving ensures MoveOk(u, u.moving[thread]) {
      if thread in s.moving && u.moving[thread] == s.moving[thread] {
        MoveStays(s, e, s.moving[thread]);
      } else {
        HandsChange(s, e, thread);
        LookMoves(s, u, u.moving[thread]);
      }
    }
    hide Apply, MoveOk, Invariant;
  }

  /** Only a look puts a rename in hand. */
  lemma HandsChange(s: System, e: Event, thread: nat)
    requires thread in Apply(s, e).moving && !(thread in s.moving && Apply(s, e).moving[thread] == s.moving[thread])
    ensures e.Look? && e.thread == thread && PartHeld(s.tree, s.open, e.from) == Some(NotPart)
    ensures Apply(s, e) == s.(moving := s.moving[thread := Move(e.from, e.to, s.tree, s.renames)])
  {
    hide Unused, OpenAt, RemoveJournal, Shared, Holds, Tree.Make, Tree.HardLink, Tree.Rename, Verified, PartHeld;
  }

  lemma LookMoves(s: System, u: System, m: Move)
    requires Invariant(s) && u == s.(moving := u.moving) && PartHeld(s.tree, s.open, m.from) == Some(NotPart)
    requires m.looked == s.tree && m.at == s.renames
    ensures MoveOk(u, m)
  {
    NothingDisturbs(s.tree);
    forall c | c in s.connections && s.connections[c].stage != Closed ensures DirThere(s.tree, s.connections[c].db) {
      InvariantAt(s, c);
    }
    hide Invariant, Undisturbed, PartHeld;
    assert s.tree.Ok() by { TreeIsOk(s); }
  }

  lemma TreeIsOk(s: System)
    requires Invariant(s)
    ensures s.tree.Ok()
  {
  }

  lemma EnterNow(s: System, c: nat, db: Path)
    requires Invariant(s) && c !in s.connections && Verified(s.tree, db)
    ensures Invariant(EnterWith(s, c, db, s.tree.Lstat(db)))
  {
    EnterStep(s, c, db, s.tree.Lstat(db));
    LstatIsWalk(s.tree, db);
  }

  /** In a directory reached without a link, `lstat` finds what the walk finds. */
  lemma LstatIsWalk(t: Tree, path: Path)
    requires path != [] && t.Walk(Parent(path)).Some? && t.IsDir(t.Walk(Parent(path)).value)
    ensures t.Lstat(path) == t.Walk(path)
  {
    WalkResolves(t, Parent(path), MAX_LINKS);
  }

  lemma {:induction false} RunKeeps(s: System, events: seq<Event>)
    requires Invariant(s) && MovesOk(s) && Disciplined(s, events)
    ensures Invariant(Run(s, events)) && MovesOk(Run(s, events))
    decreases |events|
  {
    hide Invariant, Apply, MovesOk, InOrder;
    if events == [] {
    } else {
      ApplyKeeps(s, events[0]);
      MovesKept(s, events[0]);
      RunKeeps(Apply(s, events[0]), events[1..]);
    }
  }
}
