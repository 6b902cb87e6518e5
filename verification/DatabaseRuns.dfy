/** What the list of open databases gives in every run: the files that are open are safe, and what is noted
    of them is true. */
module DatabaseRuns {
  import opened Wrappers
  import opened FileTree
  import opened OpenDatabases
  import opened DatabaseSteps

  // === What holds in every run ===

  /** However connections come and go, names are made and moved, and descriptors are closed — a close as
      the list lets it, a rename as the list still would or with no other rename since it did: every file
      a connection has open is refused to closes and renames, still lies at its name, and its locks are
      still held. */
  lemma HeldFilesAreSafe(s: System, events: seq<Event>, c: nat, i: nat)
    requires Initial(s) && Disciplined(s, events)
    ensures var u := Run(s, events);
            c in u.connections && |u.connections[c].held| > i && i < FILES && u.connections[c].held[i].Some? ==>
              var x, file := u.connections[c], u.connections[c].held[i].value;
              x.db != [] && Holds(u.tree, u.open, file) && LeadsTo(u.tree, Name(x.db, i), file) && file in x.locked
  {
    var u := Run(s, events);
    RunKeeps(s, events);
    if c in u.connections && |u.connections[c].held| > i && i < FILES && u.connections[c].held[i].Some? {
      HeldIsListed(u, c, i);
    }
  }

  /** Every connection announces its close: the order an opener keeps. */
  ghost predicate Announces(s: System, events: seq<Event>)
    decreases |events|
  {
    events != [] ==>
      && (events[0].Close? && events[0].c in s.connections ==>
            s.connections[events[0].c].stage != Open && s.connections[events[0].c].stage != Reading)
      && Announces(Apply(s, events[0]), events[1..])
  }

  /** Nothing is noted for a connection past its announcement. */
  ghost predicate Forgotten(s: System)
  {
    forall h :: h in s.open && Past(s, h.connection) ==> h.noted == NOTHING
  }

  predicate Past(s: System, c: nat)
  {
    c in s.connections && (s.connections[c].stage == Announced || s.connections[c].stage == Closed)
  }

  /** Only these four steps touch the list. */
  lemma ListKept(s: System, e: Event)
    requires !e.Enter? && !e.Announce? && !e.Note? && !e.Drop?
    ensures Apply(s, e).open == s.open
  {
    hide OpenAt, Holds, PartHeld, RemoveJournal, Unused, Shared;
  }

  /** No connection gets past an announcement without one. */
  lemma PastKept(s: System, e: Event, c: nat)
    requires !e.Announce? && c in s.connections && Past(Apply(s, e), c)
    requires e.Close? && e.c in s.connections ==> s.connections[e.c].stage != Open && s.connections[e.c].stage != Reading
    ensures Past(s, c)
  {
    hide OpenAt, Holds, PartHeld, RemoveJournal, Unused, Shared, Verified;
  }

  lemma AnnounceForgets(s: System, c: nat)
    requires Forgotten(s) && forall h :: h in s.open ==> h.Shape()
    ensures Forgotten(Apply(s, Announce(c)))
  {
    if c in s.connections {
      var u := Apply(s, Announce(c));
      ChangesOneEntry(s, c, 0);
      forall h | h in u.open && Past(u, h.connection) ensures h.noted == NOTHING {
        var k :| 0 <= k < |u.open| && u.open[k] == h;
        assert s.open[k] in s.open;
      }
    }
  }

  lemma NoteForgets(s: System, c: nat)
    requires Forgotten(s)
    ensures Forgotten(Apply(s, Note(c)))
  {
    if c in s.connections {
      var u := Apply(s, Note(c));
      ChangesOneEntry(s, c, FILES);
      forall h | h in u.open && Past(u, h.connection) ensures h.noted == NOTHING {
        var k :| 0 <= k < |u.open| && u.open[k] == h;
        assert s.open[k] in s.open;
      }
    }
  }

  lemma ForgottenStep(s: System, e: Event)
    requires Invariant(s) && Forgotten(s)
    requires e.Close? && e.c in s.connections ==> s.connections[e.c].stage != Open && s.connections[e.c].stage != Reading
    ensures Forgotten(Apply(s, e))
  {
    var u := Apply(s, e);
    assert forall h :: h in s.open ==> h.Shape() && h.connection in s.connections;
    if e.Announce? { AnnounceForgets(s, e.c); }
    else if e.Note? { NoteForgets(s, e.c); }
    else {
      forall h | h in u.open && Past(u, h.connection) ensures h.noted == NOTHING {
        ForgottenElsewhere(s, e, h);
      }
    }
  }

  lemma ForgottenElsewhere(s: System, e: Event, h: HeldFiles)
    requires Forgotten(s) && !e.Announce? && !e.Note? && h in Apply(s, e).open && Past(Apply(s, e), h.connection)
    requires forall g :: g in s.open ==> g.connection in s.connections
    requires e.Close? && e.c in s.connections ==> s.connections[e.c].stage != Open && s.connections[e.c].stage != Reading
    ensures h.noted == NOTHING
  {
    if e.Enter? || e.Drop? { ListShrinks(s, e, h); } else { ListKept(s, e); }
    hide Apply;
    if h in s.open {
      PastKept(s, e, h.connection);
    }
  }

  lemma ListShrinks(s: System, e: Event, h: HeldFiles)
    requires (e.Enter? || e.Drop?) && h in Apply(s, e).open
    ensures h in s.open || (e.Enter? && h.connection == e.c && Apply(s, e).connections[e.c].stage == Entered)
  {
    hide Verified;
  }

  lemma {:induction false} RunForgets(s: System, events: seq<Event>)
    requires Invariant(s) && MovesOk(s) && Disciplined(s, events) && Forgotten(s) && Announces(s, events)
    ensures Forgotten(Run(s, events))
    decreases |events|
  {
    hide Invariant, Forgotten, Apply, MovesOk, InOrder;
    if events == [] {
    } else {
      ApplyKeeps(s, events[0]);
      MovesKept(s, events[0]);
      ForgottenStep(s, events[0]);
      RunForgets(Apply(s, events[0]), events[1..]);
    }
  }

  /** Where every close is announced, nothing noted outlives what it was noted of: the list answers
      with exactly the files that lie at the names on it, so a number that has passed to another
      file is refused only if that file lies at one of the names. */
  lemma AnswersAreCurrent(s: System, events: seq<Event>, file: nat)
    requires Initial(s) && Disciplined(s, events) && Announces(s, events)
    ensures var u := Run(s, events);
            Holds(u.tree, u.open, file)
            <==> exists h, i: nat :: h in u.open && i < FILES && h.db != [] && u.tree.Lstat(Name(h.db, i)) == Some(file)
  {
    var u := Run(s, events);
    RunKeeps(s, events);
    RunForgets(s, events);
    forall h, i: nat | h in u.open && i < FILES ensures h.Shape() && Answer(u.tree, h, i) == u.tree.Lstat(Name(h.db, i)) {
      AnswerIsCurrent(u, h, i);
    }
    HoldsByAnswer(u.tree, u.open, file);
    hide Holds, Answer, Invariant, Forgotten, Announces, Run, Initial;
  }

  lemma HoldsByAnswer(t: Tree, open: seq<HeldFiles>, file: nat)
    requires forall h :: h in open ==> h.Shape()
    ensures Holds(t, open, file) <==> exists h, i: nat :: h in open && i < FILES && Answer(t, h, i) == Some(file)
  {
    hide Answer;
    if Holds(t, open, file) {
      var k :| 0 <= k < |open| && open[k].Shape() && Covers(t, open[k], file);
      var i: nat :| i < FILES && Answer(t, open[k], i) == Some(file);
      assert open[k] in open;
    }
    if h, i: nat :| h in open && i < FILES && Answer(t, h, i) == Some(file) {
      var k :| 0 <= k < |open| && open[k] == h;
      assert i == 0 || i == 1 || i == 2;
      assert Covers(t, open[k], file);
    }
  }

  /** What is noted is what the connection has open — or is about to, before it has opened it. */
  lemma AnswerIsCurrent(s: System, h: HeldFiles, i: nat)
    requires Invariant(s) && Forgotten(s) && h in s.open && i < FILES
    ensures h.Shape() && Answer(s.tree, h, i) == s.tree.Lstat(Name(h.db, i))
    ensures h.noted[i].Some? ==>
              var x := s.connections[h.connection];
              && (x.stage == Open || x.stage == Reading || (x.stage == Entered && i == 0))
              && (if x.stage == Entered then LeadsTo(s.tree, h.db, h.noted[0].value) else x.held[i] == h.noted[i])
  {
    var x := s.connections[h.connection];
    assert EntryOk(s.tree, x, h) && ConnectionOk(s.tree, x);
    NameParts(h.db);
    if h.noted[i].Some? {
      assert !Past(s, h.connection);
      WalkLstat(s.tree, Name(h.db, i));
    }
  }

  /** So in every such run a noted number is the number of a file its connection has open. */
  lemma NotesAreHeld(s: System, events: seq<Event>, h: HeldFiles, i: nat)
    requires Initial(s) && Disciplined(s, events) && Announces(s, events) && h in Run(s, events).open && i < FILES
    ensures |h.noted| == FILES && h.connection in Run(s, events).connections
    ensures h.noted[i].Some? ==>
              var x := Run(s, events).connections[h.connection];
              if x.stage == Entered then i == 0 && LeadsTo(Run(s, events).tree, h.db, h.noted[0].value)
              else |x.held| == FILES && x.held[i] == h.noted[i]
  {
    RunKeeps(s, events);
    RunForgets(s, events);
    AnswerIsCurrent(Run(s, events), h, i);
  }

  /** The same connection's entry, with at least what was noted. */
  predicate Continues(g: HeldFiles, h: HeldFiles)
  {
    && g.connection == h.connection && g.db == h.db && |g.noted| == |h.noted|
    && forall i :: 0 <= i < |h.noted| && h.noted[i].Some? ==> g.noted[i] == h.noted[i]
  }

  /** Once a connection has read and is noted, all three of its files are, each under its own number. */
  lemma NotedInFull(s: System, events: seq<Event>, c: nat)
    requires Initial(s) && Disciplined(s, events)
    requires var u := Run(s, events); u.moving == map[] && c in u.connections && u.connections[c].stage == Reading
    ensures var u := Run(s, events);
            && (exists h :: h in Apply(u, Note(c)).open && h.connection == c)
            && forall h :: h in Apply(u, Note(c)).open && h.connection == c ==> NotedWhole(h, u.connections[c])
  {
    RunKeeps(s, events);
    NotesAll(Run(s, events), c);
    hide Run, Apply;
  }

  lemma NotesAll(s: System, c: nat)
    requires Invariant(s) && s.moving == map[] && c in s.connections && s.connections[c].stage == Reading
    ensures var u := Apply(s, Note(c));
            && (exists h :: h in u.open && h.connection == c)
            && forall h :: h in u.open && h.connection == c ==> NotedWhole(h, s.connections[c])
  {
    InvariantAt(s, c);
    var u := Apply(s, Note(c));
    ChangesOneEntry(s, c, FILES);
    assert u == ChangeEntry(s, c, FILES);
    var g := EntryOf(s, c);
    hide Invariant, Apply, ChangeEntry, Noted, ConnectionOk, LeadsTo;
    var j :| 0 <= j < |s.open| && s.open[j] == g;
    assert u.open[j] in u.open && u.open[j].connection == c;
    forall h | h in u.open && h.connection == c ensures NotedWhole(h, s.connections[c]) {
      var k :| 0 <= k < |u.open| && u.open[k] == h;
      NotedIsHeld(s.tree, s.connections[c], s.open[k]);
    }
  }

  predicate NotedWhole(h: HeldFiles, x: Connection)
  {
    |h.noted| == FILES && h.noted == x.held && forall i :: 0 <= i < FILES ==> h.noted[i].Some?
  }

  lemma NotedIsHeld(t: Tree, x: Connection, h: HeldFiles)
    requires x.stage == Reading && ConnectionOk(t, x) && EntryOk(t, x, h)
    ensures Noted(t, h, FILES).noted == x.held && forall i :: 0 <= i < FILES ==> x.held[i].Some?
  {
    forall i: nat | i < FILES ensures Noted(t, h, FILES).noted[i] == x.held[i] && x.held[i].Some? {
      assert x.held[i].Some?;
      WalkLstat(t, Name(x.db, i));
    }
  }

  /** And a note once taken stays, over any run in which its connection neither announces its close nor
      leaves the list. */
  lemma {:induction false} NotesStay(s: System, events: seq<Event>, h: HeldFiles)
    requires Invariant(s) && MovesOk(s) && Disciplined(s, events) && h in s.open
    requires forall e :: e in events ==> e != Announce(h.connection) && e != Drop(h.connection)
    ensures exists g :: g in Run(s, events).open && Continues(g, h)
    decreases |events|
  {
    hide Invariant, Apply, MovesOk, InOrder;
    if events == [] {
      assert Continues(h, h);
    } else {
      assert events[0] in events;
      ApplyKeeps(s, events[0]);
      MovesKept(s, events[0]);
      NoteStays(s, events[0], h);
      var f :| f in Apply(s, events[0]).open && Continues(f, h);
      assert f.connection == h.connection;
      assert forall e :: e in events[1..] ==> e in events;
      NotesStay(Apply(s, events[0]), events[1..], f);
    }
  }

  lemma NoteStays(s: System, e: Event, h: HeldFiles)
    requires Invariant(s) && h in s.open && e != Announce(h.connection) && e != Drop(h.connection)
    ensures exists g :: g in Apply(s, e).open && Continues(g, h)
  {
    assert h.Shape();
    if e.Announce? || e.Note? {
      EntryContinues(s, e, h);
    } else {
      StaysListed(s, e, h);
    }
  }

  lemma EntryContinues(s: System, e: Event, h: HeldFiles)
    requires h in s.open && h.Shape() && e != Announce(h.connection) && (e.Announce? || e.Note?)
    ensures exists g :: g in Apply(s, e).open && Continues(g, h)
  {
    var u, count := Apply(s, e), if e.Note? then FILES else 0;
    var k :| 0 <= k < |s.open| && s.open[k] == h;
    ChangesOneEntry(s, e.c, count);
    assert u.open == s.open || u.open == ChangeEntry(s, e.c, count).open;
    hide Apply, ChangeEntry;
    assert u.open[k] in u.open && Continues(u.open[k], h);
  }

  lemma StaysListed(s: System, e: Event, h: HeldFiles)
    requires h in s.open && e != Drop(h.connection)
    requires !e.Announce? && !e.Note?
    ensures h in Apply(s, e).open
  {
    hide Verified;
    if !e.Enter? && !e.Drop? { ListKept(s, e); }
  }


  /** So a file a connection has open may be renamed by none of its names, a hard link elsewhere included. */
  lemma NoNameOfAFile(s: System, events: seq<Event>, c: nat, i: nat, thread: nat, from: Path, to: Path)
    requires Initial(s) && Disciplined(s, events)
    requires var u := Run(s, events);
             && c in u.connections && |u.connections[c].held| > i && i < FILES && u.connections[c].held[i].Some?
             && u.tree.Lstat(from) == u.connections[c].held[i]
    ensures var u := Run(s, events);
            PartHeld(u.tree, u.open, from) == Some(FilePart) && Apply(u, Look(thread, from, to)) == u
  {
    HeldFilesAreSafe(s, events, c, i);
    hide Run, Disciplined, Holds, Tree.Lstat, ApplyConnection;
  }

  // === Names, and the journal ===

  /** A name is a database's own exactly if it is no other database's journal, nor the index of one: so
      plain names never meet, whatever the directories. */
  lemma PlainIff(db: Path)
    requires db != []
    ensures PlainName(db) <==> forall other: Path, i :: other != [] && 1 <= i < FILES ==> Name(other, i) != db
  {
    if !PlainName(db) {
      var i := if EndsIn(Base(db), "-wal") then 1 else 2;
      var stem := Base(db)[..|Base(db)| - 4];
      var other := Parent(db) + [stem];
      assert Base(db) == stem + Suffix(i);
      assert Parent(other) == Parent(db) && Base(other) == stem;
      assert Name(other, i) == Parent(db) + [Base(db)] == db;
    }
    forall other: Path, i | other != [] && 1 <= i < FILES && Name(other, i) == db ensures !PlainName(db) {
      assert Base(db) == Base(other) + Suffix(i);
      assert |Suffix(i)| == 4 && Base(db)[|Base(db)| - 4..] == Suffix(i);
    }
  }

  /** Two files of two plainly named databases have one name only if they are the same file of the same one. */
  lemma NamesApart(a: Path, b: Path, i: nat, j: nat)
    requires PlainName(a) && PlainName(b) && i < FILES && j < FILES && Name(a, i) == Name(b, j)
    ensures a == b && i == j
  {
    PlainIff(a);
    PlainIff(b);
    OwnName(a);
    OwnName(b);
    if (i == 0) == (j == 0) {
      assert Parent(a) == Parent(b) && Base(a) + Suffix(i) == Base(b) + Suffix(j);
      SameStem(Base(a), Base(b), Suffix(i), Suffix(j));
      assert a == Parent(a) + [Base(a)] && b == Parent(b) + [Base(b)];
    }
    hide Name, PlainName;
  }

  lemma OwnName(db: Path)
    requires db != []
    ensures Name(db, 0) == db
  {
    assert Base(db) + "" == Base(db);
  }

  lemma SameStem(s: string, t: string, u: string, v: string)
    requires s + u == t + v && |u| == |v|
    ensures s == t && u == v
  {
    assert s == (s + u)[..|s|] && t == (t + v)[..|t|];
    assert u == (s + u)[|s|..] && v == (t + v)[|t|..];
  }

  /** Another connection has the same database file open. */
  ghost predicate Kept(s: System, c: nat)
    requires c in s.connections && |s.connections[c].held| == FILES
  {
    exists o, file ::
      && o in s.connections && o != c && s.connections[o].stage != Closed && |s.connections[o].held| == FILES
      && s.connections[c].held[0] == Some(file) && s.connections[o].held[0] == Some(file)
  }

  /** A close takes the journal and its index from the directory exactly if it is the last one — of this
      process and, by the event, of any — and touches no other name. */
  lemma LastCloseRemoves(s: System, c: nat, last: bool, d: nat)
    requires c in s.connections && PlainName(s.connections[c].db) && |s.connections[c].held| == FILES
    requires var x := s.connections[c]; x.stage == Open || x.stage == Reading || x.stage == Announced
    requires s.tree.Walk(Parent(s.connections[c].db)) == Some(d)
    ensures var u, db := Apply(s, Close(c, last)), s.connections[c].db;
            && (last && !Kept(s, c) ==>
                  forall i :: 1 <= i < FILES ==>
                    var n := Base(Name(db, i));
                    u.tree.Child(d, n) == if s.tree.Child(d, n).Some? && s.tree.IsFile(s.tree.Child(d, n).value) then None
                                          else s.tree.Child(d, n))
            && (!last || Kept(s, c) ==> u.tree == s.tree)
            && (forall e: nat, n :: (e, n) != (d, Base(Name(db, 1))) && (e, n) != (d, Base(Name(db, 2))) ==>
                  u.tree.Child(e, n) == s.tree.Child(e, n))
  {
    ClosesTree(s, c, last);
    SharedIsKept(s, c);
    JournalRemoved(s.tree, s.connections[c].db, d);
    hide Apply, Shared, Kept, RemoveJournal, PlainName, Name;
  }

  lemma ClosesTree(s: System, c: nat, last: bool)
    requires c in s.connections && PlainName(s.connections[c].db) && |s.connections[c].held| == FILES
    requires var x := s.connections[c]; x.stage == Open || x.stage == Reading || x.stage == Announced
    ensures Apply(s, Close(c, last)).tree == if last && !Shared(s, c) then RemoveJournal(s.tree, s.connections[c].db) else s.tree
  {
    hide Shared, RemoveJournal;
  }

  lemma JournalRemoved(t: Tree, db: Path, d: nat)
    requires db != [] && t.Walk(Parent(db)) == Some(d)
    ensures var u := RemoveJournal(t, db);
            && (forall i :: 1 <= i < FILES ==>
                  var n := Base(Name(db, i));
                  u.Child(d, n) == if t.Child(d, n).Some? && t.IsFile(t.Child(d, n).value) then None else t.Child(d, n))
            && (forall e: nat, n :: (e, n) != (d, Base(Name(db, 1))) && (e, n) != (d, Base(Name(db, 2))) ==>
                  u.Child(e, n) == t.Child(e, n))
  {
    if Base(Name(db, 1)) == Base(Name(db, 2)) { SameStem(Base(db), Base(db), "-wal", "-shm"); }
    RemovesOne(t, d, Base(Name(db, 1)));
    RemovesOne(RemoveFile(t, d, Base(Name(db, 1))), d, Base(Name(db, 2)));
    hide Tree.Walk, RemoveFile;
  }

  lemma SharedIsKept(s: System, c: nat)
    requires c in s.connections && |s.connections[c].held| == FILES
    ensures Shared(s, c) <==> Kept(s, c)
  {
  }

  lemma RemovesOne(t: Tree, d: nat, name: string)
    ensures var u := RemoveFile(t, d, name);
            && u.Child(d, name) == (if t.Child(d, name).Some? && t.IsFile(t.Child(d, name).value) then None else t.Child(d, name))
            && (forall e: nat, n :: (e, n) != (d, name) ==> u.Child(e, n) == t.Child(e, n))
            && (forall i :: u.IsFile(i) <==> t.IsFile(i))
  {
  }

  /** What others do to the tree beside the list and SQLite; an inode number is free again only when no name
      leads to it and no connection has it open. */
  lemma OthersMake(s: System, from: Path, dir: nat, name: string, made: nat, node: Node, file: nat)
    ensures var u := Apply(s, Event.Make(dir, name, made, node));
            && u == s.(tree := u.tree)
            && (s.tree.IsDir(dir) && s.tree.Child(dir, name).None? && made !in s.tree.nodes && node.File? ==>
                  u.tree.Child(dir, name) == Some(made) && u.tree.IsFile(made))
    ensures var u := Apply(s, Event.HardLink(from, dir, name));
            && u == s.(tree := u.tree)
            && var i := s.tree.Lstat(from);
               (s.tree.IsDir(dir) && s.tree.Child(dir, name).None? && i.Some? && s.tree.IsFile(i.value) ==> u.tree.Child(dir, name) == i)
    ensures var u := Apply(s, Reclaim(file));
            && u == s.(tree := u.tree) && (file in s.tree.nodes && file !in u.tree.nodes ==>
                 && (forall d: nat, n :: s.tree.Child(d, n) != Some(file))
                 && forall c :: c in s.connections ==> Some(file) !in s.connections[c].held)
  {
    LinkAdds(s.tree, from, dir, name);
    hide Tree.Lstat, Holds, PartHeld, ApplyConnection, Verified;
  }

  /** A rename is taken in hand exactly if the questions find nothing, by a thread that has none; and made, if
      it is in hand, as it was looked at. */
  lemma LookIff(s: System, thread: nat, from: Path, to: Path)
    ensures Apply(s, Look(thread, from, to)) ==
              if thread !in s.moving && PartHeld(s.tree, s.open, from) == Some(NotPart) then
                s.(moving := s.moving[thread := Move(from, to, s.tree, s.renames)])
              else s
    ensures var u := Apply(s, Act(thread));
            if thread in s.moving then
              && u.tree == s.tree.Rename(s.moving[thread].from, s.moving[thread].to) && u.renames == s.renames + 1
              && u.moving == s.moving - {thread} && u.open == s.open && u.connections == s.connections
            else u == s
  {
    hide PartHeld, Tree.Rename, Holds, ApplyConnection;
  }
}
