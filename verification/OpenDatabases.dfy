/** The list of open databases of src/paths.rs. SQLite holds its locks as `fcntl` locks, and a
    process loses every such lock it has on a file when it closes any descriptor of that file
    (POSIX.1-2017, fcntl); so the list decides which descriptors may be closed and which names may
    be renamed. */
module OpenDatabases {
  import opened Wrappers
  import opened FileTree

  const FILES := 3

  /** What follows the database's name in the names of its three files. */
  function Suffix(i: nat): string { if i == 0 then "" else if i == 1 then "-wal" else "-shm" }

  function Name(db: Path, i: nat): (name: Path)
    requires db != []
    ensures name != [] && Parent(name) == Parent(db)
  {
    Parent(db) + [Base(db) + Suffix(i)]
  }

  predicate EndsIn(s: string, suffix: string) { |s| >= |suffix| && s[|s| - |suffix|..] == suffix }

  /** A database is not named like the journal of another. */
  predicate PlainName(db: Path) { db != [] && !EndsIn(Base(db), "-wal") && !EndsIn(Base(db), "-shm") }

  /** `HeldFiles`: the three files of one connection, each noted or answered for by its name. */
  datatype HeldFiles = HeldFiles(connection: nat, db: Path, noted: seq<Option<nat>>) {
    predicate Shape() { db != [] && |noted| == FILES }
  }

  const NOTHING: seq<Option<nat>> := [None, None, None]

  /** The file one of the three answers with: what was noted, or else what the name holds now. */
  function Answer(t: Tree, h: HeldFiles, i: nat): Option<nat>
    requires h.Shape() && i < FILES
  {
    if h.noted[i].Some? then h.noted[i] else t.Lstat(Name(h.db, i))
  }

  predicate Covers(t: Tree, h: HeldFiles, file: nat)
    requires h.Shape()
  {
    Answer(t, h, 0) == Some(file) || Answer(t, h, 1) == Some(file) || Answer(t, h, 2) == Some(file)
  }

  /** `holds`. */
  predicate Holds(t: Tree, open: seq<HeldFiles>, file: nat)
  {
    exists k | 0 <= k < |open| :: open[k].Shape() && Covers(t, open[k], file)
  }

  /** `names`. */
  predicate Names(t: Tree, open: seq<HeldFiles>, path: Path)
  {
    exists k, i | 0 <= k < |open| && 0 <= i < FILES :: open[k].Shape() && SameName(t, Name(open[k].db, i), path)
  }

  /** `lies_above`. */
  predicate AnyBelow(t: Tree, open: seq<HeldFiles>, dir: nat)
  {
    exists k | 0 <= k < |open| :: LiesAbove(t, open[k].db, dir)
  }

  datatype OpenDatabasePart = NotPart | FilePart | DirectoryPart

  /** `part_held` after `look_at`: a name that cannot be looked at is an error (`None`). */
  function PartHeld(t: Tree, open: seq<HeldFiles>, path: Path): Option<OpenDatabasePart>
  {
    match t.Lstat(path)
    case None => None
    case Some(thing) =>
      Some(if t.IsDir(thing) then if AnyBelow(t, open, thing) then DirectoryPart else NotPart
           else if Holds(t, open, thing) || Names(t, open, path) then FilePart else NotPart)
  }

  /** `HeldFiles::note`: of the first `count` names, those that hold something and are not noted. */
  function Noted(t: Tree, h: HeldFiles, count: nat): HeldFiles
    requires h.Shape()
  {
    h.(noted := seq(FILES, i requires 0 <= i < FILES =>
                      if i < count && h.noted[i].None? then t.Lstat(Name(h.db, i)) else h.noted[i]))
  }

  function NumberOf(h: HeldFiles): nat { h.connection }

  lemma NothingWithout(connection: nat)
    ensures Without([], NumberOf, connection) == []
  {
  }

  lemma WithoutKeeps(open: seq<HeldFiles>, connection: nat, next: nat)
    requires forall k :: 0 <= k < |open| ==> open[k].Shape() && open[k].connection < next
    ensures var kept := Without(open, NumberOf, connection);
            forall k :: 0 <= k < |kept| ==> kept[k].Shape() && kept[k].connection < next
  {
    var kept := Without(open, NumberOf, connection);
    forall k | 0 <= k < |kept| ensures kept[k].Shape() && kept[k].connection < next {
      assert kept[k] in open;
    }
  }

  // === The list as the process holds it ===

  class Registry {
    var open: seq<HeldFiles>
    var next: nat

    ghost predicate Valid()
      reads this
    {
      && (forall k :: 0 <= k < |open| ==> open[k].Shape() && open[k].connection < next)
      && Distinct(open, NumberOf)
    }

    constructor ()
      ensures Valid() && open == []
    {
      open, next := [], 0;
    }

    /** `OpenDatabase::at`: `t` is the tree at the look, which comes before the list is held. */
    method At(t: Tree, db: Path) returns (connection: nat)
      requires Valid() && db != []
      modifies this
      ensures Valid() && connection == old(next) && next == old(next) + 1
      ensures open == old(open) + [Noted(t, HeldFiles(connection, db, NOTHING), 1)]
    {
      connection := next;
      next := next + 1;
      var held := NoteNames(t, HeldFiles(connection, db, NOTHING), 1);
      open := open + [held];
    }

    /** `HeldFiles::note`, the loop over the names. */
    static method NoteNames(t: Tree, h: HeldFiles, count: nat) returns (held: HeldFiles)
      requires h.Shape()
      ensures held == Noted(t, h, count)
    {
      var noted := h.noted;
      for i := 0 to FILES
        invariant |noted| == FILES
        invariant forall j :: 0 <= j < i ==> noted[j] == Noted(t, h, count).noted[j]
        invariant forall j :: i <= j < FILES ==> noted[j] == h.noted[j]
      {
        if i < count && noted[i].None? {
          noted := noted[i := t.Lstat(Name(h.db, i))];
        }
      }
      held := h.(noted := noted);
      assert noted == Noted(t, h, count).noted;
    }

    /** `with`: what is asked for is done to the one entry of the connection, if it is there. */
    method With(connection: nat, h: HeldFiles)
      requires Valid() && h.Shape() && h.connection == connection
      modifies this`open
      ensures Valid() && |open| == |old(open)|
      ensures forall k :: 0 <= k < |open| ==> open[k] == if old(open)[k].connection == connection then h else old(open)[k]
    {
      ghost var before := open;
      for k := 0 to |open|
        invariant |open| == |before|
        invariant forall j :: 0 <= j < k ==> open[j] == if before[j].connection == connection then h else before[j]
        invariant forall j :: k <= j < |open| ==> open[j] == before[j]
      {
        if open[k].connection == connection {
          open := open[k := h];
        }
      }
      assert forall j :: 0 <= j < |open| ==> open[j].connection == before[j].connection;
    }

    /** `note_files`: in the one entry of the connection every file that is not noted and lies at its name is
        noted now. */
    method NoteFiles(t: Tree, h: HeldFiles)
      requires Valid() && h in open
      modifies this`open
      ensures Valid() && |open| == |old(open)|
      ensures forall k :: 0 <= k < |open| && old(open)[k] != h ==> open[k] == old(open)[k]
      ensures forall k :: 0 <= k < |open| && old(open)[k] == h ==>
                && open[k].connection == h.connection && open[k].db == h.db && open[k].Shape()
                && forall i :: 0 <= i < FILES ==>
                     open[k].noted[i] == if h.noted[i].Some? then h.noted[i] else t.Lstat(Name(h.db, i))
    {
      OneEntry(h);
      var held := NoteNames(t, h, FILES);
      With(h.connection, held);
    }

    /** Only the entry itself has its number. */
    lemma OneEntry(h: HeldFiles)
      requires Valid() && h in open
      ensures forall k :: 0 <= k < |open| ==> (open[k].connection == h.connection <==> open[k] == h)
    {
    }

    /** `closing`: the notes of the one entry of the connection are forgotten. */
    method Closing(h: HeldFiles)
      requires Valid() && h in open
      modifies this`open
      ensures Valid() && |open| == |old(open)|
      ensures forall k :: 0 <= k < |open| && old(open)[k] != h ==> open[k] == old(open)[k]
      ensures forall k :: 0 <= k < |open| && old(open)[k] == h ==>
                open[k].connection == h.connection && open[k].db == h.db && open[k].noted == NOTHING
    {
      OneEntry(h);
      With(h.connection, h.(noted := NOTHING));
    }

    /** Dropping an `OpenDatabase`: the entry goes, and whether it had been forgotten is said. */
    method Drop(connection: nat) returns (forgotten: bool)
      requires Valid()
      modifies this`open
      ensures Valid() && open == Without(old(open), NumberOf, connection)
      ensures forgotten <==> forall h :: h in old(open) && h.connection == connection ==> h.noted == NOTHING
    {
      hide Distinct, Without;
      var kept: seq<HeldFiles> := [];
      ghost var before := open;
      forgotten := true;
      for k := 0 to |open|
        invariant open == before && kept + Without(open[k..], NumberOf, connection) == Without(before, NumberOf, connection)
        invariant forgotten <==> forall j :: 0 <= j < k && open[j].connection == connection ==> open[j].noted == NOTHING
      {
        WithoutNext(open, NumberOf, connection, k);
        if open[k].connection != connection {
          kept := kept + [open[k]];
        } else if open[k].noted != NOTHING {
          forgotten := false;
        }
      }
      assert open[|open|..] == [] && kept + [] == kept;
      NothingWithout(connection);
      WithoutKeeps(before, connection, next);
      WithoutDistinct(before, NumberOf, connection);
      open := kept;
    }

    /** `unless_part_of_open_database` as it runs: the look, the question and — if nothing of an open
        database lies there — the rename, with the list held all the while. */
    method RenameUnlessPart(t: Tree, from: Path, to: Path) returns (part: Option<OpenDatabasePart>, u: Tree)
      requires Valid()
      ensures part == PartHeld(t, open, from)
      ensures u == if part == Some(NotPart) then t.Rename(from, to) else t
    {
      var looked := t.Lstat(from);
      if looked.None? {
        return None, t;
      }
      var thing, found := looked.value, false;
      for k := 0 to |open|
        invariant found <==> exists j | 0 <= j < k :: Refuses(t, open[j], from, thing)
      {
        if Refuses(t, open[k], from, thing) {
          found := true;
        }
      }
      RefusesIsPart(t, open, from, thing);
      part := Some(if !found then NotPart else if t.IsDir(thing) then DirectoryPart else FilePart);
      u := if found then t else t.Rename(from, to);
    }
  }

  /** What one entry says to the rename of a name that holds `thing`. */
  predicate Refuses(t: Tree, h: HeldFiles, path: Path, thing: nat)
    requires h.Shape()
  {
    if t.IsDir(thing) then LiesAbove(t, h.db, thing)
    else Covers(t, h, thing) || exists i | 0 <= i < FILES :: SameName(t, Name(h.db, i), path)
  }

  lemma RefusesIsPart(t: Tree, open: seq<HeldFiles>, path: Path, thing: nat)
    requires t.Lstat(path) == Some(thing) && forall k :: 0 <= k < |open| ==> open[k].Shape()
    ensures PartHeld(t, open, path)
            == Some(if !(exists j | 0 <= j < |open| :: Refuses(t, open[j], path, thing)) then NotPart
                    else if t.IsDir(thing) then DirectoryPart else FilePart)
  {
    hide Covers, SameName, LiesAbove;
  }

  // === Connections, files and locks of one process ===

  /** Where a connection stands: entered in the list, its database open, its journal and index open
      too, its close announced, closed. */
  datatype Stage = Entered | Open | Reading | Announced | Closed

  /** `held` are the files SQLite has open for it, `locked` those its locks are on. */
  datatype Connection = Connection(db: Path, stage: Stage, held: seq<Option<nat>>, locked: set<nat>)

  /** `moving` are the renames the process's threads have in hand: they hold the list to read, so it is
      not written to meanwhile. */
  datatype System = System(tree: Tree, open: seq<HeldFiles>, connections: map<nat, Connection>,
                           moving: map<nat, Move>, renames: nat)

  datatype Event =
    | Enter(c: nat, db: Path)
    | SqliteOpen(c: nat, made: nat)
    | SqliteRead(c: nat, made: nat, also: nat)
    | Note(c: nat)
    | Announce(c: nat)
    | Close(c: nat, last: bool)
    | Drop(c: nat)
    | GuardedClose(file: nat)
    | Look(thread: nat, from: Path, to: Path)
    | Act(thread: nat)
    | OtherRename(from: Path, to: Path)
    | Make(dir: nat, name: string, made: nat, node: Node)
    | HardLink(from: Path, dir: nat, name: string)
    | Reclaim(file: nat)

  function Put(s: System, c: nat, connection: Connection): System
  {
    s.(connections := s.connections[c := connection])
  }

  /** The directory of a database about to be opened, walked without following a link, and the name
      either free or a regular file: what is verified before a connection is entered. */
  predicate Verified(t: Tree, db: Path)
  {
    && PlainName(db) && t.Walk(Parent(db)).Some? && t.IsDir(t.Walk(Parent(db)).value)
    && var i := t.Walk(db); i.Some? ==> t.IsFile(i.value)
  }

  /** `at`, with the look made at some earlier moment and its finding entered now. */
  function EnterWith(s: System, c: nat, db: Path, looked: Option<nat>): System
  {
    Put(s.(open := s.open + [HeldFiles(c, db, [looked, None, None])]), c, Connection(db, Entered, NOTHING, {}))
  }

  /** SQLite opens the file at one of the three names, making it if the name is free. */
  function OpenAt(t: Tree, name: Path, made: nat): (Tree, Option<nat>)
    requires name != []
  {
    var d := t.Walk(Parent(name));
    if d.None? then (t, None)
    else
      var u := t.Make(d.value, Base(name), made, File);
      var i := u.Child(d.value, Base(name));
      if i.Some? && u.IsFile(i.value) then (u, i) else (t, None)
  }

  /** Whether another connection of this process still has the database file open. */
  predicate Shared(s: System, c: nat)
    requires c in s.connections && |s.connections[c].held| == FILES
  {
    exists o | o in s.connections :: o != c && s.connections[o].stage != Closed && |s.connections[o].held| == FILES
                                     && s.connections[o].held[0].Some? && s.connections[o].held[0] == s.connections[c].held[0]
  }

  /** The last connection takes the journal and its index with it — unless a connection of another
      process keeps them. */
  function RemoveJournal(t: Tree, db: Path): Tree
    requires db != []
  {
    var d := t.Walk(Parent(db));
    if d.None? then t else RemoveFile(RemoveFile(t, d.value, Base(Name(db, 1))), d.value, Base(Name(db, 2)))
  }

  /** `unlink` of a regular file. */
  function RemoveFile(t: Tree, d: nat, name: string): Tree
  {
    if t.Child(d, name).Some? && t.IsFile(t.Child(d, name).value) then t.Without(d, name) else t
  }

  /** Nothing leads to the inode and nothing has it open: its number may be given away again. */
  ghost predicate Unused(s: System, file: nat)
  {
    && s.tree.IsFile(file)
    && (forall d, n :: s.tree.Child(d, n) != Some(file))
    && (forall c, i :: c in s.connections && 0 <= i < |s.connections[c].held| ==> s.connections[c].held[i] != Some(file))
  }

  function Unlock(connection: Connection, file: nat): Connection { connection.(locked := connection.locked - {file}) }

  function Renamed(s: System, from: Path, to: Path): System
  {
    s.(tree := s.tree.Rename(from, to), renames := s.renames + 1)
  }

  /** What writes to the list — a connection entered, noted, announced or dropped — waits while a rename
      is in hand. SQLite does not wait, nor does a close of a descriptor, nor anybody else. */
  ghost function Apply(s: System, e: Event): System
  {
    if e.GuardedClose? then
      if Holds(s.tree, s.open, e.file) then s
      else s.(connections := map c | c in s.connections :: Unlock(s.connections[c], e.file))
    else if e.Look? then
      if e.thread !in s.moving && PartHeld(s.tree, s.open, e.from) == Some(NotPart) then
        s.(moving := s.moving[e.thread := Move(e.from, e.to, s.tree, s.renames)])
      else s
    else if e.Act? then
      if e.thread in s.moving then
        Renamed(s, s.moving[e.thread].from, s.moving[e.thread].to).(moving := s.moving - {e.thread})
      else s
    else if e.OtherRename? then Renamed(s, e.from, e.to)
    else if e.Make? then s.(tree := s.tree.Make(e.dir, e.name, e.made, e.node))
    else if e.HardLink? then s.(tree := s.tree.HardLink(e.from, e.dir, e.name))
    else if e.Reclaim? then if Unused(s, e.file) then s.(tree := Tree(s.tree.nodes - {e.file})) else s
    else if (e.Enter? || e.Note? || e.Announce? || e.Drop?) && s.moving != map[] then s
    else if e.Enter? then
      if e.c in s.connections || !Verified(s.tree, e.db) then s else EnterWith(s, e.c, e.db, s.tree.Lstat(e.db))
    else if e.c !in s.connections then s
    else ApplyConnection(s, e, s.connections[e.c])
  }

  ghost function ApplyConnection(s: System, e: Event, x: Connection): System
    requires e.SqliteOpen? || e.SqliteRead? || e.Note? || e.Announce? || e.Close? || e.Drop?
    requires e.c in s.connections && x == s.connections[e.c]
  {
    if x.db == [] || |x.held| != FILES then s
    else if e.SqliteOpen? && x.stage == Entered then
      var (t, file) := OpenAt(s.tree, x.db, e.made);
      if file.None? then s
      else Put(s, e.c, x.(stage := Open, held := [file, None, None], locked := {file.value})).(tree := t)
    else if e.SqliteRead? && x.stage == Open then
      var (t, wal) := OpenAt(s.tree, Name(x.db, 1), e.made);
      if wal.None? then s
      else
        var (u, shm) := OpenAt(t, Name(x.db, 2), e.also);
        if shm.None? then s
        else Put(s, e.c, x.(stage := Reading, held := [x.held[0], wal, shm],
                            locked := x.locked + {wal.value, shm.value})).(tree := u)
    else if e.Note? && x.stage == Reading then ChangeEntry(s, e.c, FILES)
    else if e.Announce? && (x.stage == Open || x.stage == Reading) then
      Put(ChangeEntry(s, e.c, 0), e.c, x.(stage := Announced))
    else if e.Close? && (x.stage == Open || x.stage == Reading || x.stage == Announced) then
      var closed := Put(s, e.c, x.(stage := Closed, held := NOTHING, locked := {}));
      if e.last && !Shared(s, e.c) then closed.(tree := RemoveJournal(s.tree, x.db)) else closed
    else if e.Drop? && (x.stage == Closed || x.stage == Entered) then
      s.(open := Without(s.open, NumberOf, e.c), connections := s.connections - {e.c})
    else s
  }

  /** The entry of `c` noted in full (`count` of three) or forgotten (`count` of none). */
  function ChangeEntry(s: System, c: nat, count: nat): System
  {
    s.(open := seq(|s.open|, k requires 0 <= k < |s.open| =>
                     var h := s.open[k];
                     if h.connection != c || !h.Shape() then h
                     else if count == 0 then h.(noted := NOTHING) else Noted(s.tree, h, count)))
  }

  /** What `note_files` and `closing` leave, entry by entry, is what a note and an announcement leave in the
      runs. */
  lemma EntryChangedIff(s: System, h: HeldFiles, open: seq<HeldFiles>)
    requires Distinct(s.open, NumberOf) && h in s.open && forall k :: 0 <= k < |s.open| ==> s.open[k].Shape()
    ensures open == ChangeEntry(s, h.connection, FILES).open <==>
              && |open| == |s.open|
              && forall k :: 0 <= k < |open| ==>
                   if s.open[k] != h then open[k] == s.open[k]
                   else && open[k].connection == h.connection && open[k].db == h.db && open[k].Shape()
                        && forall i :: 0 <= i < FILES ==>
                             open[k].noted[i] == if h.noted[i].Some? then h.noted[i] else s.tree.Lstat(Name(h.db, i))
    ensures open == ChangeEntry(s, h.connection, 0).open <==>
              && |open| == |s.open|
              && forall k :: 0 <= k < |open| ==>
                   if s.open[k] != h then open[k] == s.open[k]
                   else open[k].connection == h.connection && open[k].db == h.db && open[k].noted == NOTHING
  {
    forall k | 0 <= k < |s.open| ensures s.open[k].connection == h.connection <==> s.open[k] == h { }
    var all, none := ChangeEntry(s, h.connection, FILES).open, ChangeEntry(s, h.connection, 0).open;
    forall k | 0 <= k < |s.open| && s.open[k] == h ensures all[k] == Noted(s.tree, h, FILES) && none[k] == h.(noted := NOTHING) { }
    NotedIs(s.tree, h);
    assert |all| == |s.open| == |none|;
    if |open| == |s.open| {
      assert open == all <==> forall k :: 0 <= k < |open| ==> open[k] == all[k];
      assert open == none <==> forall k :: 0 <= k < |open| ==> open[k] == none[k];
    }
    hide Noted, Distinct, Tree.Lstat;
  }

  /** And what `at` enters is what an entry with the finding of its look is in the runs. */
  lemma EntersItsLook(s: System, t: Tree, c: nat, db: Path)
    requires db != []
    ensures EnterWith(s, c, db, t.Lstat(db)).open == s.open + [Noted(t, HeldFiles(c, db, NOTHING), 1)]
  {
    assert Base(db) + "" == Base(db);
    assert db == db[..|db| - 1] + [db[|db| - 1]];
    assert Name(db, 0) == db;
    assert Noted(t, HeldFiles(c, db, NOTHING), 1).noted == [t.Lstat(db), None, None];
  }

  lemma NotedIs(t: Tree, h: HeldFiles)
    requires h.Shape()
    ensures forall e: HeldFiles ::
              e == Noted(t, h, FILES) <==>
                && e.connection == h.connection && e.db == h.db && e.Shape()
                && forall i :: 0 <= i < FILES ==> e.noted[i] == if h.noted[i].Some? then h.noted[i] else t.Lstat(Name(h.db, i))
  {
    forall e: HeldFiles
      ensures e == Noted(t, h, FILES) <==>
                && e.connection == h.connection && e.db == h.db && e.Shape()
                && forall i :: 0 <= i < FILES ==> e.noted[i] == if h.noted[i].Some? then h.noted[i] else t.Lstat(Name(h.db, i))
    {
      if |e.noted| == FILES {
        assert e.noted == Noted(t, h, FILES).noted <==> forall i :: 0 <= i < FILES ==> e.noted[i] == Noted(t, h, FILES).noted[i];
      }
    }
  }

  ghost function Run(s: System, events: seq<Event>): System
    decreases |events|
  {
    if events == [] then s else Run(Apply(s, events[0]), events[1..])
  }

  ghost predicate Initial(s: System) { s.tree.Ok() && s.open == [] && s.connections == map[] && s.moving == map[] }

  // === What every step keeps ===

  /** The name leads, without a link on the way, to this regular file. */
  ghost predicate LeadsTo(t: Tree, name: Path, file: nat) { t.Walk(name) == Some(file) && t.IsFile(file) }

  /** A live connection: the directory of its database stands; every file it has open lies at its
      name and has its lock. */
  ghost predicate ConnectionOk(t: Tree, x: Connection)
  {
    && PlainName(x.db) && |x.held| == FILES
    && (x.stage != Closed ==> t.Walk(Parent(x.db)).Some? && t.IsDir(t.Walk(Parent(x.db)).value))
    && (forall i :: 0 <= i < FILES && x.held[i].Some? ==>
          x.stage != Closed && x.stage != Entered && LeadsTo(t, Name(x.db, i), x.held[i].value) && x.held[i].value in x.locked)
    && (x.stage == Open || x.stage == Reading || x.stage == Announced ==> x.held[0].Some?)
    && (x.stage == Reading ==> x.held[1].Some? && x.held[2].Some?)
  }

  /** An entry of a live connection notes only what that connection has open — or, before SQLite
      opens it, what the database's name leads to. */
  ghost predicate EntryOk(t: Tree, x: Connection, h: HeldFiles)
    requires |x.held| == FILES
  {
    && h.Shape() && h.db == x.db
    && (x.stage != Closed ==>
          forall i :: 0 <= i < FILES && h.noted[i].Some? ==>
            if x.stage == Entered then i == 0 && LeadsTo(t, h.db, h.noted[i].value) else x.held[i] == h.noted[i])
  }

  ghost predicate EntriesOk(s: System)
    requires ConnectionsOk(s)
  {
    forall h :: h in s.open ==> h.connection in s.connections && EntryOk(s.tree, s.connections[h.connection], h)
  }

  ghost predicate ConnectionsOk(s: System)
  {
    forall c :: c in s.connections ==> ConnectionOk(s.tree, s.connections[c])
  }

  predicate AllListed(s: System) { forall c | c in s.connections :: HasEntry(s.open, c) }

  ghost predicate Invariant(s: System)
  {
    s.tree.Ok() && ConnectionsOk(s) && EntriesOk(s) && AllListed(s) && Distinct(s.open, NumberOf)
  }

  predicate HasEntry(open: seq<HeldFiles>, c: nat) { exists k | 0 <= k < |open| :: open[k].connection == c }

  /** What a change of the tree has to leave to a connection. */
  ghost predicate Keeps(t: Tree, u: Tree, x: Connection)
    requires PlainName(x.db) && |x.held| == FILES
  {
    x.stage != Closed ==>
      && u.Walk(Parent(x.db)).Some? && u.IsDir(u.Walk(Parent(x.db)).value)
      && (x.stage == Entered ==> forall file :: LeadsTo(t, x.db, file) ==> LeadsTo(u, x.db, file))
      && (forall i :: 0 <= i < FILES && x.held[i].Some? ==> LeadsTo(u, Name(x.db, i), x.held[i].value))
  }

  lemma TreeStepKeeps(s: System, u: Tree)
    requires Invariant(s) && u.Ok()
    requires forall c :: c in s.connections ==> Keeps(s.tree, u, s.connections[c])
    ensures Invariant(s.(tree := u))
  {
    forall c | c in s.connections ensures ConnectionOk(u, s.connections[c]) {
      assert Keeps(s.tree, u, s.connections[c]);
    }
    forall h | h in s.open ensures EntryOk(u, s.connections[h.connection], h) {
      assert Keeps(s.tree, u, s.connections[h.connection]);
    }
  }

  lemma NameParts(db: Path)
    requires db != []
    ensures Name(db, 0) == db
    ensures forall i: nat :: Base(Name(db, i)) == Base(db) + Suffix(i)
    ensures forall i: nat, k :: 0 <= k < |db| ==> |Name(db, i)| == |db| && Name(db, i)[..k] == db[..k]
  {
    assert Base(db) + "" == Base(db);
    assert Parent(db) + [Base(db)] == db;
    forall i: nat, k | 0 <= k < |db| ensures Name(db, i)[..k] == db[..k] {
      assert Name(db, i)[..k] == Parent(db)[..k] == db[..k];
    }
  }

  /** Creating a name, or giving a file another, leaves every way that led somewhere as it was. */
  lemma MakeKeeps(t: Tree, u: Tree, x: Connection)
    requires t.Ok() && ConnectionOk(t, x)
    requires forall path :: t.Walk(path).Some? ==> u.Walk(path) == t.Walk(path)
    requires forall i :: (t.IsFile(i) ==> u.IsFile(i)) && (t.IsDir(i) ==> u.IsDir(i))
    ensures Keeps(t, u, x)
  {
  }

  lemma MakeStep(s: System, dir: nat, name: string, made: nat, node: Node)
    requires Invariant(s)
    ensures Invariant(s.(tree := s.tree.Make(dir, name, made, node)))
  {
    var u := s.tree.Make(dir, name, made, node);
    MakeKeepsWalk(s.tree, dir, name, made, node, []);
    forall path | s.tree.Walk(path).Some? ensures u.Walk(path) == s.tree.Walk(path) {
      MakeKeepsWalk(s.tree, dir, name, made, node, path);
    }
    AllKeepGrown(s, u);
    hide Invariant, Keeps;
    TreeStepKeeps(s, u);
  }

  lemma HardLinkStep(s: System, from: Path, dir: nat, name: string)
    requires Invariant(s)
    ensures Invariant(s.(tree := s.tree.HardLink(from, dir, name)))
  {
    var u := s.tree.HardLink(from, dir, name);
    HardLinkKeepsWalk(s.tree, from, dir, name, []);
    forall path | s.tree.Walk(path).Some? ensures u.Walk(path) == s.tree.Walk(path) {
      HardLinkKeepsWalk(s.tree, from, dir, name, path);
    }
    AllKeepGrown(s, u);
    hide Invariant, Keeps;
    TreeStepKeeps(s, u);
  }

  lemma ReclaimKeepsWalk(s: System, file: nat, path: Path)
    requires s.tree.Ok() && Unused(s, file) && s.tree.Walk(path).Some?
    ensures Tree(s.tree.nodes - {file}).Walk(path) == s.tree.Walk(path)
  {
    var u := Tree(s.tree.nodes - {file});
    forall d: nat, n | OnTheWay(s.tree, path, d, n) ensures u.Child(d, n) == s.tree.Child(d, n) {
      var k :| 0 <= k < |path| && path[k] == n && s.tree.Walk(path[..k]) == Some(d);
      if k > 0 {
        assert s.tree.Child(s.tree.Walk(Parent(path[..k])).value, Base(path[..k])) == Some(d);
      }
    }
    WalkKept(s.tree, u, path);
  }

  lemma ReclaimStep(s: System, file: nat)
    requires Invariant(s) && Unused(s, file)
    ensures Invariant(s.(tree := Tree(s.tree.nodes - {file})))
  {
    var u := Tree(s.tree.nodes - {file});
    forall d, name | u.IsDir(d) && name in u.nodes[d].entries ensures u.nodes[d].entries[name] in u.nodes {
      assert s.tree.Child(d, name) != Some(file);
    }
    forall c | c in s.connections ensures Keeps(s.tree, u, s.connections[c]) {
      ReclaimKeeps(s, file, c);
    }
    TreeStepKeeps(s, u);
  }

  lemma LedTo(t: Tree, path: Path)
    requires path != [] && t.Walk(path).Some?
    ensures t.Walk(Parent(path)).Some? && t.Child(t.Walk(Parent(path)).value, Base(path)) == t.Walk(path)
  {
  }

  lemma ReclaimKeeps(s: System, file: nat, c: nat)
    requires Invariant(s) && Unused(s, file) && c in s.connections
    ensures Keeps(s.tree, Tree(s.tree.nodes - {file}), s.connections[c])
  {
    var x, u := s.connections[c], Tree(s.tree.nodes - {file});
    if x.stage != Closed {
      ReclaimKeepsWalk(s, file, Parent(x.db));
      if Parent(x.db) != [] { LedTo(s.tree, Parent(x.db)); }
      if s.tree.Walk(x.db).Some? {
        ReclaimKeepsWalk(s, file, x.db);
        LedTo(s.tree, x.db);
      }
      forall i | 0 <= i < FILES && x.held[i].Some? ensures LeadsTo(u, Name(x.db, i), x.held[i].value) {
        ReclaimKeepsWalk(s, file, Name(x.db, i));
        LedTo(s.tree, Name(x.db, i));
      }
    }
  }

  lemma EntryOf(s: System, c: nat) returns (h: HeldFiles)
    requires Invariant(s) && c in s.connections
    ensures h in s.open && h.connection == c && EntryOk(s.tree, s.connections[c], h)
  {
    var k :| 0 <= k < |s.open| && s.open[k].connection == c;
    h := s.open[k];
  }

  /** The rename of `from` touches neither the way to the database's directory nor to any file of its
      three names. */
  ghost predicate Clear(t: Tree, db: Path, from: Path)
    requires db != []
  {
    from != [] && t.DirOf(from).Some? ==>
      && !OnTheWay(t, Parent(db), t.DirOf(from).value, Base(from))
      && forall i: nat :: i < FILES && t.Walk(Name(db, i)).Some? && t.IsFile(t.Walk(Name(db, i)).value) ==>
           !OnTheWay(t, Name(db, i), t.DirOf(from).value, Base(from))
  }

  /** What every rename owes the connections that are open. */
  ghost predicate AllClear(s: System, from: Path)
  {
    forall c :: c in s.connections && s.connections[c].stage != Closed && s.connections[c].db != [] ==>
      Clear(s.tree, s.connections[c].db, from)
  }

  lemma RenameKeeps(s: System, from: Path, to: Path, c: nat)
    requires Invariant(s) && c in s.connections && (s.connections[c].stage != Closed ==> Clear(s.tree, s.connections[c].db, from))
    ensures Keeps(s.tree, s.tree.Rename(from, to), s.connections[c])
  {
    var x, t, u := s.connections[c], s.tree, s.tree.Rename(from, to);
    RenameOk(t, from, to);
    if x.stage != Closed {
      InvariantAt(s, c);
      NameParts(x.db);
      RenameKeepsWalk(t, from, to, Parent(x.db));
      hide Invariant, Tree.Rename;
      forall i: nat, file | i < FILES && LeadsTo(t, Name(x.db, i), file) ensures LeadsTo(u, Name(x.db, i), file) {
        RenameKeepsWalk(t, from, to, Name(x.db, i));
      }
    }
  }

  /** A rename the list lets through now is clear of the connections on it. */
  lemma ClearNow(t: Tree, open: seq<HeldFiles>, h: HeldFiles, from: Path)
    requires t.Ok() && h in open && h.Shape() && PartHeld(t, open, from) == Some(NotPart)
    requires t.Walk(Parent(h.db)).Some? && t.IsDir(t.Walk(Parent(h.db)).value)
    ensures Clear(t, h.db, from)
  {
    if from != [] && t.DirOf(from).Some? {
      if OnTheWay(t, Parent(h.db), t.DirOf(from).value, Base(from)) {
        GuardsTheParent(t, h.db, from);
        assert AnyBelow(t, open, t.Lstat(from).value);
        assert false;
      }
      forall i: nat | i < FILES && t.Walk(Name(h.db, i)).Some? && t.IsFile(t.Walk(Name(h.db, i)).value)
        ensures !OnTheWay(t, Name(h.db, i), t.DirOf(from).value, Base(from))
      {
        if OnTheWay(t, Name(h.db, i), t.DirOf(from).value, Base(from)) {
          RefusesTheWay(t, open, h, i, from);
        }
      }
    }
  }

  /** And one it let through earlier is clear of them still, if nothing was renamed since. */
  lemma ClearSince(t: Tree, u: Tree, open: seq<HeldFiles>, h: HeldFiles, from: Path)
    requires t.Ok() && Undisturbed(t, u) && h in open && h.Shape() && PartHeld(t, open, from) == Some(NotPart)
    requires t.Walk(Parent(h.db)).Some? && t.IsDir(t.Walk(Parent(h.db)).value)
    ensures Clear(u, h.db, from)
  {
    hide PartHeld, Tree.Lstat, Tree.Resolve, Undisturbed;
    if from != [] {
      SourceStays(t, u, open, from);
      var d := t.DirOf(from).value;
      ClearNow(t, open, h, from);
      if OnTheWay(u, Parent(h.db), d, Base(from)) {
        WayBack(t, u, Parent(h.db), d, Base(from));
      }
      forall i: nat | i < FILES && u.Walk(Name(h.db, i)).Some? && u.IsFile(u.Walk(Name(h.db, i)).value)
        ensures !OnTheWay(u, Name(h.db, i), d, Base(from))
      {
        if Asks(t, Name(h.db, i), from, t.Lstat(from).value) { NotAsked(t, open, h, i, from); }
        LookStillHolds(t, u, Name(h.db, i), from);
      }
    }
  }

  lemma SourceStays(t: Tree, u: Tree, open: seq<HeldFiles>, from: Path)
    requires t.Ok() && Undisturbed(t, u) && from != [] && PartHeld(t, open, from) == Some(NotPart)
    ensures t.Lstat(from).Some? && t.DirOf(from).Some? && t.IsDir(t.DirOf(from).value) && u.DirOf(from) == t.DirOf(from)
  {
    ResolveUndisturbed(t, u, ROOT, Parent(from), MAX_LINKS);
  }

  lemma NotAsked(t: Tree, open: seq<HeldFiles>, h: HeldFiles, i: nat, from: Path)
    requires h in open && h.Shape() && i < FILES && from != [] && t.Lstat(from).Some?
    requires Asks(t, Name(h.db, i), from, t.Lstat(from).value)
    ensures PartHeld(t, open, from) != Some(NotPart)
  {
    hide Holds;
    var k :| 0 <= k < |open| && open[k] == h;
    var thing := t.Lstat(from).value;
    if t.IsDir(thing) {
      AboveOneAboveAll(t, h.db, i, thing);
      assert LiesAbove(t, open[k].db, thing);
    } else {
      assert SameName(t, Name(open[k].db, i), from);
    }
  }

  lemma RefusesTheWay(t: Tree, open: seq<HeldFiles>, h: HeldFiles, i: nat, from: Path)
    requires t.Ok() && h in open && h.Shape() && i < FILES && from != [] && t.DirOf(from).Some?
    requires t.Walk(Name(h.db, i)).Some? && t.IsFile(t.Walk(Name(h.db, i)).value)
    requires OnTheWay(t, Name(h.db, i), t.DirOf(from).value, Base(from))
    ensures PartHeld(t, open, from) != Some(NotPart)
  {
    hide Holds;
    GuardsTheWay(t, Name(h.db, i), from);
    var thing := t.Lstat(from).value;
    var k :| 0 <= k < |open| && open[k] == h;
    if t.IsDir(thing) {
      NameParts(h.db);
      AboveOneAboveAll(t, h.db, i, thing);
      assert LiesAbove(t, open[k].db, thing);
    } else {
      assert open[k].Shape() && SameName(t, Name(open[k].db, i), from);
      assert Names(t, open, from);
    }
  }

  lemma AboveOneAboveAll(t: Tree, db: Path, i: nat, dir: nat)
    requires db != [] && LiesAbove(t, Name(db, i), dir)
    ensures LiesAbove(t, db, dir)
  {
    NameParts(db);
    var k :| 0 <= k < |Name(db, i)| && t.Lstat(Name(db, i)[..k]) == Some(dir);
    assert Name(db, i)[..k] == db[..k];
  }

  /** A rename clear of the open connections keeps what they rely on. */
  lemma RenameStep(s: System, from: Path, to: Path)
    requires Invariant(s) && AllClear(s, from)
    ensures Invariant(s.(tree := s.tree.Rename(from, to)))
  {
    RenameOk(s.tree, from, to);
    forall c | c in s.connections ensures Keeps(s.tree, s.tree.Rename(from, to), s.connections[c]) {
      RenameKeeps(s, from, to, c);
    }
    hide Keeps, Tree.Rename, AllClear;
    TreeStepKeeps(s, s.tree.Rename(from, to));
  }

  /** Of a file that is open and a rename that happens: the file keeps its name exactly if the questions
      about that name find nothing when the rename is made. */
  lemma HeldNameKeptIff(s: System, from: Path, to: Path, c: nat, i: nat)
    requires Invariant(s) && DirsOnce(s.tree) && c in s.connections && i < FILES && s.connections[c].held[i].Some?
    requires s.tree.Rename(from, to) != s.tree
    ensures var x := s.connections[c];
            && s.tree.Lstat(from).Some?
            && (LeadsTo(s.tree.Rename(from, to), Name(x.db, i), x.held[i].value)
                <==> !Asks(s.tree, Name(x.db, i), from, s.tree.Lstat(from).value))
  {
    var name := Name(s.connections[c].db, i);
    InvariantAt(s, c);
    RenameOk(s.tree, from, to);
    RenameKeepsExactly(s.tree, from, to, name);
    hide Invariant, Tree.Rename, ConnectionOk;
  }

  /** Every file a live connection has open is one the list answers for. */
  lemma HeldIsListed(s: System, c: nat, i: nat)
    requires Invariant(s) && c in s.connections && i < FILES && s.connections[c].held[i].Some?
    ensures Holds(s.tree, s.open, s.connections[c].held[i].value)
  {
    var h := EntryOf(s, c);
    InvariantAt(s, c);
    hide Invariant;
    WalkLstat(s.tree, Name(h.db, i));
    assert Answer(s.tree, h, i) == s.connections[c].held[i];
    assert Covers(s.tree, h, s.connections[c].held[i].value);
  }

  lemma UnlockKeeps(s: System, file: nat, c: nat)
    requires Invariant(s) && !Holds(s.tree, s.open, file) && c in s.connections
    ensures ConnectionOk(s.tree, Unlock(s.connections[c], file))
  {
    InvariantAt(s, c);
    hide Invariant, Holds;
    forall i: nat | i < FILES && s.connections[c].held[i].Some? ensures s.connections[c].held[i].value != file {
      HeldIsListed(s, c, i);
    }
  }

  lemma CloseStep(s: System, file: nat)
    requires Invariant(s) && !Holds(s.tree, s.open, file)
    ensures Invariant(s.(connections := map c | c in s.connections :: Unlock(s.connections[c], file)))
  {
    hide Holds;
    var u := s.(connections := map c | c in s.connections :: Unlock(s.connections[c], file));
    forall c | c in u.connections ensures ConnectionOk(u.tree, u.connections[c]) {
      UnlockKeeps(s, file, c);
    }
    forall h | h in u.open ensures EntryOk(u.tree, u.connections[h.connection], h) {
      assert EntryOk(s.tree, s.connections[h.connection], h);
    }
  }

  /** A step of one connection: the others keep what they have, and it ends up in order itself. */
  ghost predicate OwnChange(s: System, u: System, c: nat)
  {
    && Invariant(s) && u.tree.Ok() && c in s.connections && c in u.connections
    && u.connections == s.connections[c := u.connections[c]] && ConnectionOk(u.tree, u.connections[c])
    && (forall o :: o in s.connections && o != c ==> Keeps(s.tree, u.tree, s.connections[o]))
    && |u.open| == |s.open|
    && (forall k :: 0 <= k < |s.open| ==> u.open[k].connection == s.open[k].connection)
    && (forall k :: 0 <= k < |s.open| && s.open[k].connection != c ==> u.open[k] == s.open[k])
    && (forall k :: 0 <= k < |s.open| && s.open[k].connection == c ==> EntryOk(u.tree, u.connections[c], u.open[k]))
  }

  lemma OwnKeepsEntries(s: System, u: System, c: nat)
    requires OwnChange(s, u, c)
    ensures ConnectionsOk(u) && EntriesOk(u)
  {
    hide Distinct, AllListed;
    forall o | o in u.connections && o != c ensures ConnectionOk(u.tree, u.connections[o]) {
      assert Keeps(s.tree, u.tree, s.connections[o]);
    }
    forall h | h in u.open ensures h.connection in u.connections && EntryOk(u.tree, u.connections[h.connection], h) {
      var k :| 0 <= k < |u.open| && u.open[k] == h;
      if h.connection != c {
        assert h in s.open && Keeps(s.tree, u.tree, s.connections[h.connection]);
      }
    }
  }

  lemma OwnKeepsListed(s: System, u: System, c: nat)
    requires OwnChange(s, u, c)
    ensures AllListed(u) && Distinct(u.open, NumberOf)
  {
    hide ConnectionsOk, EntriesOk, ConnectionOk, EntryOk, Keeps;
    forall o | o in u.connections ensures HasEntry(u.open, o) {
      assert HasEntry(s.open, o);
      var k :| 0 <= k < |s.open| && s.open[k].connection == o;
      assert u.open[k].connection == o;
    }
  }

  lemma OwnStep(s: System, u: System, c: nat)
    requires OwnChange(s, u, c)
    ensures Invariant(u)
  {
    OwnKeepsEntries(s, u, c);
    OwnKeepsListed(s, u, c);
    hide ConnectionsOk, EntriesOk, AllListed, Distinct;
  }

  lemma PutIsOwn(s: System, u: System, c: nat, t: Tree, y: Connection)
    requires Invariant(s) && c in s.connections && t.Ok() && u == Put(s, c, y).(tree := t) && ConnectionOk(t, y)
    requires forall o :: o in s.connections && o != c ==> Keeps(s.tree, t, s.connections[o])
    requires forall h :: EntryOk(s.tree, s.connections[c], h) ==> EntryOk(t, y, h)
    requires forall k :: 0 <= k < |s.open| && s.open[k].connection == c ==> EntryOk(s.tree, s.connections[c], s.open[k])
    ensures OwnChange(s, u, c)
  {
    hide Invariant, Keeps, ConnectionOk, EntryOk;
  }

  lemma StillKeeps(s: System, c: nat)
    requires Invariant(s) && c in s.connections
    ensures Keeps(s.tree, s.tree, s.connections[c])
  {
    NameParts(s.connections[c].db);
  }

  /** Opening a file by name disturbs nobody, and the name leads to what was opened. */
  lemma OpenAtKeeps(t: Tree, name: Path, made: nat)
    requires t.Ok() && name != []
    ensures var (u, file) := OpenAt(t, name, made);
            && u.Ok()
            && (forall path :: t.Walk(path).Some? ==> u.Walk(path) == t.Walk(path))
            && (forall i :: (t.IsFile(i) ==> u.IsFile(i)) && (t.IsDir(i) ==> u.IsDir(i)))
            && (file.Some? ==> LeadsTo(u, name, file.value))
  {
    var (u, file) := OpenAt(t, name, made);
    var d := t.Walk(Parent(name));
    if d.Some? {
      MakeKeepsWalk(t, d.value, Base(name), made, File, []);
      forall path | t.Walk(path).Some? ensures t.Make(d.value, Base(name), made, File).Walk(path) == t.Walk(path) {
        MakeKeepsWalk(t, d.value, Base(name), made, File, path);
      }
    }
  }

  /** What the invariant says of one connection and its entry. */
  lemma InvariantAt(s: System, c: nat)
    requires Invariant(s) && c in s.connections
    ensures s.tree.Ok() && ConnectionOk(s.tree, s.connections[c])
    ensures forall k :: 0 <= k < |s.open| && s.open[k].connection == c ==> EntryOk(s.tree, s.connections[c], s.open[k])
  {
  }

  lemma AllStillKeep(s: System)
    requires Invariant(s)
    ensures forall o :: o in s.connections ==> ConnectionOk(s.tree, s.connections[o]) && Keeps(s.tree, s.tree, s.connections[o])
  {
    forall o | o in s.connections ensures Keeps(s.tree, s.tree, s.connections[o]) {
      StillKeeps(s, o);
    }
  }

  lemma AllKeepGrown(s: System, u: Tree)
    requires Invariant(s)
    requires forall path :: s.tree.Walk(path).Some? ==> u.Walk(path) == s.tree.Walk(path)
    requires forall i :: (s.tree.IsFile(i) ==> u.IsFile(i)) && (s.tree.IsDir(i) ==> u.IsDir(i))
    ensures forall o :: o in s.connections ==> ConnectionOk(s.tree, s.connections[o]) && Keeps(s.tree, u, s.connections[o])
  {
    forall o | o in s.connections ensures Keeps(s.tree, u, s.connections[o]) {
      MakeKeeps(s.tree, u, s.connections[o]);
    }
  }

  /** The database SQLite finds is the one that was noted. */
  lemma OpenFits(t: Tree, u: Tree, x: Connection, file: nat)
    requires x.stage == Entered && ConnectionOk(t, x) && LeadsTo(u, x.db, file)
    requires forall path :: t.Walk(path).Some? ==> u.Walk(path) == t.Walk(path)
    requires forall i :: (t.IsFile(i) ==> u.IsFile(i)) && (t.IsDir(i) ==> u.IsDir(i))
    ensures var y := x.(stage := Open, held := [Some(file), None, None], locked := {file});
            && ConnectionOk(u, y)
            && (forall h :: EntryOk(t, x, h) ==> EntryOk(u, y, h))
  {
    NameParts(x.db);
    var y := x.(stage := Open, held := [Some(file), None, None], locked := {file});
    assert y.held[0] == Some(file);
    assert ConnectionOk(u, y);
  }

  lemma OpenApplies(s: System, c: nat, made: nat)
    requires c in s.connections && s.connections[c].stage == Entered && s.connections[c].db != [] && |s.connections[c].held| == FILES
    ensures var x := s.connections[c];
            var (t, file) := OpenAt(s.tree, x.db, made);
            Apply(s, SqliteOpen(c, made))
            == if file.None? then s
               else Put(s, c, x.(stage := Open, held := [file, None, None], locked := {file.value})).(tree := t)
  {
  }

  lemma OpenStep(s: System, c: nat, made: nat)
    requires Invariant(s) && c in s.connections && s.connections[c].stage == Entered
    ensures Invariant(Apply(s, SqliteOpen(c, made)))
  {
    var x := s.connections[c];
    InvariantAt(s, c);
    OpenAtKeeps(s.tree, x.db, made);
    var (t, file) := OpenAt(s.tree, x.db, made);
    AllKeepGrown(s, t);
    OpenApplies(s, c, made);
    if file.Some? {
      OpenFits(s.tree, t, x, file.value);
      hide *;
      var y := x.(stage := Open, held := [file, None, None], locked := {file.value});
      PutIsOwn(s, Apply(s, SqliteOpen(c, made)), c, t, y);
      OwnStep(s, Apply(s, SqliteOpen(c, made)), c);
    }
  }

  lemma ReadFits(t: Tree, u: Tree, x: Connection, wal: nat, shm: nat)
    requires x.stage == Open && ConnectionOk(t, x) && LeadsTo(u, Name(x.db, 1), wal) && LeadsTo(u, Name(x.db, 2), shm)
    requires forall path :: t.Walk(path).Some? ==> u.Walk(path) == t.Walk(path)
    requires forall i :: (t.IsFile(i) ==> u.IsFile(i)) && (t.IsDir(i) ==> u.IsDir(i))
    ensures var y := x.(stage := Reading, held := [x.held[0], Some(wal), Some(shm)], locked := x.locked + {wal, shm});
            && ConnectionOk(u, y)
            && (forall h :: EntryOk(t, x, h) ==> EntryOk(u, y, h))
  {
    var y := x.(stage := Reading, held := [x.held[0], Some(wal), Some(shm)], locked := x.locked + {wal, shm});
    forall i | 0 <= i < FILES && y.held[i].Some?
      ensures LeadsTo(u, Name(x.db, i), y.held[i].value) && y.held[i].value in y.locked
    {
      assert i == 0 || i == 1 || i == 2;
    }
  }

  lemma ReadApplies(s: System, c: nat, made: nat, also: nat)
    requires c in s.connections && s.connections[c].stage == Open && s.connections[c].db != [] && |s.connections[c].held| == FILES
    ensures var x := s.connections[c];
            var (t, wal) := OpenAt(s.tree, Name(x.db, 1), made);
            var (u, shm) := OpenAt(t, Name(x.db, 2), also);
            Apply(s, SqliteRead(c, made, also))
            == if wal.None? || shm.None? then s
               else Put(s, c, x.(stage := Reading, held := [x.held[0], wal, shm],
                                 locked := x.locked + {wal.value, shm.value})).(tree := u)
  {
  }

  lemma ReadStep(s: System, c: nat, made: nat, also: nat)
    requires Invariant(s) && c in s.connections && s.connections[c].stage == Open
    ensures Invariant(Apply(s, SqliteRead(c, made, also)))
  {
    var x := s.connections[c];
    InvariantAt(s, c);
    OpenAtKeeps(s.tree, Name(x.db, 1), made);
    var (t, wal) := OpenAt(s.tree, Name(x.db, 1), made);
    OpenAtKeeps(t, Name(x.db, 2), also);
    var (v, shm) := OpenAt(t, Name(x.db, 2), also);
    AllKeepGrown(s, v);
    ReadApplies(s, c, made, also);
    if wal.Some? && shm.Some? {
      ReadFits(s.tree, v, x, wal.value, shm.value);
      hide *;
      var y := x.(stage := Reading, held := [x.held[0], wal, shm], locked := x.locked + {wal.value, shm.value});
      PutIsOwn(s, Apply(s, SqliteRead(c, made, also)), c, v, y);
      OwnStep(s, Apply(s, SqliteRead(c, made, also)), c);
    }
  }

  /** With its three files open, what a connection notes is what it has open. */
  lemma NotedFits(t: Tree, x: Connection, h: HeldFiles)
    requires x.stage == Reading && ConnectionOk(t, x) && EntryOk(t, x, h)
    ensures EntryOk(t, x, Noted(t, h, FILES))
  {
    forall i: nat | i < FILES ensures t.Lstat(Name(x.db, i)) == x.held[i] {
      assert x.held[i].Some?;
      WalkLstat(t, Name(x.db, i));
    }
  }

  lemma ChangesOneEntry(s: System, c: nat, count: nat)
    ensures var u := ChangeEntry(s, c, count);
            && u == s.(open := u.open) && |u.open| == |s.open|
            && (forall k :: 0 <= k < |s.open| ==> u.open[k].connection == s.open[k].connection)
            && (forall k :: 0 <= k < |s.open| && s.open[k].connection != c ==> u.open[k] == s.open[k])
            && (forall k :: 0 <= k < |s.open| && s.open[k].connection == c && s.open[k].Shape() ==>
                  u.open[k] == if count == 0 then s.open[k].(noted := NOTHING) else Noted(s.tree, s.open[k], count))
  {
  }

  lemma NoteStep(s: System, c: nat)
    requires Invariant(s) && s.moving == map[] && c in s.connections && s.connections[c].stage == Reading
    ensures Invariant(Apply(s, Note(c)))
  {
    var x, u := s.connections[c], ChangeEntry(s, c, FILES);
    InvariantAt(s, c);
    AllStillKeep(s);
    ChangesOneEntry(s, c, FILES);
    assert Apply(s, Note(c)) == u;
    assert u.connections == s.connections[c := x];
    hide Invariant, Keeps, ConnectionOk, Apply, ChangeEntry, LeadsTo;
    forall k | 0 <= k < |s.open| && s.open[k].connection == c ensures EntryOk(s.tree, x, u.open[k]) {
      NotedFits(s.tree, x, s.open[k]);
    }
    hide EntryOk, Noted;
    OwnStep(s, u, c);
  }

  lemma AnnounceStep(s: System, c: nat)
    requires Invariant(s) && s.moving == map[] && c in s.connections
    requires s.connections[c].stage == Open || s.connections[c].stage == Reading
    ensures Invariant(Apply(s, Announce(c)))
  {
    var x := s.connections[c];
    InvariantAt(s, c);
    AllStillKeep(s);
    ChangesOneEntry(s, c, 0);
    var v, y := ChangeEntry(s, c, 0), x.(stage := Announced);
    var u := Put(v, c, y);
    assert Apply(s, Announce(c)) == u;
    hide Invariant, Keeps, Apply, ChangeEntry, LeadsTo, Noted, EntryOk, ConnectionOk;
    forall k | 0 <= k < |s.open| && s.open[k].connection == c ensures EntryOk(s.tree, y, u.open[k]) {
      AnnounceFits(s.tree, x, s.open[k]);
    }
    AnnouncedIsOk(s.tree, x);
    OwnStep(s, u, c);
  }

  lemma AnnouncedIsOk(t: Tree, x: Connection)
    requires ConnectionOk(t, x) && (x.stage == Open || x.stage == Reading)
    ensures ConnectionOk(t, x.(stage := Announced))
  {
  }

  lemma AnnounceFits(t: Tree, x: Connection, h: HeldFiles)
    requires ConnectionOk(t, x) && EntryOk(t, x, h) && (x.stage == Open || x.stage == Reading)
    ensures h.Shape() && EntryOk(t, x.(stage := Announced), h.(noted := NOTHING))
  {
  }

  lemma RemoveFileKeepsWalk(t: Tree, d: nat, name: string, path: Path)
    requires t.Ok() && t.Walk(path).Some?
    requires t.IsDir(t.Walk(path).value) || !(path != [] && t.Walk(Parent(path)) == Some(d) && Base(path) == name)
    ensures RemoveFile(t, d, name).Ok() && RemoveFile(t, d, name).Walk(path) == t.Walk(path)
  {
    var u := RemoveFile(t, d, name);
    assert u.Ok();
    assert u != t ==> t.Child(d, name).Some? && t.IsFile(t.Child(d, name).value);
    assert forall e: nat, n :: !(e == d && n == name) ==> u.Child(e, n) == t.Child(e, n);
    hide RemoveFile;
    forall e: nat, n | OnTheWay(t, path, e, n) ensures u.Child(e, n) == t.Child(e, n) {
      var k :| 0 <= k < |path| && path[k] == n && t.Walk(path[..k]) == Some(e);
      RemovedIsNotPassed(t, path, k);
    }
    WalkKept(t, u, path);
  }

  /** What a walk passes before its end is a directory. */
  lemma RemovedIsNotPassed(t: Tree, path: Path, k: nat)
    requires t.Walk(path).Some? && k < |path|
    ensures t.Walk(path[..k]).Some? && t.Child(t.Walk(path[..k]).value, path[k]).Some?
    ensures k + 1 < |path| ==> t.IsDir(t.Child(t.Walk(path[..k]).value, path[k]).value)
    ensures k + 1 == |path| ==> path[..k] == Parent(path) && t.Child(t.Walk(path[..k]).value, path[k]) == t.Walk(path)
  {
    WalkPrefix(t, path, k);
    if k + 1 < |path| {
      WalkPrefix(t, path, k + 1);
    } else {
      assert path[..k] == Parent(path) && path[..k + 1] == path;
    }
  }

  lemma RemoveJournalKeepsWalk(t: Tree, db: Path, path: Path)
    requires t.Ok() && db != [] && t.Walk(path).Some?
    requires t.IsDir(t.Walk(path).value) || (path != [] && forall i :: 1 <= i < FILES ==>
               !(t.Walk(Parent(path)) == t.Walk(Parent(db)) && Base(path) == Base(Name(db, i))))
    ensures RemoveJournal(t, db).Ok() && RemoveJournal(t, db).Walk(path) == t.Walk(path)
  {
    var d := t.Walk(Parent(db));
    if d.Some? {
      var one, two := Base(Name(db, 1)), Base(Name(db, 2));
      var u := RemoveFile(t, d.value, one);
      RemoveFileKeepsWalk(t, d.value, one, path);
      if path != [] {
        LedTo(t, path);
        assert t.IsDir(t.Walk(Parent(path)).value);
        RemoveFileKeepsWalk(t, d.value, one, Parent(path));
      }
      RemoveFileKeepsWalk(u, d.value, two, path);
    }
  }

  /** The names of two databases fall together only when they are the same file's: a journal is not
      named like a database, nor one journal like the index of another. */
  lemma NamesApart(a: Path, b: Path, i: nat, j: nat)
    requires PlainName(a) && PlainName(b) && i < FILES && j < FILES && Base(Name(a, i)) == Base(Name(b, j))
    ensures i == j && Base(a) == Base(b)
  {
    NameParts(a);
    NameParts(b);
    var x, y := Base(a) + Suffix(i), Base(b) + Suffix(j);
    assert x == y;
    assert i > 0 ==> x[|x| - 4..] == Suffix(i) && x[..|x| - 4] == Base(a);
    assert j > 0 ==> y[|y| - 4..] == Suffix(j) && y[..|y| - 4] == Base(b);
    assert Suffix(1)[3] == 'l' && Suffix(2)[3] == 'm';
  }
}
