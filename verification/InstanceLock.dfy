/** The single-instance lock of src/lock.rs: `flock` is taken on an inode, the next process looks
    for it by name, and every process keeps a list that refuses the renames which would part the
    two. */
module InstanceLock {
  import opened Wrappers
  import opened FileTree

  const LOCK_FILE := "dedcom.lock"

  function LockPath(stateDir: Path): Path { stateDir + [LOCK_FILE] }

  /** One entry of `LOCK_FILES`. `file` is the inode a lock of this process is on; a `LockName` has
      none, and whatever lies at the name answers for it. */
  datatype Listed = Listed(entry: nat, name: Path, file: Option<nat>)

  datatype LockPart = NotPart | FilePart | DirectoryPart

  /** `holds`. */
  predicate Holds(listed: seq<Listed>, file: nat)
  {
    exists i | 0 <= i < |listed| :: listed[i].file == Some(file)
  }

  /** `names`. */
  predicate Names(t: Tree, listed: seq<Listed>, path: Path)
  {
    exists i | 0 <= i < |listed| :: SameName(t, listed[i].name, path)
  }

  /** `lies_above`. */
  predicate AnyBelow(t: Tree, listed: seq<Listed>, dir: nat)
  {
    exists i | 0 <= i < |listed| :: LiesAbove(t, listed[i].name, dir)
  }

  /** `part_listed`: a name that cannot be looked at is an error (`None`). */
  function PartListed(t: Tree, listed: seq<Listed>, path: Path): Option<LockPart>
  {
    match t.Lstat(path)
    case None => None
    case Some(thing) =>
      Some(if t.IsDir(thing) then if AnyBelow(t, listed, thing) then DirectoryPart else NotPart
           else if Holds(listed, thing) || Names(t, listed, path) then FilePart else NotPart)
  }

  function EntryOf(l: Listed): nat { l.entry }

  /** The list itself, as one process holds it. */
  class LockFiles {
    var listed: seq<Listed>
    var next: nat

    ghost predicate Valid()
      reads this
    {
      && (forall i :: 0 <= i < |listed| ==> listed[i].entry < next)
      && Distinct(listed, EntryOf)
    }

    constructor ()
      ensures Valid() && listed == [] && next == 0
    {
      listed, next := [], 0;
    }

    /** `enter`. */
    method Enter(name: Path, file: Option<nat>) returns (entry: nat)
      requires Valid()
      modifies this
      ensures Valid() && entry == old(next) && next == old(next) + 1
      ensures listed == old(listed) + [Listed(entry, name, file)]
    {
      entry := next;
      next := next + 1;
      listed := listed + [Listed(entry, name, file)];
    }

    /** What dropping a `LockName` or an `InstanceLock` does to the list. */
    method Retain(entry: nat)
      requires Valid()
      modifies this`listed
      ensures Valid() && listed == Without(old(listed), EntryOf, entry)
      ensures forall e :: e in listed <==> e in old(listed) && e.entry != entry
    {
      hide Without, Distinct;
      var kept: seq<Listed> := [];
      ghost var before := listed;
      for i := 0 to |listed|
        invariant listed == before
        invariant kept + Without(listed[i..], EntryOf, entry) == Without(before, EntryOf, entry)
      {
        WithoutNext(listed, EntryOf, entry, i);
        if listed[i].entry != entry {
          kept := kept + [listed[i]];
        }
      }
      assert listed[|listed|..] == [] && kept + [] == kept;
      WithoutFits(before, entry, next);
      WithoutDistinct(before, EntryOf, entry);
      listed := kept;
    }

    /** `part_listed` as it runs: one look, then the entries one after another. */
    method PartOf(t: Tree, path: Path) returns (part: Option<LockPart>)
      ensures part == PartListed(t, listed, path)
    {
      var looked := t.Lstat(path);
      if looked.None? {
        return None;
      }
      var thing := looked.value;
      var found := false;
      for i := 0 to |listed|
        invariant found <==> exists j | 0 <= j < i :: Refuses(t, listed[j], path, thing)
      {
        if Refuses(t, listed[i], path, thing) {
          found := true;
        }
      }
      part := Some(if !found then NotPart else if t.IsDir(thing) then DirectoryPart else FilePart);
      RefusesIsPart(t, listed, path, thing);
    }
  }

  lemma WithoutFits(listed: seq<Listed>, entry: nat, next: nat)
    requires forall i :: 0 <= i < |listed| ==> listed[i].entry < next
    ensures var kept := Without(listed, EntryOf, entry);
            && (forall i :: 0 <= i < |kept| ==> kept[i].entry < next)
            && (forall e :: e in kept <==> e in listed && e.entry != entry)
    ensures Without([], EntryOf, entry) == []
  {
    var kept := Without(listed, EntryOf, entry);
    forall i | 0 <= i < |kept| ensures kept[i].entry < next {
      assert kept[i] in listed;
    }
  }

  predicate Refuses(t: Tree, kept: Listed, path: Path, thing: nat)
  {
    if t.IsDir(thing) then LiesAbove(t, kept.name, thing)
    else kept.file == Some(thing) || SameName(t, kept.name, path)
  }

  lemma RefusesIsPart(t: Tree, listed: seq<Listed>, path: Path, thing: nat)
    requires t.Lstat(path) == Some(thing)
    ensures PartListed(t, listed, path)
            == Some(if !(exists j | 0 <= j < |listed| :: Refuses(t, listed[j], path, thing)) then NotPart
                    else if t.IsDir(thing) then DirectoryPart else FilePart)
  {
  }

  /** A rename made at once after the questions moves no part of the way to a listed name that leads to
      a file. */
  lemma GuardedRenameKeeps(t: Tree, listed: seq<Listed>, from: Path, to: Path, name: Path)
    requires t.Ok() && PartListed(t, listed, from) == Some(NotPart) && Keeps(listed, name)
    requires t.Walk(name).Some? && t.IsFile(t.Walk(name).value)
    ensures t.Rename(from, to).Walk(name) == t.Walk(name)
  {
    if from != [] && t.DirOf(from).Some? && OnTheWay(t, name, t.DirOf(from).value, Base(from)) {
      GuardsTheWay(t, name, from);
      assert false;
    }
    RenameKeepsWalk(t, from, to, name);
  }

  predicate Keeps(listed: seq<Listed>, name: Path)
  {
    exists i | 0 <= i < |listed| :: listed[i].name == name
  }

  /** The list of a process that keeps one name and has no lock. */
  function NameOnly(name: Path): seq<Listed> { [Listed(0, name, None)] }

  /** Whenever the questions were asked: a rename that happens leaves the way to the name exactly if the
      questions about that name would find no part of it now. */
  lemma RenameKeepsIff(t: Tree, from: Path, to: Path, name: Path)
    requires t.Ok() && DirsOnce(t) && t.Walk(name).Some? && t.IsFile(t.Walk(name).value) && t.Rename(from, to) != t
    ensures t.Rename(from, to).Walk(name) == t.Walk(name) <==> PartListed(t, NameOnly(name), from) == Some(NotPart)
    ensures t.Rename(from, to).Walk(name) == None <==> PartListed(t, NameOnly(name), from) != Some(NotPart)
  {
    RenameKeepsExactly(t, from, to, name);
    AsksIsPart(t, name, from);
  }

  lemma AsksIsPart(t: Tree, name: Path, from: Path)
    requires t.Lstat(from).Some?
    ensures Asks(t, name, from, t.Lstat(from).value) <==> PartListed(t, NameOnly(name), from) != Some(NotPart)
  {
    var listed := NameOnly(name);
    assert listed[0] == Listed(0, name, None);
    RefusesIsPart(t, listed, from, t.Lstat(from).value);
  }

  // === Many processes ===

  /** Where `try_acquire` stands: the list is held to write from before the open until the entry. */
  datatype Acquiring = Idle | Opened(dir: Path, file: nat) | Checked(dir: Path, file: nat) | Flocked(dir: Path, file: nat)

  /** `moving` are the renames its threads have in hand: they hold the list to read, so it is not
      written to meanwhile. */
  datatype Process = Process(listed: seq<Listed>, next: nat, acquiring: Acquiring, moving: map<nat, Move>)

  const NEW := Process([], 0, Idle, map[])

  /** Who holds the lock on an inode: a process, and which of its open files. */
  datatype Holder = Holder(pid: nat, entry: nat)

  datatype System = System(tree: Tree, locks: map<nat, Holder>, processes: map<nat, Process>, renames: nat)

  datatype Event =
    | Spawn(pid: nat)
    | Die(pid: nat)
    | ListName(pid: nat, stateDir: Path)
    | DropName(pid: nat, entry: nat)
    | Open(pid: nat, stateDir: Path, made: nat)
    | Check(pid: nat)
    | Flock(pid: nat, supported: bool)
    | EnterLock(pid: nat)
    | DropLock(pid: nat, entry: nat)
    | Look(pid: nat, thread: nat, from: Path, to: Path)
    | Act(pid: nat, thread: nat)
    | Make(dir: nat, name: string, made: nat, node: Node)
    | HardLink(from: Path, dir: nat, name: string)

  /** How many names lead to an inode: `st_nlink` of a regular file. */
  ghost predicate OneName(t: Tree, i: nat)
  {
    forall d, n, e, m :: t.Child(d, n) == Some(i) && t.Child(e, m) == Some(i) ==> d == e && n == m
  }

  ghost function Put(s: System, pid: nat, p: Process): System { s.(processes := s.processes[pid := p]) }

  /** What one event does; an event that cannot happen changes nothing. */
  ghost function Apply(s: System, e: Event): System
  {
    match e
    case Spawn(pid) => if pid in s.processes then s else Put(s, pid, NEW)
    case Die(pid) =>
      s.(processes := s.processes - {pid}, locks := map i | i in s.locks && s.locks[i].pid != pid :: s.locks[i])
    case Make(dir, name, made, node) => s.(tree := s.tree.Make(dir, name, made, node))
    case HardLink(from, dir, name) => s.(tree := s.tree.HardLink(from, dir, name))
    case _ => if e.pid in s.processes then ApplyOwn(s, e, s.processes[e.pid]) else s
  }

  /** What a live process does to itself, the locks and the tree. While it is acquiring it holds its
      own list to write, so it neither looks nor renames nor enters nor drops; while it has a rename in
      hand it holds the list to read, so nothing else writes to it. */
  ghost function ApplyOwn(s: System, e: Event, p: Process): System
    requires !e.Make? && !e.HardLink?
  {
    if p.acquiring != Idle then ApplyAcquiring(s, e, p)
    else if e.Look? then
      if e.thread !in p.moving && PartListed(s.tree, p.listed, e.from) == Some(NotPart) then
        Put(s, e.pid, p.(moving := p.moving[e.thread := Move(e.from, e.to, s.tree, s.renames)]))
      else s
    else if e.Act? then
      if e.thread in p.moving then
        var m := p.moving[e.thread];
        Put(s, e.pid, p.(moving := p.moving - {e.thread})).(tree := s.tree.Rename(m.from, m.to), renames := s.renames + 1)
      else s
    else if p.moving != map[] then s
    else if e.ListName? then
      Put(s, e.pid, p.(listed := p.listed + [Listed(p.next, LockPath(e.stateDir), None)], next := p.next + 1))
    else if e.DropName? then
      if exists l :: l in p.listed && l.entry == e.entry && l.file.None? then
        Put(s, e.pid, p.(listed := Without(p.listed, EntryOf, e.entry)))
      else s
    else if e.DropLock? then
      if exists l :: l in p.listed && l.entry == e.entry && l.file.Some? then
        Put(s, e.pid, p.(listed := Without(p.listed, EntryOf, e.entry)))
          .(locks := map i | i in s.locks && s.locks[i] != Holder(e.pid, e.entry) :: s.locks[i])
      else s
    else if e.Open? then ApplyOpen(s, e.pid, p, e.stateDir, e.made)
    else s
  }

  /** The open of `try_acquire`. The way to the state directory has no link in it: a mode that takes
      the lock walked it first (`establish_state_dir`). A missing lock file is made; a link or a
      directory under its name is refused. */
  ghost function ApplyOpen(s: System, pid: nat, p: Process, stateDir: Path, made: nat): System
  {
    var d := s.tree.Walk(stateDir);
    if d.None? || !s.tree.IsDir(d.value) then s
    else
      var t := s.tree.Make(d.value, LOCK_FILE, made, File);
      var i := t.Child(d.value, LOCK_FILE);
      if i.Some? && t.IsFile(i.value) then Put(s, pid, p.(acquiring := Opened(stateDir, i.value))).(tree := t) else s
  }

  ghost function ApplyAcquiring(s: System, e: Event, p: Process): System
    requires !e.Make? && !e.HardLink? && p.acquiring != Idle
  {
    var a := p.acquiring;
    if e.Check? && a.Opened? then
      Put(s, e.pid, p.(acquiring := if OneName(s.tree, a.file) then Checked(a.dir, a.file) else Idle))
    else if e.Flock? && a.Checked? then
      if a.file !in s.locks && e.supported then
        Put(s, e.pid, p.(acquiring := Flocked(a.dir, a.file))).(locks := s.locks[a.file := Holder(e.pid, p.next)])
      else Put(s, e.pid, p.(acquiring := Idle))
    else if e.EnterLock? && a.Flocked? then
      Put(s, e.pid, Process(p.listed + [Listed(p.next, LockPath(a.dir), Some(a.file))], p.next + 1, Idle, p.moving))
    else s
  }

  ghost function Run(s: System, events: seq<Event>): System
    decreases |events|
  {
    if events == [] then s else Run(Apply(s, events[0]), events[1..])
  }

  /** Nobody runs and nobody holds a lock; the tree is any tree. */
  ghost predicate Initial(s: System) { s.tree.Ok() && s.locks == map[] && s.processes == map[] }

  /** The rename finds its name no part of the lock's place when it is made, whenever it looked. */
  ghost predicate Timely(s: System, m: Move, stateDir: Path)
  {
    PartListed(s.tree, NameOnly(LockPath(stateDir)), m.from) == Some(NotPart) || s.tree.Rename(m.from, m.to) == s.tree
  }

  /** The process has the lock's name on its list — what a window's `LockName` is for — and no rename
      was made, by this process or another, between the look and this one. */
  predicate Apart(s: System, p: Process, m: Move, stateDir: Path)
  {
    Keeps(p.listed, LockPath(stateDir)) && m.at == s.renames
  }

  ghost predicate InOrder(s: System, e: Event, stateDir: Path)
  {
    e.Act? && e.pid in s.processes && e.thread in s.processes[e.pid].moving ==>
      var p := s.processes[e.pid];
      Timely(s, p.moving[e.thread], stateDir) || Apart(s, p, p.moving[e.thread], stateDir)
  }

  /** Every rename is timely, or made by a process that lists the name and apart from every other. */
  ghost predicate Disciplined(s: System, events: seq<Event>, stateDir: Path)
    decreases |events|
  {
    events != [] ==> InOrder(s, events[0], stateDir) && Disciplined(Apply(s, events[0]), events[1..], stateDir)
  }

  /** An `InstanceLock` of the state directory: an entry with a file, under that name. */
  ghost predicate HoldsLock(s: System, stateDir: Path, pid: nat, l: Listed)
  {
    pid in s.processes && l in s.processes[pid].listed && l.name == LockPath(stateDir) && l.file.Some?
  }

  /** The lock's name leads, without a link on the way, to this regular file. */
  ghost predicate LeadsTo(t: Tree, stateDir: Path, file: nat)
  {
    t.Walk(LockPath(stateDir)) == Some(file) && t.IsFile(file)
  }

  ghost predicate ProcessOk(s: System, stateDir: Path, pid: nat)
    requires pid in s.processes
  {
    var p := s.processes[pid];
    && (forall l :: l in p.listed ==> l.entry < p.next)
    && (forall l, m :: l in p.listed && m in p.listed && l.entry == m.entry ==> l == m)
    && (forall l :: l in p.listed && l.file.Some? ==>
          l.file.value in s.locks && s.locks[l.file.value] == Holder(pid, l.entry))
    && (forall l :: l in p.listed && l.file.Some? && l.name == LockPath(stateDir) ==> LeadsTo(s.tree, stateDir, l.file.value))
    && (p.acquiring != Idle && p.acquiring.dir == stateDir ==> LeadsTo(s.tree, stateDir, p.acquiring.file))
    && (p.acquiring.Flocked? ==> p.acquiring.file in s.locks && s.locks[p.acquiring.file] == Holder(pid, p.next))
  }

  /** A rename in hand was let through by the list its process still has, and the tree it looked at has
      not been disturbed if nothing has been renamed since. */
  ghost predicate MoveOk(s: System, p: Process, m: Move)
  {
    && m.looked.Ok() && PartListed(m.looked, p.listed, m.from) == Some(NotPart) && m.at <= s.renames
    && (m.at == s.renames ==> Undisturbed(m.looked, s.tree) && FilesKept(m.looked, s.tree))
  }

  ghost predicate MovesOk(s: System)
  {
    && s.tree.Ok()
    && forall pid :: pid in s.processes ==>
         && (s.processes[pid].acquiring != Idle ==> s.processes[pid].moving == map[])
         && forall thread :: thread in s.processes[pid].moving ==> MoveOk(s, s.processes[pid], s.processes[pid].moving[thread])
  }

  ghost predicate Invariant(s: System, stateDir: Path)
  {
    s.tree.Ok() && forall pid :: pid in s.processes ==> ProcessOk(s, stateDir, pid)
  }

  /** Nothing a process relies on is touched by another's step: the way to the lock stays, and the
      locks it holds stay its own. */
  lemma OtherOk(s: System, u: System, stateDir: Path, pid: nat)
    requires pid in s.processes && ProcessOk(s, stateDir, pid)
    requires pid in u.processes && u.processes[pid] == s.processes[pid]
    requires forall file :: LeadsTo(s.tree, stateDir, file) ==> LeadsTo(u.tree, stateDir, file)
    requires forall i :: i in s.locks && s.locks[i].pid == pid ==> i in u.locks && u.locks[i] == s.locks[i]
    ensures ProcessOk(u, stateDir, pid)
  {
  }

  lemma TreeStepKeeps(s: System, u: System, stateDir: Path)
    requires Invariant(s, stateDir) && u.tree.Ok() && u == s.(tree := u.tree)
    requires forall file :: LeadsTo(s.tree, stateDir, file) ==> LeadsTo(u.tree, stateDir, file)
    ensures Invariant(u, stateDir)
  {
    forall pid | pid in u.processes ensures ProcessOk(u, stateDir, pid) {
      OtherOk(s, u, stateDir, pid);
    }
  }

  lemma MakeKeeps(s: System, stateDir: Path, dir: nat, name: string, made: nat, node: Node)
    requires Invariant(s, stateDir)
    ensures Invariant(s.(tree := s.tree.Make(dir, name, made, node)), stateDir)
  {
    var u := s.(tree := s.tree.Make(dir, name, made, node));
    MakeKeepsWalk(s.tree, dir, name, made, node, []);
    forall file | LeadsTo(s.tree, stateDir, file) ensures LeadsTo(u.tree, stateDir, file) {
      MakeKeepsWalk(s.tree, dir, name, made, node, LockPath(stateDir));
    }
    TreeStepKeeps(s, u, stateDir);
  }

  lemma HardLinkKeeps(s: System, stateDir: Path, from: Path, dir: nat, name: string)
    requires Invariant(s, stateDir)
    ensures Invariant(s.(tree := s.tree.HardLink(from, dir, name)), stateDir)
  {
    var u := s.(tree := s.tree.HardLink(from, dir, name));
    HardLinkKeepsWalk(s.tree, from, dir, name, []);
    forall file | LeadsTo(s.tree, stateDir, file) ensures LeadsTo(u.tree, stateDir, file) {
      HardLinkKeepsWalk(s.tree, from, dir, name, LockPath(stateDir));
    }
    TreeStepKeeps(s, u, stateDir);
  }

  lemma RenamedTreeKeeps(s: System, stateDir: Path, p: Process, m: Move)
    requires Invariant(s, stateDir) && MovesOk(s) && MoveOk(s, p, m) && (Timely(s, m, stateDir) || Apart(s, p, m, stateDir))
    ensures Invariant(s.(tree := s.tree.Rename(m.from, m.to)), stateDir)
  {
    hide MovesOk, MoveOk, Timely, Tree.Rename;
    var v := s.(tree := s.tree.Rename(m.from, m.to));
    RenameOk(s.tree, m.from, m.to);
    forall file | LeadsTo(s.tree, stateDir, file) ensures LeadsTo(v.tree, stateDir, file) {
      RenameInOrderKeeps(s, p, m, stateDir);
    }
    hide Invariant, LeadsTo;
    TreeStepKeeps(s, v, stateDir);
  }

  lemma ActKeeps(s: System, stateDir: Path, pid: nat, thread: nat)
    requires Invariant(s, stateDir) && MovesOk(s) && InOrder(s, Act(pid, thread), stateDir)
    requires pid in s.processes && s.processes[pid].acquiring == Idle && thread in s.processes[pid].moving
    ensures Invariant(Apply(s, Act(pid, thread)), stateDir)
  {
    hide Apply, Invariant, Timely, MoveOk, Tree.Rename;
    var p, m := s.processes[pid], s.processes[pid].moving[thread];
    var v := s.(tree := s.tree.Rename(m.from, m.to));
    RenamedTreeKeeps(s, stateDir, p, m);
    ActApplies(s, pid, thread);
    HandsKeep(v, Apply(s, Act(pid, thread)), stateDir);
  }

  lemma ActApplies(s: System, pid: nat, thread: nat)
    requires pid in s.processes && s.processes[pid].acquiring == Idle && thread in s.processes[pid].moving
    ensures var p, m := s.processes[pid], s.processes[pid].moving[thread];
            Apply(s, Act(pid, thread))
            == Put(s, pid, p.(moving := p.moving - {thread})).(tree := s.tree.Rename(m.from, m.to), renames := s.renames + 1)
  {
  }

  /** The invariant says nothing of renames in hand. */
  lemma HandsKeep(s: System, u: System, stateDir: Path)
    requires Invariant(s, stateDir) && u.tree == s.tree && u.locks == s.locks && u.processes.Keys == s.processes.Keys
    requires forall pid :: pid in s.processes ==> u.processes[pid] == s.processes[pid].(moving := u.processes[pid].moving)
    ensures Invariant(u, stateDir)
  {
    forall pid | pid in u.processes ensures ProcessOk(u, stateDir, pid) {
      SameOk(s, u, stateDir, pid);
    }
  }

  /** What a process keeps says nothing of its renames in hand. */
  lemma SameOk(s: System, u: System, stateDir: Path, pid: nat)
    requires pid in s.processes && ProcessOk(s, stateDir, pid) && u.tree == s.tree && u.locks == s.locks
    requires pid in u.processes && u.processes[pid] == s.processes[pid].(moving := u.processes[pid].moving)
    ensures ProcessOk(u, stateDir, pid)
  {
  }

  lemma RenameInOrderKeeps(s: System, p: Process, m: Move, stateDir: Path)
    requires MovesOk(s) && MoveOk(s, p, m) && (Timely(s, m, stateDir) || Apart(s, p, m, stateDir))
    requires s.tree.Walk(LockPath(stateDir)).Some? && s.tree.IsFile(s.tree.Walk(LockPath(stateDir)).value)
    ensures s.tree.Rename(m.from, m.to).Walk(LockPath(stateDir)) == s.tree.Walk(LockPath(stateDir))
  {
    var name := LockPath(stateDir);
    if s.tree.Rename(m.from, m.to) == s.tree {
    } else if Timely(s, m, stateDir) {
      assert NameOnly(name)[0].name == name;
      GuardedRenameKeeps(s.tree, NameOnly(name), m.from, m.to, name);
    } else {
      LookLetsThrough(m.looked, p.listed, m.from, name);
      LookStillHolds(m.looked, s.tree, name, m.from);
      RenameKeepsWalk(s.tree, m.from, m.to, name);
    }
  }

  /** What the list lets through it lets through about each of its names. */
  lemma LookLetsThrough(t: Tree, listed: seq<Listed>, from: Path, name: Path)
    requires PartListed(t, listed, from) == Some(NotPart) && Keeps(listed, name) && from != []
    ensures t.Lstat(from).Some? && !Asks(t, name, from, t.Lstat(from).value)
  {
    var i :| 0 <= i < |listed| && listed[i].name == name;
    RefusesIsPart(t, listed, from, t.Lstat(from).value);
    assert !Refuses(t, listed[i], from, t.Lstat(from).value);
  }

  lemma OpenKeeps(s: System, stateDir: Path, pid: nat, dir: Path, made: nat)
    requires Invariant(s, stateDir) && pid in s.processes && s.processes[pid].acquiring == Idle
    ensures Invariant(ApplyOpen(s, pid, s.processes[pid], dir, made), stateDir)
  {
    var u := ApplyOpen(s, pid, s.processes[pid], dir, made);
    if u != s {
      var d := s.tree.Walk(dir).value;
      var v := s.(tree := s.tree.Make(d, LOCK_FILE, made, File));
      MakeKeeps(s, stateDir, d, LOCK_FILE, made, File);
      MakeKeepsWalk(s.tree, d, LOCK_FILE, made, File, dir);
      assert Parent(LockPath(dir)) == dir && Base(LockPath(dir)) == LOCK_FILE;
      forall other | other in u.processes ensures ProcessOk(u, stateDir, other) {
        if other != pid {
          OtherOk(v, u, stateDir, other);
        }
      }
    }
  }

  lemma OwnKeeps(s: System, u: System, stateDir: Path, pid: nat)
    requires Invariant(s, stateDir) && pid in u.processes && ProcessOk(u, stateDir, pid)
    requires pid in s.processes && u == Put(s, pid, u.processes[pid]).(locks := u.locks)
    requires forall i :: i in s.locks && s.locks[i].pid != pid ==> i in u.locks && u.locks[i] == s.locks[i]
    ensures Invariant(u, stateDir)
  {
    forall other | other in u.processes ensures ProcessOk(u, stateDir, other) {
      if other != pid {
        OtherOk(s, u, stateDir, other);
      }
    }
  }

  lemma LookKeeps(s: System, stateDir: Path, e: Event)
    requires Invariant(s, stateDir) && e.Look? && e.pid in s.processes && s.processes[e.pid].acquiring == Idle
    ensures Invariant(Apply(s, e), stateDir)
  {
    LookApplies(s, e);
    hide Invariant, Apply, PartListed;
    if Apply(s, e) != s { HandsKeep(s, Apply(s, e), stateDir); }
  }

  lemma LookApplies(s: System, e: Event)
    requires e.Look? && e.pid in s.processes && s.processes[e.pid].acquiring == Idle
    ensures var p, m := s.processes[e.pid], Move(e.from, e.to, s.tree, s.renames);
            Apply(s, e) == s || Apply(s, e) == Put(s, e.pid, p.(moving := p.moving[e.thread := m]))
  {
    hide PartListed;
  }

  lemma ListKeeps(s: System, stateDir: Path, e: Event)
    requires Invariant(s, stateDir) && (e.ListName? || e.DropName? || e.DropLock?)
    requires e.pid in s.processes && s.processes[e.pid].acquiring == Idle
    ensures Invariant(Apply(s, e), stateDir)
  {
    var u := Apply(s, e);
    if u != s {
      ListFits(s, stateDir, e);
      ListFrame(s, e);
      hide Apply, ProcessOk;
      OwnKeeps(s, u, stateDir, e.pid);
    }
  }

  lemma ListFrame(s: System, e: Event)
    requires (e.ListName? || e.DropName? || e.DropLock?) && e.pid in s.processes && s.processes[e.pid].acquiring == Idle
    ensures var u := Apply(s, e);
            && e.pid in u.processes && u == Put(s, e.pid, u.processes[e.pid]).(locks := u.locks)
            && forall i :: i in s.locks && s.locks[i].pid != e.pid ==> i in u.locks && u.locks[i] == s.locks[i]
  {
    assert Put(s, e.pid, s.processes[e.pid]) == s;
  }

  lemma ListFits(s: System, stateDir: Path, e: Event)
    requires Invariant(s, stateDir) && (e.ListName? || e.DropName? || e.DropLock?)
    requires e.pid in s.processes && s.processes[e.pid].acquiring == Idle
    ensures e.pid in Apply(s, e).processes && ProcessOk(Apply(s, e), stateDir, e.pid)
  {
    var p := s.processes[e.pid];
    assert ProcessOk(s, stateDir, e.pid);
    hide ProcessOk, Invariant;
    if Apply(s, e) == s {
    } else if e.ListName? {
      NameFits(s, Apply(s, e), stateDir, e.pid, Listed(p.next, LockPath(e.stateDir), None));
    } else {
      DropFits(s, Apply(s, e), stateDir, e.pid, e.entry);
    }
  }

  lemma NameFits(s: System, u: System, stateDir: Path, pid: nat, l: Listed)
    requires pid in s.processes && ProcessOk(s, stateDir, pid) && l.file.None? && l.entry == s.processes[pid].next
    requires s.processes[pid].acquiring == Idle && u.tree == s.tree && u.locks == s.locks && pid in u.processes
    requires var p := s.processes[pid]; u.processes[pid] == p.(listed := p.listed + [l], next := p.next + 1)
    ensures ProcessOk(u, stateDir, pid)
  {
    hide LeadsTo;
    var p := s.processes[pid];
    assert forall k :: k in p.listed + [l] <==> k in p.listed || k == l;
  }

  lemma DropFits(s: System, u: System, stateDir: Path, pid: nat, entry: nat)
    requires pid in s.processes && ProcessOk(s, stateDir, pid) && s.processes[pid].acquiring == Idle
    requires u.tree == s.tree && pid in u.processes
    requires var p := s.processes[pid]; u.processes[pid] == p.(listed := Without(p.listed, EntryOf, entry))
    requires forall i :: i in s.locks && s.locks[i] != Holder(pid, entry) ==> i in u.locks && u.locks[i] == s.locks[i]
    ensures ProcessOk(u, stateDir, pid)
  {
    hide LeadsTo;
  }

  lemma AcquiringKeeps(s: System, stateDir: Path, e: Event)
    requires Invariant(s, stateDir) && (e.Check? || e.Flock? || e.EnterLock?)
    requires e.pid in s.processes && s.processes[e.pid].acquiring != Idle
    ensures Invariant(Apply(s, e), stateDir)
  {
    var u := Apply(s, e);
    if u != s {
      AcquiringFits(s, stateDir, e);
      assert u == Put(s, e.pid, u.processes[e.pid]).(locks := u.locks);
      hide ProcessOk, Invariant;
      OwnKeeps(s, u, stateDir, e.pid);
    }
  }

  lemma AcquiringFits(s: System, stateDir: Path, e: Event)
    requires Invariant(s, stateDir) && (e.Check? || e.Flock? || e.EnterLock?)
    requires e.pid in s.processes && s.processes[e.pid].acquiring != Idle && Apply(s, e) != s
    ensures e.pid in Apply(s, e).processes && ProcessOk(Apply(s, e), stateDir, e.pid)
  {
    if e.Check? { CheckFits(s, stateDir, e.pid); }
    else if e.Flock? { FlockFits(s, stateDir, e.pid, e.supported); }
    else { EnterFits(s, stateDir, e.pid); }
    hide Apply, ProcessOk, Invariant;
  }

  lemma CheckFits(s: System, stateDir: Path, pid: nat)
    requires Invariant(s, stateDir) && pid in s.processes && s.processes[pid].acquiring.Opened?
    ensures pid in Apply(s, Check(pid)).processes && ProcessOk(Apply(s, Check(pid)), stateDir, pid)
  {
    assert ProcessOk(s, stateDir, pid);
    hide OneName, LeadsTo, Invariant;
  }

  lemma FlockFits(s: System, stateDir: Path, pid: nat, supported: bool)
    requires Invariant(s, stateDir) && pid in s.processes && s.processes[pid].acquiring.Checked?
    ensures pid in Apply(s, Flock(pid, supported)).processes && ProcessOk(Apply(s, Flock(pid, supported)), stateDir, pid)
  {
    assert ProcessOk(s, stateDir, pid);
    hide OneName, LeadsTo, Invariant;
  }

  lemma EnterFits(s: System, stateDir: Path, pid: nat)
    requires Invariant(s, stateDir) && pid in s.processes && s.processes[pid].acquiring.Flocked?
    ensures pid in Apply(s, EnterLock(pid)).processes && ProcessOk(Apply(s, EnterLock(pid)), stateDir, pid)
  {
    assert ProcessOk(s, stateDir, pid);
    LockPathInjective(s.processes[pid].acquiring.dir, stateDir);
    hide OneName, LeadsTo, Invariant, LockPath;
  }

  lemma LockPathInjective(a: Path, b: Path)
    ensures LockPath(a) == LockPath(b) ==> a == b
  {
    assert LockPath(a)[..|a|] == a && LockPath(b)[..|b|] == b;
  }

  lemma DieKeeps(s: System, stateDir: Path, pid: nat)
    requires Invariant(s, stateDir)
    ensures Invariant(Apply(s, Die(pid)), stateDir)
  {
    var u := Apply(s, Die(pid));
    forall other | other in u.processes ensures ProcessOk(u, stateDir, other) {
      OtherOk(s, u, stateDir, other);
    }
  }

  lemma SpawnKeeps(s: System, stateDir: Path, pid: nat)
    requires Invariant(s, stateDir)
    ensures Invariant(Apply(s, Spawn(pid)), stateDir)
  {
    var u := Apply(s, Spawn(pid));
    forall other | other in u.processes ensures ProcessOk(u, stateDir, other) {
      if other in s.processes {
        OtherOk(s, u, stateDir, other);
      }
    }
  }

  lemma ApplyKeeps(s: System, stateDir: Path, e: Event)
    requires Invariant(s, stateDir) && MovesOk(s) && InOrder(s, e, stateDir)
    ensures Invariant(Apply(s, e), stateDir)
  {
    hide Invariant, InOrder, MovesOk;
    if e.Spawn? { SpawnKeeps(s, stateDir, e.pid); }
    else if e.Die? { DieKeeps(s, stateDir, e.pid); }
    else if e.Make? { MakeKeeps(s, stateDir, e.dir, e.name, e.made, e.node); }
    else if e.HardLink? { HardLinkKeeps(s, stateDir, e.from, e.dir, e.name); }
    else if e.pid in s.processes {
      var p := s.processes[e.pid];
      var idle := p.acquiring == Idle;
      if e.Act? && idle && e.thread in p.moving { ActKeeps(s, stateDir, e.pid, e.thread); }
      else if e.Look? && idle { LookKeeps(s, stateDir, e); }
      else if e.Open? && idle && p.moving == map[] { OpenKeeps(s, stateDir, e.pid, e.stateDir, e.made); }
      else if (e.ListName? || e.DropName? || e.DropLock?) && idle { ListKeeps(s, stateDir, e); }
      else if (e.Check? || e.Flock? || e.EnterLock?) && !idle { AcquiringKeeps(s, stateDir, e); }
    }
  }

  // === What is kept of the renames in hand ===

  /** A change of the tree that renames nothing keeps every look as good as it was. */
  lemma MoveStays(s: System, u: System, p: Process, m: Move)
    requires MoveOk(s, p, m) && u.renames == s.renames && Undisturbed(s.tree, u.tree) && FilesKept(s.tree, u.tree)
    ensures MoveOk(u, p, m)
  {
    if m.at == s.renames {
      UndisturbedTrans(m.looked, s.tree, u.tree);
      FilesKeptTrans(m.looked, s.tree, u.tree);
    }
    hide Undisturbed, FilesKept;
  }

  /** What each step but a rename and a look does to the tree, and to a process with renames in hand. */
  lemma OthersDisturbNothing(s: System, e: Event)
    requires MovesOk(s) && !e.Act? && !e.Look?
    ensures var u := Apply(s, e);
            && u.renames == s.renames && u.tree.Ok() && Undisturbed(s.tree, u.tree) && FilesKept(s.tree, u.tree)
  {
    NothingDisturbs(s.tree);
    if e.Make? {
      MakeUndisturbs(s.tree, e.dir, e.name, e.made, e.node);
      MakeKeepsWalk(s.tree, e.dir, e.name, e.made, e.node, []);
    } else if e.HardLink? {
      HardLinkUndisturbs(s.tree, e.from, e.dir, e.name);
      HardLinkKeepsWalk(s.tree, e.from, e.dir, e.name, []);
    } else if e.Open? && s.tree.Walk(e.stateDir).Some? {
      MakeUndisturbs(s.tree, s.tree.Walk(e.stateDir).value, LOCK_FILE, e.made, File);
      MakeKeepsWalk(s.tree, s.tree.Walk(e.stateDir).value, LOCK_FILE, e.made, File, []);
    }
    hide Undisturbed, FilesKept, Tree.Make, Tree.HardLink, OneName;
  }

  lemma OthersKeepHands(s: System, e: Event, pid: nat)
    requires MovesOk(s) && !e.Act? && !e.Look? && pid in Apply(s, e).processes
    ensures var q := Apply(s, e).processes[pid];
            && (q.acquiring != Idle ==> q.moving == map[])
            && (q.moving != map[] ==> pid in s.processes && q == s.processes[pid])
  {
    hide MoveOk, OneName;
  }

  lemma MovesKept(s: System, e: Event)
    requires MovesOk(s)
    ensures MovesOk(Apply(s, e))
  {
    if e.Act? {
      ActMoves(s, e);
    } else if e.Look? {
      LookMoves(s, e);
    } else {
      var u := Apply(s, e);
      OthersDisturbNothing(s, e);
      forall pid | pid in u.processes ensures u.processes[pid].acquiring != Idle ==> u.processes[pid].moving == map[] {
        OthersKeepHands(s, e, pid);
      }
      forall pid, thread | pid in u.processes && thread in u.processes[pid].moving
        ensures MoveOk(u, u.processes[pid], u.processes[pid].moving[thread])
      {
        OthersKeepHands(s, e, pid);
        MoveStays(s, u, s.processes[pid], s.processes[pid].moving[thread]);
      }
    }
    hide Apply, MoveOk;
  }

  lemma ActMoves(s: System, e: Event)
    requires MovesOk(s) && e.Act?
    ensures MovesOk(Apply(s, e))
  {
    if e.pid in s.processes && e.thread in s.processes[e.pid].moving {
      var m := s.processes[e.pid].moving[e.thread];
      RenameOk(s.tree, m.from, m.to);
    }
    hide Undisturbed, FilesKept, Tree.Rename, PartListed;
  }

  lemma LookMoves(s: System, e: Event)
    requires MovesOk(s) && e.Look?
    ensures MovesOk(Apply(s, e))
  {
    NothingDisturbs(s.tree);
    hide Undisturbed, FilesKept, PartListed;
  }

  lemma {:induction false} RunKeeps(s: System, events: seq<Event>, stateDir: Path)
    requires Invariant(s, stateDir) && MovesOk(s) && Disciplined(s, events, stateDir)
    ensures Invariant(Run(s, events), stateDir) && MovesOk(Run(s, events))
    decreases |events|
  {
    hide Invariant, Apply, MovesOk, InOrder;
    if events == [] {
    } else {
      ApplyKeeps(s, stateDir, events[0]);
      MovesKept(s, events[0]);
      RunKeeps(Apply(s, events[0]), events[1..], stateDir);
    }
  }

  // === What holds in every run ===

  /** However processes start, die, make and link files, take and drop locks, and look and rename with
      others' steps in between: as long as each rename finds its name still no part of the lock's place,
      or is made by a process that lists the name and apart from other renames, the name of a held lock
      leads, without a link on the way, to the very file the lock is on. */
  lemma HeldLockKeepsItsName(s: System, events: seq<Event>, stateDir: Path, pid: nat, l: Listed)
    requires Initial(s) && Disciplined(s, events, stateDir) && HoldsLock(Run(s, events), stateDir, pid, l)
    ensures LeadsTo(Run(s, events).tree, stateDir, l.file.value)
    ensures l.file.value in Run(s, events).locks && Run(s, events).locks[l.file.value] == Holder(pid, l.entry)
  {
    RunKeeps(s, events, stateDir);
    assert ProcessOk(Run(s, events), stateDir, pid);
  }

  /** So no two operators ever run on one state directory. */
  lemma OneOperator(s: System, events: seq<Event>, stateDir: Path, p: nat, l: Listed, q: nat, m: Listed)
    requires Initial(s) && Disciplined(s, events, stateDir)
    requires HoldsLock(Run(s, events), stateDir, p, l) && HoldsLock(Run(s, events), stateDir, q, m)
    ensures p == q && l == m
  {
    HeldLockKeepsItsName(s, events, stateDir, p, l);
    HeldLockKeepsItsName(s, events, stateDir, q, m);
    RunKeeps(s, events, stateDir);
    assert ProcessOk(Run(s, events), stateDir, p);
  }

  /** And that is exactly what it takes: of any rename in hand, the name of a held lock still leads to
      its file afterwards if and only if the rename is timely; otherwise the name is free. */
  lemma TimelyIsExact(s: System, events: seq<Event>, stateDir: Path, pid: nat, l: Listed, q: nat, thread: nat)
    requires Initial(s) && DirsOnce(s.tree) && Disciplined(s, events, stateDir) && HoldsLock(Run(s, events), stateDir, pid, l)
    requires q in Run(s, events).processes && thread in Run(s, events).processes[q].moving
    ensures var u := Run(s, events);
            var v := Apply(u, Act(q, thread));
            && (LeadsTo(v.tree, stateDir, l.file.value) <==> Timely(u, u.processes[q].moving[thread], stateDir))
            && (LeadsTo(v.tree, stateDir, l.file.value) <==> v.tree.Walk(LockPath(stateDir)).Some?)
  {
    var u := Run(s, events);
    RunKeeps(s, events, stateDir);
    RunKeepsOnce(s, events);
    HeldLockKeepsItsName(s, events, stateDir, pid, l);
    var m := u.processes[q].moving[thread];
    RenameOk(u.tree, m.from, m.to);
    assert Apply(u, Act(q, thread)).tree == u.tree.Rename(m.from, m.to);
    if u.tree.Rename(m.from, m.to) != u.tree {
      RenameKeepsIff(u.tree, m.from, m.to, LockPath(stateDir));
    }
    hide Run, Apply, Invariant, MovesOk, Disciplined, PartListed, Tree.Rename;
  }

  lemma {:induction false} RunKeepsOnce(s: System, events: seq<Event>)
    requires MovesOk(s) && DirsOnce(s.tree)
    ensures DirsOnce(Run(s, events).tree)
    decreases |events|
  {
    hide MovesOk, Apply;
    if events == [] {
    } else {
      MovesKept(s, events[0]);
      OnceKept(s, events[0]);
      RunKeepsOnce(Apply(s, events[0]), events[1..]);
    }
  }

  lemma OnceKept(s: System, e: Event)
    requires MovesOk(s) && DirsOnce(s.tree)
    ensures DirsOnce(Apply(s, e).tree)
  {
    if e.Make? {
      MakeKeepsOnce(s.tree, e.dir, e.name, e.made, e.node);
    } else if e.HardLink? {
      HardLinkKeepsOnce(s.tree, e.from, e.dir, e.name);
    } else if e.Open? && s.tree.Walk(e.stateDir).Some? {
      MakeKeepsOnce(s.tree, s.tree.Walk(e.stateDir).value, LOCK_FILE, e.made, File);
    } else if e.Act? && e.pid in s.processes && e.thread in s.processes[e.pid].moving {
      var m := s.processes[e.pid].moving[e.thread];
      RenameKeepsOnce(s.tree, m.from, m.to);
    }
    hide DirsOnce, Tree.Make, Tree.HardLink, Tree.Rename, OneName, PartListed;
  }
}
