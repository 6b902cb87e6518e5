/** Which files become locks, and that a held one may not be renamed by any of its names. */
module LockLooks {
  import opened Wrappers
  import opened FileTree
  import opened InstanceLock

  /** The file of an entry of the list is refused whatever name it is found by, a hard link elsewhere
      included. */
  lemma HeldFileIsPart(t: Tree, listed: seq<Listed>, l: Listed, path: Path)
    requires l in listed && l.file.Some? && t.Lstat(path) == l.file && !t.IsDir(l.file.value)
    ensures PartListed(t, listed, path) == Some(FilePart)
  {
    var i :| 0 <= i < |listed| && listed[i] == l;
    assert listed[i].file == Some(l.file.value);
    hide Tree.Lstat, SameName;
  }

  /** Over every disciplined run: the process that holds a lock lets no rename of the lock's file through,
      by whatever name it is asked. */
  lemma NoNameOfALock(s: System, events: seq<Event>, stateDir: Path, pid: nat, l: Listed, thread: nat, from: Path, to: Path)
    requires Initial(s) && Disciplined(s, events, stateDir)
    requires HoldsLock(Run(s, events), stateDir, pid, l) && Run(s, events).tree.Lstat(from) == l.file
    ensures Apply(Run(s, events), Look(pid, thread, from, to)) == Run(s, events)
  {
    HeldLockKeepsItsName(s, events, stateDir, pid, l);
    var t := Run(s, events);
    HeldFileIsPart(t.tree, t.processes[pid].listed, l, from);
    hide Run, Disciplined, PartListed, Tree.Lstat;
  }

  /** The process has this file checked, or locked, or in its list. */
  predicate Has(s: System, pid: nat, file: nat)
  {
    pid in s.processes &&
    var p := s.processes[pid];
    || ((p.acquiring.Checked? || p.acquiring.Flocked?) && p.acquiring.file == file)
    || exists l | l in p.listed :: l.file == Some(file)
  }

  /** At some point of the run the process found just one name leading to the file. */
  ghost predicate SawOneName(s: System, events: seq<Event>, pid: nat, file: nat)
    decreases |events|
  {
    events != [] &&
    (|| (&& events[0] == Check(pid) && pid in s.processes && s.processes[pid].acquiring.Opened?
         && s.processes[pid].acquiring.file == file && OneName(s.tree, file))
     || SawOneName(Apply(s, events[0]), events[1..], pid, file))
  }

  lemma HasByCheck(s: System, e: Event, pid: nat, file: nat)
    requires Has(Apply(s, e), pid, file) && !Has(s, pid, file)
    ensures e == Check(pid) && pid in s.processes && s.processes[pid].acquiring.Opened?
    ensures s.processes[pid].acquiring.file == file && OneName(s.tree, file)
  {
    hide OneName, PartListed, Without;
  }

  /** A lock is never taken on a file that has a second name when it is looked at: over every run, whoever
      holds a lock on a file has found it by one name only. */
  lemma {:induction false} LocksHadOneName(s: System, events: seq<Event>, pid: nat, file: nat)
    requires Has(Run(s, events), pid, file) && !Has(s, pid, file)
    ensures SawOneName(s, events, pid, file)
    decreases |events|
  {
    if events == [] {
    } else if Has(Apply(s, events[0]), pid, file) {
      HasByCheck(s, events[0], pid, file);
    } else {
      hide Apply, Has;
      LocksHadOneName(Apply(s, events[0]), events[1..], pid, file);
    }
  }

  /** And one that has only one is not refused for it. */
  lemma CheckPassesIff(s: System, pid: nat)
    requires pid in s.processes && s.processes[pid].acquiring.Opened?
    ensures var q := Apply(s, Check(pid)).processes[pid].acquiring;
            && (q.Checked? <==> OneName(s.tree, s.processes[pid].acquiring.file)) && (q.Checked? || q.Idle?)
            && (q.Checked? ==> q.file == s.processes[pid].acquiring.file && q.dir == s.processes[pid].acquiring.dir)
  {
    hide OneName;
  }

  /** A file that just got a second name is refused. */
  lemma SecondNameIsSeen(t: Tree, from: Path, dir: nat, name: string)
    requires t.Ok() && t.HardLink(from, dir, name) != t && t.Walk(from).Some?
    ensures t.Lstat(from).Some? && !OneName(t.HardLink(from, dir, name), t.Lstat(from).value)
  {
    var u, i := t.HardLink(from, dir, name), t.Lstat(from).value;
    WalkLstat(t, from);
    var d := t.DirOf(from).value;
    assert u.Child(d, Base(from)) == Some(i) && u.Child(dir, name) == Some(i);
    assert t.Child(d, Base(from)).Some? && t.Child(dir, name).None?;
    hide Tree.Lstat;
  }

  /** A lock that is free is taken, and entered in the list under the name it was opened by; one that is held,
      or on a filesystem that has none, is given up. */
  lemma FlockIff(s: System, pid: nat, supported: bool)
    requires pid in s.processes && s.processes[pid].acquiring.Checked?
    ensures var p, u := s.processes[pid], Apply(s, Flock(pid, supported));
            var a := p.acquiring;
            if supported && a.file !in s.locks then
              && u.processes[pid] == p.(acquiring := Flocked(a.dir, a.file)) && u.tree == s.tree
              && u.locks == s.locks[a.file := Holder(pid, p.next)]
              && var v := Apply(u, EnterLock(pid));
                 v.processes[pid] == Process(p.listed + [Listed(p.next, LockPath(a.dir), Some(a.file))], p.next + 1, Idle, p.moving)
                 && v.locks == u.locks && v.tree == u.tree
            else u == s.(processes := s.processes[pid := p.(acquiring := Idle)])
  {
  }

  /** What others do to the tree beside the processes. */
  lemma OthersMake(s: System, from: Path, dir: nat, name: string, made: nat, node: Node)
    ensures var u := Apply(s, Event.Make(dir, name, made, node));
            && u == s.(tree := u.tree)
            && (s.tree.IsDir(dir) && s.tree.Child(dir, name).None? && made !in s.tree.nodes && node.File? ==>
                  u.tree.Child(dir, name) == Some(made) && u.tree.IsFile(made))
    ensures var u := Apply(s, Event.HardLink(from, dir, name));
            && u == s.(tree := u.tree)
            && var i := s.tree.Lstat(from);
               (s.tree.IsDir(dir) && s.tree.Child(dir, name).None? && i.Some? && s.tree.IsFile(i.value) ==> u.tree.Child(dir, name) == i)
  {
    LinkAdds(s.tree, from, dir, name);
    hide Tree.Lstat;
  }

  /** The end of a process gives all its locks free and no other, and leaves its lock files where they are. */
  lemma DeathFrees(s: System, pid: nat)
    ensures var u := Apply(s, Die(pid));
            && u.tree == s.tree && u.processes == s.processes - {pid}
            && (forall file :: file in s.locks && s.locks[file].pid == pid ==> file !in u.locks)
            && (forall file :: file in s.locks && s.locks[file].pid != pid ==> file in u.locks && u.locks[file] == s.locks[file])
            && (forall file :: file in u.locks ==> file in s.locks)
  {
  }

  /** Dropping an entry takes it from the list, and gives the lock free if it is one; where there is no such
      entry nothing is dropped, nor while the process acquires a lock or has a rename in hand. */
  lemma DropIff(s: System, pid: nat, entry: nat)
    requires pid in s.processes
    ensures var p, u, v := s.processes[pid], Apply(s, DropLock(pid, entry)), Apply(s, DropName(pid, entry));
            var idle := p.acquiring == Idle && p.moving == map[];
            && (if idle && exists l :: l in p.listed && l.entry == entry && l.file.Some? then
                  && u.tree == s.tree && (forall l :: l in u.processes[pid].listed <==> l in p.listed && l.entry != entry)
                  && (forall file :: file in s.locks && s.locks[file] == Holder(pid, entry) ==> file !in u.locks)
                  && (forall file :: file in s.locks && s.locks[file] != Holder(pid, entry) ==>
                        file in u.locks && u.locks[file] == s.locks[file])
                else u == s)
            && (if idle && exists l :: l in p.listed && l.entry == entry && l.file.None? then
                  && v.tree == s.tree && v.locks == s.locks
                  && (forall l :: l in v.processes[pid].listed <==> l in p.listed && l.entry != entry)
                else v == s)
  {
    hide PartListed;
  }

  /** A rename is taken in hand exactly if the questions find nothing, by a thread that has none, while the
      process acquires no lock; and made, if it is in hand, as it was looked at. */
  lemma LookIff(s: System, pid: nat, thread: nat, from: Path, to: Path)
    requires pid in s.processes
    ensures var p := s.processes[pid];
            Apply(s, Look(pid, thread, from, to)) ==
              if p.acquiring == Idle && thread !in p.moving && PartListed(s.tree, p.listed, from) == Some(NotPart) then
                s.(processes := s.processes[pid := p.(moving := p.moving[thread := Move(from, to, s.tree, s.renames)])])
              else s
    ensures var p, u := s.processes[pid], Apply(s, Act(pid, thread));
            if p.acquiring == Idle && thread in p.moving then
              && u.tree == s.tree.Rename(p.moving[thread].from, p.moving[thread].to) && u.renames == s.renames + 1
              && u.processes == s.processes[pid := p.(moving := p.moving - {thread})] && u.locks == s.locks
            else u == s
  {
    hide PartListed, Tree.Rename;
  }
}
