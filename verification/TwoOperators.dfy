/** Runs of the single-instance lock after which two operators work on one state directory: with a list
    that lacks the name, and with renames that overlap. */
module TwoOperators {
  import opened Wrappers
  import opened FileTree
  import opened InstanceLock

  const STATE: Path := ["s"]

  function Operator(file: nat): Process { Process([Listed(0, LockPath(STATE), Some(file))], 1, Idle, map[]) }

  /** A process that keeps the lock's name on its list. */
  function Lister(moving: map<nat, Move>): Process { Process([Listed(0, LockPath(STATE), None)], 1, Idle, moving) }

  lemma {:induction false} RunAdd(s: System, a: seq<Event>, b: seq<Event>)
    ensures Run(s, a + b) == Run(Run(s, a), b)
    decreases |a|
  {
    hide Apply;
    if a == [] {
      assert a + b == b;
    } else {
      assert (a + b)[1..] == a[1..] + b;
      RunAdd(Apply(s, a[0]), a[1..], b);
    }
  }

  function TakeLock(pid: nat, made: nat): seq<Event>
  {
    [Spawn(pid), Open(pid, STATE, made), Check(pid), Flock(pid, true), EnterLock(pid)]
  }

  lemma PutTwice(s: System, pid: nat, p: Process, q: Process)
    ensures Put(Put(s, pid, p), pid, q) == Put(s, pid, q)
  {
    assert s.processes[pid := p][pid := q] == s.processes[pid := q];
  }

  lemma TakeOpens(s: System, pid: nat, made: nat, t: Tree)
    requires s.tree.Walk(STATE) == Some(1) && s.tree.IsDir(1) && LOCK_FILE !in s.tree.nodes[1].entries && made !in s.tree.nodes
    requires t == s.tree.Make(1, LOCK_FILE, made, File)
    ensures Apply(Put(s, pid, NEW), Open(pid, STATE, made)) == Put(s, pid, NEW.(acquiring := Opened(STATE, made))).(tree := t)
  {
    PutTwice(s, pid, NEW, NEW.(acquiring := Opened(STATE, made)));
    assert t.Child(1, LOCK_FILE) == Some(made);
  }

  lemma TakeChecks(s: System, pid: nat, made: nat)
    requires OneName(s.tree, made)
    ensures var p := NEW.(acquiring := Opened(STATE, made));
            Apply(Put(s, pid, p), Check(pid)) == Put(s, pid, p.(acquiring := Checked(STATE, made)))
  {
    var p := NEW.(acquiring := Opened(STATE, made));
    PutTwice(s, pid, p, p.(acquiring := Checked(STATE, made)));
  }

  lemma TakeFlocks(s: System, pid: nat, made: nat)
    requires made !in s.locks
    ensures var p := NEW.(acquiring := Checked(STATE, made));
            Apply(Put(s, pid, p), Flock(pid, true))
            == Put(s, pid, p.(acquiring := Flocked(STATE, made))).(locks := s.locks[made := Holder(pid, 0)])
  {
    var p := NEW.(acquiring := Checked(STATE, made));
    PutTwice(s, pid, p, p.(acquiring := Flocked(STATE, made)));
  }

  lemma TakeEnters(s: System, pid: nat, made: nat)
    ensures Apply(Put(s, pid, NEW.(acquiring := Flocked(STATE, made))), EnterLock(pid)) == Put(s, pid, Operator(made))
  {
    PutTwice(s, pid, NEW.(acquiring := Flocked(STATE, made)), Operator(made));
    assert [] + [Listed(0, LockPath(STATE), Some(made))] == [Listed(0, LockPath(STATE), Some(made))];
  }

  lemma Takes(s: System, pid: nat, made: nat, t: Tree)
    requires pid !in s.processes && made !in s.locks
    requires s.tree.Walk(STATE) == Some(1) && s.tree.IsDir(1) && LOCK_FILE !in s.tree.nodes[1].entries && made !in s.tree.nodes
    requires t == s.tree.Make(1, LOCK_FILE, made, File) && OneName(t, made)
    ensures Run(s, TakeLock(pid, made))
            == System(t, s.locks[made := Holder(pid, 0)], s.processes[pid := Operator(made)], s.renames)
  {
    var spawned := Put(s, pid, NEW);
    assert Apply(s, Spawn(pid)) == spawned;
    hide Apply, OneName;
    var u := s.(tree := t);
    var v := u.(locks := s.locks[made := Holder(pid, 0)]);
    TakeOpens(s, pid, made, t);
    TakeChecks(u, pid, made);
    TakeFlocks(u, pid, made);
    TakeEnters(v, pid, made);
    RunFive(s, spawned, Put(u, pid, NEW.(acquiring := Opened(STATE, made))), Put(u, pid, NEW.(acquiring := Checked(STATE, made))),
            Put(v, pid, NEW.(acquiring := Flocked(STATE, made))), TakeLock(pid, made));
  }

  lemma RunHead(s: System, es: seq<Event>)
    requires es != []
    ensures Run(s, es) == Run(Apply(s, es[0]), es[1..])
  {
  }

  lemma RunFive(s: System, a: System, b: System, c: System, d: System, es: seq<Event>)
    requires |es| == 5 && Apply(s, es[0]) == a && Apply(a, es[1]) == b && Apply(b, es[2]) == c && Apply(c, es[3]) == d
    ensures Run(s, es) == Apply(d, es[4])
  {
    hide Apply;
    var two, three, four, five := es[1..], es[2..], es[3..], es[4..];
    assert two[1..] == three && three[1..] == four && four[1..] == five && five[1..] == [];
    RunHead(s, es);
    RunHead(a, two);
    RunHead(b, three);
    RunHead(c, four);
    RunHead(d, five);
  }

  lemma RunTwo(s: System, a: System, es: seq<Event>)
    requires |es| == 2 && Apply(s, es[0]) == a
    ensures Run(s, es) == Apply(a, es[1])
  {
    hide Apply;
    assert es[1..][1..] == [];
    RunHead(s, es);
    RunHead(a, es[1..]);
  }

  /** Two processes with locks of their own on one state directory. */
  ghost predicate TwoOperators(s: System, p: nat, l: Listed, q: nat, m: Listed)
  {
    p != q && HoldsLock(s, STATE, p, l) && HoldsLock(s, STATE, q, m)
  }

  /** A rename by thread 0 of a process with nothing in hand: the look lets it through, and it is made. */
  lemma LooksAndActs(s: System, pid: nat, p: Process, from: Path, to: Path)
    requires p.acquiring == Idle && p.moving == map[] && pid in s.processes && s.processes[pid] == p
    requires PartListed(s.tree, p.listed, from) == Some(NotPart)
    ensures Apply(s, Look(pid, 0, from, to)) == Put(s, pid, p.(moving := map[0 := Move(from, to, s.tree, s.renames)]))
    ensures Run(s, [Look(pid, 0, from, to), Act(pid, 0)]) == s.(tree := s.tree.Rename(from, to), renames := s.renames + 1)
  {
    var looked := Put(s, pid, p.(moving := map[0 := Move(from, to, s.tree, s.renames)]));
    var u := s.(tree := s.tree.Rename(from, to), renames := s.renames + 1);
    assert Apply(s, Look(pid, 0, from, to)) == looked;
    assert looked.processes[pid].moving - {0} == map[];
    assert s.processes[pid := p] == s.processes;
    PutTwice(s, pid, p.(moving := map[0 := Move(from, to, s.tree, s.renames)]), p);
    assert Apply(looked, Act(pid, 0)) == u;
    hide Apply;
    RunTwo(s, looked, [Look(pid, 0, from, to), Act(pid, 0)]);
  }

  // === Without the name on the list ===

  /** A state directory and nothing else. */
  const BARE := System(Tree(map[ROOT := Dir(map["s" := 1]), 1 := Dir(map[])]), map[], map[], 0)

  const LOCKED := Tree(map[ROOT := Dir(map["s" := 1]), 1 := Dir(map[LOCK_FILE := 2]), 2 := File])

  const MOVED := Tree(map[ROOT := Dir(map["s" := 1, "x" := 2]), 1 := Dir(map[]), 2 := File])

  const RELOCKED := Tree(map[ROOT := Dir(map["s" := 1, "x" := 2]), 1 := Dir(map[LOCK_FILE := 3]), 2 := File, 3 := File])

  function MoveAway(): seq<Event> { [Spawn(1)] + [Look(1, 0, LockPath(STATE), ["x"]), Act(1, 0)] }

  /** The list is what does it: a process that renames without the name on its list can move the
      lock file away under its holder, and the next one to look for it takes a lock of its own. */
  lemma WithoutTheNameTwoOperators()
    ensures Initial(BARE) && !Disciplined(BARE, TakeLock(0, 2) + (MoveAway() + TakeLock(2, 3)), STATE)
    ensures TwoOperators(Run(BARE, TakeLock(0, 2) + (MoveAway() + TakeLock(2, 3))),
                         0, Listed(0, LockPath(STATE), Some(2)), 2, Listed(0, LockPath(STATE), Some(3)))
  {
    var first := System(LOCKED, map[2 := Holder(0, 0)], map[0 := Operator(2)], 0);
    var second := System(MOVED, map[2 := Holder(0, 0)], map[0 := Operator(2), 1 := NEW], 1);
    TakesFirst(first);
    MovesAway(first, second);
    TakesSecond(second);
    BothHold();
    hide Run, Apply, Disciplined, TakeLock, MoveAway, HoldsLock;
    RunAdd(BARE, TakeLock(0, 2), MoveAway() + TakeLock(2, 3));
    RunAdd(first, MoveAway(), TakeLock(2, 3));
    var events := TakeLock(0, 2) + (MoveAway() + TakeLock(2, 3));
    if Disciplined(BARE, events, STATE) {
      OneOperator(BARE, events, STATE, 0, Listed(0, LockPath(STATE), Some(2)), 2, Listed(0, LockPath(STATE), Some(3)));
    }
  }

  const BOTH := System(RELOCKED, map[2 := Holder(0, 0), 3 := Holder(2, 0)],
                       map[0 := Operator(2), 1 := NEW, 2 := Operator(3)], 1)

  lemma BothHold()
    ensures HoldsLock(BOTH, STATE, 0, Listed(0, LockPath(STATE), Some(2)))
    ensures HoldsLock(BOTH, STATE, 2, Listed(0, LockPath(STATE), Some(3)))
  {
    assert Operator(2).listed[0] == Listed(0, LockPath(STATE), Some(2));
    assert Operator(3).listed[0] == Listed(0, LockPath(STATE), Some(3));
  }

  lemma TakesFirst(first: System)
    requires first == System(LOCKED, map[2 := Holder(0, 0)], map[0 := Operator(2)], 0)
    ensures Run(BARE, TakeLock(0, 2)) == first && Initial(BARE)
  {
    assert BARE.tree.Walk([]) == Some(ROOT);
    assert BARE.tree.Make(1, LOCK_FILE, 2, File) == LOCKED;
    Takes(BARE, 0, 2, LOCKED);
  }

  lemma TakesSecond(second: System)
    requires second == System(MOVED, map[2 := Holder(0, 0)], map[0 := Operator(2), 1 := NEW], 1)
    ensures Run(second, TakeLock(2, 3)) == BOTH
  {
    assert MOVED.Walk([]) == Some(ROOT);
    assert MOVED.Make(1, LOCK_FILE, 3, File) == RELOCKED;
    Takes(second, 2, 3, RELOCKED);
  }

  lemma LockFileMoves()
    ensures LOCKED.Rename(LockPath(STATE), ["x"]) == MOVED && LOCKED.Lstat(LockPath(STATE)) == Some(2)
  {
    assert Parent(LockPath(STATE)) == STATE && Base(LockPath(STATE)) == LOCK_FILE;
    assert LOCKED.Resolve(ROOT, [], MAX_LINKS) == Some(ROOT);
    assert LOCKED.DirOf(LockPath(STATE)) == Some(1) && LOCKED.DirOf(["x"]) == Some(ROOT);
    assert LOCKED.Rename(LockPath(STATE), ["x"]) == MOVED;
  }

  lemma MovesAway(first: System, second: System)
    requires first == System(LOCKED, map[2 := Holder(0, 0)], map[0 := Operator(2)], 0)
    requires second == System(MOVED, map[2 := Holder(0, 0)], map[0 := Operator(2), 1 := NEW], 1)
    ensures Run(first, MoveAway()) == second
  {
    var spawned := Put(first, 1, NEW);
    LockFileMoves();
    LooksAndActs(spawned, 1, NEW, LockPath(STATE), ["x"]);
    assert Apply(first, Spawn(1)) == spawned;
    hide Apply, Tree.Rename;
    RunAdd(first, [Spawn(1)], [Look(1, 0, LockPath(STATE), ["x"]), Act(1, 0)]);
    assert [Spawn(1)][1..] == [];
    RunHead(first, [Spawn(1)]);
  }

  // === With the name on every list, but renames that overlap ===

  /** Every process lists the name whenever it renames. */
  ghost predicate Listing(s: System, events: seq<Event>, stateDir: Path)
    decreases |events|
  {
    events != [] ==>
      && (events[0].Act? && events[0].pid in s.processes ==> Keeps(s.processes[events[0].pid].listed, LockPath(stateDir)))
      && Listing(Apply(s, events[0]), events[1..], stateDir)
  }

  const ALIAS := Link(true, STATE)

  /** A state directory, a directory `x` with a file of the lock's name, and a link `l` to the former. */
  const TREE0 := Tree(map[ROOT := Dir(map["s" := 1, "x" := 2, "l" := 4]), 1 := Dir(map[]),
                          2 := Dir(map[LOCK_FILE := 3]), 3 := File, 4 := ALIAS])

  const TREE1 := Tree(map[ROOT := Dir(map["s" := 1, "x" := 2, "l" := 4]), 1 := Dir(map[LOCK_FILE := 5]),
                          2 := Dir(map[LOCK_FILE := 3]), 3 := File, 4 := ALIAS, 5 := File])

  const TREE2 := Tree(map[ROOT := Dir(map["s" := 1, "y" := 2, "l" := 4]), 1 := Dir(map[LOCK_FILE := 5]),
                          2 := Dir(map[LOCK_FILE := 3]), 3 := File, 4 := ALIAS, 5 := File])

  const TREE3 := Tree(map[ROOT := Dir(map["s" := 1, "y" := 2, "x" := 4]), 1 := Dir(map[LOCK_FILE := 5]),
                          2 := Dir(map[LOCK_FILE := 3]), 3 := File, 4 := ALIAS, 5 := File])

  const TREE4 := Tree(map[ROOT := Dir(map["s" := 1, "y" := 2, "x" := 4, "w" := 5]), 1 := Dir(map[]),
                          2 := Dir(map[LOCK_FILE := 3]), 3 := File, 4 := ALIAS, 5 := File])

  const TREE5 := Tree(map[ROOT := Dir(map["s" := 1, "y" := 2, "x" := 4, "w" := 5]), 1 := Dir(map[LOCK_FILE := 6]),
                          2 := Dir(map[LOCK_FILE := 3]), 3 := File, 4 := ALIAS, 5 := File, 6 := File])

  const NAMESAKE: Path := ["x", LOCK_FILE]

  lemma AtRoot(t: Tree, name: string)
    ensures t.DirOf([name]) == Some(ROOT)
  {
    assert Parent([name]) == [];
  }

  lemma AtState(t: Tree)
    requires t.Child(ROOT, "s") == Some(1) && t.IsDir(1)
    ensures t.Resolve(ROOT, STATE, MAX_LINKS) == Some(1) && t.DirOf(LockPath(STATE)) == Some(1)
  {
    assert t.Resolve(ROOT, [], MAX_LINKS) == Some(ROOT);
    assert Parent(LockPath(STATE)) == STATE;
  }

  lemma Resolves(t: Tree)
    requires t == TREE1 || t == TREE2 || t == TREE3
    ensures t.DirOf(["x"]) == t.DirOf(["y"]) == t.DirOf(["l"]) == t.DirOf(["w"]) == Some(ROOT)
    ensures t.Resolve(ROOT, STATE, MAX_LINKS) == Some(1) && t.DirOf(LockPath(STATE)) == Some(1)
  {
    assert t.Child(ROOT, "s") == Some(1) && t.IsDir(1);
    hide *;
    AtState(t);
    AtRoot(t, "x");
    AtRoot(t, "y");
    AtRoot(t, "l");
    AtRoot(t, "w");
  }

  lemma RenameInRoot(t: Tree, from: string, to: string, after: map<string, nat>)
    requires t.IsDir(ROOT) && t.DirOf([from]) == t.DirOf([to]) == Some(ROOT)
    requires from in t.nodes[ROOT].entries && to !in t.nodes[ROOT].entries
    requires after == (t.nodes[ROOT].entries - {from})[to := t.nodes[ROOT].entries[from]]
    ensures t.Rename([from], [to]) == Tree(t.nodes[ROOT := Dir(after)])
  {
  }

  lemma LinkIsNoPart(t: Tree, name: string, i: nat)
    requires t.DirOf([name]) == Some(ROOT) && t.Child(ROOT, name) == Some(i) && !t.IsDir(i) && name != LOCK_FILE
    ensures t.Lstat([name]) == Some(i) && PartListed(t, NameOnly(LockPath(STATE)), [name]) == Some(NotPart)
  {
    assert Base([name]) == name && Base(LockPath(STATE)) == LOCK_FILE;
    AsksIsPart(t, LockPath(STATE), [name]);
  }

  lemma FirstLook()
    ensures TREE1.Lstat(NAMESAKE) == Some(3) && PartListed(TREE1, NameOnly(LockPath(STATE)), NAMESAKE) == Some(NotPart)
  {
    Resolves(TREE1);
    assert Parent(NAMESAKE) == ["x"] && Base(NAMESAKE) == LOCK_FILE;
    assert TREE1.Resolve(ROOT, ["x"], MAX_LINKS) == Some(2);
    assert TREE1.DirOf(NAMESAKE) == Some(2);
  }

  lemma SecondLook()
    ensures TREE1.Lstat(["x"]) == Some(2) && PartListed(TREE1, NameOnly(LockPath(STATE)), ["x"]) == Some(NotPart)
    ensures TREE1.Rename(["x"], ["y"]) == TREE2
  {
    SecondLookPasses();
    SecondRename();
    hide *;
  }

  lemma SecondLookPasses()
    ensures TREE1.Lstat(["x"]) == Some(2) && PartListed(TREE1, NameOnly(LockPath(STATE)), ["x"]) == Some(NotPart)
  {
    Resolves(TREE1);
    hide PartListed, Tree.Resolve, Tree.DirOf;
    OtherDirIsNoPart(TREE1, "x", 2);
  }

  lemma SecondRename()
    ensures TREE1.Rename(["x"], ["y"]) == TREE2
  {
    var before, after := map["s" := 1, "x" := 2, "l" := 4], map["s" := 1, "y" := 2, "l" := 4];
    Resolves(TREE1);
    SecondRoot(before, after);
    assert TREE1.nodes[ROOT] == Dir(before) && TREE1.IsDir(ROOT);
    assert TREE1.nodes[ROOT := Dir(after)] == TREE2.nodes;
    hide *;
    RenameInRoot(TREE1, "x", "y", after);
  }

  lemma SecondRoot(before: map<string, nat>, after: map<string, nat>)
    requires before == map["s" := 1, "x" := 2, "l" := 4] && after == map["s" := 1, "y" := 2, "l" := 4]
    ensures "x" in before && "y" !in before && after == (before - {"x"})["y" := before["x"]]
  {
  }

  lemma OtherDirIsNoPart(t: Tree, name: string, i: nat)
    requires t.DirOf([name]) == t.DirOf(STATE) == Some(ROOT) && t.Child(ROOT, "s") == Some(1)
    requires t.Child(ROOT, name) == Some(i) && t.IsDir(i) && i != ROOT && i != 1
    ensures t.Lstat([name]) == Some(i) && PartListed(t, NameOnly(LockPath(STATE)), [name]) == Some(NotPart)
  {
    assert Base([name]) == name && Base(STATE) == "s";
    assert LockPath(STATE)[..0] == [] && LockPath(STATE)[..1] == STATE;
    assert forall k :: 0 <= k < 2 ==> t.Lstat(LockPath(STATE)[..k]) != Some(i);
    AsksIsPart(t, LockPath(STATE), [name]);
  }

  lemma ThirdLook()
    ensures TREE2.Lstat(["l"]) == Some(4) && PartListed(TREE2, NameOnly(LockPath(STATE)), ["l"]) == Some(NotPart)
    ensures TREE2.Rename(["l"], ["x"]) == TREE3
  {
    ThirdLookPasses();
    ThirdRename();
    hide *;
  }

  lemma ThirdLookPasses()
    ensures TREE2.Lstat(["l"]) == Some(4) && PartListed(TREE2, NameOnly(LockPath(STATE)), ["l"]) == Some(NotPart)
  {
    Resolves(TREE2);
    hide PartListed, Tree.Resolve, Tree.DirOf;
    LinkIsNoPart(TREE2, "l", 4);
  }

  lemma ThirdRename()
    ensures TREE2.Rename(["l"], ["x"]) == TREE3
  {
    var before, after := map["s" := 1, "y" := 2, "l" := 4], map["s" := 1, "y" := 2, "x" := 4];
    Resolves(TREE2);
    ThirdRoot(before, after);
    assert TREE2.nodes[ROOT] == Dir(before) && TREE2.IsDir(ROOT);
    assert TREE2.nodes[ROOT := Dir(after)] == TREE3.nodes;
    hide *;
    RenameInRoot(TREE2, "l", "x", after);
  }

  lemma ThirdRoot(before: map<string, nat>, after: map<string, nat>)
    requires before == map["s" := 1, "y" := 2, "l" := 4] && after == map["s" := 1, "y" := 2, "x" := 4]
    ensures "l" in before && "x" !in before && after == (before - {"l"})["x" := before["l"]]
  {
  }

  /** The way of `NAMESAKE` now ends in the state directory. */
  lemma NamesakeInState()
    ensures TREE3.DirOf(NAMESAKE) == Some(1)
  {
    assert Parent(NAMESAKE) == ["x"];
    assert TREE3.Resolve(ROOT, STATE, MAX_LINKS - 1) == Some(1);
    assert TREE3.Resolve(ROOT, ["x"], MAX_LINKS) == Some(1);
  }

  lemma LateAct()
    ensures TREE3.Rename(NAMESAKE, ["w"]) == TREE4
  {
    NamesakeInState();
    AtRoot(TREE3, "w");
    hide Tree.DirOf;
    assert Base(NAMESAKE) == LOCK_FILE && Base(["w"]) == "w";
  }

  const ASIDE := Move(NAMESAKE, ["w"], TREE1, 0)

  const SYSTEM0 := System(TREE0, map[], map[], 0)
  const SYSTEM1 := System(TREE1, map[5 := Holder(0, 0)], map[0 := Operator(5)], 0)
  const SYSTEM2 := System(TREE1, map[5 := Holder(0, 0)], map[0 := Operator(5), 1 := Lister(map[0 := ASIDE])], 0)
  const SYSTEM3 := System(TREE3, map[5 := Holder(0, 0)],
                          map[0 := Operator(5), 1 := Lister(map[0 := ASIDE]), 2 := Lister(map[])], 2)
  const SYSTEM4 := System(TREE4, map[5 := Holder(0, 0)],
                          map[0 := Operator(5), 1 := Lister(map[]), 2 := Lister(map[])], 3)
  const SYSTEM5 := System(TREE5, map[5 := Holder(0, 0), 6 := Holder(3, 0)],
                          map[0 := Operator(5), 1 := Lister(map[]), 2 := Lister(map[]), 3 := Operator(6)], 3)

  /** The first process takes the lock. The second looks at a file of the lock's name elsewhere. The third
      moves that file's directory away and puts a link to the state directory in its place. Only then the
      second renames. A fourth process takes a lock of its own. */
  function Overlapping(): seq<seq<Event>>
  {
    [TakeLock(0, 5), [Spawn(1), ListName(1, STATE)] + [Look(1, 0, NAMESAKE, ["w"])],
     [Spawn(2), ListName(2, STATE)] + ([Look(2, 0, ["x"], ["y"]), Act(2, 0)] + [Look(2, 0, ["l"], ["x"]), Act(2, 0)]),
     [Act(1, 0)], TakeLock(3, 6)]
  }

  lemma ListsName(s: System, pid: nat)
    requires pid !in s.processes
    ensures Run(s, [Spawn(pid), ListName(pid, STATE)]) == Put(s, pid, Lister(map[]))
  {
    var spawned := Put(s, pid, NEW);
    assert Apply(s, Spawn(pid)) == spawned;
    PutTwice(s, pid, NEW, Lister(map[]));
    assert [] + [Listed(0, LockPath(STATE), None)] == [Listed(0, LockPath(STATE), None)];
    assert Apply(spawned, ListName(pid, STATE)) == Put(s, pid, Lister(map[]));
    hide Apply;
    RunTwo(s, spawned, [Spawn(pid), ListName(pid, STATE)]);
  }

  lemma RunOne(s: System, e: Event)
    ensures Run(s, [e]) == Apply(s, e)
  {
    hide Apply;
    assert [e][1..] == [];
    RunHead(s, [e]);
  }

  lemma Step1()
    ensures Run(SYSTEM0, Overlapping()[0]) == SYSTEM1
  {
    assert TREE0.Walk([]) == Some(ROOT);
    assert TREE0.Make(1, LOCK_FILE, 5, File) == TREE1;
    Takes(SYSTEM0, 0, 5, TREE1);
  }

  lemma Step2()
    ensures Run(SYSTEM1, Overlapping()[1]) == SYSTEM2
  {
    var listed := Put(SYSTEM1, 1, Lister(map[]));
    ListsName(SYSTEM1, 1);
    FirstLook();
    hide Apply, Run, PartListed, Tree.Rename;
    LooksAndActs(listed, 1, Lister(map[]), NAMESAKE, ["w"]);
    PutTwice(SYSTEM1, 1, Lister(map[]), Lister(map[0 := ASIDE]));
    RunAdd(SYSTEM1, [Spawn(1), ListName(1, STATE)], [Look(1, 0, NAMESAKE, ["w"])]);
    RunOne(listed, Look(1, 0, NAMESAKE, ["w"]));
  }

  lemma Step3()
    ensures Run(SYSTEM2, Overlapping()[2]) == SYSTEM3
  {
    var listed := Put(SYSTEM2, 2, Lister(map[]));
    ListsName(SYSTEM2, 2);
    SecondLook();
    var moved := listed.(tree := TREE2, renames := 1);
    LooksAndActs(listed, 2, Lister(map[]), ["x"], ["y"]);
    ThirdLook();
    LooksAndActs(moved, 2, Lister(map[]), ["l"], ["x"]);
    assert moved.(tree := TREE3, renames := 2) == SYSTEM3;
    hide Apply, Run, PartListed, Tree.Rename;
    var first, second := [Look(2, 0, ["x"], ["y"]), Act(2, 0)], [Look(2, 0, ["l"], ["x"]), Act(2, 0)];
    RunAdd(SYSTEM2, [Spawn(2), ListName(2, STATE)], first + second);
    RunAdd(listed, first, second);
  }

  lemma Step4()
    ensures Run(SYSTEM3, Overlapping()[3]) == SYSTEM4
  {
    LateAct();
    ActApplies(SYSTEM3, 1, 0);
    assert map[0 := ASIDE] - {0} == map[];
    hide Tree.Rename, Apply;
    RunOne(SYSTEM3, Act(1, 0));
  }

  lemma MakesSecondLock()
    ensures TREE4.Make(1, LOCK_FILE, 6, File) == TREE5
  {
  }

  lemma Step5()
    ensures Run(SYSTEM4, Overlapping()[4]) == SYSTEM5
  {
    assert TREE4.Walk([]) == Some(ROOT);
    MakesSecondLock();
    assert OneName(TREE5, 6);
    hide Tree.Make, OneName;
    Takes(SYSTEM4, 3, 6, TREE5);
  }

  lemma {:induction false} ListingAdd(s: System, a: seq<Event>, b: seq<Event>)
    requires Listing(s, a, STATE) && Listing(Run(s, a), b, STATE)
    ensures Listing(s, a + b, STATE)
    decreases |a|
  {
    hide Apply;
    if a == [] {
      assert a + b == b;
    } else {
      assert (a + b)[1..] == a[1..] + b;
      ListingAdd(Apply(s, a[0]), a[1..], b);
    }
  }

  lemma {:induction false} NoActsList(s: System, events: seq<Event>)
    requires forall e :: e in events ==> !e.Act?
    ensures Listing(s, events, STATE)
    decreases |events|
  {
    hide Apply;
    if events == [] {
    } else {
      NoActsList(Apply(s, events[0]), events[1..]);
    }
  }

  lemma RenameLists(s: System, pid: nat, from: Path, to: Path)
    requires pid in s.processes && s.processes[pid] == Lister(map[]) && PartListed(s.tree, NameOnly(LockPath(STATE)), from) == Some(NotPart)
    ensures Listing(s, [Look(pid, 0, from, to), Act(pid, 0)], STATE)
  {
    var events := [Look(pid, 0, from, to), Act(pid, 0)];
    LooksAndActs(s, pid, Lister(map[]), from, to);
    var looked := Apply(s, events[0]);
    assert looked.processes[pid].listed[0].name == LockPath(STATE);
    hide Apply;
    assert events[1..][1..] == [];
    ActLists(looked, pid);
  }

  lemma ActLists(s: System, pid: nat)
    requires pid in s.processes && Keeps(s.processes[pid].listed, LockPath(STATE))
    ensures Listing(s, [Act(pid, 0)], STATE)
  {
    hide Apply;
    assert [Act(pid, 0)][1..] == [];
  }

  lemma AllList()
    ensures Listing(SYSTEM0, Overlapping()[0], STATE) && Listing(SYSTEM1, Overlapping()[1], STATE)
    ensures Listing(SYSTEM2, Overlapping()[2], STATE) && Listing(SYSTEM3, Overlapping()[3], STATE)
    ensures Listing(SYSTEM4, Overlapping()[4], STATE)
  {
    NoActsList(SYSTEM0, Overlapping()[0]);
    NoActsList(SYSTEM1, Overlapping()[1]);
    NoActsList(SYSTEM4, Overlapping()[4]);
    assert SYSTEM3.processes[1].listed[0].name == LockPath(STATE);
    hide Listing, Apply;
    ActLists(SYSTEM3, 1);
    ThirdLists();
  }

  lemma ThirdLists()
    ensures Listing(SYSTEM2, Overlapping()[2], STATE)
  {
    var begin, first, second := [Spawn(2), ListName(2, STATE)], [Look(2, 0, ["x"], ["y"]), Act(2, 0)], [Look(2, 0, ["l"], ["x"]), Act(2, 0)];
    var listed := Put(SYSTEM2, 2, Lister(map[]));
    var moved := listed.(tree := TREE2, renames := 1);
    NoActsList(SYSTEM2, begin);
    hide Listing, Apply, Run, Tree.Rename, PartListed;
    ListsName(SYSTEM2, 2);
    SecondLook();
    ThirdLook();
    LooksAndActs(listed, 2, Lister(map[]), ["x"], ["y"]);
    RenameLists(listed, 2, ["x"], ["y"]);
    RenameLists(moved, 2, ["l"], ["x"]);
    ListingAdd(listed, first, second);
    ListingAdd(SYSTEM2, begin, first + second);
  }

  /** Keeping the name on every list is not enough: each process holds its own list only, so a rename of
      another may come between a look and its rename — and after this run of processes that all list
      the name there are two operators on one state directory. */
  lemma OverlappingRenamesTwoOperators(events: seq<Event>)
    requires var o := Overlapping(); events == o[0] + (o[1] + (o[2] + (o[3] + o[4])))
    ensures Initial(SYSTEM0) && DirsOnce(TREE0) && Listing(SYSTEM0, events, STATE) && !Disciplined(SYSTEM0, events, STATE)
    ensures TwoOperators(Run(SYSTEM0, events), 0, Listed(0, LockPath(STATE), Some(5)), 3, Listed(0, LockPath(STATE), Some(6)))
  {
    var o := Overlapping();
    AllList();
    Step1();
    Step2();
    Step3();
    Step4();
    Step5();
    assert |o| == 5;
    BothOperate();
    hide Overlapping, Run, Listing, Apply, HoldsLock, Disciplined;
    RunAdd(SYSTEM0, o[0], o[1] + (o[2] + (o[3] + o[4])));
    RunAdd(SYSTEM1, o[1], o[2] + (o[3] + o[4]));
    RunAdd(SYSTEM2, o[2], o[3] + o[4]);
    RunAdd(SYSTEM3, o[3], o[4]);
    ListingAdd(SYSTEM3, o[3], o[4]);
    ListingAdd(SYSTEM2, o[2], o[3] + o[4]);
    ListingAdd(SYSTEM1, o[1], o[2] + (o[3] + o[4]));
    ListingAdd(SYSTEM0, o[0], o[1] + (o[2] + (o[3] + o[4])));
    if Disciplined(SYSTEM0, events, STATE) {
      OneOperator(SYSTEM0, events, STATE, 0, Listed(0, LockPath(STATE), Some(5)), 3, Listed(0, LockPath(STATE), Some(6)));
    }
  }

  lemma BothOperate()
    ensures Initial(SYSTEM0) && DirsOnce(TREE0)
    ensures HoldsLock(SYSTEM5, STATE, 0, Listed(0, LockPath(STATE), Some(5)))
    ensures HoldsLock(SYSTEM5, STATE, 3, Listed(0, LockPath(STATE), Some(6)))
  {
    assert Operator(5).listed[0] == Listed(0, LockPath(STATE), Some(5));
    assert Operator(6).listed[0] == Listed(0, LockPath(STATE), Some(6));
  }
}
