/** The walk to the state directory of src/paths.rs: from the root down, following no link, trusting no
    component an outsider owns or can write to, and taking for its own only a directory that is. */
module StateDirectory {
  import opened Wrappers
  import Text

  datatype Result<+T> = Ok(value: T) | Err(error: Error)

  datatype Error =
    | NotAbsolute | BadComponent | RootItself | HasNul
    | System | Outsider | WritableByOthers | NotOurs | TopLevelAndEmpty | NothingToReport

  /** Inodes with their owner and mode; what files and links hold is not modelled. */
  datatype Node = Dir(uid: nat, mode: bv12, entries: map<string, nat>) | File | Link

  datatype Fs = Fs(nodes: map<nat, Node>, next: nat)

  const ROOT: nat := 0

  const GROUP_OR_OTHERS_WRITE: bv12 := 0x12
  const STICKY: bv12 := 0x200
  const SETGID: bv12 := 0x400
  const PERMISSIONS: bv12 := 0x1FF
  const OWNER_ONLY: bv12 := 0x1C0

  datatype Walk = Establish | Report | OpenDb

  /** Whether each call made for one component of the path works, where it might not. */
  datatype Luck = Luck(mkdir: bool, open: bool, stat: bool, list: bool, chmod: bool)

  /** Who walks and with which file mode mask, and how the calls for the root and each component go. */
  datatype Walker = Walker(euid: nat, umask: bv12, luck: nat -> Luck)

  // === What a directory holds ===

  const LIVE: set<string> := {"dedcom.db", "dedcom.db-wal", "dedcom.db-shm", "dedcom.db-journal", "dedcom.lock"}
  const LOGS: set<string> := {"dedcom.log", "benchmarks.log"}

  datatype Held = Nothing | Ours | Foreign

  /** What counts, whatever order the names come in. */
  function HeldIn(names: set<string>): Held
  {
    if names * LIVE != {} then Ours else if names <= LOGS then Nothing else Foreign
  }

  /** `held_by`: the names one after another, `.` and `..` among them, up to the first live one. */
  method HeldBy(listing: seq<string>) returns (held: Held)
    ensures held == HeldIn((set n | n in listing) - {".", ".."})
  {
    held := Nothing;
    ghost var seen: set<string> := {};
    for i := 0 to |listing|
      invariant seen == (set n | n in listing[..i]) - {".", ".."}
      invariant held == HeldIn(seen) && held != Ours
    {
      var name := listing[i];
      assert listing[..i + 1] == listing[..i] + [name];
      if name == "." || name == ".." {
        continue;
      }
      seen := seen + {name};
      if name in LIVE {
        assert name in seen * LIVE && seen <= set n | n in listing;
        SomeLive((set n | n in listing) - {".", ".."}, name);
        return Ours;
      }
      assert seen * LIVE == {};
      if held == Nothing && name !in LOGS {
        held := Foreign;
      }
    }
    assert listing[..|listing|] == listing;
  }

  lemma SomeLive(names: set<string>, name: string)
    requires name in names && name in LIVE
    ensures HeldIn(names) == Ours
  {
    assert name in names * LIVE;
  }

  // === The walk ===

  /** What the check needs to know of the last component. */
  datatype Leaf = NotLeaf | Leaf(walk: Walk, existed: bool, topLevel: bool)

  predicate Writable(mode: bv12) { mode & GROUP_OR_OTHERS_WRITE != 0 }

  /** A component may be passed, or ended in: nobody but its owner can write to it — on the way, the
      sticky bit will do — and the owner is whoever walks, or root. */
  predicate Trusted(node: Node, euid: nat, last: bool)
  {
    node.Dir? && (node.uid == euid || node.uid == 0) && (Writable(node.mode) ==> !last && node.mode & STICKY != 0)
  }

  function Tightened(fs: Fs, i: nat): Fs
    requires i in fs.nodes && fs.nodes[i].Dir?
  {
    if fs.nodes[i].mode & PERMISSIONS == OWNER_ONLY then fs
    else fs.(nodes := fs.nodes[i := fs.nodes[i].(mode := OWNER_ONLY)])
  }

  /** Why the directory may not be the state directory, if it may not. */
  function LeafRefusal(entries: set<string>, leaf: Leaf): Result<()>
    requires leaf.Leaf?
  {
    var held := HeldIn(entries);
    if leaf.walk.Establish? && leaf.existed && held.Nothing? && leaf.topLevel then Err(TopLevelAndEmpty)
    else if leaf.walk.Establish? && leaf.existed && held.Foreign? then Err(NotOurs)
    else if leaf.walk.Report? && !held.Ours? then Err(NothingToReport)
    else Ok(())
  }

  /** `open_verified_dir`, of the inode the name holds. */
  function Entered(fs: Fs, i: nat, w: Walker, luck: Luck, leaf: Leaf): (Fs, Result<nat>)
  {
    if i !in fs.nodes || !fs.nodes[i].Dir? || !luck.open || !luck.stat then (fs, Err(System))
    else
      var node := fs.nodes[i];
      if node.uid != w.euid && node.uid != 0 then (fs, Err(Outsider))
      else if !Trusted(node, w.euid, leaf.Leaf?) then (fs, Err(WritableByOthers))
      else if leaf.NotLeaf? then (fs, Ok(i))
      else
        var asks := (leaf.walk.Establish? && leaf.existed) || leaf.walk.Report?;
        if asks && !luck.list then (fs, Err(System))
        else
          var refusal := LeafRefusal(node.entries.Keys, leaf);
          if refusal.Err? then (fs, Err(refusal.error))
          else if !leaf.walk.Establish? || node.mode & PERMISSIONS == OWNER_ONLY then (fs, Ok(i))
          else if !luck.chmod then (fs, Err(System))
          else (Tightened(fs, i), Ok(i))
  }

  function NewMode(w: Walker, parent: bv12): bv12 { (OWNER_ONLY & !w.umask) | (parent & SETGID) }

  /** `mkdirat` of a name that is free. */
  function Made(fs: Fs, d: nat, name: string, w: Walker): Fs
    requires d in fs.nodes && fs.nodes[d].Dir?
  {
    var parent := fs.nodes[d];
    Fs(fs.nodes[fs.next := Dir(w.euid, NewMode(w, parent.mode), map[])]
               [d := parent.(entries := parent.entries[name := fs.next])], fs.next + 1)
  }

  predicate IsDir(fs: Fs, i: nat) { i in fs.nodes && fs.nodes[i].Dir? }

  /** One component of the path, the `i`-th, below a directory that has been entered. */
  function Descended(fs: Fs, d: nat, names: seq<string>, i: nat, w: Walker, walk: Walk): (Fs, Result<nat>)
    requires IsDir(fs, d) && i < |names|
  {
    var name, luck := names[i], w.luck(i + 1);
    if 0 as char in name then (fs, Err(HasNul))
    else if walk.Establish? && !luck.mkdir then (fs, Err(System))
    else
      var existed := name in fs.nodes[d].entries;
      var t := if walk.Establish? && !existed then Made(fs, d, name, w) else fs;
      var leaf := if i == |names| - 1 then Leaf(walk, existed || !walk.Establish?, |names| == 1) else NotLeaf;
      if name !in t.nodes[d].entries then (t, Err(System)) else Entered(t, t.nodes[d].entries[name], w, luck, leaf)
  }

  /** `establish_chain`, from the `i`-th component on. */
  function Chain(fs: Fs, d: nat, names: seq<string>, i: nat, w: Walker, walk: Walk): (Fs, Result<nat>)
    requires IsDir(fs, d) && i <= |names|
    decreases |names| - i
  {
    if i == |names| then (fs, Ok(d))
    else
      var (t, r) := Descended(fs, d, names, i, w, walk);
      if r.Err? then (t, r) else Chain(t, r.value, names, i + 1, w, walk)
  }

  /** The components of a path as the standard library splits it: empty ones and `.` fall out. */
  function Components(parts: seq<string>): seq<string>
  {
    if parts == [] then []
    else if parts[0] == "" || parts[0] == "." then Components(parts[1..])
    else [parts[0]] + Components(parts[1..])
  }

  function Names(path: string): seq<string> { Components(Text.Split(path, '/')) }

  /** A path spelt out of its parts, a slash before each. */
  function Spelt(parts: seq<string>): string { if parts == [] then "" else "/" + parts[0] + Spelt(parts[1..]) }

  predicate Proper(name: string) { name != "" && name != "." && '/' !in name }

  /** The parts are the names in their order, with empty parts and dots anywhere between. */
  predicate Padded(parts: seq<string>, names: seq<string>)
  {
    if parts == [] then names == []
    else if parts[0] == "" || parts[0] == "." then Padded(parts[1..], names)
    else names != [] && parts[0] == names[0] && Padded(parts[1..], names[1..])
  }

  lemma {:induction false} SplitSpelt(parts: seq<string>)
    requires forall p :: p in parts ==> '/' !in p
    ensures Text.Split(Spelt(parts), '/') == [""] + parts
    decreases |parts|
  {
    if parts == [] {
    } else {
      var rest := Spelt(parts[1..]);
      SplitSpelt(parts[1..]);
      assert Spelt(parts) == "" + ['/'] + (parts[0] + rest);
      Text.SplitHead("", '/', parts[0] + rest, 0);
      if parts[1..] == [] {
        assert parts[0] + rest == parts[0];
        Text.SplitWhole(parts[0], '/', 0);
      } else {
        var more := parts[1] + Spelt(parts[1..][1..]);
        assert parts[0] + rest == parts[0] + ['/'] + more;
        assert rest == "" + ['/'] + more;
        Text.SplitHead(parts[0], '/', more, 0);
        Text.SplitHead("", '/', more, 0);
        assert Text.Split(rest, '/') == [""] + Text.Split(more, '/');
        assert Text.Split(more, '/') == ([""] + Text.Split(more, '/'))[1..] == ([""] + parts[1..])[1..] == parts[1..];
      }
      assert [""] + parts == [""] + ([parts[0]] + parts[1..]);
    }
  }

  lemma {:induction false} PaddedComponents(parts: seq<string>, names: seq<string>)
    requires Padded(parts, names)
    ensures Components(parts) == names
    decreases |parts|
  {
    if parts == [] {
    } else if parts[0] == "" || parts[0] == "." {
      PaddedComponents(parts[1..], names);
    } else {
      PaddedComponents(parts[1..], names[1..]);
      assert names == [names[0]] + names[1..];
    }
  }

  /** However a path is spelt, its names are those it was spelt with, each once and in their order: repeated
      slashes and dots add none, and two dots are a name like any other. */
  lemma NamesOfSpelt(parts: seq<string>, names: seq<string>)
    requires (forall p :: p in parts ==> '/' !in p) && Padded(parts, names)
    ensures Names(Spelt(parts)) == names
  {
    SplitSpelt(parts);
    assert ([""] + parts)[1..] == parts;
    PaddedComponents(parts, names);
  }

  lemma {:induction false} ProperIsPadded(names: seq<string>)
    requires forall n :: n in names ==> Proper(n)
    ensures Padded(names, names)
    decreases |names|
  {
    if names == [] {
    } else {
      assert Proper(names[0]);
      ProperIsPadded(names[1..]);
    }
  }

  /** And any list of proper names is the names of its own spelling. */
  lemma NamesOfJoined(names: seq<string>)
    requires forall n :: n in names ==> Proper(n)
    ensures Names(Spelt(names)) == names
  {
    ProperIsPadded(names);
    NamesOfSpelt(names, names);
  }

  /** `walk_state_dir`. */
  function Walked(fs: Fs, path: string, w: Walker, walk: Walk): (Fs, Result<nat>)
  {
    if path == "" || path[0] != '/' then (fs, Err(NotAbsolute))
    else
      var names := Names(path);
      if ".." in names then (fs, Err(BadComponent))
      else if names == [] then (fs, Err(RootItself))
      else
        var (t, r) := Entered(fs, ROOT, w, w.luck(0), NotLeaf);
        if r.Err? then (t, r) else Chain(t, r.value, names, 0, w, walk)
  }

  // === The same walk as it runs, changing the filesystem as it goes ===

  class Volume {
    var nodes: map<nat, Node>
    var next: nat

    ghost function Now(): Fs
      reads this
    {
      Fs(nodes, next)
    }

    constructor (fs: Fs)
      ensures Now() == fs
    {
      nodes, next := fs.nodes, fs.next;
    }

    /** `readdir`, in whatever order the names come. */
    method List(d: nat) returns (listing: seq<string>)
      requires IsDir(Now(), d)
      ensures (set n | n in listing) == nodes[d].entries.Keys
    {
      listing := [];
      var rest := nodes[d].entries.Keys;
      while rest != {}
        invariant rest <= nodes[d].entries.Keys
        invariant (set n | n in listing) == nodes[d].entries.Keys - rest
      {
        var n :| n in rest;
        ghost var before := listing;
        listing := listing + [n];
        rest := rest - {n};
        assert (set m | m in listing) == (set m | m in before) + {n};
      }
    }

    method Holds(d: nat) returns (held: Held)
      requires IsDir(Now(), d) && "." !in nodes[d].entries && ".." !in nodes[d].entries
      ensures held == HeldIn(nodes[d].entries.Keys)
    {
      var listing := List(d);
      held := HeldBy(listing);
      assert (set n | n in listing) - {".", ".."} == nodes[d].entries.Keys;
    }

    method OpenVerifiedDir(i: nat, w: Walker, luck: Luck, leaf: Leaf) returns (r: Result<nat>)
      requires i in nodes && nodes[i].Dir? ==> "." !in nodes[i].entries && ".." !in nodes[i].entries
      modifies this`nodes
      ensures (Now(), r) == Entered(old(Now()), i, w, luck, leaf)
    {
      hide HeldIn, Writable;
      if i !in nodes || !nodes[i].Dir? || !luck.open || !luck.stat {
        return Err(System);
      }
      var node := nodes[i];
      if node.uid != w.euid && node.uid != 0 {
        return Err(Outsider);
      }
      var unsafe := if leaf.Leaf? then Writable(node.mode) else Writable(node.mode) && node.mode & STICKY == 0;
      if unsafe {
        return Err(WritableByOthers);
      }
      if leaf.NotLeaf? {
        return Ok(i);
      }
      if (leaf.walk.Establish? && leaf.existed) || leaf.walk.Report? {
        if !luck.list {
          return Err(System);
        }
        var held := Holds(i);
        if leaf.walk.Report? {
          if held != Ours {
            return Err(NothingToReport);
          }
        } else if held == Nothing && leaf.topLevel {
          return Err(TopLevelAndEmpty);
        } else if held == Foreign {
          return Err(NotOurs);
        }
      }
      if leaf.walk.Establish? && node.mode & PERMISSIONS != OWNER_ONLY {
        if !luck.chmod {
          return Err(System);
        }
        nodes := nodes[i := node.(mode := OWNER_ONLY)];
      }
      r := Ok(i);
    }

    method EstablishChain(base: nat, names: seq<string>, w: Walker, walk: Walk) returns (r: Result<nat>)
      requires IsDir(Now(), base) && FsOk(Now()) && (forall n :: n in names ==> n != "." && n != "..")
      modifies this
      ensures (Now(), r) == Chain(old(Now()), base, names, 0, w, walk)
    {
      hide Entered, NewMode, Chain;
      var parent := base;
      for i := 0 to |names|
        invariant IsDir(Now(), parent) && FsOk(Now())
        invariant Chain(Now(), parent, names, i, w, walk) == Chain(old(Now()), base, names, 0, w, walk)
      {
        var name, luck := names[i], w.luck(i + 1);
        ghost var was := Now();
        assert name in names;
        ChainDescends(was, parent, names, i, w, walk);
        DescendedOk(was, parent, names, i, w, walk);
        if 0 as char in name {
          return Err(HasNul);
        }
        var existed := true;
        if walk.Establish? {
          if !luck.mkdir {
            return Err(System);
          }
          existed := name in nodes[parent].entries;
          if !existed {
            var made := next;
            nodes := nodes[made := Dir(w.euid, NewMode(w, nodes[parent].mode), map[])]
                          [parent := nodes[parent].(entries := nodes[parent].entries[name := made])];
            next := next + 1;
          }
        }
        var leaf := if i == |names| - 1 then Leaf(walk, existed, |names| == 1) else NotLeaf;
        if name !in nodes[parent].entries {
          return Err(System);
        }
        var found := OpenVerifiedDir(nodes[parent].entries[name], w, luck, leaf);
        assert (Now(), found) == Descended(was, parent, names, i, w, walk);
        if found.Err? {
          return found;
        }
        parent := found.value;
      }
      ChainStops(Now(), parent, names, w, walk);
      r := Ok(parent);
    }

    method WalkStateDir(path: string, w: Walker, walk: Walk) returns (r: Result<nat>)
      requires FsOk(Now())
      modifies this
      ensures (Now(), r) == Walked(old(Now()), path, w, walk)
    {
      if path == "" || path[0] != '/' {
        return Err(NotAbsolute);
      }
      var names := Names(path);
      if ".." in names {
        return Err(BadComponent);
      }
      if names == [] {
        return Err(RootItself);
      }
      var root := OpenVerifiedDir(ROOT, w, w.luck(0), NotLeaf);
      if root.Err? {
        return root;
      }
      NoDots(Text.Split(path, '/'));
      r := EstablishChain(root.value, names, w, walk);
    }
  }

  /** Inodes are numbered below `next`, entries lead to inodes, `.` and `..` are not kept, and a directory
      has one name at most and the root none. */
  ghost predicate FsOk(fs: Fs)
  {
    && IsDir(fs, ROOT)
    && (forall i :: i in fs.nodes ==> i < fs.next)
    && (forall i :: IsDir(fs, i) ==> "." !in fs.nodes[i].entries && ".." !in fs.nodes[i].entries)
    && (forall i, n :: IsDir(fs, i) && n in fs.nodes[i].entries ==> fs.nodes[i].entries[n] in fs.nodes)
    && OneName(fs)
  }

  predicate Named(fs: Fs, d: nat, n: string, i: nat)
  {
    IsDir(fs, d) && n in fs.nodes[d].entries && fs.nodes[d].entries[n] == i
  }

  ghost predicate OneName(fs: Fs)
  {
    && (forall d, n :: !Named(fs, d, n, ROOT))
    && (forall i, d, n, e, m :: IsDir(fs, i) && Named(fs, d, n, i) && Named(fs, e, m, i) ==> d == e && n == m)
  }

  lemma ChainDescends(fs: Fs, d: nat, names: seq<string>, i: nat, w: Walker, walk: Walk)
    requires IsDir(fs, d) && i < |names|
    ensures var (t, r) := Descended(fs, d, names, i, w, walk);
            && (r.Err? ==> Chain(fs, d, names, i, w, walk) == (t, r))
            && (r.Ok? ==> IsDir(t, r.value) && Chain(fs, d, names, i, w, walk) == Chain(t, r.value, names, i + 1, w, walk))
  {
  }

  lemma ChainStops(fs: Fs, d: nat, names: seq<string>, w: Walker, walk: Walk)
    requires IsDir(fs, d)
    ensures Chain(fs, d, names, |names|, w, walk) == (fs, Ok(d))
  {
  }

  lemma MadeOk(fs: Fs, d: nat, name: string, w: Walker)
    requires FsOk(fs) && IsDir(fs, d) && name !in fs.nodes[d].entries && name != "." && name != ".."
    ensures FsOk(Made(fs, d, name, w))
  {
    MadeOneName(fs, d, name, w);
    hide NewMode, OneName;
  }

  lemma MadeOneName(fs: Fs, d: nat, name: string, w: Walker)
    requires FsOk(fs) && IsDir(fs, d) && name !in fs.nodes[d].entries
    ensures OneName(Made(fs, d, name, w))
  {
    var t := Made(fs, d, name, w);
    hide NewMode;
    forall e, n, i | Named(t, e, n, i)
      ensures if e == d && n == name then i == fs.next else Named(fs, e, n, i) && i != fs.next
    {
    }
    hide FsOk, Made, Named;
  }

  lemma EnteredOk(fs: Fs, i: nat, w: Walker, luck: Luck, leaf: Leaf)
    requires FsOk(fs)
    ensures FsOk(Entered(fs, i, w, luck, leaf).0)
  {
    var t := Entered(fs, i, w, luck, leaf).0;
    if t != fs {
      assert t == Tightened(fs, i);
      forall e, n, j | Named(t, e, n, j) ensures Named(fs, e, n, j) {
      }
    }
    hide Entered;
  }

  lemma DescendedOk(fs: Fs, d: nat, names: seq<string>, i: nat, w: Walker, walk: Walk)
    requires IsDir(fs, d) && FsOk(fs) && i < |names| && names[i] != "." && names[i] != ".."
    ensures FsOk(Descended(fs, d, names, i, w, walk).0)
  {
    var name := names[i];
    if name !in fs.nodes[d].entries { MadeOk(fs, d, name, w); }
    var existed := name in fs.nodes[d].entries;
    var t := if walk.Establish? && !existed then Made(fs, d, name, w) else fs;
    if name in t.nodes[d].entries {
      EnteredOk(t, t.nodes[d].entries[name], w, w.luck(i + 1),
                if i == |names| - 1 then Leaf(walk, existed || !walk.Establish?, |names| == 1) else NotLeaf);
    }
    hide FsOk, Made, Entered;
  }

  // === What a walk may change ===

  /** The reporting walk, and the one of a database about to be opened, change nothing at all. */
  lemma LookingChangesNothing(fs: Fs, path: string, w: Walker, walk: Walk)
    requires !walk.Establish?
    ensures Walked(fs, path, w, walk).0 == fs
  {
    var (t, r) := Entered(fs, ROOT, w, w.luck(0), NotLeaf);
    if r.Ok? {
      ChainLooks(t, r.value, Names(path), 0, w, walk);
    }
  }

  lemma {:induction false} ChainLooks(fs: Fs, d: nat, names: seq<string>, i: nat, w: Walker, walk: Walk)
    requires !walk.Establish? && IsDir(fs, d) && i <= |names|
    ensures Chain(fs, d, names, i, w, walk).0 == fs
    decreases |names| - i
  {
    if i == |names| {
    } else {
      ChainDescends(fs, d, names, i, w, walk);
      var (t, r) := Descended(fs, d, names, i, w, walk);
      assert t == fs;
      hide Descended;
      if r.Ok? {
        ChainLooks(t, r.value, names, i + 1, w, walk);
      }
    }
  }

  /** Where the names lead, no link being followed. */
  function Lead(fs: Fs, names: seq<string>): Option<nat>
    decreases |names|
  {
    if names == [] then Some(ROOT)
    else
      var d := Lead(fs, names[..|names| - 1]);
      if d.None? || !IsDir(fs, d.value) || names[|names| - 1] !in fs.nodes[d.value].entries then None
      else Some(fs.nodes[d.value].entries[names[|names| - 1]])
  }

  /** The names led there, below a directory. */
  lemma LeadStep(fs: Fs, names: seq<string>, i: nat)
    requires i < |names|
    ensures Lead(fs, names[..i + 1])
            == (var d := Lead(fs, names[..i]);
                if d.None? || !IsDir(fs, d.value) || names[i] !in fs.nodes[d.value].entries then None
                else Some(fs.nodes[d.value].entries[names[i]]))
  {
    var p := names[..i + 1];
    assert p[..|p| - 1] == names[..i];
  }

  /** Two ways that lead to one directory are one way. */
  lemma {:induction false} LeadInjective(fs: Fs, a: seq<string>, b: seq<string>)
    requires FsOk(fs) && Lead(fs, a).Some? && Lead(fs, a) == Lead(fs, b) && IsDir(fs, Lead(fs, a).value)
    ensures a == b
    decreases |a|
  {
    var i := Lead(fs, a).value;
    if a == [] {
    } else {
      assert Named(fs, Lead(fs, a[..|a| - 1]).value, a[|a| - 1], i);
    }
    if b != [] {
      assert Named(fs, Lead(fs, b[..|b| - 1]).value, b[|b| - 1], i);
    }
    if a != [] && b != [] {
      LeadInjective(fs, a[..|a| - 1], b[..|b| - 1]);
      assert a == a[..|a| - 1] + [a[|a| - 1]] && b == b[..|b| - 1] + [b[|b| - 1]];
    }
  }

  /** What was there is there still, as it was, but for names of new directories; and what is new is a
      directory of the walker's, nobody else's to write to. */
  ghost predicate OnlyMade(s: Fs, t: Fs, euid: nat)
  {
    && (forall i :: i in s.nodes ==> i in t.nodes && OnlyGrew(s, s.nodes[i], t.nodes[i]))
    && (forall i :: i in t.nodes && i !in s.nodes ==> t.nodes[i].Dir? && t.nodes[i].uid == euid && !Writable(t.nodes[i].mode))
    && s.next <= t.next
  }

  predicate OnlyGrew(s: Fs, was: Node, node: Node)
  {
    node == was
    || (was.Dir? && node.Dir? && node.uid == was.uid && node.mode == was.mode
        && forall n :: n in was.entries ==> n in node.entries && node.entries[n] == was.entries[n])
  }

  /** Everything made or grown lies on the path. */
  ghost predicate OnThePath(s: Fs, t: Fs, names: seq<string>)
  {
    && (forall i :: i in t.nodes && i !in s.nodes ==> exists k: nat :: 0 < k <= |names| && Lead(t, names[..k]) == Some(i))
    && (forall i :: i in s.nodes && i in t.nodes && t.nodes[i] != s.nodes[i] ==>
          exists k: nat :: k < |names| && Lead(t, names[..k]) == Some(i))
  }

  /** How far a walk that establishes has come. */
  ghost predicate Progress(s: Fs, t: Fs, names: seq<string>, i: nat, d: nat, euid: nat)
    requires i <= |names|
  {
    && FsOk(s) && FsOk(t) && OnlyMade(s, t, euid) && OnThePath(s, t, names[..i])
    && Lead(t, names[..i]) == Some(d) && IsDir(t, d)
    && (forall k: nat :: k <= i && k < |names| ==> PassedBy(t, names[..k], euid))
  }

  predicate PassedBy(t: Fs, names: seq<string>, euid: nat)
  {
    Lead(t, names).Some? && Lead(t, names).value in t.nodes && Trusted(t.nodes[Lead(t, names).value], euid, false)
  }

  ghost predicate EntriesKept(s: Fs, t: Fs)
  {
    forall i, n :: IsDir(s, i) && n in s.nodes[i].entries ==> Named(t, i, n, s.nodes[i].entries[n])
  }

  /** Ways lead where they led when names are only added. */
  lemma {:induction false} LeadKept(s: Fs, t: Fs, names: seq<string>)
    requires EntriesKept(s, t) && Lead(s, names).Some?
    ensures Lead(t, names) == Lead(s, names)
    decreases |names|
  {
    if names == [] {
    } else {
      LeadKept(s, t, names[..|names| - 1]);
    }
  }

  /** The name of the `i`-th component is there, made by the walk if it was missing. */
  ghost predicate Reached(s: Fs, t: Fs, names: seq<string>, i: nat, d: nat, c: nat, euid: nat)
    requires i < |names|
  {
    && FsOk(s) && FsOk(t) && OnlyMade(s, t, euid) && OnThePath(s, t, names[..i + 1])
    && Lead(t, names[..i]) == Some(d) && Named(t, d, names[i], c)
    && (forall k: nat :: k <= i ==> PassedBy(t, names[..k], euid))
  }

  lemma OnALongerPath(s: Fs, t: Fs, names: seq<string>, i: nat, j: nat)
    requires i <= j <= |names| && OnThePath(s, t, names[..i])
    ensures OnThePath(s, t, names[..j])
  {
    assert forall k: nat :: k <= i ==> names[..i][..k] == names[..k] == names[..j][..k];
    forall x | x in t.nodes && x !in s.nodes ensures exists k: nat :: 0 < k <= |names[..j]| && Lead(t, names[..j][..k]) == Some(x) {
      var k: nat :| 0 < k <= i && Lead(t, names[..i][..k]) == Some(x);
      assert Lead(t, names[..j][..k]) == Some(x);
    }
    forall x | x in s.nodes && x in t.nodes && t.nodes[x] != s.nodes[x]
      ensures exists k: nat :: k < |names[..j]| && Lead(t, names[..j][..k]) == Some(x)
    {
      var k: nat :| k < i && Lead(t, names[..i][..k]) == Some(x);
      assert Lead(t, names[..j][..k]) == Some(x);
    }
  }

  lemma MadeKeepsEntries(t: Fs, d: nat, name: string, w: Walker)
    requires FsOk(t) && IsDir(t, d) && name !in t.nodes[d].entries
    ensures EntriesKept(t, Made(t, d, name, w))
  {
  }

  /** What is made lies at the end of the path, and what grew just above it. */
  lemma StillOnThePath(s: Fs, t: Fs, u: Fs, p: seq<string>, made: nat, d: nat)
    requires p != [] && OnThePath(s, t, p) && EntriesKept(t, u)
    requires Lead(u, p) == Some(made) && Lead(u, p[..|p| - 1]) == Some(d) && made !in s.nodes
    requires forall x :: x in u.nodes ==> x == made || x in t.nodes
    requires forall x :: x in t.nodes && x in u.nodes && x != d && x != made ==> u.nodes[x] == t.nodes[x]
    ensures OnThePath(s, u, p)
  {
    hide Lead, EntriesKept;
    assert p[..|p|] == p;
    forall x | x in u.nodes && x !in s.nodes ensures exists k: nat :: 0 < k <= |p| && Lead(u, p[..k]) == Some(x) {
      if x != made {
        var k: nat :| 0 < k <= |p| && Lead(t, p[..k]) == Some(x);
        LeadKept(t, u, p[..k]);
      }
    }
    forall x | x in s.nodes && x in u.nodes && u.nodes[x] != s.nodes[x]
      ensures exists k: nat :: k < |p| && Lead(u, p[..k]) == Some(x)
    {
      if x == d {
        assert Lead(u, p[..|p| - 1]) == Some(x);
      } else {
        var k: nat :| k < |p| && Lead(t, p[..k]) == Some(x);
        LeadKept(t, u, p[..k]);
      }
    }
  }

  /** What `mkdirat` adds is the walker's, and lies on the path. */
  lemma MadeOnThePath(s: Fs, t: Fs, names: seq<string>, i: nat, d: nat, w: Walker)
    requires i < |names| && Progress(s, t, names, i, d, w.euid) && names[i] !in t.nodes[d].entries
    ensures OnThePath(s, Made(t, d, names[i], w), names[..i + 1])
  {
    hide OnThePath, Lead, OnlyMade, PassedBy, NewMode, EntriesKept;
    var u, p := Made(t, d, names[i], w), names[..i + 1];
    OnALongerPath(s, t, names, i, i + 1);
    MadeKeepsEntries(t, d, names[i], w);
    MadeEmpty(t, d, names[i], w);
    NewIsNew(s, t, w.euid);
    LeadKept(t, u, names[..i]);
    LeadStep(u, names, i);
    assert p[..|p| - 1] == names[..i];
    StillOnThePath(s, t, u, p, t.next, d);
  }

  lemma MadeOnly(s: Fs, t: Fs, d: nat, name: string, w: Walker)
    requires FsOk(t) && OnlyMade(s, t, w.euid) && IsDir(t, d) && name !in t.nodes[d].entries && FsOk(s)
    ensures OnlyMade(s, Made(t, d, name, w), w.euid)
  {
    NewIsTrusted(t, w);
    hide NewMode, Writable;
    var u := Made(t, d, name, w);
    forall i | i in s.nodes ensures i in u.nodes && OnlyGrew(s, s.nodes[i], u.nodes[i]) {
      assert OnlyGrew(s, s.nodes[i], t.nodes[i]);
    }
  }

  lemma PassedKept(t: Fs, u: Fs, names: seq<string>, euid: nat)
    requires PassedBy(t, names, euid) && EntriesKept(t, u)
    requires forall i :: IsDir(t, i) ==> IsDir(u, i) && u.nodes[i].uid == t.nodes[i].uid && u.nodes[i].mode == t.nodes[i].mode
    ensures PassedBy(u, names, euid)
  {
    LeadKept(t, u, names);
  }

  lemma Reach(s: Fs, t: Fs, names: seq<string>, i: nat, d: nat, w: Walker)
    requires i < |names| && Progress(s, t, names, i, d, w.euid) && names[i] != "." && names[i] != ".."
    ensures var u := if names[i] in t.nodes[d].entries then t else Made(t, d, names[i], w);
            IsDir(u, d) && names[i] in u.nodes[d].entries && Reached(s, u, names, i, d, u.nodes[d].entries[names[i]], w.euid)
  {
    hide FsOk, OnlyMade, OnThePath, PassedBy, EntriesKept, NewMode;
    if names[i] in t.nodes[d].entries {
      OnALongerPath(s, t, names, i, i + 1);
    } else {
      var u := Made(t, d, names[i], w);
      MadeOk(t, d, names[i], w);
      MadeOnly(s, t, d, names[i], w);
      MadeOnThePath(s, t, names, i, d, w);
      MadeKeepsEntries(t, d, names[i], w);
      LeadKept(t, u, names[..i]);
      MadeKeepsNodes(t, d, names[i], w);
      forall k: nat | k <= i ensures PassedBy(u, names[..k], w.euid) {
        PassedKept(t, u, names[..k], w.euid);
      }
    }
  }

  lemma MadeKeepsNodes(t: Fs, d: nat, name: string, w: Walker)
    requires FsOk(t) && IsDir(t, d)
    ensures var u := Made(t, d, name, w);
            forall i :: IsDir(t, i) ==> IsDir(u, i) && u.nodes[i].uid == t.nodes[i].uid && u.nodes[i].mode == t.nodes[i].mode
  {
    hide NewMode;
  }

  /** A directory that was there is taken for its live state, or as an empty one not directly below the
      root. */
  predicate MayBeTaken(held: Held, depth: nat) { held.Ours? || (held.Nothing? && depth > 1) }

  /** What a walk that establishes ends in: a way of trusted directories to a leaf for its owner only,
      new or rightly taken as it was; `m` is the filesystem before the leaf was tightened. */
  ghost predicate Taken(s: Fs, m: Fs, u: Fs, names: seq<string>, leaf: nat, euid: nat)
  {
    && OnlyMade(s, m, euid) && OnThePath(s, m, names) && IsDir(m, leaf) && u == Tightened(m, leaf)
    && Lead(u, names) == Some(leaf) && (forall k: nat :: k < |names| ==> PassedBy(u, names[..k], euid))
    && IsDir(u, leaf) && Trusted(u.nodes[leaf], euid, true) && u.nodes[leaf].mode & PERMISSIONS == OWNER_ONLY
    && (if leaf in s.nodes then m.nodes[leaf] == s.nodes[leaf] && MayBeTaken(HeldIn(m.nodes[leaf].entries.Keys), |names|)
        else m.nodes[leaf].entries == map[])
  }

  lemma WitnessOnThePath(s: Fs, t: Fs, names: seq<string>, c: nat) returns (k: nat)
    requires OnThePath(s, t, names) && c in t.nodes && (c !in s.nodes || t.nodes[c] != s.nodes[c])
    ensures k <= |names| && Lead(t, names[..k]) == Some(c)
  {
    if c !in s.nodes {
      k :| 0 < k <= |names| && Lead(t, names[..k]) == Some(c);
    } else {
      k :| k < |names| && Lead(t, names[..k]) == Some(c);
    }
  }

  /** A component that was there before the walk came to it was there before the walk. */
  lemma NotTouched(s: Fs, t: Fs, names: seq<string>, i: nat, d: nat, euid: nat)
    requires i < |names| && Progress(s, t, names, i, d, euid) && names[i] in t.nodes[d].entries
    requires IsDir(t, t.nodes[d].entries[names[i]])
    ensures var c := t.nodes[d].entries[names[i]]; c in s.nodes && t.nodes[c] == s.nodes[c]
  {
    hide OnThePath, OnlyMade, FsOk, PassedBy, Lead;
    var c := t.nodes[d].entries[names[i]];
    LeadStep(t, names, i);
    if c !in s.nodes || t.nodes[c] != s.nodes[c] {
      var k := WitnessOnThePath(s, t, names[..i], c);
      assert names[..i][..k] == names[..k];
      LeadInjective(t, names[..k], names[..i + 1]);
      assert false;
    }
  }

  lemma TightenedKeeps(m: Fs, leaf: nat, names: seq<string>, euid: nat)
    requires FsOk(m) && IsDir(m, leaf) && PassedBy(m, names, euid)
    ensures PassedBy(Tightened(m, leaf), names, euid)
  {
    LeadKept(m, Tightened(m, leaf), names);
  }

  /** What it takes to enter the leaf. */
  lemma LeafEntered(m: Fs, c: nat, w: Walker, luck: Luck, leaf: Leaf)
    requires leaf.Leaf? && leaf.walk.Establish?
    ensures var (u, r) := Entered(m, c, w, luck, leaf);
            && (r.Err? ==> u == m)
            && (r.Ok? ==>
                  && r.value == c && IsDir(m, c) && u == Tightened(m, c) && IsDir(u, c)
                  && Trusted(u.nodes[c], w.euid, true) && u.nodes[c].mode & PERMISSIONS == OWNER_ONLY
                  && (leaf.existed ==> LeafRefusal(m.nodes[c].entries.Keys, leaf).Ok?))
  {
    hide LeafRefusal;
  }

  lemma LeafAccepted(entries: set<string>, leaf: Leaf, depth: nat)
    requires leaf == Leaf(Establish, true, depth == 1) && depth > 0
    ensures LeafRefusal(entries, leaf).Ok? <==> MayBeTaken(HeldIn(entries), depth)
  {
  }

  lemma LeafStep(s: Fs, t: Fs, names: seq<string>, d: nat, w: Walker)
    requires names != [] && Progress(s, t, names, |names| - 1, d, w.euid) && names[|names| - 1] != "." && names[|names| - 1] != ".."
    ensures var (u, r) := Descended(t, d, names, |names| - 1, w, Establish);
            && (r.Err? ==> OnlyMade(s, u, w.euid) && OnThePath(s, u, names))
            && (r.Ok? ==> exists m :: Taken(s, m, u, names, r.value, w.euid))
  {
    hide OnlyMade, OnThePath, Taken, Lead, Entered, PassedBy, FsOk, NewMode;
    var i := |names| - 1;
    var (u, r) := Descended(t, d, names, i, w, Establish);
    assert names[..i + 1] == names;
    OnALongerPath(s, t, names, i, i + 1);
    if 0 as char !in names[i] && w.luck(i + 1).mkdir {
      var existed := names[i] in t.nodes[d].entries;
      var m := if existed then t else Made(t, d, names[i], w);
      Reach(s, t, names, i, d, w);
      var c := m.nodes[d].entries[names[i]];
      var leaf := Leaf(Establish, existed, |names| == 1);
      assert (u, r) == Entered(m, c, w, w.luck(i + 1), leaf);
      LeafEntered(m, c, w, w.luck(i + 1), leaf);
      if r.Ok? {
        if existed {
          NotTouched(s, t, names, i, d, w.euid);
          LeafAccepted(m.nodes[c].entries.Keys, leaf, |names|);
        } else {
          NewIsNew(s, t, w.euid);
          MadeEmpty(t, d, names[i], w);
        }
        LeafTaken(s, m, u, names, d, c, w.euid);
      }
    }
  }

  lemma MadeEmpty(t: Fs, d: nat, name: string, w: Walker)
    requires FsOk(t) && IsDir(t, d)
    ensures var u := Made(t, d, name, w);
            IsDir(u, d) && Named(u, d, name, t.next) && IsDir(u, t.next) && u.nodes[t.next].entries == map[]
  {
  }

  lemma NewIsNew(s: Fs, t: Fs, euid: nat)
    requires FsOk(s) && OnlyMade(s, t, euid)
    ensures t.next !in s.nodes
  {
  }

  lemma LeafTaken(s: Fs, m: Fs, u: Fs, names: seq<string>, d: nat, c: nat, euid: nat)
    requires names != [] && Reached(s, m, names, |names| - 1, d, c, euid)
    requires IsDir(m, c) && u == Tightened(m, c) && IsDir(u, c)
    requires Trusted(u.nodes[c], euid, true) && u.nodes[c].mode & PERMISSIONS == OWNER_ONLY
    requires if c in s.nodes then m.nodes[c] == s.nodes[c] && MayBeTaken(HeldIn(m.nodes[c].entries.Keys), |names|)
             else m.nodes[c].entries == map[]
    ensures Taken(s, m, u, names, c, euid)
  {
    hide OnlyMade, OnThePath, PassedBy, HeldIn, FsOk, Lead, EntriesKept;
    var i := |names| - 1;
    assert names[..i + 1] == names;
    LeadStep(m, names, i);
    TightenedKeepsEntries(m, c);
    LeadKept(m, u, names);
    forall k: nat | k < |names| ensures PassedBy(u, names[..k], euid) {
      TightenedKeeps(m, c, names[..k], euid);
    }
  }

  lemma TightenedKeepsEntries(m: Fs, c: nat)
    requires FsOk(m) && IsDir(m, c)
    ensures EntriesKept(m, Tightened(m, c))
  {
  }

  lemma MiddleStep(s: Fs, t: Fs, names: seq<string>, i: nat, d: nat, w: Walker)
    requires i < |names| - 1 && Progress(s, t, names, i, d, w.euid) && names[i] != "." && names[i] != ".."
    ensures var (u, r) := Descended(t, d, names, i, w, Establish);
            && (r.Err? ==> OnlyMade(s, u, w.euid) && OnThePath(s, u, names))
            && (r.Ok? ==> Progress(s, u, names, i + 1, r.value, w.euid))
  {
    hide OnlyMade, OnThePath, Lead, FsOk, NewMode;
    var (u, r) := Descended(t, d, names, i, w, Establish);
    assert names[..|names|] == names;
    OnALongerPath(s, t, names, i, |names|);
    if 0 as char !in names[i] && w.luck(i + 1).mkdir {
      var m := if names[i] in t.nodes[d].entries then t else Made(t, d, names[i], w);
      Reach(s, t, names, i, d, w);
      OnALongerPath(s, m, names, i + 1, |names|);
      LeadStep(m, names, i);
    }
  }

  lemma {:induction false} ChainEstablishes(s: Fs, t: Fs, d: nat, names: seq<string>, i: nat, w: Walker)
    requires i < |names| && Progress(s, t, names, i, d, w.euid) && (forall n :: n in names ==> n != "." && n != "..")
    ensures var (u, r) := Chain(t, d, names, i, w, Establish);
            && (r.Err? ==> OnlyMade(s, u, w.euid) && OnThePath(s, u, names))
            && (r.Ok? ==> exists m :: Taken(s, m, u, names, r.value, w.euid))
    decreases |names| - i
  {
    assert names[i] in names;
    ChainDescends(t, d, names, i, w, Establish);
    var (u, r) := Descended(t, d, names, i, w, Establish);
    if i == |names| - 1 {
      LeafStep(s, t, names, d, w);
      if r.Ok? {
        ChainStops(u, r.value, names, w, Establish);
      }
    } else {
      MiddleStep(s, t, names, i, d, w);
      hide OnlyMade, OnThePath, Taken, Progress, Descended, Chain;
      if r.Ok? {
        ChainEstablishes(s, u, r.value, names, i + 1, w);
      }
    }
  }

  lemma {:induction false} NoDots(parts: seq<string>)
    ensures "." !in Components(parts) && "" !in Components(parts)
  {
    if parts == [] {
    } else {
      NoDots(parts[1..]);
    }
  }

  lemma Begun(s: Fs, names: seq<string>, w: Walker)
    requires FsOk(s) && names != [] && Entered(s, ROOT, w, w.luck(0), NotLeaf).1.Ok?
    ensures Entered(s, ROOT, w, w.luck(0), NotLeaf) == (s, Ok(ROOT)) && Progress(s, s, names, 0, ROOT, w.euid)
  {
    assert names[..0] == [];
  }

  /** Establishing a state directory: whatever call fails, nothing is changed but that directories of the
      walker's own are made along the path; and where it succeeds the leaf is as `Taken` says. */
  lemma EstablishingIsSafe(s: Fs, path: string, w: Walker)
    requires FsOk(s)
    ensures var (u, r) := Walked(s, path, w, Establish);
            && (r.Err? ==> OnlyMade(s, u, w.euid) && OnThePath(s, u, Names(path)))
            && (r.Ok? ==> exists m :: Taken(s, m, u, Names(path), r.value, w.euid))
  {
    var names := Names(path);
    assert OnlyMade(s, s, w.euid) && OnThePath(s, s, names);
    if path != "" && path[0] == '/' && ".." !in names && names != [] && Entered(s, ROOT, w, w.luck(0), NotLeaf).1.Ok? {
      NoDots(Text.Split(path, '/'));
      Begun(s, names, w);
      ChainEstablishes(s, s, ROOT, names, 0, w);
    }
    hide OnlyMade, OnThePath, Taken, Chain;
  }

  // === Establishing it again, the logs being there ===

  /** The two logs as they are opened in the state directory, made if they are missing. */
  function WithLog(fs: Fs, d: nat, log: string): Fs
    requires IsDir(fs, d)
  {
    if log in fs.nodes[d].entries then fs
    else
      var dir := fs.nodes[d];
      Fs(fs.nodes[fs.next := File][d := dir.(entries := dir.entries[log := fs.next])], fs.next + 1)
  }

  ghost predicate AllWorks(w: Walker) { forall i: nat :: w.luck(i) == Luck(true, true, true, true, true) }

  lemma {:induction false} ChainOk(fs: Fs, d: nat, names: seq<string>, i: nat, w: Walker, walk: Walk)
    requires IsDir(fs, d) && FsOk(fs) && i <= |names| && (forall n :: n in names ==> n != "." && n != "..")
    ensures var (u, r) := Chain(fs, d, names, i, w, walk);
            FsOk(u) && (r.Ok? ==> forall k :: i <= k < |names| ==> 0 as char !in names[k])
    decreases |names| - i
  {
    if i < |names| {
      assert names[i] in names;
      ChainDescends(fs, d, names, i, w, walk);
      DescendedOk(fs, d, names, i, w, walk);
      var (t, r) := Descended(fs, d, names, i, w, walk);
      assert r.Ok? ==> 0 as char !in names[i];
      hide FsOk, Descended, Chain;
      if r.Ok? {
        ChainOk(t, r.value, names, i + 1, w, walk);
      }
    } else {
      ChainStops(fs, d, names, w, walk);
    }
  }

  /** A walk along trusted directories to a leaf for its owner only changes nothing: all that is left is
      whether the leaf may be taken. */
  ghost predicate Paved(u: Fs, names: seq<string>, leaf: nat, v: Walker)
  {
    && names != [] && AllWorks(v) && (forall k :: 0 <= k < |names| ==> 0 as char !in names[k])
    && (forall k: nat :: k < |names| ==> PassedBy(u, names[..k], v.euid))
    && Lead(u, names) == Some(leaf) && IsDir(u, leaf)
    && Trusted(u.nodes[leaf], v.euid, true) && u.nodes[leaf].mode & PERMISSIONS == OWNER_ONLY
  }

  function Verdict(u: Fs, names: seq<string>, leaf: nat): Result<nat>
    requires IsDir(u, leaf)
  {
    var refusal := LeafRefusal(u.nodes[leaf].entries.Keys, Leaf(Establish, true, |names| == 1));
    if refusal.Err? then Err(refusal.error) else Ok(leaf)
  }

  lemma PavedStep(u: Fs, d: nat, names: seq<string>, i: nat, leaf: nat, v: Walker)
    requires Paved(u, names, leaf, v) && i < |names| && Lead(u, names[..i]) == Some(d) && IsDir(u, d)
    ensures names[i] in u.nodes[d].entries && Lead(u, names[..i + 1]) == Some(u.nodes[d].entries[names[i]])
    ensures Descended(u, d, names, i, v, Establish)
            == (u, if i == |names| - 1 then Verdict(u, names, leaf) else Ok(u.nodes[d].entries[names[i]]))
  {
    hide LeafRefusal;
    LeadStep(u, names, i);
    if i == |names| - 1 {
      assert names[..i + 1] == names;
    } else {
      assert PassedBy(u, names[..i + 1], v.euid);
    }
  }

  lemma {:induction false} PavedChain(u: Fs, d: nat, names: seq<string>, i: nat, leaf: nat, v: Walker)
    requires Paved(u, names, leaf, v) && i < |names| && Lead(u, names[..i]) == Some(d) && IsDir(u, d)
    ensures Chain(u, d, names, i, v, Establish) == (u, Verdict(u, names, leaf))
    decreases |names| - i
  {
    PavedStep(u, d, names, i, leaf, v);
    ChainDescends(u, d, names, i, v, Establish);
    hide Paved, Descended, Chain, Verdict;
    if i == |names| - 1 {
      if Verdict(u, names, leaf).Ok? {
        ChainStops(u, Verdict(u, names, leaf).value, names, v, Establish);
      }
    } else {
      PavedChain(u, u.nodes[d].entries[names[i]], names, i + 1, leaf, v);
    }
  }

  lemma LogKeeps(t: Fs, d: nat, log: string)
    requires FsOk(t) && IsDir(t, d) && log in LOGS
    ensures var u := WithLog(t, d, log);
            && FsOk(u) && EntriesKept(t, u) && IsDir(u, d)
            && HeldIn(u.nodes[d].entries.Keys) == HeldIn(t.nodes[d].entries.Keys)
            && (forall i :: IsDir(t, i) ==> IsDir(u, i) && u.nodes[i].uid == t.nodes[i].uid && u.nodes[i].mode == t.nodes[i].mode)
  {
    var u := WithLog(t, d, log);
    LogsDoNotCount(t.nodes[d].entries.Keys, log);
    LogOneName(t, d, log);
    if u != t {
      assert u.nodes[d].entries.Keys == t.nodes[d].entries.Keys + {log};
    }
    hide HeldIn, OneName;
  }

  lemma LogOneName(t: Fs, d: nat, log: string)
    requires FsOk(t) && IsDir(t, d)
    ensures OneName(WithLog(t, d, log))
  {
    var u := WithLog(t, d, log);
    if u != t {
      assert !IsDir(u, t.next);
      forall e, n, i | Named(u, e, n, i) && !(e == d && n == log) ensures Named(t, e, n, i) && i != t.next {
      }
    }
  }

  lemma LogsDoNotCount(names: set<string>, log: string)
    requires log in LOGS
    ensures HeldIn(names + {log}) == HeldIn(names)
  {
    assert (names + {log}) * LIVE == names * LIVE;
  }

  lemma PavedKept(t: Fs, u: Fs, names: seq<string>, leaf: nat, v: Walker)
    requires Paved(t, names, leaf, v) && EntriesKept(t, u)
    requires forall i :: IsDir(t, i) ==> IsDir(u, i) && u.nodes[i].uid == t.nodes[i].uid && u.nodes[i].mode == t.nodes[i].mode
    ensures Paved(u, names, leaf, v)
  {
    LeadKept(t, u, names);
    forall k: nat | k < |names| ensures PassedBy(u, names[..k], v.euid) {
      PassedKept(t, u, names[..k], v.euid);
    }
    hide PassedBy, Lead, EntriesKept;
  }

  /** What is left of a successful walk. */
  lemma WalkPaves(s: Fs, path: string, w: Walker, v: Walker)
    requires FsOk(s) && v.euid == w.euid && AllWorks(v) && Walked(s, path, w, Establish).1.Ok?
    ensures var (t, r) := Walked(s, path, w, Establish);
            && FsOk(t) && Paved(t, Names(path), r.value, v)
            && (HeldIn(t.nodes[r.value].entries.Keys).Ours? || HeldIn(t.nodes[r.value].entries.Keys).Nothing?)
            && path != "" && path[0] == '/' && ".." !in Names(path)
            && PassedBy(t, [], w.euid)
  {
    var names := Names(path);
    var (t, r) := Walked(s, path, w, Establish);
    NoDots(Text.Split(path, '/'));
    EstablishingIsSafe(s, path, w);
    Begun(s, names, w);
    ChainOk(s, ROOT, names, 0, w, Establish);
    var m :| Taken(s, m, t, names, r.value, w.euid);
    assert t.nodes[r.value].entries == m.nodes[r.value].entries;
    assert names[..0] == [];
    hide FsOk, OnlyMade, OnThePath, Chain, Entered, Names;
  }

  /** Establishing the directory again, once the logs are in it, works exactly if it holds live state or
      is not directly below the root — so one below the root that the first walk made is refused. */
  lemma EstablishingAgain(s: Fs, path: string, w: Walker, v: Walker)
    requires FsOk(s) && v.euid == w.euid && AllWorks(v) && Walked(s, path, w, Establish).1.Ok?
    ensures var (t, r) := Walked(s, path, w, Establish);
            var leaf := r.value;
            && IsDir(t, leaf)
            && var logged := WithLog(t, leaf, "dedcom.log");
            && IsDir(logged, leaf)
            && var u := WithLog(logged, leaf, "benchmarks.log");
            Walked(u, path, v, Establish)
            == (u, if |Names(path)| > 1 || HeldIn(t.nodes[leaf].entries.Keys).Ours? then Ok(leaf) else Err(TopLevelAndEmpty))
  {
    var (t, r) := Walked(s, path, w, Establish);
    var leaf, names := r.value, Names(path);
    WalkPaves(s, path, w, v);
    hide FsOk, Paved, Chain, Entered, Names, WithLog, HeldIn;
    var u := LogsKeep(t, names, leaf, v);
    PavedWalk(u, path, leaf, v);
    hide Walked;
    assert Paved(u, names, leaf, v);
    LeafAccepted(u.nodes[leaf].entries.Keys, Leaf(Establish, true, |names| == 1), |names|);
  }

  lemma LogsKeep(t: Fs, names: seq<string>, leaf: nat, v: Walker) returns (u: Fs)
    requires FsOk(t) && Paved(t, names, leaf, v)
    ensures names != [] && IsDir(t, leaf) && IsDir(WithLog(t, leaf, "dedcom.log"), leaf)
    ensures u == WithLog(WithLog(t, leaf, "dedcom.log"), leaf, "benchmarks.log")
    ensures IsDir(u, leaf) && Paved(u, names, leaf, v)
    ensures HeldIn(u.nodes[leaf].entries.Keys) == HeldIn(t.nodes[leaf].entries.Keys)
  {
    var logged := WithLog(t, leaf, "dedcom.log");
    LogKeeps(t, leaf, "dedcom.log");
    hide WithLog, FsOk, EntriesKept, HeldIn;
    PavedKept(t, logged, names, leaf, v);
    LogKeeps(logged, leaf, "benchmarks.log");
    u := WithLog(logged, leaf, "benchmarks.log");
    PavedKept(logged, u, names, leaf, v);
  }

  lemma PavedWalk(u: Fs, path: string, leaf: nat, v: Walker)
    requires Paved(u, Names(path), leaf, v) && path != "" && path[0] == '/' && ".." !in Names(path)
    ensures Walked(u, path, v, Establish) == (u, Verdict(u, Names(path), leaf))
  {
    var names := Names(path);
    RootPasses(u, names, leaf, v);
    PavedChain(u, ROOT, names, 0, leaf, v);
    hide Chain, Entered, Names, Verdict;
  }

  lemma RootPasses(u: Fs, names: seq<string>, leaf: nat, v: Walker)
    requires Paved(u, names, leaf, v)
    ensures Entered(u, ROOT, v, v.luck(0), NotLeaf) == (u, Ok(ROOT)) && IsDir(u, ROOT) && Lead(u, names[..0]) == Some(ROOT)
  {
    assert names[..0] == [];
    assert PassedBy(u, names[..0], v.euid);
  }

  /** Which is no idle case: a free name directly below a root in order is made at the first walk and
      refused at the second. */
  lemma TopLevelIsRefusedTheSecondTime(s: Fs, path: string, w: Walker)
    requires FsOk(s) && PassedBy(s, [], w.euid) && AllWorks(w)
    requires path != "" && path[0] == '/' && |Names(path)| == 1 && Names(path)[0] != ".." && 0 as char !in Names(path)[0]
    requires Names(path)[0] !in s.nodes[ROOT].entries
    ensures var (t, r) := Walked(s, path, w, Establish);
            && r == Ok(s.next) && IsDir(t, s.next) && IsDir(WithLog(t, s.next, "dedcom.log"), s.next)
            && var u := WithLog(WithLog(t, s.next, "dedcom.log"), s.next, "benchmarks.log");
            Walked(u, path, w, Establish) == (u, Err(TopLevelAndEmpty))
  {
    var names := Names(path);
    FirstTimeWorks(s, names, w);
    assert ".." !in names by { assert names == [names[0]]; }
    var (t, r) := Walked(s, path, w, Establish);
    EstablishingAgain(s, path, w, w);
    assert t.nodes[s.next].entries == map[];
    hide Chain, Names, Entered, WithLog, FsOk;
  }

  lemma FirstTimeWorks(s: Fs, names: seq<string>, w: Walker)
    requires FsOk(s) && PassedBy(s, [], w.euid) && AllWorks(w) && |names| == 1 && 0 as char !in names[0]
    requires names[0] !in s.nodes[ROOT].entries
    ensures Entered(s, ROOT, w, w.luck(0), NotLeaf) == (s, Ok(ROOT))
    ensures var (t, r) := Chain(s, ROOT, names, 0, w, Establish);
            r == Ok(s.next) && IsDir(t, s.next) && t.nodes[s.next].entries == map[]
  {
    var m := Made(s, ROOT, names[0], w);
    MadeEmpty(s, ROOT, names[0], w);
    NewIsTrusted(s, w);
    assert Trusted(m.nodes[s.next], w.euid, true);
    var (t, r) := Descended(s, ROOT, names, 0, w, Establish);
    assert r == Ok(s.next) && IsDir(t, s.next) && t.nodes[s.next].entries == map[];
    ChainDescends(s, ROOT, names, 0, w, Establish);
    ChainStops(t, s.next, names, w, Establish);
    hide Chain, Descended;
  }

  lemma NewIsTrusted(s: Fs, w: Walker)
    requires IsDir(s, ROOT)
    ensures !Writable(NewMode(w, s.nodes[ROOT].mode))
  {
  }
}
