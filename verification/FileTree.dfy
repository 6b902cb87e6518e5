/** A filesystem of directories, regular files and symbolic links, as far as names matter: walks
    that follow no link, resolutions that do, and the one rename the program makes. Shared by the
    list of lock files (src/lock.rs) and the list of open databases (src/paths.rs). */
module FileTree {
  import opened Wrappers

  /** An absolute path: its components from the root down. The empty path is the root. */
  type Path = seq<string>

  datatype Node = Dir(entries: map<string, nat>) | File | Link(absolute: bool, target: Path)

  const ROOT: nat := 0

  /** How deep links may lead to links before a resolution gives up. */
  const MAX_LINKS := 40

  function Parent(path: Path): Path
    requires path != []
  {
    path[..|path| - 1]
  }

  function Base(path: Path): string
    requires path != []
  {
    path[|path| - 1]
  }

  datatype Tree = Tree(nodes: map<nat, Node>) {
    predicate IsDir(i: nat) { i in nodes && nodes[i].Dir? }

    predicate IsFile(i: nat) { i in nodes && nodes[i].File? }

    ghost predicate Ok()
    {
      && IsDir(ROOT)
      && forall d, name :: IsDir(d) && name in nodes[d].entries ==> nodes[d].entries[name] in nodes
    }

    function Child(d: nat, name: string): Option<nat>
    {
      if IsDir(d) && name in nodes[d].entries then Some(nodes[d].entries[name]) else None
    }

    /** What the path names when no link is followed on the way or at its end. */
    function Walk(path: Path): Option<nat>
      decreases |path|
    {
      if path == [] then Some(ROOT)
      else
        match Walk(Parent(path))
        case None => None
        case Some(d) => Child(d, Base(path))
    }

    /** What the path names from `at` on when every link is followed, the last one too. */
    function Resolve(at: nat, path: Path, links: nat): Option<nat>
      decreases links, |path|
    {
      if path == [] then Some(at)
      else
        match Resolve(at, Parent(path), links)
        case None => None
        case Some(d) =>
          match Child(d, Base(path))
          case None => None
          case Some(i) =>
            if i in nodes && nodes[i].Link? then
              if links == 0 then None
              else Resolve(if nodes[i].absolute then ROOT else d, nodes[i].target, links - 1)
            else Some(i)
    }

    /** The directory a path's last name is looked up in. */
    function DirOf(path: Path): Option<nat>
      requires path != []
    {
      Resolve(ROOT, Parent(path), MAX_LINKS)
    }

    /** `lstat`: links are followed on the way, and the last name answers for itself. */
    function Lstat(path: Path): Option<nat>
    {
      if path == [] then Some(ROOT)
      else
        match DirOf(path)
        case None => None
        case Some(d) => Child(d, Base(path))
    }

    function With(d: nat, name: string, i: nat): Tree
      requires IsDir(d)
    {
      Tree(nodes[d := Dir(nodes[d].entries[name := i])])
    }

    function Without(d: nat, name: string): Tree
      requires IsDir(d)
    {
      Tree(nodes[d := Dir(nodes[d].entries - {name})])
    }

    /** A new node under a name that was free. Anything that was there is refused. */
    function Make(d: nat, name: string, i: nat, node: Node): Tree
    {
      if IsDir(d) && name !in nodes[d].entries && i !in nodes && (node.Dir? ==> node.entries == map[]) then
        Tree(nodes[i := node]).With(d, name, i)
      else this
    }

    /** A second name for a regular file. */
    function HardLink(from: Path, d: nat, name: string): Tree
    {
      var i := Lstat(from);
      if i.Some? && IsFile(i.value) && IsDir(d) && name !in nodes[d].entries then With(d, name, i.value) else this
    }

    /** `renameat2(RENAME_NOREPLACE)`: nothing happens unless the source is there and the
        destination is not. */
    function Rename(from: Path, to: Path): Tree
    {
      if from == [] || to == [] then this
      else
        var d, e := DirOf(from), DirOf(to);
        if d.None? || e.None? || !IsDir(d.value) || !IsDir(e.value) then this
        else
          var i := Child(d.value, Base(from));
          if i.None? || Child(e.value, Base(to)).Some? then this
          else Without(d.value, Base(from)).With(e.value, Base(to), i.value)
    }
  }

  /** A walk that follows no link is what following every link finds too, if it ends in no link. */
  lemma {:induction false} WalkResolves(t: Tree, path: Path, links: nat)
    requires t.Walk(path).Some? && (t.Walk(path).value in t.nodes ==> !t.nodes[t.Walk(path).value].Link?)
    ensures t.Resolve(ROOT, path, links) == t.Walk(path)
    decreases |path|
  {
    if path == [] {
    } else {
      WalkResolves(t, Parent(path), links);
    }
  }

  lemma WalkLstat(t: Tree, path: Path)
    requires t.Walk(path).Some?
    ensures t.Lstat(path) == t.Walk(path)
    ensures path != [] ==> t.DirOf(path) == t.Walk(Parent(path)) && t.IsDir(t.DirOf(path).value)
  {
    if path != [] {
      WalkResolves(t, Parent(path), MAX_LINKS);
    }
  }

  lemma {:induction false} WalkPrefix(t: Tree, path: Path, k: nat)
    requires t.Walk(path).Some? && k <= |path|
    ensures t.Walk(path[..k]).Some?
    ensures k < |path| ==> t.IsDir(t.Walk(path[..k]).value)
    ensures k < |path| ==> t.Child(t.Walk(path[..k]).value, path[k]) == t.Walk(path[..k + 1])
    decreases |path|
  {
    if k < |path| {
      assert Parent(path)[..k] == path[..k];
      if k < |path| - 1 {
        assert Parent(path)[..k + 1] == path[..k + 1];
      } else {
        assert path[..k + 1] == path;
      }
      WalkPrefix(t, Parent(path), k);
    } else {
      assert path[..k] == path;
    }
  }

  /** The name `(d, name)` is one the walk along `path` passes. */
  ghost predicate OnTheWay(t: Tree, path: Path, d: nat, name: string)
  {
    exists k :: 0 <= k < |path| && path[k] == name && t.Walk(path[..k]) == Some(d)
  }

  /** A change that leaves alone every name a walk passes leaves the walk alone. */
  lemma {:induction false} WalkKept(t: Tree, u: Tree, path: Path)
    requires t.Walk(path).Some?
    requires forall d, name :: OnTheWay(t, path, d, name) ==> u.Child(d, name) == t.Child(d, name)
    ensures u.Walk(path) == t.Walk(path)
    decreases |path|
  {
    if path == [] {
    } else {
      var d := t.Walk(Parent(path)).value;
      assert path[..|path| - 1] == Parent(path);
      assert OnTheWay(t, path, d, Base(path));
      forall e: nat, name | OnTheWay(t, Parent(path), e, name) ensures u.Child(e, name) == t.Child(e, name) {
        var k :| 0 <= k < |Parent(path)| && Parent(path)[k] == name && t.Walk(Parent(path)[..k]) == Some(e);
        assert Parent(path)[..k] == path[..k];
        assert OnTheWay(t, path, e, name);
      }
      WalkKept(t, u, Parent(path));
    }
  }

  /** Every name on a way that leads somewhere is taken. */
  lemma TakenOnTheWay(t: Tree, path: Path, d: nat, name: string)
    requires t.Walk(path).Some? && OnTheWay(t, path, d, name)
    ensures t.Child(d, name).Some?
  {
    var k :| 0 <= k < |path| && path[k] == name && t.Walk(path[..k]) == Some(d);
    WalkPrefix(t, path, k);
    WalkPrefix(t, path, k + 1);
  }

  lemma MakeKeepsWalk(t: Tree, d: nat, name: string, i: nat, node: Node, path: Path)
    requires t.Ok() && t.Walk(path).Some?
    ensures t.Make(d, name, i, node).Ok() && t.Make(d, name, i, node).Walk(path) == t.Walk(path)
  {
    var u := t.Make(d, name, i, node);
    forall e, n | OnTheWay(t, path, e, n) ensures u.Child(e, n) == t.Child(e, n) {
      TakenOnTheWay(t, path, e, n);
    }
    WalkKept(t, u, path);
  }

  lemma HardLinkKeepsWalk(t: Tree, from: Path, d: nat, name: string, path: Path)
    requires t.Ok() && t.Walk(path).Some?
    ensures t.HardLink(from, d, name).Ok() && t.HardLink(from, d, name).Walk(path) == t.Walk(path)
  {
    var u := t.HardLink(from, d, name);
    forall e, n | OnTheWay(t, path, e, n) ensures u.Child(e, n) == t.Child(e, n) {
      TakenOnTheWay(t, path, e, n);
    }
    WalkKept(t, u, path);
  }

  /** A rename moves one name and makes one that was free: a way that does not pass the name it
      moves leads where it led. */
  lemma RenameKeepsWalk(t: Tree, from: Path, to: Path, path: Path)
    requires t.Ok() && t.Walk(path).Some?
    requires from != [] && t.DirOf(from).Some? ==> !OnTheWay(t, path, t.DirOf(from).value, Base(from))
    ensures t.Rename(from, to).Walk(path) == t.Walk(path)
  {
    var u := t.Rename(from, to);
    forall e, n | OnTheWay(t, path, e, n) ensures u.Child(e, n) == t.Child(e, n) {
      TakenOnTheWay(t, path, e, n);
    }
    WalkKept(t, u, path);
  }

  lemma RenameOk(t: Tree, from: Path, to: Path)
    requires t.Ok()
    ensures t.Rename(from, to).Ok()
    ensures forall i :: t.Rename(from, to).IsFile(i) <==> t.IsFile(i)
    ensures forall i :: t.Rename(from, to).IsDir(i) <==> t.IsDir(i)
  {
  }

  /** The rename happens exactly if its source is there and its destination is not; then the destination
      has what the source had, the source has nothing, and no other name changes. */
  lemma RenameMoves(t: Tree, from: Path, to: Path, d: nat, e: nat)
    requires from != [] && to != [] && t.DirOf(from) == Some(d) && t.DirOf(to) == Some(e)
    ensures var u := t.Rename(from, to);
            if t.Child(d, Base(from)).Some? && t.IsDir(e) && t.Child(e, Base(to)).None? then
              && u.Child(e, Base(to)) == t.Child(d, Base(from)) && u.Child(d, Base(from)) == None
              && u.nodes.Keys == t.nodes.Keys
              && (forall c: nat, n :: (c, n) != (d, Base(from)) && (c, n) != (e, Base(to)) ==> u.Child(c, n) == t.Child(c, n))
              && (forall i :: i in t.nodes && !t.IsDir(i) ==> u.nodes[i] == t.nodes[i])
            else u == t
  {
    hide Tree.DirOf;
  }

  /** A hard link is made exactly of a regular file under a free name; a node exactly under a free name and
      a free number; no other name changes. */
  lemma LinkAdds(t: Tree, from: Path, d: nat, name: string)
    ensures var u := t.HardLink(from, d, name);
            if t.Lstat(from).Some? && t.IsFile(t.Lstat(from).value) && t.IsDir(d) && t.Child(d, name).None? then
              && u.Child(d, name) == t.Lstat(from) && u.nodes.Keys == t.nodes.Keys
              && (forall c: nat, n :: (c, n) != (d, name) ==> u.Child(c, n) == t.Child(c, n))
              && (forall i :: i in t.nodes && !t.IsDir(i) ==> u.nodes[i] == t.nodes[i])
            else u == t
  {
    hide Tree.Lstat;
  }

  lemma MakeAdds(t: Tree, d: nat, name: string, i: nat, node: Node)
    ensures var u := t.Make(d, name, i, node);
            if t.IsDir(d) && t.Child(d, name).None? && i !in t.nodes && (node.Dir? ==> node.entries == map[]) then
              && u.Child(d, name) == Some(i) && u.nodes.Keys == t.nodes.Keys + {i} && u.nodes[i] == node
              && (forall c: nat, n :: (c, n) != (d, name) ==> u.Child(c, n) == t.Child(c, n))
              && (forall j :: j in t.nodes && !t.IsDir(j) ==> u.nodes[j] == t.nodes[j])
            else u == t
  {
  }

  // === The two questions a guarded rename asks ===

  /** Whether `path` is the name `kept`: that name in that directory, by whatever way the directory
      is reached. */
  predicate SameName(t: Tree, kept: Path, path: Path)
  {
    && kept != [] && path != [] && Base(kept) == Base(path)
    && t.DirOf(path).Some? && t.DirOf(path) == t.DirOf(kept)
  }

  /** Whether `dir` is one of the directories on the way to the name `kept`. */
  predicate LiesAbove(t: Tree, kept: Path, dir: nat)
  {
    exists k | 0 <= k < |kept| :: t.Lstat(kept[..k]) == Some(dir)
  }

  /** Refusing a directory above a name, and a non-directory at it, is refusing everything that
      lies on the way to it — if what the way leads to is no directory. */
  lemma GuardsTheWay(t: Tree, kept: Path, from: Path)
    requires t.Ok() && t.Walk(kept).Some? && !t.IsDir(t.Walk(kept).value)
    requires from != [] && t.DirOf(from).Some? && OnTheWay(t, kept, t.DirOf(from).value, Base(from))
    ensures var i := t.Lstat(from);
            i.Some? && (if t.IsDir(i.value) then LiesAbove(t, kept, i.value) else SameName(t, kept, from))
  {
    var d := t.DirOf(from).value;
    var k :| 0 <= k < |kept| && kept[k] == Base(from) && t.Walk(kept[..k]) == Some(d);
    WalkPrefix(t, kept, k);
    WalkPrefix(t, kept, k + 1);
    var i := t.Walk(kept[..k + 1]).value;
    assert t.Lstat(from) == Some(i);
    WalkLstat(t, kept[..k + 1]);
    if k + 1 < |kept| {
      assert LiesAbove(t, kept, i);
    } else {
      assert kept[..k + 1] == kept;
      assert Parent(kept) == kept[..k];
      assert SameName(t, kept, from);
    }
  }

  /** The directories above a name are kept even while nothing lies at it. */
  lemma GuardsTheParent(t: Tree, kept: Path, from: Path)
    requires t.Ok() && kept != [] && t.Walk(Parent(kept)).Some? && t.IsDir(t.Walk(Parent(kept)).value)
    requires from != [] && t.DirOf(from).Some? && OnTheWay(t, Parent(kept), t.DirOf(from).value, Base(from))
    ensures var i := t.Lstat(from); i.Some? && t.IsDir(i.value) && LiesAbove(t, kept, i.value)
  {
    var way, d := Parent(kept), t.DirOf(from).value;
    var k :| 0 <= k < |way| && way[k] == Base(from) && t.Walk(way[..k]) == Some(d);
    WalkPrefix(t, way, k);
    WalkPrefix(t, way, k + 1);
    WalkLstat(t, way[..k + 1]);
    assert way[..k + 1] == kept[..k + 1];
    assert k + 1 == |way| ==> way[..k + 1] == way;
    assert t.Lstat(kept[..k + 1]) == t.Lstat(from);
  }

  // === When a rename comes later than its questions ===

  /** A rename between its questions and its call. `looked` and `at` are the tree the questions were
      asked of, and how many renames had been made then. */
  datatype Move = Move(from: Path, to: Path, looked: Tree, at: nat)

  /** Between `t` and `u` no directory and no link was moved or removed, and no directory got another
      name: what happens while nobody renames anything. */
  ghost predicate Undisturbed(t: Tree, u: Tree)
  {
    && (forall i :: t.IsDir(i) ==> u.IsDir(i))
    && (forall i :: i in t.nodes && t.nodes[i].Link? ==> i in u.nodes && u.nodes[i] == t.nodes[i])
    && (forall d, n :: Lasting(t, t.Child(d, n)) ==> u.Child(d, n) == t.Child(d, n))
    && (forall d, n :: u.Child(d, n).Some? && t.IsDir(u.Child(d, n).value) ==> t.Child(d, n) == u.Child(d, n))
  }

  predicate Lasting(t: Tree, child: Option<nat>)
  {
    child.Some? && child.value in t.nodes && !t.nodes[child.value].File?
  }

  /** Nor was a regular file taken from its name. */
  ghost predicate FilesKept(t: Tree, u: Tree)
  {
    forall d, n :: t.Child(d, n).Some? && t.IsFile(t.Child(d, n).value) ==>
      u.Child(d, n) == t.Child(d, n) && u.IsFile(t.Child(d, n).value)
  }

  lemma UndisturbedTrans(t: Tree, u: Tree, v: Tree)
    requires Undisturbed(t, u) && Undisturbed(u, v)
    ensures Undisturbed(t, v)
  {
    forall d, n | v.Child(d, n).Some? && t.IsDir(v.Child(d, n).value) ensures t.Child(d, n) == v.Child(d, n) {
      assert u.Child(d, n) == v.Child(d, n);
    }
    forall d, n | Lasting(t, t.Child(d, n)) ensures v.Child(d, n) == t.Child(d, n) {
      var i := t.Child(d, n).value;
      assert u.Child(d, n) == t.Child(d, n) && (t.IsDir(i) || t.nodes[i].Link?);
      assert Lasting(u, u.Child(d, n));
    }
  }

  lemma FilesKeptTrans(t: Tree, u: Tree, v: Tree)
    requires FilesKept(t, u) && FilesKept(u, v)
    ensures FilesKept(t, v)
  {
    forall d, n | t.Child(d, n).Some? && t.IsFile(t.Child(d, n).value)
      ensures v.Child(d, n) == t.Child(d, n) && v.IsFile(t.Child(d, n).value)
    {
      assert u.Child(d, n) == t.Child(d, n);
    }
  }

  lemma NothingDisturbs(t: Tree)
    ensures Undisturbed(t, t) && FilesKept(t, t)
  {
  }

  lemma MakeUndisturbs(t: Tree, d: nat, name: string, i: nat, node: Node)
    requires t.Ok()
    ensures Undisturbed(t, t.Make(d, name, i, node)) && FilesKept(t, t.Make(d, name, i, node))
  {
  }

  lemma HardLinkUndisturbs(t: Tree, from: Path, d: nat, name: string)
    requires t.Ok()
    ensures Undisturbed(t, t.HardLink(from, d, name)) && FilesKept(t, t.HardLink(from, d, name))
  {
  }

  /** A way to a directory leads there still. */
  lemma {:induction false} ResolveUndisturbed(t: Tree, u: Tree, at: nat, path: Path, links: nat)
    requires Undisturbed(t, u) && t.Resolve(at, path, links).Some? && t.IsDir(t.Resolve(at, path, links).value)
    ensures u.Resolve(at, path, links) == t.Resolve(at, path, links)
    decreases links, |path|
  {
    if path == [] {
    } else {
      var d := t.Resolve(at, Parent(path), links).value;
      ResolveUndisturbed(t, u, at, Parent(path), links);
      var i := t.Child(d, Base(path)).value;
      assert Lasting(t, t.Child(d, Base(path)));
      if t.nodes[i].Link? {
        ResolveUndisturbed(t, u, if t.nodes[i].absolute then ROOT else d, t.nodes[i].target, links - 1);
      }
    }
  }

  /** A way that leads to a directory that was there led there already. */
  lemma {:induction false} WalkBack(t: Tree, u: Tree, path: Path)
    requires Undisturbed(t, u) && u.Walk(path).Some? && t.IsDir(u.Walk(path).value)
    ensures t.Walk(path) == u.Walk(path)
    decreases |path|
  {
    if path == [] {
    } else {
      var d := u.Walk(Parent(path)).value;
      assert t.Child(d, Base(path)) == u.Child(d, Base(path));
      WalkBack(t, u, Parent(path));
    }
  }

  lemma WayBack(t: Tree, u: Tree, path: Path, d: nat, name: string)
    requires Undisturbed(t, u) && OnTheWay(u, path, d, name) && t.IsDir(d)
    ensures OnTheWay(t, path, d, name)
  {
    var k :| 0 <= k < |path| && path[k] == name && u.Walk(path[..k]) == Some(d);
    WalkBack(t, u, path[..k]);
  }

  /** What the two questions ask about one name kept. */
  predicate Asks(t: Tree, kept: Path, from: Path, thing: nat)
  {
    if t.IsDir(thing) then LiesAbove(t, kept, thing) else SameName(t, kept, from)
  }

  lemma WalkOn(t: Tree, path: Path, k: nat)
    requires k < |path| && t.Walk(path[..k]).Some?
    ensures t.Walk(path[..k + 1]) == t.Child(t.Walk(path[..k]).value, path[k])
  {
    assert Parent(path[..k + 1]) == path[..k] && Base(path[..k + 1]) == path[k];
  }

  /** A name the questions found harmless is harmless still, if nobody has renamed anything since. */
  lemma LookStillHolds(t: Tree, u: Tree, kept: Path, from: Path)
    requires t.Ok() && Undisturbed(t, u)
    requires from != [] && t.Lstat(from).Some? && !Asks(t, kept, from, t.Lstat(from).value)
    requires FilesKept(t, u) || (kept != [] && t.Walk(Parent(kept)).Some? && t.IsDir(t.Walk(Parent(kept)).value))
    requires u.Walk(kept).Some? && u.IsFile(u.Walk(kept).value)
    ensures t.DirOf(from).Some? && u.DirOf(from) == t.DirOf(from)
    ensures !OnTheWay(u, kept, u.DirOf(from).value, Base(from))
  {
    var d := t.DirOf(from).value;
    ResolveUndisturbed(t, u, ROOT, Parent(from), MAX_LINKS);
    if OnTheWay(u, kept, d, Base(from)) {
      var k :| 0 <= k < |kept| && kept[k] == Base(from) && u.Walk(kept[..k]) == Some(d);
      WalkBack(t, u, kept[..k]);
      if k + 1 < |kept| {
        AskedInTheMiddle(t, u, kept, from, k);
      } else {
        AskedAtTheEnd(t, u, kept, from, k);
      }
      assert false;
    }
  }

  lemma AskedInTheMiddle(t: Tree, u: Tree, kept: Path, from: Path, k: nat)
    requires t.Ok() && Undisturbed(t, u) && from != [] && t.Lstat(from).Some?
    requires FilesKept(t, u) || (kept != [] && t.Walk(Parent(kept)).Some? && t.IsDir(t.Walk(Parent(kept)).value))
    requires u.Walk(kept).Some? && k + 1 < |kept| && kept[k] == Base(from)
    requires t.Walk(kept[..k]) == u.Walk(kept[..k]) == t.DirOf(from)
    ensures Asks(t, kept, from, t.Lstat(from).value)
  {
    var d, thing := t.DirOf(from).value, t.Lstat(from).value;
    WalkOn(t, kept, k);
    WalkPrefix(u, kept, k);
    WalkPrefix(u, kept, k + 1);
    if t.Walk(Parent(kept)).Some? && t.IsDir(t.Walk(Parent(kept)).value) {
      DirInTheMiddle(t, kept, k);
    } else {
      assert Lasting(t, t.Child(d, kept[k])) || t.IsFile(thing);
    }
    hide Undisturbed, FilesKept;
    assert t.IsDir(thing);
    WalkLstat(t, kept[..k + 1]);
    assert t.Lstat(kept[..k + 1]) == Some(thing);
  }

  lemma DirInTheMiddle(t: Tree, kept: Path, k: nat)
    requires k + 1 < |kept| && t.Walk(Parent(kept)).Some? && t.IsDir(t.Walk(Parent(kept)).value)
    ensures t.Walk(kept[..k + 1]).Some? && t.IsDir(t.Walk(kept[..k + 1]).value)
  {
    assert Parent(kept)[..k + 1] == kept[..k + 1];
    WalkPrefix(t, Parent(kept), k + 1);
    assert k + 1 == |Parent(kept)| ==> Parent(kept) == kept[..k + 1];
  }

  lemma AskedAtTheEnd(t: Tree, u: Tree, kept: Path, from: Path, k: nat)
    requires t.Ok() && Undisturbed(t, u) && from != [] && t.Lstat(from).Some?
    requires u.Walk(kept).Some? && u.IsFile(u.Walk(kept).value) && k + 1 == |kept| && kept[k] == Base(from)
    requires t.Walk(kept[..k]) == u.Walk(kept[..k]) == t.DirOf(from)
    ensures Asks(t, kept, from, t.Lstat(from).value)
  {
    var d, thing := t.DirOf(from).value, t.Lstat(from).value;
    assert kept[..k + 1] == kept && kept[..k] == Parent(kept);
    WalkOn(t, kept, k);
    WalkOn(u, kept, k);
    assert t.IsDir(thing) ==> Lasting(t, t.Child(d, kept[k]));
    WalkLstat(t, kept);
  }

  // === What a rename does to a way, exactly ===

  /** No directory has two names, and the root has none. */
  ghost predicate DirsOnce(t: Tree)
  {
    && (forall d, n :: t.Child(d, n) != Some(ROOT))
    && (forall d, n, e, m :: t.Child(d, n).Some? && t.IsDir(t.Child(d, n).value) && t.Child(e, m) == t.Child(d, n) ==>
          d == e && n == m)
  }

  /** The questions refuse exactly what lies on the way. */
  lemma AsksExactly(t: Tree, kept: Path, from: Path)
    requires t.Ok() && DirsOnce(t) && t.Walk(kept).Some? && !t.IsDir(t.Walk(kept).value)
    requires from != [] && t.Lstat(from).Some?
    ensures t.DirOf(from).Some?
    ensures Asks(t, kept, from, t.Lstat(from).value) <==> OnTheWay(t, kept, t.DirOf(from).value, Base(from))
  {
    var d, thing := t.DirOf(from).value, t.Lstat(from).value;
    if OnTheWay(t, kept, d, Base(from)) {
      GuardsTheWay(t, kept, from);
    }
    if Asks(t, kept, from, thing) {
      if t.IsDir(thing) {
        var k :| 0 <= k < |kept| && t.Lstat(kept[..k]) == Some(thing);
        WalkPrefix(t, kept, k);
        WalkLstat(t, kept[..k]);
        assert t.Child(d, Base(from)) == Some(thing);
        assert k > 0;
        WalkPrefix(t, kept, k - 1);
        assert t.Child(t.Walk(kept[..k - 1]).value, kept[k - 1]) == Some(thing);
        assert kept[k - 1] == Base(from) && t.Walk(kept[..k - 1]) == Some(d);
      } else {
        WalkLstat(t, kept);
        assert kept[..|kept| - 1] == Parent(kept);
      }
    }
  }

  /** A rename that happens takes away the way it is made on. */
  lemma RenameBreaks(t: Tree, from: Path, to: Path, kept: Path)
    requires t.Ok() && t.Walk(kept).Some? && from != [] && t.DirOf(from).Some? && t.Rename(from, to) != t
    requires OnTheWay(t, kept, t.DirOf(from).value, Base(from))
    ensures t.Rename(from, to).Walk(kept) == None
  {
    var u := t.Rename(from, to);
    var d := t.DirOf(from).value;
    assert u.Child(d, Base(from)) == None;
    assert forall e, n :: t.Child(e, n).Some? && !(e == d && n == Base(from)) ==> u.Child(e, n) == t.Child(e, n);
    hide Tree.Rename, Tree.DirOf;
    WayBroken(t, u, kept, d, Base(from));
  }

  lemma {:induction false} WayBroken(t: Tree, u: Tree, kept: Path, d: nat, name: string)
    requires t.Walk(kept).Some? && OnTheWay(t, kept, d, name) && u.Child(d, name) == None
    requires forall e, n :: t.Child(e, n).Some? && !(e == d && n == name) ==> u.Child(e, n) == t.Child(e, n)
    ensures u.Walk(kept) == None
    decreases |kept|
  {
    if kept == [] {
    } else {
      var k :| 0 <= k < |kept| && kept[k] == name && t.Walk(kept[..k]) == Some(d);
      if k < |kept| - 1 {
        assert Parent(kept)[..k] == kept[..k];
        WayBroken(t, u, Parent(kept), d, name);
      } else if OnTheWay(t, Parent(kept), d, name) {
        WayBroken(t, u, Parent(kept), d, name);
      } else {
        assert kept[..k] == Parent(kept);
        forall e: nat, n | OnTheWay(t, Parent(kept), e, n) ensures u.Child(e, n) == t.Child(e, n) {
          TakenOnTheWay(t, Parent(kept), e, n);
        }
        WalkKept(t, u, Parent(kept));
      }
    }
  }

  /** Whenever the questions were asked: a rename that happens leaves the way to a name exactly if the
      questions about that name find nothing now, and otherwise the name is free. */
  lemma RenameKeepsExactly(t: Tree, from: Path, to: Path, kept: Path)
    requires t.Ok() && DirsOnce(t) && t.Walk(kept).Some? && t.IsFile(t.Walk(kept).value) && t.Rename(from, to) != t
    ensures from != [] && t.Lstat(from).Some?
    ensures t.Rename(from, to).Walk(kept) == if Asks(t, kept, from, t.Lstat(from).value) then None else t.Walk(kept)
  {
    AsksExactly(t, kept, from);
    if OnTheWay(t, kept, t.DirOf(from).value, Base(from)) {
      RenameBreaks(t, from, to, kept);
    } else {
      RenameKeepsWalk(t, from, to, kept);
    }
  }

  lemma MakeKeepsOnce(t: Tree, d: nat, name: string, i: nat, node: Node)
    requires t.Ok() && DirsOnce(t)
    ensures DirsOnce(t.Make(d, name, i, node))
  {
    var u := t.Make(d, name, i, node);
    forall e, n | u.Child(e, n) != t.Child(e, n) ensures e == d && n == name && u.Child(e, n) == Some(i) {
    }
  }

  lemma HardLinkKeepsOnce(t: Tree, from: Path, d: nat, name: string)
    requires t.Ok() && DirsOnce(t)
    ensures DirsOnce(t.HardLink(from, d, name))
  {
    var u := t.HardLink(from, d, name);
    forall e, n | u.Child(e, n) != t.Child(e, n) ensures u.Child(e, n).Some? && t.IsFile(u.Child(e, n).value) {
    }
  }

  lemma RenameKeepsOnce(t: Tree, from: Path, to: Path)
    requires t.Ok() && DirsOnce(t)
    ensures DirsOnce(t.Rename(from, to))
  {
    var u := t.Rename(from, to);
    if u != t {
      var d, e := t.DirOf(from).value, t.DirOf(to).value;
      forall f, n ensures
        u.Child(f, n) == if f == e && n == Base(to) then t.Child(d, Base(from))
                         else if f == d && n == Base(from) then None else t.Child(f, n) {
      }
      hide Tree.Rename;
    }
  }
}
