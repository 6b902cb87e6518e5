/** The walks to the state directory that change nothing: exactly when the one of a database about to be
    opened finds it, and what the reporting one asks beyond that. */
module DirectoryLooks {
  import opened Wrappers
  import opened StateDirectory

  // === Who may write ===

  predicate OwnerMay(mode: bv12) { mode & 0x80 != 0 }

  predicate GroupMay(mode: bv12) { mode & 0x10 != 0 }

  predicate OthersMay(mode: bv12) { mode & 0x02 != 0 }

  /** Whether a user may make, rename and remove names in the directory, by the mode bits of his class. */
  predicate MayWrite(node: Node, uid: nat, inGroup: bool)
    requires node.Dir?
  {
    if uid == node.uid then OwnerMay(node.mode) else if inGroup then GroupMay(node.mode) else OthersMay(node.mode)
  }

  /** A component is trusted exactly if whoever walks, or root, owns it and nobody else may write to it,
      but on the way, where the sticky bit keeps what is not his own from him. */
  lemma TrustedIff(node: Node, euid: nat, last: bool)
    ensures Trusted(node, euid, last) <==>
              && node.Dir? && (node.uid == euid || node.uid == 0)
              && forall uid: nat, inGroup :: uid != euid && uid != 0 && MayWrite(node, uid, inGroup) ==>
                   !last && node.mode & STICKY != 0
  {
    hide OwnerMay, GroupMay, OthersMay, Writable;
    if node.Dir? && (node.uid == euid || node.uid == 0) {
      WritesByClass(node.mode);
      ghost var passes := !last && node.mode & STICKY != 0;
      assert Trusted(node, euid, last) <==> (Writable(node.mode) ==> passes);
      OutsidersMay(node, euid);
      assert (exists uid: nat, inGroup :: uid != euid && uid != 0 && MayWrite(node, uid, inGroup)) <==> Writable(node.mode);
      hide MayWrite;
    }
  }

  lemma OutsidersMay(node: Node, euid: nat)
    requires node.Dir? && (node.uid == euid || node.uid == 0)
    ensures (exists uid: nat, inGroup :: uid != euid && uid != 0 && MayWrite(node, uid, inGroup)) <==> Writable(node.mode)
  {
    hide OwnerMay, GroupMay, OthersMay, Writable;
    WritesByClass(node.mode);
    if Writable(node.mode) {
      var inGroup := GroupMay(node.mode);
      assert MayWrite(node, euid + 1, inGroup);
    }
  }

  lemma WritesByClass(mode: bv12)
    ensures Writable(mode) <==> GroupMay(mode) || OthersMay(mode)
  {
  }

  /** What is said of a component on the way that may not be passed. */
  lemma RefusedOnTheWay(fs: Fs, i: nat, w: Walker, luck: Luck)
    ensures var r := Entered(fs, i, w, luck, NotLeaf).1;
            var opens := IsDir(fs, i) && luck.open && luck.stat;
            && (r == Err(Error.System) <==> !opens)
            && (r == Err(Outsider) <==> opens && fs.nodes[i].uid != w.euid && fs.nodes[i].uid != 0)
            && (r == Err(WritableByOthers) <==>
                  opens && (fs.nodes[i].uid == w.euid || fs.nodes[i].uid == 0) && !Trusted(fs.nodes[i], w.euid, false))
            && (r.Ok? ==> r.value == i)
            && (r.Ok? <==> opens && Trusted(fs.nodes[i], w.euid, false))
  {
  }

  /** The last component of an establishing walk that nothing refuses: its mode is changed exactly if others
      have any right to it, and then that must work. */
  lemma LeafIsTightened(fs: Fs, i: nat, w: Walker, luck: Luck, leaf: Leaf)
    requires leaf.Leaf? && leaf.walk.Establish? && IsDir(fs, i) && luck.open && luck.stat && Trusted(fs.nodes[i], w.euid, true)
    requires (leaf.existed ==> luck.list) && LeafRefusal(fs.nodes[i].entries.Keys, leaf).Ok?
    ensures var (t, r) := Entered(fs, i, w, luck, leaf);
            if fs.nodes[i].mode & PERMISSIONS == OWNER_ONLY then (t, r) == (fs, Ok(i))
            else if !luck.chmod then (t, r) == (fs, Err(Error.System))
            else r == Ok(i) && t == fs.(nodes := fs.nodes[i := fs.nodes[i].(mode := OWNER_ONLY)])
  {
  }

  /** And what refuses it: live state is always taken; else a directory that was there is refused if it is
      directly below the root and holds nothing but logs, or holds anything else. */
  lemma LeafRefusedIff(fs: Fs, i: nat, w: Walker, luck: Luck, leaf: Leaf)
    requires leaf.Leaf? && leaf.walk.Establish? && leaf.existed
    requires IsDir(fs, i) && luck.open && luck.stat && luck.list && luck.chmod && Trusted(fs.nodes[i], w.euid, true)
    ensures var names := fs.nodes[i].entries.Keys;
            var r := Entered(fs, i, w, luck, leaf).1;
            && (r == Err(TopLevelAndEmpty) <==> leaf.topLevel && names <= LOGS)
            && (r == Err(NotOurs) <==> names * LIVE == {} && !(names <= LOGS))
            && (r == Ok(i) <==> names * LIVE != {} || (names <= LOGS && !leaf.topLevel))
  {
    assert LIVE * LOGS == {};
  }

  // === The exact walks ===

  /** The directory the first `k` names lead to may be passed, or ended in, and the calls for it work. */
  predicate Passable(fs: Fs, names: seq<string>, k: nat, w: Walker)
    requires k <= |names|
  {
    && w.luck(k).open && w.luck(k).stat && (k > 0 ==> 0 as char !in names[k - 1])
    && var i := Lead(fs, names[..k]);
       i.Some? && IsDir(fs, i.value) && Trusted(fs.nodes[i.value], w.euid, k > 0 && k == |names|)
  }

  lemma EntersIff(fs: Fs, i: nat, w: Walker, luck: Luck, last: bool)
    ensures Entered(fs, i, w, luck, if last then Leaf(OpenDb, true, false) else NotLeaf).1.Ok? <==>
              IsDir(fs, i) && luck.open && luck.stat && Trusted(fs.nodes[i], w.euid, last)
  {
  }

  lemma TopLevelOpens(fs: Fs, i: nat, w: Walker, luck: Luck, topLevel: bool)
    ensures Entered(fs, i, w, luck, Leaf(OpenDb, true, topLevel)) == Entered(fs, i, w, luck, Leaf(OpenDb, true, false))
  {
  }

  lemma StepIff(fs: Fs, d: nat, names: seq<string>, i: nat, w: Walker)
    requires IsDir(fs, d) && i < |names| && Lead(fs, names[..i]) == Some(d)
    ensures var (t, r) := Descended(fs, d, names, i, w, OpenDb);
            && t == fs && (r.Ok? <==> Passable(fs, names, i + 1, w))
            && (r.Ok? ==> Lead(fs, names[..i + 1]) == Some(r.value) && IsDir(fs, r.value))
  {
    LeadStep(fs, names, i);
    if names[i] in fs.nodes[d].entries {
      var j := fs.nodes[d].entries[names[i]];
      EntersIff(fs, j, w, w.luck(i + 1), i == |names| - 1);
      TopLevelOpens(fs, j, w, w.luck(i + 1), |names| == 1);
    }
    hide Trusted;
  }

  lemma {:induction false} ChainIff(fs: Fs, d: nat, names: seq<string>, i: nat, w: Walker, leaf: nat)
    requires IsDir(fs, d) && i <= |names| && Lead(fs, names[..i]) == Some(d)
    ensures Chain(fs, d, names, i, w, OpenDb).1 == Ok(leaf) <==>
              Lead(fs, names) == Some(leaf) && forall k: nat :: i < k <= |names| ==> Passable(fs, names, k, w)
    decreases |names| - i
  {
    if i == |names| {
      assert names[..i] == names;
      ChainStops(fs, d, names, w, OpenDb);
    } else {
      StepIff(fs, d, names, i, w);
      ChainDescends(fs, d, names, i, w, OpenDb);
      var (t, r) := Descended(fs, d, names, i, w, OpenDb);
      hide Descended, Passable, Chain;
      if r.Ok? { ChainIff(fs, r.value, names, i + 1, w, leaf); }
      assert Passable(fs, names, i + 1, w) <==> r.Ok?;
    }
  }

  /** The walk of a database about to be opened ends in the directory the path leads to, without a link,
      exactly if every directory down to it is trusted — the last by its owner's word alone — and no call
      fails. */
  lemma OpensIff(fs: Fs, path: string, w: Walker, leaf: nat)
    ensures var names := Names(path);
            Walked(fs, path, w, OpenDb).1 == Ok(leaf) <==>
              && path != "" && path[0] == '/' && ".." !in names && names != []
              && Lead(fs, names) == Some(leaf) && forall k: nat :: k <= |names| ==> Passable(fs, names, k, w)
  {
    var names := Names(path);
    assert names[..0] == [];
    EntersIff(fs, ROOT, w, w.luck(0), false);
    assert Passable(fs, names, 0, w) <==> Entered(fs, ROOT, w, w.luck(0), NotLeaf).1.Ok?;
    if Passable(fs, names, 0, w) { ChainIff(fs, ROOT, names, 0, w, leaf); }
    hide Passable, Chain, Lead, Trusted, Names;
  }

  /** What the reporting walk makes of a directory the other one has found. */
  function ReportOf(fs: Fs, found: Result<nat>, lists: bool): Result<nat>
    requires found.Ok? ==> IsDir(fs, found.value)
  {
    if found.Err? then found
    else if !lists then Err(System)
    else if HeldIn(fs.nodes[found.value].entries.Keys).Ours? then found
    else Err(NothingToReport)
  }

  lemma StepReports(fs: Fs, d: nat, names: seq<string>, i: nat, w: Walker)
    requires IsDir(fs, d) && i < |names|
    ensures var (t, found) := Descended(fs, d, names, i, w, OpenDb);
            && t == fs && (found.Ok? ==> IsDir(fs, found.value))
            && Descended(fs, d, names, i, w, Report)
               == (fs, if i == |names| - 1 then ReportOf(fs, found, w.luck(i + 1).list) else found)
  {
  }

  lemma {:induction false} ChainReports(fs: Fs, d: nat, names: seq<string>, i: nat, w: Walker)
    requires IsDir(fs, d) && i < |names|
    ensures var found := Chain(fs, d, names, i, w, OpenDb).1;
            && (found.Ok? ==> IsDir(fs, found.value))
            && Chain(fs, d, names, i, w, Report).1 == ReportOf(fs, found, w.luck(|names|).list)
    decreases |names| - i
  {
    StepReports(fs, d, names, i, w);
    ChainDescends(fs, d, names, i, w, OpenDb);
    ChainDescends(fs, d, names, i, w, Report);
    var found := Descended(fs, d, names, i, w, OpenDb).1;
    if i == |names| - 1 {
      if found.Ok? {
        ChainStops(fs, found.value, names, w, OpenDb);
        ChainStops(fs, found.value, names, w, Report);
      }
    } else if found.Ok? {
      hide Descended, ReportOf, Chain;
      ChainReports(fs, found.value, names, i + 1, w);
    }
    hide Descended, Chain;
  }

  /** The reporting walk ends as the other one does, but that it refuses a directory that holds no live
      state, or that it cannot list. */
  lemma ReportsIff(fs: Fs, path: string, w: Walker)
    ensures var found := Walked(fs, path, w, OpenDb).1;
            && (found.Ok? ==> IsDir(fs, found.value))
            && Walked(fs, path, w, Report) == (fs, ReportOf(fs, found, w.luck(|Names(path)|).list))
  {
    LookingChangesNothing(fs, path, w, Report);
    var (t, r) := Entered(fs, ROOT, w, w.luck(0), NotLeaf);
    if path != "" && path[0] == '/' && ".." !in Names(path) && Names(path) != [] && r.Ok? {
      ChainReports(fs, r.value, Names(path), 0, w);
    }
    hide Chain, Names;
  }
}
