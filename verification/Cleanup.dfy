/** Deleting a work directory around the paths to keep (`_remove_around` in
    gpuc/host/cleanup.py). */
module Cleanup {
  import opened Lists

  type Part(==, !new)
  type Path = seq<Part>

  datatype Kind = File | Symlink | Dir

  /** `path.is_relative_to(top)` */
  predicate AtOrBelow(top: Path, path: Path) {
    top <= path
  }

  predicate Below(top: Path, path: Path) {
    top < path
  }

  function Parent(path: Path): Path
    requires path != []
  {
    path[..|path| - 1]
  }

  /** Under this directory, what contains a node is a directory. */
  predicate IsTree(nodes: map<Path, Kind>, top: Path) {
    forall p :: p in nodes && Below(top, p) && Parent(p) != top ==> Parent(p) in nodes && nodes[Parent(p)] == Dir
  }

  /** What is to be left: what is at or below a kept path, and the directories
      and symlinks that lead to one. */
  predicate Survives(path: Path, kind: Kind, keep: set<Path>) {
    exists k :: k in keep && (AtOrBelow(k, path) || (Below(path, k) && kind != File))
  }

  predicate NoneAround(top: Path, keep: set<Path>) {
    forall k :: k in keep ==> !AtOrBelow(k, top)
  }

  function Survivors(nodes: map<Path, Kind>, top: Path, keep: set<Path>): map<Path, Kind> {
    map p | p in nodes && (Below(top, p) ==> Survives(p, nodes[p], keep)) :: nodes[p]
  }

  function Children(nodes: map<Path, Kind>, top: Path): set<Path> {
    set p | p in nodes && Below(top, p) && Parent(p) == top
  }

  /** The nodes strictly under a directory. */
  function Under(nodes: map<Path, Kind>, top: Path): set<Path> {
    set p | p in nodes && Below(top, p)
  }

  /** The child of `top` on the way to a node under it. */
  function Branch(top: Path, path: Path): Path
    requires Below(top, path)
  {
    path[..|top| + 1]
  }

  /** The tree once the branches of `todo` are all that is left to do. */
  ghost predicate Partly(nodes: map<Path, Kind>, first: map<Path, Kind>, top: Path, keep: set<Path>, todo: set<Path>) {
    && (forall p :: p in nodes ==> p in first && nodes[p] == first[p])
    && (forall p :: p in first ==>
         (p in nodes <==> (Below(top, p) && Branch(top, p) !in todo ==> Survives(p, first[p], keep))))
  }

  lemma {:induction false} BranchIsAChild(nodes: map<Path, Kind>, top: Path, path: Path)
    requires IsTree(nodes, top) && path in nodes && Below(top, path)
    ensures Branch(top, path) in Children(nodes, top)
    ensures Branch(top, path) != path ==> nodes[Branch(top, path)] == Dir
    decreases |path|
  {
    if Parent(path) == top {
      assert Branch(top, path) == path;
    } else {
      assert Below(top, Parent(path)) && Branch(top, Parent(path)) == Branch(top, path);
      BranchIsAChild(nodes, top, Parent(path));
    }
  }

  lemma {:induction false} AboveAChild(top: Path, child: Path, k: Path)
    requires Below(top, child) && Parent(child) == top
    ensures AtOrBelow(k, child) <==> k == child || AtOrBelow(k, top)
  {
    if AtOrBelow(k, child) && |k| < |child| {
      assert k == child[..|k|] == top[..|k|];
    }
  }

  /** Two paths at or above a third are one above the other. */
  lemma {:induction false} Comparable(a: Path, b: Path, path: Path)
    requires AtOrBelow(b, path)
    ensures AtOrBelow(a, path) ==> AtOrBelow(a, b) || AtOrBelow(b, a)
  {
    if AtOrBelow(a, path) {
      if |a| <= |b| {
        assert a == path[..|a|] == b[..|a|];
      } else {
        assert b == path[..|b|] == a[..|b|];
      }
    }
  }

  /** A child that is not kept itself has no kept path at or above it. */
  lemma {:induction false} NoneAroundChild(top: Path, child: Path, keep: set<Path>)
    requires NoneAround(top, keep) && Below(top, child) && Parent(child) == top && child !in keep
    ensures NoneAround(child, keep)
  {
    forall k | k in keep
      ensures !AtOrBelow(k, child)
    {
      AboveAChild(top, child, k);
    }
  }

  predicate Leads(child: Path, keep: set<Path>) {
    exists k :: k in keep && AtOrBelow(child, k)
  }

  /** Nothing of a branch that leads to no kept path survives. */
  lemma {:induction false} NothingSurvives(child: Path, path: Path, kind: Kind, keep: set<Path>)
    requires NoneAround(child, keep) && AtOrBelow(child, path) && !Leads(child, keep)
    ensures !Survives(path, kind, keep)
  {
    forall k | k in keep
      ensures !AtOrBelow(k, path) && !Below(path, k)
    {
      Comparable(k, child, path);
    }
  }

  /** A node alone: a kept one, or a link or directory above a kept path, is
      left, and what is no directory otherwise goes. */
  lemma {:induction false} NodeSurvives(child: Path, kind: Kind, keep: set<Path>)
    requires NoneAround(child, keep)
    ensures Survives(child, kind, keep) <==> Leads(child, keep) && kind != File
  {
    if Leads(child, keep) {
      var k :| k in keep && AtOrBelow(child, k);
      assert !AtOrBelow(k, child);
      assert Below(child, k);
    }
  }

  /** What is done about one child brings the tree one branch further. */
  ghost predicate Handled(before: map<Path, Kind>, after: map<Path, Kind>, child: Path, keep: set<Path>) {
    && (forall p :: p in after ==> p in before && after[p] == before[p])
    && (forall p :: p in before ==> (p in after <==> (AtOrBelow(child, p) ==> Survives(p, before[p], keep))))
  }

  lemma {:induction false} OneBranchFurther(before: map<Path, Kind>, after: map<Path, Kind>, first: map<Path, Kind>, top: Path, keep: set<Path>, todo: set<Path>, child: Path)
    requires Partly(before, first, top, keep, todo + {child}) && Handled(before, after, child, keep)
    requires Below(top, child) && Parent(child) == top && child !in todo
    ensures Partly(after, first, top, keep, todo)
  {
    forall p | p in first
      ensures p in after <==> (Below(top, p) && Branch(top, p) !in todo ==> Survives(p, first[p], keep))
    {
      assert AtOrBelow(child, p) <==> Below(top, p) && Branch(top, p) == child;
    }
  }

  /** A directory and the tree under it, or a node with nothing under it. */
  predicate IsBranch(nodes: map<Path, Kind>, child: Path) {
    && child in nodes
    && if nodes[child] == Dir then IsTree(nodes, child) else forall p :: p in nodes ==> !Below(child, p)
  }

  lemma {:induction false} ChildIsABranch(nodes: map<Path, Kind>, top: Path, child: Path)
    requires IsTree(nodes, top) && child in Children(nodes, top)
    ensures IsBranch(nodes, child)
  {
    forall p | p in nodes && Below(child, p)
      ensures nodes[child] == Dir && (Parent(p) != child ==> Parent(p) in nodes && nodes[Parent(p)] == Dir)
    {
      assert Below(top, p) && Branch(top, p) == child;
      BranchIsAChild(nodes, top, p);
    }
  }

  lemma {:induction false} StillABranch(nodes: map<Path, Kind>, first: map<Path, Kind>, top: Path, keep: set<Path>, todo: set<Path>, child: Path)
    requires Partly(nodes, first, top, keep, todo + {child}) && Below(top, child) && Parent(child) == top
    requires IsBranch(first, child)
    ensures IsBranch(nodes, child)
  {
    forall p | AtOrBelow(child, p)
      ensures p in nodes <==> p in first
    {
      assert Below(top, p) && Branch(top, p) == child;
    }
    forall p | p in nodes && Below(child, p) && Parent(p) != child
      ensures Parent(p) in first ==> Parent(p) in nodes
    {
      assert AtOrBelow(child, Parent(p));
    }
  }

  lemma {:induction false} AllToDo(nodes: map<Path, Kind>, top: Path, keep: set<Path>)
    requires IsTree(nodes, top)
    ensures Partly(nodes, nodes, top, keep, Children(nodes, top))
  {
    forall p | p in nodes && Below(top, p)
      ensures Branch(top, p) in Children(nodes, top)
    {
      BranchIsAChild(nodes, top, p);
    }
  }

  lemma {:induction false} AllDone(nodes: map<Path, Kind>, first: map<Path, Kind>, top: Path, keep: set<Path>)
    requires Partly(nodes, first, top, keep, {})
    ensures nodes == Survivors(first, top, keep)
  {
  }

  lemma {:induction false} FewerUnder(nodes: map<Path, Kind>, first: map<Path, Kind>, top: Path)
    requires forall p :: p in nodes ==> p in first
    ensures |Under(nodes, top)| <= |Under(first, top)|
  {
    SubsetCount(Under(nodes, top), Under(first, top));
  }

  lemma {:induction false} FewerBelow(nodes: map<Path, Kind>, top: Path, child: Path)
    requires child in nodes && Below(top, child)
    ensures |Under(nodes, child)| < |Under(nodes, top)|
  {
    SubsetCount(Under(nodes, child), Under(nodes, top) - {child});
  }

  /** Going on below a directory that leads to a kept path. */
  lemma {:induction false} HandledBelow(before: map<Path, Kind>, after: map<Path, Kind>, child: Path, keep: set<Path>)
    requires after == Survivors(before, child, keep) && child in before && NoneAround(child, keep)
    requires Leads(child, keep) && before[child] == Dir
    ensures Handled(before, after, child, keep)
  {
    NodeSurvives(child, Dir, keep);
    assert forall p :: AtOrBelow(child, p) <==> p == child || Below(child, p);
  }

  lemma {:induction false} HandledGone(before: map<Path, Kind>, after: map<Path, Kind>, child: Path, keep: set<Path>)
    requires NoneAround(child, keep) && !Leads(child, keep)
    requires after == map p | p in before && !AtOrBelow(child, p) :: before[p]
    ensures Handled(before, after, child, keep)
  {
    forall p | p in before && AtOrBelow(child, p)
      ensures !Survives(p, before[p], keep)
    {
      NothingSurvives(child, p, before[p], keep);
    }
  }

  lemma {:induction false} HandledAlone(before: map<Path, Kind>, after: map<Path, Kind>, child: Path, keep: set<Path>)
    requires NoneAround(child, keep) && IsBranch(before, child) && before[child] != Dir
    requires after == if Leads(child, keep) && before[child] == Symlink then before else before - {child}
    ensures Handled(before, after, child, keep)
  {
    NodeSurvives(child, before[child], keep);
    assert forall p :: p in before && AtOrBelow(child, p) ==> p == child;
  }

  lemma {:induction false} HandledKept(before: map<Path, Kind>, child: Path, keep: set<Path>)
    requires child in keep
    ensures Handled(before, before, child, keep)
  {
  }

  class Disk {
    var nodes: map<Path, Kind>

    constructor (nodes: map<Path, Kind>)
      ensures this.nodes == nodes
    {
      this.nodes := nodes;
    }

    method Unlink(path: Path)
      modifies this
      ensures nodes == old(nodes) - {path}
    {
      nodes := nodes - {path};
    }

    /** `shutil.rmtree` */
    method RemoveTree(path: Path)
      modifies this
      ensures nodes == map p | p in old(nodes) && !AtOrBelow(path, p) :: old(nodes)[p]
    {
      nodes := map p | p in nodes && !AtOrBelow(path, p) :: nodes[p];
    }

    /** `_remove_around`: what is left of the tree is exactly the survivors of
        the kept paths that are not at or above the directory itself. */
    method RemoveAround(directory: Path, keep: set<Path>)
      requires IsTree(nodes, directory)
      modifies this
      ensures nodes == Survivors(old(nodes), directory, Inside(directory, keep))
      decreases |Under(nodes, directory)|, 1
    {
      hide IsTree, Partly, Survivors, Under, Handled, IsBranch, Inside;
      ghost var first, inside := nodes, Inside(directory, keep);
      var todo := Children(nodes, directory);
      AllToDo(nodes, directory, inside);
      while |todo| > 0
        invariant Partly(nodes, first, directory, inside, todo)
        invariant todo <= Children(first, directory)
        decreases |todo|
      {
        var child := OneOf(todo);
        assert todo == (todo - {child}) + {child};
        todo := todo - {child};
        ghost var before := nodes;
        ChildIsABranch(first, directory, child);
        StillABranch(nodes, first, directory, inside, todo, child);
        PartlyFewer(nodes, first, directory, inside, todo + {child});
        RemoveChild(directory, child, keep);
        OneBranchFurther(before, nodes, first, directory, inside, todo, child);
      }
      assert todo == {};
      AllDone(nodes, first, directory, inside);
    }

    method RemoveChild(directory: Path, child: Path, keep: set<Path>)
      requires IsBranch(nodes, child) && Below(directory, child) && Parent(child) == directory
      modifies this
      ensures Handled(old(nodes), nodes, child, Inside(directory, keep))
      decreases |Under(nodes, directory)|, 0
    {
      hide IsTree, NoneAround, Survivors, Under, Handled, Inside;
      ghost var before, inside := nodes, Inside(directory, keep);
      InsideChild(directory, child, keep);
      if child in keep {
        HandledKept(nodes, child, inside);
        return;
      }
      NoneAroundChild(directory, child, inside);
      var leads := exists k :: k in keep && AtOrBelow(child, k);
      if nodes[child] == Symlink {
        if !leads {
          Unlink(child);
        }
        HandledAlone(before, nodes, child, inside);
      } else if nodes[child] == Dir {
        if leads {
          FewerBelow(nodes, directory, child);
          RemoveAround(child, keep);
          HandledBelow(before, nodes, child, inside);
        } else {
          RemoveTree(child);
          HandledGone(before, nodes, child, inside);
        }
      } else {
        Unlink(child);
        HandledAlone(before, nodes, child, inside);
      }
    }
  }

  /** The kept paths that are not at or above this directory. */
  function Inside(top: Path, keep: set<Path>): set<Path> {
    set k | k in keep && !AtOrBelow(k, top)
  }

  lemma {:induction false} InsideChild(top: Path, child: Path, keep: set<Path>)
    requires Below(top, child) && Parent(child) == top
    ensures NoneAround(top, Inside(top, keep))
    ensures child in keep <==> child in Inside(top, keep)
    ensures Leads(child, keep) <==> Leads(child, Inside(top, keep))
    ensures child !in keep ==> Inside(child, keep) == Inside(top, keep)
  {
    forall k
      ensures AtOrBelow(k, child) <==> k == child || AtOrBelow(k, top)
    {
      AboveAChild(top, child, k);
    }
    forall k | AtOrBelow(child, k)
      ensures !AtOrBelow(k, top)
    {
      assert |k| > |top|;
    }
    if Leads(child, keep) {
      var k :| k in keep && AtOrBelow(child, k);
      assert k in Inside(top, keep);
    }
  }

  /** For kept paths strictly inside, that is exactly what is at or below a kept
      path and the directories and symlinks above one; and it is those only. */
  lemma {:induction false} KeepsExactly(nodes: map<Path, Kind>, top: Path, keep: set<Path>, path: Path)
    requires (forall k :: k in keep ==> Below(top, k)) && path in nodes && Below(top, path)
    ensures path in Survivors(nodes, top, Inside(top, keep)) <==>
      exists k :: k in keep && (AtOrBelow(k, path) || (Below(path, k) && nodes[path] != File))
  {
    assert Inside(top, keep) == keep;
  }

  /** And for any: a kept path at or above the directory counts for nothing; and
      what is not under the directory is left as it is. */
  lemma {:induction false} KeepsWhatItShould(nodes: map<Path, Kind>, top: Path, keep: set<Path>, path: Path)
    requires path in nodes
    ensures path in Survivors(nodes, top, Inside(top, keep)) <==>
      (top < path ==> exists k :: k in keep && !(k <= top) && (k <= path || (path < k && nodes[path] != File)))
    ensures path in Survivors(nodes, top, Inside(top, keep)) ==> Survivors(nodes, top, Inside(top, keep))[path] == nodes[path]
  {
    var inside := Inside(top, keep);
    if exists k :: k in keep && !(k <= top) && (k <= path || (path < k && nodes[path] != File)) {
      var k :| k in keep && !(k <= top) && (k <= path || (path < k && nodes[path] != File));
      assert k in inside;
    }
  }

  /** A path kept at or above the directory itself protects nothing in it. */
  lemma {:induction false} OuterKeepIsIgnored(nodes: map<Path, Kind>, top: Path, keep: set<Path>, outer: Path)
    requires AtOrBelow(outer, top)
    ensures Survivors(nodes, top, Inside(top, keep + {outer})) == Survivors(nodes, top, Inside(top, keep))
  {
    assert Inside(top, keep + {outer}) == Inside(top, keep);
  }

  lemma {:induction false} ParentSurvives(path: Path, kind: Kind, keep: set<Path>)
    requires path != [] && Survives(path, kind, keep)
    ensures Survives(Parent(path), Dir, keep)
  {
    var k :| k in keep && (AtOrBelow(k, path) || (Below(path, k) && kind != File));
    if AtOrBelow(k, path) && k != path {
      assert k == path[..|k|] == Parent(path)[..|k|];
      assert AtOrBelow(k, Parent(path));
    } else {
      assert Below(Parent(path), k);
    }
  }

  /** What is left is a tree, and doing it again changes nothing. */
  lemma {:induction false} LeavesATree(nodes: map<Path, Kind>, top: Path, keep: set<Path>)
    requires IsTree(nodes, top)
    ensures IsTree(Survivors(nodes, top, keep), top)
    ensures Survivors(Survivors(nodes, top, keep), top, keep) == Survivors(nodes, top, keep)
  {
    var left := Survivors(nodes, top, keep);
    forall p | p in left && Below(top, p) && Parent(p) != top
      ensures Parent(p) in left && left[Parent(p)] == Dir
    {
      ParentSurvives(p, nodes[p], keep);
    }
  }

  lemma {:induction false} PartlyFewer(nodes: map<Path, Kind>, first: map<Path, Kind>, top: Path, keep: set<Path>, todo: set<Path>)
    requires Partly(nodes, first, top, keep, todo)
    ensures |Under(nodes, top)| <= |Under(first, top)|
  {
    FewerUnder(nodes, first, top);
  }
}
