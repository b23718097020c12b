/** A file system as a map from absolute paths to nodes.  What a symbolic link leads to is not
    part of it: the code refuses every path that meets one. */
module Files {
  import opened Chunks

  /** The components of an absolute path; the root is the empty path. */
  type Path = seq<string>

  datatype Node = DirNode | FileNode(content: Bytes, mode: bv9) | LinkNode

  type Nodes = map<Path, Node>

  function Parent(p: Path): Path
    requires p != []
  {
    p[..|p| - 1]
  }

  /** Whatever lies above an existing node exists and is a directory. */
  ghost predicate Tree(nodes: Nodes) {
    && [] in nodes && nodes[[]].DirNode?
    && forall p, k :: p in nodes && 0 <= k < |p| ==> p[..k] in nodes && nodes[p[..k]].DirNode?
  }

  ghost predicate PrefixClosed(nodes: Nodes) {
    && [] in nodes
    && forall p, k :: p in nodes && 0 <= k < |p| ==> p[..k] in nodes
  }

  /** Every node on the way to p, p included, is a directory. */
  ghost predicate NoFileOn(nodes: Nodes, p: Path) {
    forall k :: 0 <= k <= |p| && p[..k] in nodes ==> nodes[p[..k]].DirNode?
  }

  /** Some node on the way to p, p included, is a symbolic link. */
  predicate ThroughLink(nodes: Nodes, p: Path) {
    exists k :: 0 <= k <= |p| && p[..k] in nodes && nodes[p[..k]].LinkNode?
  }

  // ----- Creating a directory and everything above it -----

  datatype Effect = Effect(nodes: Nodes, ok: bool)

  /** Directories deeper than reach cannot be created: the file system's own failures. */
  function MkdirSpec(nodes: Nodes, p: Path, reach: nat): Effect {
    if p in nodes then Effect(nodes, nodes[p].DirNode?)
    else if p == [] then Effect(nodes, false)
    else
      var above := MkdirSpec(nodes, Parent(p), reach);
      if !above.ok || |p| > reach then Effect(above.nodes, false) else Effect(above.nodes[p := DirNode], true)
  }

  /** Existing nodes stay as they are and whatever is new is a directory on the way to p. */
  ghost predicate OnlyDirsOnTheWay(before: Nodes, after: Nodes, p: Path) {
    && (forall q :: q in before ==> q in after && after[q] == before[q])
    && (forall q :: q in after && q !in before ==> q <= p && after[q] == DirNode)
  }

  lemma {:induction false} MkdirAllFrame(nodes: Nodes, p: Path, reach: nat)
    ensures OnlyDirsOnTheWay(nodes, MkdirSpec(nodes, p, reach).nodes, p)
  {
    if p !in nodes && p != [] {
      MkdirAllFrame(nodes, Parent(p), reach);
      assert Parent(p) <= p;
    }
  }

  lemma {:induction false} MkdirAllCreates(nodes: Nodes, p: Path, reach: nat)
    requires PrefixClosed(nodes) && MkdirSpec(nodes, p, reach).ok
    ensures
      var after := MkdirSpec(nodes, p, reach).nodes;
      && p in after && after[p].DirNode?
      && forall q :: q <= p ==> q in after
  {
    var after := MkdirSpec(nodes, p, reach).nodes;
    if p in nodes {
      forall q | q <= p
        ensures q in nodes
      {
        assert q == p[..|q|];
        assert |q| == |p| ==> q == p;
      }
    } else {
      MkdirAllCreates(nodes, Parent(p), reach);
      forall q | q <= p
        ensures q in after
      {
        assert q == p || q <= Parent(p);
      }
    }
  }

  lemma {:induction false} MkdirAllWorks(nodes: Nodes, p: Path, reach: nat)
    requires [] in nodes && NoFileOn(nodes, p) && |p| <= reach
    ensures MkdirSpec(nodes, p, reach).ok
  {
    assert p[..|p|] == p;
    if p !in nodes {
      var above := Parent(p);
      forall k | 0 <= k <= |above| && above[..k] in nodes
        ensures nodes[above[..k]].DirNode?
      {
        assert above[..k] == p[..k];
      }
      MkdirAllWorks(nodes, above, reach);
    }
  }

  /** The disk that the methods below change in place. */
  class Disk {
    var nodes: Nodes

    constructor (start: Nodes)
      ensures nodes == start
    {
      nodes := start;
    }

    method MkdirAll(p: Path, reach: nat) returns (ok: bool)
      modifies this
      ensures Effect(nodes, ok) == MkdirSpec(old(nodes), p, reach)
      decreases |p|
    {
      if p in nodes {
        return nodes[p].DirNode?;
      }
      if p == [] {
        return false;
      }
      ok := MkdirAll(Parent(p), reach);
      if !ok || |p| > reach {
        return false;
      }
      nodes := nodes[p := DirNode];
    }

    /** Moves a finished temporary file to its place, replacing a file that is there. */
    method Rename(p: Path, content: Bytes, mode: bv9) returns (ok: bool)
      modifies this
      ensures ok <==> !(p in old(nodes) && old(nodes)[p].DirNode?)
      ensures nodes == if ok then old(nodes)[p := FileNode(content, mode)] else old(nodes)
    {
      if p in nodes && nodes[p].DirNode? {
        return false;
      }
      nodes := nodes[p := FileNode(content, mode)];
      ok := true;
    }
  }
}
