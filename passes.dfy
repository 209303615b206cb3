/** The pass state machine of `osm_pbf_parse` (pbf.c): the request mode,
    the box sub-state, which entity kinds a pass reads, and what happens at
    the end of the stream (return, or rewind and start the next pass). */
module Passes {
  import opened Common

  /** The request modes `OSMDATA_DUMP`, `_NODE`, `_WAY`, `_REL` and `_BBOX`.
      A request is an `Option<Mode>`, where `None` is the mode value 0. */
  datatype Mode = Dump | NodeMode | WayMode | RelationMode | BBoxMode

  /** `bbox_state`: the pass a box request is in. */
  datatype BoxState = NoBox | NodesInBox | RelationFind | WayFind | NodesFind

  /** The current `mode` and `bbox_state` together. */
  datatype Pass = Pass(mode: Mode, box: BoxState)

  /** The box state names the pass exactly when the request is a box request. */
  predicate WellFormed(p: Pass) {
    (p.mode == BBoxMode) <==> (p.box != NoBox)
  }

  /** Request validation: mode 0, and a box request without a box, are
      rejected before anything is allocated or read; a box request starts in
      the `NodesInBox` pass, every other request in its own mode. */
  function FirstPass(mode: Option<Mode>, hasBox: bool): (r: Option<Pass>)
    ensures r.None? <==> mode.None? || (mode == Some(BBoxMode) && !hasBox)
    ensures r.Some? ==> WellFormed(r.value) && r.value.mode == mode.value
    ensures r.Some? && r.value.mode == BBoxMode ==> r.value.box == NodesInBox
  {
    match mode
    case None => None
    case Some(m) =>
      if m != BBoxMode then Some(Pass(m, NoBox))
      else if hasBox then Some(Pass(BBoxMode, NodesInBox))
      else None
  }

  /** The three group blocks of the pass body, read as "mode is Dump or the
      kind's own mode, or the box pass that looks for that kind". */
  predicate ReadsNodes(p: Pass) {
    p.mode == Dump || p.mode == NodeMode ||
    (p.mode == BBoxMode && (p.box == NodesInBox || p.box == NodesFind))
  }

  predicate ReadsWays(p: Pass) {
    p.mode == Dump || p.mode == WayMode || (p.mode == BBoxMode && p.box == WayFind)
  }

  predicate ReadsRelations(p: Pass) {
    p.mode == Dump || p.mode == RelationMode || (p.mode == BBoxMode && p.box == RelationFind)
  }

  /** What the end of the stream does: return `data`, or rewind and run
      `next`, first sorting `mem_ways` and `mem_nodes` (`sortMembers`) or
      `bbn` (`sortBoxNodes`). */
  datatype EndAction = Finish | Restart(next: Pass, sortMembers: bool, sortBoxNodes: bool)

  /** The passes left, counting this one; it bounds the pass chain. */
  function Rank(p: Pass): nat {
    match p.mode
    case Dump => 1
    case NodeMode => 1
    case WayMode => 2
    case RelationMode => 3
    case BBoxMode =>
      match p.box
      case NoBox => 0
      case NodesFind => 1
      case WayFind => 2
      case RelationFind => 3
      case NodesInBox => 4
  }

  /** The end-of-stream branch. */
  function AtEndOfStream(p: Pass): (a: EndAction)
    requires WellFormed(p)
    ensures a.Finish? <==> p.mode == Dump || p.mode == NodeMode || p.box == NodesFind
    ensures a.Restart? ==> WellFormed(a.next) && Rank(a.next) == Rank(p) - 1
    ensures a.Restart? ==> (a.next.mode == BBoxMode <==> p.mode == BBoxMode)
    ensures a.Restart? ==> (a.sortMembers <==> p.mode == WayMode || p.mode == RelationMode)
    ensures a.Restart? ==> (a.sortBoxNodes <==> p.box == NodesInBox)
  {
    match p.mode
    case Dump => Finish
    case NodeMode => Finish
    case RelationMode => Restart(Pass(WayMode, NoBox), true, false)
    case WayMode => Restart(Pass(NodeMode, NoBox), true, false)
    case BBoxMode =>
      match p.box
      case NodesFind => Finish
      case WayFind => Restart(Pass(BBoxMode, NodesFind), false, false)
      case RelationFind => Restart(Pass(BBoxMode, WayFind), false, false)
      case NodesInBox => Restart(Pass(BBoxMode, RelationFind), false, true)
  }

  /** The passes a request runs, from `p` to the one that returns. */
  function Chain(p: Pass): (c: seq<Pass>)
    requires WellFormed(p)
    decreases Rank(p)
    ensures |c| == Rank(p) && c[0] == p
    ensures forall i :: 0 <= i < |c| ==> WellFormed(c[i])
  {
    match AtEndOfStream(p)
    case Finish => [p]
    case Restart(q, _, _) => [p] + Chain(q)
  }

  /** The chain starts at the requested mode: a relation request runs the
      relation, way and node passes; a way request the way and node passes;
      a node or dump request a single pass; a box request its four passes. */
  lemma {:induction false} PassChains()
    ensures Chain(Pass(RelationMode, NoBox)) == [Pass(RelationMode, NoBox), Pass(WayMode, NoBox), Pass(NodeMode, NoBox)]
    ensures Chain(Pass(WayMode, NoBox)) == [Pass(WayMode, NoBox), Pass(NodeMode, NoBox)]
    ensures Chain(Pass(NodeMode, NoBox)) == [Pass(NodeMode, NoBox)]
    ensures Chain(Pass(Dump, NoBox)) == [Pass(Dump, NoBox)]
    ensures Chain(Pass(BBoxMode, NodesInBox)) ==
      [Pass(BBoxMode, NodesInBox), Pass(BBoxMode, RelationFind), Pass(BBoxMode, WayFind), Pass(BBoxMode, NodesFind)]
  {
    assert Chain(Pass(NodeMode, NoBox)) == [Pass(NodeMode, NoBox)];
    assert Chain(Pass(WayMode, NoBox)) == [Pass(WayMode, NoBox)] + Chain(Pass(NodeMode, NoBox));
    assert Chain(Pass(BBoxMode, NodesFind)) == [Pass(BBoxMode, NodesFind)];
    assert Chain(Pass(BBoxMode, WayFind)) == [Pass(BBoxMode, WayFind)] + Chain(Pass(BBoxMode, NodesFind));
    assert Chain(Pass(BBoxMode, RelationFind)) == [Pass(BBoxMode, RelationFind)] + Chain(Pass(BBoxMode, WayFind));
  }

  /** A way or node request never runs a relation pass, and a node or dump
      request runs no other pass than its own. */
  lemma {:induction false} RelationsReadOnlyWhenRequested(p: Pass, i: nat)
    requires WellFormed(p) && i < |Chain(p)|
    ensures ReadsRelations(Chain(p)[i]) ==> p.mode == Dump || p.mode == RelationMode || p.mode == BBoxMode
    ensures p.mode == WayMode ==> !ReadsRelations(Chain(p)[i])
    decreases Rank(p)
  {
    if i > 0 {
      RelationsReadOnlyWhenRequested(AtEndOfStream(p).next, i - 1);
    }
  }

  /** The end of a pass that is followed by another pass. */
  predicate RestartsAfter(c: seq<Pass>, i: nat)
    requires i < |c| && WellFormed(c[i])
  {
    AtEndOfStream(c[i]).Restart?
  }

  /** Along a box request, `mem_ways` and `mem_nodes` are never sorted and
      `bbn` is sorted exactly once, when the `NodesInBox` pass ends; along a
      way or relation request every restart sorts `mem_ways` and
      `mem_nodes` and never `bbn`. */
  lemma {:induction false} SortsAlongChain(p: Pass, i: nat)
    requires WellFormed(p) && i < |Chain(p)| && RestartsAfter(Chain(p), i)
    ensures p.mode == BBoxMode ==>
      !AtEndOfStream(Chain(p)[i]).sortMembers &&
      (AtEndOfStream(Chain(p)[i]).sortBoxNodes <==> i == 0 && p.box == NodesInBox)
    ensures p.mode != BBoxMode ==>
      AtEndOfStream(Chain(p)[i]).sortMembers && !AtEndOfStream(Chain(p)[i]).sortBoxNodes
    decreases Rank(p)
  {
    if i > 0 {
      var q := AtEndOfStream(p).next;
      SortsAlongChain(q, i - 1);
    }
  }
}
