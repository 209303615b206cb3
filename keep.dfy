/** The keep rules of `osm_pbf_parse` (pbf.c): which decoded entities a pass
    appends to the result lists, which IDs it adds to the member indexes,
    and the outcome of a whole group of entities in one pass. */
module Keep {
  import opened Common
  import opened Proto
  import opened Osm
  import opened Members
  import opened Decode
  import opened Dense
  import opened Passes

  /** The three caller-supplied filters; `None` is a NULL filter. */
  datatype Filters = Filters(node: Option<OsmNode -> bool>, way: Option<OsmWay -> bool>,
                             relation: Option<OsmRelation -> bool>)

  /** A NULL filter lets everything through. */
  predicate Accepts<T>(f: Option<T -> bool>, x: T) {
    f.None? || f.value(x)
  }

  /** What a pass works with: the pass itself, the box, the filters, and the
      indexes it searches as they stand during the pass (`mem_nodes` and
      `mem_ways` are `None` where the source leaves them NULL). */
  datatype Context = Context(pass: Pass, bbox: Option<BBox>, filters: Filters,
                             memNodes: Option<IndexState>, memWays: Option<IndexState>,
                             bbn: IndexState, ext: Externals)

  /** A box request has a box; a dump has no `mem_nodes` and no `mem_ways`. */
  predicate ValidContext(c: Context) {
    WellFormed(c.pass) && (c.pass.mode == BBoxMode ==> c.bbox.Some?) &&
    (c.pass.mode == Dump <==> c.memNodes.None?) && (c.pass.mode == Dump <==> c.memWays.None?)
  }

  predicate InMemNodes(c: Context, id: int)
    requires c.memNodes.Some?
  {
    Contains(c.memNodes.value, id, c.ext)
  }

  predicate InMemWays(c: Context, id: int)
    requires c.memWays.Some?
  {
    Contains(c.memWays.value, id, c.ext)
  }

  /** Whether some ID of `ids` is found in the index. */
  predicate SomeFound(ix: IndexState, ids: seq<int>, ext: Externals) {
    exists b :: 0 <= b < |ids| && Contains(ix, ids[b], ext)
  }

  /** The node keep rule, once a node has been built: in a node pass a node
      is kept when `mem_nodes` holds it or a filter accepts it; in the
      `NodesFind` pass when `mem_nodes` holds it, or `bbn` holds it and the
      filter (if any) accepts it; in a dump when the filter (if any) accepts
      it. In the `NodesInBox` pass a plain node that reaches this rule (one
      outside the box) is kept. */
  function KeepNode(c: Context, n: OsmNode): (keep: bool)
    requires ValidContext(c) && ReadsNodes(c.pass)
    ensures c.pass.mode == Dump ==> (keep <==> Accepts(c.filters.node, n))
    ensures c.pass.mode == NodeMode ==>
      (keep <==> InMemNodes(c, n.id) || (c.filters.node.Some? && c.filters.node.value(n)))
    ensures c.pass.box == NodesFind ==>
      (keep <==> InMemNodes(c, n.id) || (Contains(c.bbn, n.id, c.ext) && Accepts(c.filters.node, n)))
    ensures c.pass.box == NodesInBox ==> keep
  {
    if c.pass.mode == BBoxMode then
      if c.pass.box == NodesFind && !InMemNodes(c, n.id) then
        if !Contains(c.bbn, n.id, c.ext) then false
        else !(c.filters.node.Some? && !c.filters.node.value(n))
      else true
    else if c.pass.mode == NodeMode && c.filters.node.Some? then
      !(!InMemNodes(c, n.id) && !c.filters.node.value(n))
    else if c.pass.mode == NodeMode && !InMemNodes(c, n.id) then false
    else !(c.filters.node.Some? && !c.filters.node.value(n))
  }

  /** The way keep rule, given the way and its decoded references: in the
      `WayFind` pass a way is kept when one of its references is in `bbn`
      and the filter (if any) accepts it, or when `mem_ways` holds it; in a
      way pass when `mem_ways` holds it or a filter accepts it; in a dump
      when the filter (if any) accepts it. */
  function KeepWay(c: Context, w: OsmWay, refs: seq<int>): (keep: bool)
    requires ValidContext(c) && ReadsWays(c.pass)
    ensures c.pass.box == WayFind ==>
      (keep <==> (SomeFound(c.bbn, refs, c.ext) && Accepts(c.filters.way, w)) || InMemWays(c, w.id))
    ensures c.pass.mode == WayMode ==>
      (keep <==> InMemWays(c, w.id) || (c.filters.way.Some? && c.filters.way.value(w)))
    ensures c.pass.mode == Dump ==> (keep <==> Accepts(c.filters.way, w))
  {
    if c.pass.box == WayFind then
      var member := SomeFound(c.bbn, refs, c.ext) && Accepts(c.filters.way, w);
      !(!member && !InMemWays(c, w.id))
    else if c.pass.mode == WayMode && c.filters.way.Some? then
      !(!InMemWays(c, w.id) && !c.filters.way.value(w))
    else if c.pass.mode == WayMode && !InMemWays(c, w.id) then false
    else !(c.filters.way.Some? && !c.filters.way.value(w))
  }

  /** The relation keep rule, given the relation and its node members: in
      the `RelationFind` pass a relation is kept when one of its node
      members is in `bbn` and the filter (if any) accepts it; in any other
      pass when the filter (if any) accepts it. Member indexes play no part
      outside the box pass. */
  function KeepRelation(c: Context, r: OsmRelation, nref: seq<int>): (keep: bool)
    requires ValidContext(c) && ReadsRelations(c.pass)
    ensures c.pass.box == RelationFind ==>
      (keep <==> SomeFound(c.bbn, nref, c.ext) && Accepts(c.filters.relation, r))
    ensures c.pass.box != RelationFind ==> (keep <==> Accepts(c.filters.relation, r))
  {
    if c.pass.box == RelationFind then
      var member := SomeFound(c.bbn, nref, c.ext) && Accepts(c.filters.relation, r);
      member
    else !(c.filters.relation.Some? && !c.filters.relation.value(r))
  }

  /** What a run of nodes contributes: nodes appended to the node list and
      IDs added to `bbn`. */
  datatype NodeYield = NodeYield(stored: seq<OsmNode>, boxed: seq<int>)

  const NoNodes: NodeYield := NodeYield([], [])

  function JoinNodes(a: NodeYield, b: NodeYield): NodeYield {
    NodeYield(a.stored + b.stored, a.boxed + b.boxed)
  }

  /** One plain node: in the `NodesInBox` pass a node inside the box only
      has its ID added to `bbn` (it is not decoded further); any other node
      is decoded and then stored if the keep rule says so. */
  function PlainNodeStep(node: Proto.Node, P: PrimitiveBlock, c: Context): (r: Outcome<NodeYield>)
    requires ValidContext(c) && ReadsNodes(c.pass)
    ensures r.Ok? ==> |r.value.stored| + |r.value.boxed| <= 1
  {
    var lat := Degrees(P.latOffset, node.lat, P.granularity);
    var lon := Degrees(P.lonOffset, node.lon, P.granularity);
    if c.pass.box == NodesInBox && Inside(c.bbox.value, lat, lon) then Ok(NodeYield([], [node.id]))
    else
      match PlainNode(node, P)
      case Crash => Crash
      case Ok(n) => Ok(NodeYield(if KeepNode(c, n) then [n] else [], []))
  }

  /** A run of plain nodes; a node that cannot be decoded makes it a `Crash`. */
  function PlainNodesPass(nodes: seq<Proto.Node>, P: PrimitiveBlock, c: Context): Outcome<NodeYield>
    requires ValidContext(c) && ReadsNodes(c.pass)
  {
    if nodes == [] then Ok(NoNodes)
    else
      match PlainNodesPass(nodes[..|nodes| - 1], P, c)
      case Crash => Crash
      case Ok(y) =>
        match PlainNodeStep(nodes[|nodes| - 1], P, c)
        case Crash => Crash
        case Ok(s) => Ok(JoinNodes(y, s))
  }

  /** One decoded dense node: in the `NodesInBox` pass it is never stored,
      and its ID goes to `bbn` when it is inside the box; in any other pass
      the keep rule decides. */
  function DenseNodeStep(n: OsmNode, c: Context): NodeYield
    requires ValidContext(c) && ReadsNodes(c.pass)
  {
    if c.pass.box == NodesInBox then NodeYield([], if Inside(c.bbox.value, n.lat, n.lon) then [n.id] else [])
    else NodeYield(if KeepNode(c, n) then [n] else [], [])
  }

  function DenseNodesPass(ns: seq<OsmNode>, c: Context): NodeYield
    requires ValidContext(c) && ReadsNodes(c.pass)
  {
    if ns == [] then NoNodes else JoinNodes(DenseNodesPass(ns[..|ns| - 1], c), DenseNodeStep(ns[|ns| - 1], c))
  }

  /** What a run of ways contributes: ways appended to the way list and
      references added to `mem_nodes`. */
  datatype WayYield = WayYield(stored: seq<OsmWay>, added: seq<int>)

  /** One way: decoded, then kept or dropped; a kept way with references
      adds them to `mem_nodes`, which a dump leaves NULL. */
  function WayStep(W: Way, P: PrimitiveBlock, c: Context): Outcome<WayYield>
    requires ValidContext(c) && ReadsWays(c.pass)
  {
    match DecodedWay(W, P)
    case Crash => Crash
    case Ok(d) =>
      if !KeepWay(c, d.0, d.1) then Ok(WayYield([], []))
      else if |d.1| > 0 && c.memNodes.None? then Crash
      else Ok(WayYield([d.0], d.1))
  }

  function WaysPass(ws: seq<Way>, P: PrimitiveBlock, c: Context): Outcome<WayYield>
    requires ValidContext(c) && ReadsWays(c.pass)
  {
    if ws == [] then Ok(WayYield([], []))
    else
      match WaysPass(ws[..|ws| - 1], P, c)
      case Crash => Crash
      case Ok(y) =>
        match WayStep(ws[|ws| - 1], P, c)
        case Crash => Crash
        case Ok(s) => Ok(WayYield(y.stored + s.stored, y.added + s.added))
  }

  /** What a run of relations contributes: relations appended to the
      relation list, node members added to `mem_nodes` and way members added
      to `mem_ways`. */
  datatype RelationYield = RelationYield(stored: seq<OsmRelation>, nodeRefs: seq<int>, wayRefs: seq<int>)

  /** One relation: decoded, then kept or dropped; a kept relation with node
      or way members adds them to the indexes, which a dump leaves NULL. */
  function RelationStep(R: Relation, P: PrimitiveBlock, c: Context): Outcome<RelationYield>
    requires ValidContext(c) && ReadsRelations(c.pass)
  {
    match DecodedRelation(R, P)
    case Crash => Crash
    case Ok(d) =>
      if !KeepRelation(c, d.0, d.1) then Ok(RelationYield([], [], []))
      else if (|d.1| > 0 || |d.2| > 0) && c.memNodes.None? then Crash
      else Ok(RelationYield([d.0], d.1, d.2))
  }

  function RelationsPass(rs: seq<Relation>, P: PrimitiveBlock, c: Context): Outcome<RelationYield>
    requires ValidContext(c) && ReadsRelations(c.pass)
  {
    if rs == [] then Ok(RelationYield([], [], []))
    else
      match RelationsPass(rs[..|rs| - 1], P, c)
      case Crash => Crash
      case Ok(y) =>
        match RelationStep(rs[|rs| - 1], P, c)
        case Crash => Crash
        case Ok(s) => Ok(RelationYield(y.stored + s.stored, y.nodeRefs + s.nodeRefs, y.wayRefs + s.wayRefs))
  }

  /** The IDs of the nodes of a run that lie inside the box. */
  function InsideIds(nodes: seq<Proto.Node>, P: PrimitiveBlock, b: BBox): (ids: seq<int>)
    ensures |ids| <= |nodes|
  {
    if nodes == [] then []
    else
      var node := nodes[|nodes| - 1];
      InsideIds(nodes[..|nodes| - 1], P, b) +
      (if Inside(b, Degrees(P.latOffset, node.lat, P.granularity), Degrees(P.lonOffset, node.lon, P.granularity))
       then [node.id] else [])
  }

  /** In the `NodesInBox` pass no plain node is dropped: the nodes inside
      the box go to `bbn`, and all the others, outside the box, are stored. */
  lemma {:induction false} PlainNodesInBoxPass(nodes: seq<Proto.Node>, P: PrimitiveBlock, c: Context)
    requires ValidContext(c) && c.pass.box == NodesInBox && PlainNodesPass(nodes, P, c).Ok?
    ensures PlainNodesPass(nodes, P, c).value.boxed == InsideIds(nodes, P, c.bbox.value)
    ensures |PlainNodesPass(nodes, P, c).value.stored| + |PlainNodesPass(nodes, P, c).value.boxed| == |nodes|
    ensures forall n <- PlainNodesPass(nodes, P, c).value.stored :: !Inside(c.bbox.value, n.lat, n.lon)
  {
    if nodes != [] {
      PlainNodesInBoxPass(nodes[..|nodes| - 1], P, c);
    }
  }

  /** Outside the `NodesInBox` pass plain nodes add nothing to `bbn`, and
      every stored node passes the keep rule. */
  lemma {:induction false} PlainNodesStoredAreKept(nodes: seq<Proto.Node>, P: PrimitiveBlock, c: Context)
    requires ValidContext(c) && ReadsNodes(c.pass) && c.pass.box != NodesInBox
    requires PlainNodesPass(nodes, P, c).Ok?
    ensures PlainNodesPass(nodes, P, c).value.boxed == []
    ensures forall n <- PlainNodesPass(nodes, P, c).value.stored :: KeepNode(c, n)
  {
    if nodes != [] {
      PlainNodesStoredAreKept(nodes[..|nodes| - 1], P, c);
    }
  }

  /** Conversely, every plain node of a run that reaches the keep rule (any
      node but one inside the box in the `NodesInBox` pass) decodes, and is
      stored when the keep rule says so. */
  lemma {:induction false} PlainNodesKeptAreStored(nodes: seq<Proto.Node>, P: PrimitiveBlock, c: Context, i: nat)
    requires ValidContext(c) && ReadsNodes(c.pass) && PlainNodesPass(nodes, P, c).Ok? && i < |nodes|
    requires !(c.pass.box == NodesInBox &&
               Inside(c.bbox.value, Degrees(P.latOffset, nodes[i].lat, P.granularity),
                      Degrees(P.lonOffset, nodes[i].lon, P.granularity)))
    ensures PlainNode(nodes[i], P).Ok?
    ensures KeepNode(c, PlainNode(nodes[i], P).value) ==>
      PlainNode(nodes[i], P).value in PlainNodesPass(nodes, P, c).value.stored
  {
    var init := nodes[..|nodes| - 1];
    if i < |nodes| - 1 {
      assert init[i] == nodes[i];
      PlainNodesKeptAreStored(init, P, c, i);
    }
  }

  /** In the `NodesInBox` pass no dense node is stored, and exactly the IDs
      of those inside the box go to `bbn`; in every other pass nothing goes
      to `bbn` and every stored node passes the keep rule. */
  lemma {:induction false} DenseNodesPassYield(ns: seq<OsmNode>, c: Context)
    requires ValidContext(c) && ReadsNodes(c.pass)
    ensures c.pass.box == NodesInBox ==>
      DenseNodesPass(ns, c).stored == [] &&
      DenseNodesPass(ns, c).boxed == seq(|InsideNodes(ns, c.bbox.value)|, i requires 0 <= i < |InsideNodes(ns, c.bbox.value)| => InsideNodes(ns, c.bbox.value)[i].id)
    ensures c.pass.box != NodesInBox ==>
      DenseNodesPass(ns, c).boxed == [] && forall n <- DenseNodesPass(ns, c).stored :: KeepNode(c, n)
  {
    if ns != [] {
      DenseNodesPassYield(ns[..|ns| - 1], c);
    }
  }

  /** Conversely, outside the `NodesInBox` pass every dense node of a run
      that passes the keep rule is stored. */
  lemma {:induction false} DenseNodesKeptAreStored(ns: seq<OsmNode>, c: Context, i: nat)
    requires ValidContext(c) && ReadsNodes(c.pass) && c.pass.box != NodesInBox && i < |ns|
    ensures KeepNode(c, ns[i]) ==> ns[i] in DenseNodesPass(ns, c).stored
  {
    var init := ns[..|ns| - 1];
    if i < |ns| - 1 {
      assert init[i] == ns[i];
      DenseNodesKeptAreStored(init, c, i);
    }
  }

  /** The nodes of a run inside the box, in order. */
  function InsideNodes(ns: seq<OsmNode>, b: BBox): (r: seq<OsmNode>)
    ensures |r| <= |ns|
  {
    if ns == [] then []
    else InsideNodes(ns[..|ns| - 1], b) + (if Inside(b, ns[|ns| - 1].lat, ns[|ns| - 1].lon) then [ns[|ns| - 1]] else [])
  }

  /** The references of a way: its node list without the 0 terminator. */
  function WayRefs(w: OsmWay): seq<int> {
    if w.nodes == [] then [] else w.nodes[..|w.nodes| - 1]
  }

  function AllWayRefs(ws: seq<OsmWay>): seq<int> {
    if ws == [] then [] else AllWayRefs(ws[..|ws| - 1]) + WayRefs(ws[|ws| - 1])
  }

  /** A run of ways adds to `mem_nodes` exactly the references of the ways
      it stores, in order, and every stored way passes the keep rule. */
  lemma {:induction false} WaysPassAddsKeptRefs(ws: seq<Way>, P: PrimitiveBlock, c: Context)
    requires ValidContext(c) && ReadsWays(c.pass) && WaysPass(ws, P, c).Ok?
    ensures WaysPass(ws, P, c).value.added == AllWayRefs(WaysPass(ws, P, c).value.stored)
    ensures forall w <- WaysPass(ws, P, c).value.stored :: KeepWay(c, w, WayRefs(w))
  {
    if ws != [] {
      var init := ws[..|ws| - 1];
      WaysPassAddsKeptRefs(init, P, c);
      var y := WaysPass(init, P, c).value;
      var s := WayStep(ws[|ws| - 1], P, c).value;
      if s.stored != [] {
        var d := DecodedWay(ws[|ws| - 1], P).value;
        assert (d.1 + [0])[..|d.1|] == d.1;
        assert WayRefs(d.0) == d.1;
        assert AllWayRefs(y.stored + s.stored) == AllWayRefs(y.stored) + WayRefs(d.0) by {
          assert (y.stored + s.stored)[..|y.stored|] == y.stored;
        }
      } else {
        assert y.stored + s.stored == y.stored;
      }
    }
  }

  /** Conversely, every way of a run that does not crash decodes, and is
      stored when it passes the keep rule. */
  lemma {:induction false} WaysKeptAreStored(ws: seq<Way>, P: PrimitiveBlock, c: Context, i: nat)
    requires ValidContext(c) && ReadsWays(c.pass) && WaysPass(ws, P, c).Ok? && i < |ws|
    ensures DecodedWay(ws[i], P).Ok?
    ensures var d := DecodedWay(ws[i], P).value;
      KeepWay(c, d.0, d.1) ==> d.0 in WaysPass(ws, P, c).value.stored
  {
    var init := ws[..|ws| - 1];
    if i < |ws| - 1 {
      assert init[i] == ws[i];
      WaysKeptAreStored(init, P, c, i);
    }
  }

  /** A dump that does not crash stores only ways without references: a
      kept way with references would be added to the NULL `mem_nodes`. */
  lemma {:induction false} DumpStoresOnlyEmptyWays(ws: seq<Way>, P: PrimitiveBlock, c: Context)
    requires ValidContext(c) && c.pass.mode == Dump && WaysPass(ws, P, c).Ok?
    ensures WaysPass(ws, P, c).value.added == []
    ensures forall w <- WaysPass(ws, P, c).value.stored :: w.nodes == [0]
  {
    if ws != [] {
      DumpStoresOnlyEmptyWays(ws[..|ws| - 1], P, c);
    }
  }

  /** The references of the members of one kind of a relation. */
  function MemberRefs(r: OsmRelation, k: MemberKind): seq<int> {
    if r.members.None? then [] else RefsOfKind(r.members.value, k)
  }

  function AllMemberRefs(rs: seq<OsmRelation>, k: MemberKind): seq<int> {
    if rs == [] then [] else AllMemberRefs(rs[..|rs| - 1], k) + MemberRefs(rs[|rs| - 1], k)
  }

  /** A run of relations adds to `mem_nodes` exactly the node members, and
      to `mem_ways` exactly the way members, of the relations it stores, in
      order; every stored relation passes the keep rule. */
  lemma {:induction false} RelationsPassAddsMemberRefs(rs: seq<Relation>, P: PrimitiveBlock, c: Context)
    requires ValidContext(c) && ReadsRelations(c.pass) && RelationsPass(rs, P, c).Ok?
    ensures RelationsPass(rs, P, c).value.nodeRefs == AllMemberRefs(RelationsPass(rs, P, c).value.stored, NodeMember)
    ensures RelationsPass(rs, P, c).value.wayRefs == AllMemberRefs(RelationsPass(rs, P, c).value.stored, WayMember)
    ensures forall r <- RelationsPass(rs, P, c).value.stored :: KeepRelation(c, r, MemberRefs(r, NodeMember))
  {
    if rs != [] {
      var init := rs[..|rs| - 1];
      RelationsPassAddsMemberRefs(init, P, c);
      var y := RelationsPass(init, P, c).value;
      var s := RelationStep(rs[|rs| - 1], P, c).value;
      if s.stored != [] {
        var d := DecodedRelation(rs[|rs| - 1], P).value;
        assert MemberRefs(d.0, NodeMember) == d.1 && MemberRefs(d.0, WayMember) == d.2;
        assert (y.stored + s.stored)[..|y.stored|] == y.stored;
      } else {
        assert y.stored + s.stored == y.stored;
      }
    }
  }

  /** Conversely, every relation of a run that does not crash decodes, and
      is stored when it passes the keep rule. */
  lemma {:induction false} RelationsKeptAreStored(rs: seq<Relation>, P: PrimitiveBlock, c: Context, i: nat)
    requires ValidContext(c) && ReadsRelations(c.pass) && RelationsPass(rs, P, c).Ok? && i < |rs|
    ensures DecodedRelation(rs[i], P).Ok?
    ensures var d := DecodedRelation(rs[i], P).value;
      KeepRelation(c, d.0, d.1) ==> d.0 in RelationsPass(rs, P, c).value.stored
  {
    var init := rs[..|rs| - 1];
    if i < |rs| - 1 {
      assert init[i] == rs[i];
      RelationsKeptAreStored(init, P, c, i);
    }
  }

  /** A dump that does not crash stores only relations without node or way
      members. */
  lemma {:induction false} DumpStoresOnlyUnlinkedRelations(rs: seq<Relation>, P: PrimitiveBlock, c: Context)
    requires ValidContext(c) && c.pass.mode == Dump && RelationsPass(rs, P, c).Ok?
    ensures RelationsPass(rs, P, c).value.nodeRefs == [] && RelationsPass(rs, P, c).value.wayRefs == []
  {
    if rs != [] {
      DumpStoresOnlyUnlinkedRelations(rs[..|rs| - 1], P, c);
    }
  }

  /** A decode failure part-way through a run makes the whole run a `Crash`. */
  lemma {:induction false} PlainNodesCrashPersists(nodes: seq<Proto.Node>, P: PrimitiveBlock, c: Context, k: nat)
    requires ValidContext(c) && ReadsNodes(c.pass) && k <= |nodes|
    requires PlainNodesPass(nodes[..k], P, c).Crash?
    ensures PlainNodesPass(nodes, P, c).Crash?
    decreases |nodes| - k
  {
    if k < |nodes| {
      assert nodes[..k + 1][..k] == nodes[..k];
      PlainNodesCrashPersists(nodes, P, c, k + 1);
    } else {
      assert nodes[..k] == nodes;
    }
  }

  lemma {:induction false} WaysCrashPersists(ws: seq<Way>, P: PrimitiveBlock, c: Context, k: nat)
    requires ValidContext(c) && ReadsWays(c.pass) && k <= |ws|
    requires WaysPass(ws[..k], P, c).Crash?
    ensures WaysPass(ws, P, c).Crash?
    decreases |ws| - k
  {
    if k < |ws| {
      assert ws[..k + 1][..k] == ws[..k];
      WaysCrashPersists(ws, P, c, k + 1);
    } else {
      assert ws[..k] == ws;
    }
  }

  lemma {:induction false} RelationsCrashPersists(rs: seq<Relation>, P: PrimitiveBlock, c: Context, k: nat)
    requires ValidContext(c) && ReadsRelations(c.pass) && k <= |rs|
    requires RelationsPass(rs[..k], P, c).Crash?
    ensures RelationsPass(rs, P, c).Crash?
    decreases |rs| - k
  {
    if k < |rs| {
      assert rs[..k + 1][..k] == rs[..k];
      RelationsCrashPersists(rs, P, c, k + 1);
    } else {
      assert rs[..k] == rs;
    }
  }

  /** The nodes of one group: its plain nodes, then its dense nodes. */
  function GroupNodes(g: PrimitiveGroup, P: PrimitiveBlock, c: Context): Outcome<NodeYield>
    requires ValidContext(c) && ReadsNodes(c.pass)
  {
    match PlainNodesPass(g.nodes, P, c)
    case Crash => Crash
    case Ok(a) =>
      if g.dense.None? then Ok(a)
      else
        match DenseGroup(g.dense.value, P)
        case Crash => Crash
        case Ok(ns) => Ok(JoinNodes(a, DenseNodesPass(ns, c)))
  }

  /** What a pass gets out of some groups: the entities appended to the three
      result lists, and the IDs added to `bbn`, `mem_nodes` and `mem_ways`. */
  datatype PassYield = PassYield(nodes: seq<OsmNode>, ways: seq<OsmWay>, relations: seq<OsmRelation>,
                                 boxed: seq<int>, nodeRefs: seq<int>, wayRefs: seq<int>)

  const NoYield: PassYield := PassYield([], [], [], [], [], [])

  function JoinYield(a: PassYield, b: PassYield): PassYield {
    PassYield(a.nodes + b.nodes, a.ways + b.ways, a.relations + b.relations,
              a.boxed + b.boxed, a.nodeRefs + b.nodeRefs, a.wayRefs + b.wayRefs)
  }

  /** One group in one pass: its nodes, ways and relations, each only when
      the pass reads that kind, in that order. */
  function GroupPass(g: PrimitiveGroup, P: PrimitiveBlock, c: Context): Outcome<PassYield>
    requires ValidContext(c)
  {
    match (if ReadsNodes(c.pass) then GroupNodes(g, P, c) else Ok(NoNodes))
    case Crash => Crash
    case Ok(n) =>
      match (if ReadsWays(c.pass) then WaysPass(g.ways, P, c) else Ok(WayYield([], [])))
      case Crash => Crash
      case Ok(w) =>
        match (if ReadsRelations(c.pass) then RelationsPass(g.relations, P, c) else Ok(RelationYield([], [], [])))
        case Crash => Crash
        case Ok(r) => Ok(PassYield(n.stored, w.stored, r.stored, n.boxed, w.added + r.nodeRefs, r.wayRefs))
  }

  /** The groups of a block, in order. */
  function BlockPass(groups: seq<PrimitiveGroup>, P: PrimitiveBlock, c: Context): Outcome<PassYield>
    requires ValidContext(c)
  {
    if groups == [] then Ok(NoYield)
    else
      match BlockPass(groups[..|groups| - 1], P, c)
      case Crash => Crash
      case Ok(y) =>
        match GroupPass(groups[|groups| - 1], P, c)
        case Crash => Crash
        case Ok(s) => Ok(JoinYield(y, s))
  }

  /** One more group that yields. */
  lemma BlockPassJoin(groups: seq<PrimitiveGroup>, P: PrimitiveBlock, c: Context, j: nat, y: PassYield, s: PassYield)
    requires ValidContext(c) && j < |groups|
    requires BlockPass(groups[..j], P, c) == Ok(y) && GroupPass(groups[j], P, c) == Ok(s)
    ensures BlockPass(groups[..j + 1], P, c) == Ok(JoinYield(y, s))
  {
    assert groups[..j + 1][..j] == groups[..j];
  }

  /** One more group that crashes: the whole block crashes. */
  lemma BlockPassCrashAt(groups: seq<PrimitiveGroup>, P: PrimitiveBlock, c: Context, j: nat)
    requires ValidContext(c) && j < |groups|
    requires BlockPass(groups[..j], P, c).Ok? && GroupPass(groups[j], P, c).Crash?
    ensures BlockPass(groups, P, c).Crash?
  {
    assert groups[..j + 1][..j] == groups[..j];
    BlockCrashPersists(groups, P, c, j + 1);
  }

  lemma {:induction false} BlockCrashPersists(groups: seq<PrimitiveGroup>, P: PrimitiveBlock, c: Context, k: nat)
    requires ValidContext(c) && k <= |groups|
    requires BlockPass(groups[..k], P, c).Crash?
    ensures BlockPass(groups, P, c).Crash?
    decreases |groups| - k
  {
    if k < |groups| {
      assert groups[..k + 1][..k] == groups[..k];
      BlockCrashPersists(groups, P, c, k + 1);
    } else {
      assert groups[..k] == groups;
    }
  }

  /** Each pass reads one kind of entity (a dump reads all three): a node
      pass stores no ways or relations, a way pass no nodes or relations,
      a relation pass no nodes or ways, and only the `NodesInBox` pass adds
      to `bbn`. */
  lemma {:induction false} BlockPassReadsItsKind(groups: seq<PrimitiveGroup>, P: PrimitiveBlock, c: Context)
    requires ValidContext(c) && BlockPass(groups, P, c).Ok?
    ensures !ReadsNodes(c.pass) ==> BlockPass(groups, P, c).value.nodes == []
    ensures !ReadsWays(c.pass) ==> BlockPass(groups, P, c).value.ways == []
    ensures !ReadsRelations(c.pass) ==> BlockPass(groups, P, c).value.relations == [] &&
                                        BlockPass(groups, P, c).value.wayRefs == []
    ensures c.pass.box != NodesInBox ==> BlockPass(groups, P, c).value.boxed == []
  {
    if groups != [] {
      var init := groups[..|groups| - 1];
      var g := groups[|groups| - 1];
      BlockPassReadsItsKind(init, P, c);
      if ReadsNodes(c.pass) && c.pass.box != NodesInBox {
        PlainNodesStoredAreKept(g.nodes, P, c);
        if g.dense.Some? && DenseGroup(g.dense.value, P).Ok? {
          DenseNodesPassYield(DenseGroup(g.dense.value, P).value, c);
        }
      }
    }
  }
}
