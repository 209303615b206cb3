/** The body of one pass over one primitive block (pbf.c): the loops over
    groups, nodes, dense nodes, ways and relations, which append the kept
    entities to `data` and feed the member indexes in place. Each loop is
    proved against the fold of `Keep` that describes it. */
module Process {
  import opened Common
  import opened Proto
  import opened Osm
  import opened Members
  import opened Decode
  import opened Dense
  import opened Passes
  import opened Keep

  /** The indexes a pass searches. No pass searches an index that it adds to. */
  predicate SearchesMemNodes(p: Pass) {
    p.mode == NodeMode || p.box == NodesFind
  }

  predicate SearchesMemWays(p: Pass) {
    p.mode == WayMode || p.box == WayFind
  }

  predicate SearchesBbn(p: Pass) {
    p.box == NodesFind || p.box == WayFind || p.box == RelationFind
  }

  /** The context describes the index objects: the same ones are NULL, the
      three are distinct, and each index the pass searches holds what the
      context says. */
  predicate Tracks(c: Context, memNodes: MemberList?, memWays: MemberList?, bbn: MemberList)
    reads memNodes, memWays, bbn
  {
    (memNodes == null <==> c.memNodes.None?) && (memWays == null <==> c.memWays.None?) &&
    (memNodes != null ==> memNodes != memWays && memNodes != bbn) &&
    (memWays != null ==> memWays != bbn) &&
    (memNodes != null && SearchesMemNodes(c.pass) ==> c.memNodes.value == memNodes.State()) &&
    (memWays != null && SearchesMemWays(c.pass) ==> c.memWays.value == memWays.State()) &&
    (SearchesBbn(c.pass) ==> c.bbn == bbn.State())
  }

  /** The part of `Tracks` that a single way or relation relies on: which
      indexes are NULL, that they are distinct, and that `bbn` holds what the
      context says when the pass searches it. It reads only `bbn`, which the
      way and relation loops never change. */
  predicate Links(c: Context, memNodes: MemberList?, memWays: MemberList?, bbn: MemberList)
    reads bbn
  {
    (memNodes == null <==> c.memNodes.None?) && (memWays == null <==> c.memWays.None?) &&
    (memNodes != null ==> memNodes != memWays && memNodes != bbn) &&
    (memWays != null ==> memWays != bbn) &&
    (SearchesBbn(c.pass) ==> c.bbn == bbn.State())
  }

  /** The `bbox_member` loop: whether some ID of `ids` is in the index with
      the filter accepting the entity. */
  method AnyFoundAccepted<T>(ix: MemberList, ids: seq<int>, filter: Option<T -> bool>, x: T, ext: Externals)
    returns (member: bool)
    ensures member <==> SomeFound(ix.State(), ids, ext) && Accepts(filter, x)
  {
    member := false;
    var b := 0;
    while b < |ids|
      invariant 0 <= b <= |ids|
      invariant forall j :: 0 <= j < b ==> !(Contains(ix.State(), ids[j], ext) && Accepts(filter, x))
    {
      if ix.Lookup(ids[b], ext) {
        if filter.None? || filter.value(x) {
          member := true;
          return;
        }
      }
      b := b + 1;
    }
  }

  /** One plain node: in the `NodesInBox` pass a node inside the box goes
      to `bbn`; any other is decoded and appended if kept. */
  method ProcessPlainNode(node: Proto.Node, P: PrimitiveBlock, c: Context, data: OsmData, bbn: MemberList)
    returns (crashed: bool)
    requires ValidContext(c) && ReadsNodes(c.pass)
    modifies data, bbn
    ensures crashed <==> PlainNodeStep(node, P, c).Crash?
    ensures !crashed ==> data.nodes == old(data.nodes) + PlainNodeStep(node, P, c).value.stored
    ensures !crashed ==> bbn.State() == Added(old(bbn.State()), PlainNodeStep(node, P, c).value.boxed)
    ensures data.ways == old(data.ways) && data.relations == old(data.relations)
  {
    var lat := Degrees(P.latOffset, node.lat, P.granularity);
    var lon := Degrees(P.lonOffset, node.lon, P.granularity);
    if c.pass.box == NodesInBox && Inside(c.bbox.value, lat, lon) {
      bbn.Add([node.id]);
      return false;
    }
    var n := DecodePlainNode(node, P);
    if n.Crash? {
      return true;
    }
    if KeepNode(c, n.value) {
      data.AppendNode(n.value);
    }
    crashed := false;
  }

  lemma PlainNodesPassJoin(nodes: seq<Proto.Node>, P: PrimitiveBlock, c: Context, k: nat, y: NodeYield, s: NodeYield)
    requires ValidContext(c) && ReadsNodes(c.pass) && k < |nodes|
    requires PlainNodesPass(nodes[..k], P, c) == Ok(y) && PlainNodeStep(nodes[k], P, c) == Ok(s)
    ensures PlainNodesPass(nodes[..k + 1], P, c) == Ok(JoinNodes(y, s))
  {
    assert nodes[..k + 1][..k] == nodes[..k];
  }

  lemma PlainNodesPassCrashAt(nodes: seq<Proto.Node>, P: PrimitiveBlock, c: Context, k: nat)
    requires ValidContext(c) && ReadsNodes(c.pass) && k < |nodes|
    requires PlainNodesPass(nodes[..k], P, c).Ok? && PlainNodeStep(nodes[k], P, c).Crash?
    ensures PlainNodesPass(nodes, P, c).Crash?
  {
    assert nodes[..k + 1][..k] == nodes[..k];
    PlainNodesCrashPersists(nodes, P, c, k + 1);
  }

  /** The plain nodes of a group; the indexes the pass searches are left as
      the context says. */
  method ProcessPlainNodes(nodes: seq<Proto.Node>, P: PrimitiveBlock, c: Context, data: OsmData,
                           memNodes: MemberList?, memWays: MemberList?, bbn: MemberList)
    returns (crashed: bool)
    requires ValidContext(c) && ReadsNodes(c.pass) && Tracks(c, memNodes, memWays, bbn)
    modifies data, bbn
    ensures crashed <==> PlainNodesPass(nodes, P, c).Crash?
    ensures !crashed ==> data.nodes == old(data.nodes) + PlainNodesPass(nodes, P, c).value.stored
    ensures !crashed ==> bbn.State() == Added(old(bbn.State()), PlainNodesPass(nodes, P, c).value.boxed)
    ensures data.ways == old(data.ways) && data.relations == old(data.relations)
    ensures !crashed ==> Tracks(c, memNodes, memWays, bbn)
  {
    crashed := KeepPlainNodes(nodes, P, c, data, bbn);
  }

  /** The loop over the plain nodes of a group. */
  method KeepPlainNodes(nodes: seq<Proto.Node>, P: PrimitiveBlock, c: Context, data: OsmData, bbn: MemberList)
    returns (crashed: bool)
    requires ValidContext(c) && ReadsNodes(c.pass)
    modifies data, bbn
    ensures crashed <==> PlainNodesPass(nodes, P, c).Crash?
    ensures !crashed ==> data.nodes == old(data.nodes) + PlainNodesPass(nodes, P, c).value.stored
    ensures !crashed ==> bbn.State() == Added(old(bbn.State()), PlainNodesPass(nodes, P, c).value.boxed)
    ensures data.ways == old(data.ways) && data.relations == old(data.relations)
    ensures !crashed && c.pass.box != NodesInBox ==> bbn.State() == old(bbn.State())
  {
    ghost var nodes0, boxed0 := data.nodes, bbn.State();
    var k := 0;
    ghost var y := NoNodes;
    while k < |nodes|
      invariant 0 <= k <= |nodes| && PlainNodesPass(nodes[..k], P, c) == Ok(y)
      invariant data.nodes == nodes0 + y.stored && bbn.State() == Added(boxed0, y.boxed)
      invariant data.ways == old(data.ways) && data.relations == old(data.relations)
      invariant c.pass.box != NodesInBox ==> y.boxed == []
    {
      crashed := ProcessPlainNode(nodes[k], P, c, data, bbn);
      if crashed {
        PlainNodesPassCrashAt(nodes, P, c, k);
        return;
      }
      ghost var s := PlainNodeStep(nodes[k], P, c).value;
      PlainNodesPassJoin(nodes, P, c, k, y, s);
      Associative(nodes0, y.stored, s.stored);
      AddedTwice(boxed0, y.boxed, s.boxed);
      y := JoinNodes(y, s);
      k := k + 1;
    }
    assert nodes[..k] == nodes;
    crashed := false;
  }

  /** One decoded dense node and its keep rule. */
  method ProcessDenseNode(n: OsmNode, c: Context, data: OsmData, bbn: MemberList)
    requires ValidContext(c) && ReadsNodes(c.pass)
    modifies data, bbn
    ensures data.nodes == old(data.nodes) + DenseNodeStep(n, c).stored
    ensures bbn.State() == Added(old(bbn.State()), DenseNodeStep(n, c).boxed)
    ensures data.ways == old(data.ways) && data.relations == old(data.relations)
  {
    if c.pass.box == NodesInBox {
      if Inside(c.bbox.value, n.lat, n.lon) {
        bbn.Add([n.id]);
      }
    } else if KeepNode(c, n) {
      data.AppendNode(n);
    }
  }

  /** The dense loop of a group followed, node by node, by its keep rule. */
  method ProcessDenseNodes(D: DenseNodes, P: PrimitiveBlock, c: Context, data: OsmData,
                           memNodes: MemberList?, memWays: MemberList?, bbn: MemberList)
    returns (crashed: bool)
    requires ValidContext(c) && ReadsNodes(c.pass) && Tracks(c, memNodes, memWays, bbn)
    modifies data, bbn
    ensures crashed <==> DenseGroup(D, P).Crash?
    ensures !crashed ==> data.nodes == old(data.nodes) + DenseNodesPass(DenseGroup(D, P).value, c).stored
    ensures !crashed ==> bbn.State() == Added(old(bbn.State()), DenseNodesPass(DenseGroup(D, P).value, c).boxed)
    ensures data.ways == old(data.ways) && data.relations == old(data.relations)
    ensures !crashed ==> Tracks(c, memNodes, memWays, bbn)
  {
    var decoded := DecodeDense(D, P);
    if decoded.Crash? {
      return true;
    }
    KeepDenseNodes(decoded.value, c, data, bbn);
    crashed := false;
  }

  /** The node-by-node loop over decoded dense nodes. */
  method KeepDenseNodes(ns: seq<OsmNode>, c: Context, data: OsmData, bbn: MemberList)
    requires ValidContext(c) && ReadsNodes(c.pass)
    modifies data, bbn
    ensures data.nodes == old(data.nodes) + DenseNodesPass(ns, c).stored
    ensures bbn.State() == Added(old(bbn.State()), DenseNodesPass(ns, c).boxed)
    ensures data.ways == old(data.ways) && data.relations == old(data.relations)
    ensures c.pass.box != NodesInBox ==> bbn.State() == old(bbn.State())
  {
    ghost var nodes0, boxed0 := data.nodes, bbn.State();
    ghost var ways0, relations0 := data.ways, data.relations;
    ghost var y := NoNodes;
    var k := 0;
    while k < |ns|
      invariant 0 <= k <= |ns| && y == DenseNodesPass(ns[..k], c)
      invariant data.nodes == nodes0 + y.stored
      invariant bbn.State() == Added(boxed0, y.boxed)
      invariant data.ways == ways0 && data.relations == relations0
      invariant c.pass.box != NodesInBox ==> y.boxed == []
    {
      ProcessDenseNode(ns[k], c, data, bbn);
      ghost var s := DenseNodeStep(ns[k], c);
      DenseNodesPassJoin(ns, c, k);
      Associative(nodes0, y.stored, s.stored);
      AddedTwice(boxed0, y.boxed, s.boxed);
      y := JoinNodes(y, s);
      k := k + 1;
    }
    assert ns[..k] == ns;
  }

  lemma DenseNodesPassJoin(ns: seq<OsmNode>, c: Context, k: nat)
    requires ValidContext(c) && ReadsNodes(c.pass) && k < |ns|
    ensures DenseNodesPass(ns[..k + 1], c) == JoinNodes(DenseNodesPass(ns[..k], c), DenseNodeStep(ns[k], c))
  {
    assert ns[..k + 1][..k] == ns[..k];
  }

  /** One iteration of the way loop. */
  method ProcessWay(W: Way, P: PrimitiveBlock, c: Context, data: OsmData,
                    memNodes: MemberList?, memWays: MemberList?, bbn: MemberList)
    returns (crashed: bool)
    requires ValidContext(c) && ReadsWays(c.pass) && Links(c, memNodes, memWays, bbn)
    requires memWays != null && SearchesMemWays(c.pass) ==> c.memWays.value == memWays.State()
    modifies data, memNodes
    ensures crashed <==> WayStep(W, P, c).Crash?
    ensures !crashed ==> data.ways == old(data.ways) + WayStep(W, P, c).value.stored
    ensures !crashed && memNodes != null ==>
      memNodes.State() == Added(old(memNodes.State()), WayStep(W, P, c).value.added)
    ensures data.nodes == old(data.nodes) && data.relations == old(data.relations)
  {
    var d := DecodeWay(W, P);
    if d.Crash? {
      return true;
    }
    var w, refs := d.value.0, d.value.1;
    var keep: bool;
    if c.pass.box == WayFind {
      var member := AnyFoundAccepted(bbn, refs, c.filters.way, w, c.ext);
      keep := member || memWays.Lookup(w.id, c.ext);
    } else {
      keep := KeepWay(c, w, refs);
    }
    if keep {
      if |refs| > 0 {
        if memNodes == null {
          return true;
        }
        memNodes.Add(refs);
      }
      data.AppendWay(w);
    }
    crashed := false;
  }

  lemma WaysPassJoin(ws: seq<Way>, P: PrimitiveBlock, c: Context, k: nat, y: WayYield, s: WayYield)
    requires ValidContext(c) && ReadsWays(c.pass) && k < |ws|
    requires WaysPass(ws[..k], P, c) == Ok(y) && WayStep(ws[k], P, c) == Ok(s)
    ensures WaysPass(ws[..k + 1], P, c) == Ok(WayYield(y.stored + s.stored, y.added + s.added))
  {
    assert ws[..k + 1][..k] == ws[..k];
  }

  lemma WaysPassCrashAt(ws: seq<Way>, P: PrimitiveBlock, c: Context, k: nat)
    requires ValidContext(c) && ReadsWays(c.pass) && k < |ws|
    requires WaysPass(ws[..k], P, c).Ok? && WayStep(ws[k], P, c).Crash?
    ensures WaysPass(ws, P, c).Crash?
  {
    assert ws[..k + 1][..k] == ws[..k];
    WaysCrashPersists(ws, P, c, k + 1);
  }

  /** The ways of a group; the indexes the pass searches are left as
      the context says. */
  method ProcessWays(ws: seq<Way>, P: PrimitiveBlock, c: Context, data: OsmData,
                     memNodes: MemberList?, memWays: MemberList?, bbn: MemberList)
    returns (crashed: bool)
    requires ValidContext(c) && ReadsWays(c.pass) && Tracks(c, memNodes, memWays, bbn)
    modifies data, memNodes
    ensures crashed <==> WaysPass(ws, P, c).Crash?
    ensures !crashed ==> data.ways == old(data.ways) + WaysPass(ws, P, c).value.stored
    ensures !crashed && memNodes != null ==>
      memNodes.State() == Added(old(memNodes.State()), WaysPass(ws, P, c).value.added)
    ensures data.nodes == old(data.nodes) && data.relations == old(data.relations)
    ensures !crashed ==> Tracks(c, memNodes, memWays, bbn)
  {
    crashed := KeepWays(ws, P, c, data, memNodes, memWays, bbn);
  }

  /** The loop over the ways of a group. */
  method KeepWays(ws: seq<Way>, P: PrimitiveBlock, c: Context, data: OsmData,
                  memNodes: MemberList?, memWays: MemberList?, bbn: MemberList)
    returns (crashed: bool)
    requires ValidContext(c) && ReadsWays(c.pass) && Links(c, memNodes, memWays, bbn)
    requires memWays != null && SearchesMemWays(c.pass) ==> c.memWays.value == memWays.State()
    modifies data, memNodes
    ensures crashed <==> WaysPass(ws, P, c).Crash?
    ensures !crashed ==> data.ways == old(data.ways) + WaysPass(ws, P, c).value.stored
    ensures !crashed && memNodes != null ==>
      memNodes.State() == Added(old(memNodes.State()), WaysPass(ws, P, c).value.added)
    ensures data.nodes == old(data.nodes) && data.relations == old(data.relations)
  {
    ghost var ways0 := data.ways;
    ghost var added0 := if memNodes != null then memNodes.State() else IndexState([], true);
    var k := 0;
    ghost var y := WayYield([], []);
    while k < |ws|
      invariant 0 <= k <= |ws| && WaysPass(ws[..k], P, c) == Ok(y)
      invariant data.ways == ways0 + y.stored
      invariant memNodes != null ==> memNodes.State() == Added(added0, y.added)
      invariant data.nodes == old(data.nodes) && data.relations == old(data.relations)
    {
      crashed := ProcessWay(ws[k], P, c, data, memNodes, memWays, bbn);
      if crashed {
        WaysPassCrashAt(ws, P, c, k);
        return;
      }
      ghost var s := WayStep(ws[k], P, c).value;
      WaysPassJoin(ws, P, c, k, y, s);
      Associative(ways0, y.stored, s.stored);
      AddedTwice(added0, y.added, s.added);
      y := WayYield(y.stored + s.stored, y.added + s.added);
      k := k + 1;
    }
    assert ws[..k] == ws;
    crashed := false;
  }

  /** One iteration of the relation loop. */
  method ProcessRelation(R: Relation, P: PrimitiveBlock, c: Context, data: OsmData,
                         memNodes: MemberList?, memWays: MemberList?, bbn: MemberList)
    returns (crashed: bool)
    requires ValidContext(c) && ReadsRelations(c.pass) && Links(c, memNodes, memWays, bbn)
    modifies data, memNodes, memWays
    ensures crashed <==> RelationStep(R, P, c).Crash?
    ensures !crashed ==> data.relations == old(data.relations) + RelationStep(R, P, c).value.stored
    ensures !crashed && memNodes != null ==>
      memNodes.State() == Added(old(memNodes.State()), RelationStep(R, P, c).value.nodeRefs)
    ensures !crashed && memWays != null ==>
      memWays.State() == Added(old(memWays.State()), RelationStep(R, P, c).value.wayRefs)
    ensures data.nodes == old(data.nodes) && data.ways == old(data.ways)
  {
    var d := DecodeRelation(R, P);
    if d.Crash? {
      return true;
    }
    var r, nref, wref := d.value.0, d.value.1, d.value.2;
    var keep: bool;
    if c.pass.box == RelationFind {
      keep := AnyFoundAccepted(bbn, nref, c.filters.relation, r, c.ext);
    } else {
      keep := KeepRelation(c, r, nref);
    }
    if keep {
      if (|nref| > 0 || |wref| > 0) && memNodes == null {
        return true;
      }
      if |nref| > 0 {
        memNodes.Add(nref);
      }
      if |wref| > 0 {
        memWays.Add(wref);
      }
      data.AppendRelation(r);
    }
    crashed := false;
  }

  /** The relations of a group; the indexes the pass searches are left as
      the context says. */
  method ProcessRelations(rs: seq<Relation>, P: PrimitiveBlock, c: Context, data: OsmData,
                          memNodes: MemberList?, memWays: MemberList?, bbn: MemberList)
    returns (crashed: bool)
    requires ValidContext(c) && ReadsRelations(c.pass) && Tracks(c, memNodes, memWays, bbn)
    modifies data, memNodes, memWays
    ensures crashed <==> RelationsPass(rs, P, c).Crash?
    ensures !crashed ==> data.relations == old(data.relations) + RelationsPass(rs, P, c).value.stored
    ensures !crashed && memNodes != null ==>
      memNodes.State() == Added(old(memNodes.State()), RelationsPass(rs, P, c).value.nodeRefs)
    ensures !crashed && memWays != null ==>
      memWays.State() == Added(old(memWays.State()), RelationsPass(rs, P, c).value.wayRefs)
    ensures data.nodes == old(data.nodes) && data.ways == old(data.ways)
    ensures !crashed ==> Tracks(c, memNodes, memWays, bbn)
  {
    crashed := KeepRelations(rs, P, c, data, memNodes, memWays, bbn);
  }

  /** The loop over the relations of a group. */
  method KeepRelations(rs: seq<Relation>, P: PrimitiveBlock, c: Context, data: OsmData,
                       memNodes: MemberList?, memWays: MemberList?, bbn: MemberList)
    returns (crashed: bool)
    requires ValidContext(c) && ReadsRelations(c.pass) && Links(c, memNodes, memWays, bbn)
    modifies data, memNodes, memWays
    ensures crashed <==> RelationsPass(rs, P, c).Crash?
    ensures !crashed ==> data.relations == old(data.relations) + RelationsPass(rs, P, c).value.stored
    ensures !crashed && memNodes != null ==>
      memNodes.State() == Added(old(memNodes.State()), RelationsPass(rs, P, c).value.nodeRefs)
    ensures !crashed && memWays != null ==>
      memWays.State() == Added(old(memWays.State()), RelationsPass(rs, P, c).value.wayRefs)
    ensures data.nodes == old(data.nodes) && data.ways == old(data.ways)
  {
    ghost var relations0 := data.relations;
    ghost var nodeRefs0 := if memNodes != null then memNodes.State() else IndexState([], true);
    ghost var wayRefs0 := if memWays != null then memWays.State() else IndexState([], true);
    var k := 0;
    ghost var y := RelationYield([], [], []);
    while k < |rs|
      invariant 0 <= k <= |rs| && RelationsPass(rs[..k], P, c) == Ok(y)
      invariant data.relations == relations0 + y.stored
      invariant memNodes != null ==> memNodes.State() == Added(nodeRefs0, y.nodeRefs)
      invariant memWays != null ==> memWays.State() == Added(wayRefs0, y.wayRefs)
      invariant data.nodes == old(data.nodes) && data.ways == old(data.ways)
    {
      crashed := ProcessRelation(rs[k], P, c, data, memNodes, memWays, bbn);
      if crashed {
        RelationsPassCrashAt(rs, P, c, k);
        return;
      }
      ghost var s := RelationStep(rs[k], P, c).value;
      RelationsPassJoin(rs, P, c, k, y, s);
      Associative(relations0, y.stored, s.stored);
      AddedTwice(nodeRefs0, y.nodeRefs, s.nodeRefs);
      AddedTwice(wayRefs0, y.wayRefs, s.wayRefs);
      y := RelationYield(y.stored + s.stored, y.nodeRefs + s.nodeRefs, y.wayRefs + s.wayRefs);
      k := k + 1;
    }
    assert rs[..k] == rs;
    crashed := false;
  }

  lemma RelationsPassJoin(rs: seq<Relation>, P: PrimitiveBlock, c: Context, k: nat, y: RelationYield, s: RelationYield)
    requires ValidContext(c) && ReadsRelations(c.pass) && k < |rs|
    requires RelationsPass(rs[..k], P, c) == Ok(y) && RelationStep(rs[k], P, c) == Ok(s)
    ensures RelationsPass(rs[..k + 1], P, c) ==
      Ok(RelationYield(y.stored + s.stored, y.nodeRefs + s.nodeRefs, y.wayRefs + s.wayRefs))
  {
    assert rs[..k + 1][..k] == rs[..k];
  }

  lemma RelationsPassCrashAt(rs: seq<Relation>, P: PrimitiveBlock, c: Context, k: nat)
    requires ValidContext(c) && ReadsRelations(c.pass) && k < |rs|
    requires RelationsPass(rs[..k], P, c).Ok? && RelationStep(rs[k], P, c).Crash?
    ensures RelationsPass(rs, P, c).Crash?
  {
    assert rs[..k + 1][..k] == rs[..k];
    RelationsCrashPersists(rs, P, c, k + 1);
  }

  /** The result lists and the indexes have grown by `y` since the call began. */
  twostate predicate Yielded(y: PassYield, data: OsmData, memNodes: MemberList?, memWays: MemberList?, bbn: MemberList)
    reads data, memNodes, memWays, bbn
  {
    data.nodes == old(data.nodes) + y.nodes && data.ways == old(data.ways) + y.ways &&
    data.relations == old(data.relations) + y.relations &&
    bbn.State() == Added(old(bbn.State()), y.boxed) &&
    (memNodes != null ==> memNodes.State() == Added(old(memNodes.State()), y.nodeRefs)) &&
    (memWays != null ==> memWays.State() == Added(old(memWays.State()), y.wayRefs))
  }

  /** The nodes of one group: plain, then dense. */
  method ProcessGroupNodes(g: PrimitiveGroup, P: PrimitiveBlock, c: Context, data: OsmData,
                           memNodes: MemberList?, memWays: MemberList?, bbn: MemberList)
    returns (crashed: bool)
    requires ValidContext(c) && ReadsNodes(c.pass) && Tracks(c, memNodes, memWays, bbn)
    modifies data, bbn
    ensures crashed <==> GroupNodes(g, P, c).Crash?
    ensures !crashed ==> data.nodes == old(data.nodes) + GroupNodes(g, P, c).value.stored
    ensures !crashed ==> bbn.State() == Added(old(bbn.State()), GroupNodes(g, P, c).value.boxed)
    ensures data.ways == old(data.ways) && data.relations == old(data.relations)
    ensures !crashed ==> Tracks(c, memNodes, memWays, bbn)
  {
    ghost var nodes0, boxed0 := data.nodes, bbn.State();
    crashed := ProcessPlainNodes(g.nodes, P, c, data, memNodes, memWays, bbn);
    if crashed || g.dense.None? {
      return;
    }
    ghost var a := PlainNodesPass(g.nodes, P, c).value;
    crashed := ProcessDenseNodes(g.dense.value, P, c, data, memNodes, memWays, bbn);
    if !crashed {
      ghost var b := DenseNodesPass(DenseGroup(g.dense.value, P).value, c);
      AddedTwice(boxed0, a.boxed, b.boxed);
      Associative(nodes0, a.stored, b.stored);
      assert GroupNodes(g, P, c) == Ok(JoinNodes(a, b));
    }
  }

  /** One group: its nodes, ways and relations, each only when the pass
      reads that kind. */
  method ProcessGroup(g: PrimitiveGroup, P: PrimitiveBlock, c: Context, data: OsmData,
                      memNodes: MemberList?, memWays: MemberList?, bbn: MemberList)
    returns (crashed: bool)
    requires ValidContext(c) && Tracks(c, memNodes, memWays, bbn)
    modifies data, memNodes, memWays, bbn
    ensures crashed <==> GroupPass(g, P, c).Crash?
    ensures !crashed ==> Yielded(GroupPass(g, P, c).value, data, memNodes, memWays, bbn)
    ensures !crashed ==> Tracks(c, memNodes, memWays, bbn)
  {
    ghost var n := NoNodes;
    if ReadsNodes(c.pass) {
      crashed := ProcessGroupNodes(g, P, c, data, memNodes, memWays, bbn);
      if crashed {
        return;
      }
      n := GroupNodes(g, P, c).value;
    } else {
      assert old(data.nodes) + [] == old(data.nodes);
    }
    assert data.nodes == old(data.nodes) + n.stored;
    assert bbn.State() == Added(old(bbn.State()), n.boxed);
    ghost var w := WayYield([], []);
    label afterNodes:
    if ReadsWays(c.pass) {
      crashed := ProcessWays(g.ways, P, c, data, memNodes, memWays, bbn);
      if crashed {
        return;
      }
      w := WaysPass(g.ways, P, c).value;
    } else {
      assert old(data.ways) + [] == old(data.ways);
    }
    assert data.ways == old(data.ways) + w.stored;
    ghost var r := RelationYield([], [], []);
    label afterWays:
    if ReadsRelations(c.pass) {
      crashed := ProcessRelations(g.relations, P, c, data, memNodes, memWays, bbn);
      if crashed {
        return;
      }
      r := RelationsPass(g.relations, P, c).value;
    } else {
      assert old(data.relations) + [] == old(data.relations);
    }
    assert data.relations == old(data.relations) + r.stored;
    if memNodes != null {
      AddedTwice(old(memNodes.State()), w.added, r.nodeRefs);
    }
    if memWays != null {
      assert memWays.State() == Added(old(memWays.State()), r.wayRefs);
    }
    crashed := false;
  }

  lemma Associative<T>(a: seq<T>, b: seq<T>, c: seq<T>)
    ensures a + b + c == a + (b + c)
  {
  }

  /** The loop over the groups of a primitive block. */
  method ProcessBlock(P: PrimitiveBlock, c: Context, data: OsmData,
                      memNodes: MemberList?, memWays: MemberList?, bbn: MemberList)
    returns (crashed: bool)
    requires ValidContext(c) && Tracks(c, memNodes, memWays, bbn)
    modifies data, memNodes, memWays, bbn
    ensures crashed <==> BlockPass(P.groups, P, c).Crash?
    ensures !crashed ==> Yielded(BlockPass(P.groups, P, c).value, data, memNodes, memWays, bbn)
    ensures !crashed ==> Tracks(c, memNodes, memWays, bbn)
  {
    var j := 0;
    ghost var acc := NoYield;
    ghost var nodes0, ways0, relations0, boxed0 := data.nodes, data.ways, data.relations, bbn.State();
    ghost var memNodes0 := if memNodes != null then memNodes.State() else IndexState([], true);
    ghost var memWays0 := if memWays != null then memWays.State() else IndexState([], true);
    while j < |P.groups|
      invariant 0 <= j <= |P.groups| && BlockPass(P.groups[..j], P, c) == Ok(acc)
      invariant data.nodes == nodes0 + acc.nodes && data.ways == ways0 + acc.ways
      invariant data.relations == relations0 + acc.relations
      invariant bbn.State() == Added(boxed0, acc.boxed)
      invariant memNodes != null ==> memNodes.State() == Added(memNodes0, acc.nodeRefs)
      invariant memWays != null ==> memWays.State() == Added(memWays0, acc.wayRefs)
      invariant Tracks(c, memNodes, memWays, bbn)
    {
      crashed := ProcessGroup(P.groups[j], P, c, data, memNodes, memWays, bbn);
      if crashed {
        BlockPassCrashAt(P.groups, P, c, j);
        return;
      }
      ghost var s := GroupPass(P.groups[j], P, c).value;
      BlockPassJoin(P.groups, P, c, j, acc, s);
      AddedTwice(boxed0, acc.boxed, s.boxed);
      AddedTwice(memNodes0, acc.nodeRefs, s.nodeRefs);
      AddedTwice(memWays0, acc.wayRefs, s.wayRefs);
      Associative(nodes0, acc.nodes, s.nodes);
      Associative(ways0, acc.ways, s.ways);
      Associative(relations0, acc.relations, s.relations);
      acc := JoinYield(acc, s);
      j := j + 1;
    }
    assert P.groups[..j] == P.groups;
    crashed := false;
  }
}
