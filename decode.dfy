/** Decoding of the non-dense entities of a primitive block (pbf.c): plain
    nodes, ways with delta-coded node references, relations with
    delta-coded member IDs, their metadata and their tag lists. String
    table indexes are not checked by the source: an index outside the table
    is a `Crash`, as is a parallel array shorter than the one that drives
    the loop. */
module Decode {
  import opened Common
  import opened Proto
  import opened Osm
  import opened Deltas

  const NanoDegree: real := 0.000000001

  /** A coordinate in degrees: `NANO_DEGREE * offset + raw * (NANO_DEGREE *
      granularity)`, computed exactly (the source uses doubles). */
  function Degrees(offset: int, raw: int, granularity: int): (d: real)
    ensures d == NanoDegree * offset as real + raw as real * (NanoDegree * granularity as real)
  {
    (offset + raw * granularity) as real * NanoDegree
  }

  predicate InTable(table: seq<string>, i: int) {
    0 <= i < |table|
  }

  /** `raw * (date_granularity / 1000)`, with C's truncating integer division. */
  function Timestamp(raw: int, dateGranularity: int): int {
    raw * CDiv(dateGranularity, 1000)
  }

  /** The metadata of an entity that has an Info message: each field whose
      flag is unset is 0, or "" for the user. */
  function InfoMeta(info: Info, table: seq<string>, dateGranularity: int): (r: Outcome<Meta>)
    ensures r.Ok? <==> (info.userSid.Some? ==> InTable(table, info.userSid.value))
  {
    if info.userSid.Some? && !InTable(table, info.userSid.value) then Crash
    else Ok(Meta(
      info.version.GetOr(0),
      info.changeset.GetOr(0),
      if info.userSid.Some? then table[info.userSid.value] else "",
      info.uid.GetOr(0),
      if info.timestamp.Some? then Timestamp(info.timestamp.value, dateGranularity) else 0))
  }

  /** Without an Info message the metadata fields are left unset. */
  function EntityMeta(info: Option<Info>, P: PrimitiveBlock): (r: Outcome<Option<Meta>>)
    ensures r.Ok? <==> (info.Some? ==> InfoMeta(info.value, P.stringtable, P.dateGranularity).Ok?)
    ensures r.Ok? ==> (r.value.None? <==> info.None?)
  {
    match info
    case None => Ok(None)
    case Some(i) =>
      match InfoMeta(i, P.stringtable, P.dateGranularity)
      case Crash => Crash
      case Ok(m) => Ok(Some(m))
  }

  /** Whether the `n_keys` key/value index pairs can be read. */
  predicate PairsReadable(keys: seq<int>, vals: seq<int>, table: seq<string>) {
    |keys| <= |vals| &&
    forall x :: 0 <= x < |keys| ==> InTable(table, keys[x]) && InTable(table, vals[x])
  }

  /** Tag `x` is the pair of strings the x-th key and value index name. */
  function PairTags(keys: seq<int>, vals: seq<int>, table: seq<string>): (r: Outcome<seq<Tag>>)
    ensures r.Ok? <==> PairsReadable(keys, vals, table)
  {
    if PairsReadable(keys, vals, table) then
      Ok(seq(|keys|, x requires 0 <= x < |keys| => Tag(table[keys[x]], table[vals[x]])))
    else Crash
  }

  /** The loop that copies `n_keys` tags out of the string table. */
  method DecodePairs(keys: seq<int>, vals: seq<int>, table: seq<string>) returns (r: Outcome<seq<Tag>>)
    ensures r == PairTags(keys, vals, table)
    ensures r.Ok? ==> |r.value| == |keys|
    ensures r.Ok? ==> forall x :: 0 <= x < |keys| ==> r.value[x] == Tag(table[keys[x]], table[vals[x]])
  {
    var tl: seq<Tag> := [];
    var x := 0;
    while x < |keys|
      invariant 0 <= x <= |keys| && |tl| == x
      invariant x <= |vals|
      invariant forall j :: 0 <= j < x ==> InTable(table, keys[j]) && InTable(table, vals[j])
      invariant forall j :: 0 <= j < x ==> tl[j] == Tag(table[keys[j]], table[vals[j]])
    {
      if x >= |vals| || !InTable(table, keys[x]) || !InTable(table, vals[x]) {
        return Crash;
      }
      tl := tl + [Tag(table[keys[x]], table[vals[x]])];
      x := x + 1;
    }
    assert PairsReadable(keys, vals, table);
    assert tl == PairTags(keys, vals, table).value;
    r := Ok(tl);
  }

  /** A plain node has a tag list only when it has both keys and values. */
  predicate NodeHasTags(node: Proto.Node) {
    |node.keys| > 0 && |node.vals| > 0
  }

  /** A plain (non-dense) node: ID and coordinates as stored, metadata
      only when it has Info, and a tag list only when it has keys and values. */
  function PlainNode(node: Proto.Node, P: PrimitiveBlock): (r: Outcome<OsmNode>)
    ensures r.Ok? <==> EntityMeta(node.info, P).Ok? &&
                       (NodeHasTags(node) ==> PairsReadable(node.keys, node.vals, P.stringtable))
    ensures r.Ok? ==> r.value.id == node.id
    ensures r.Ok? ==> r.value.lat == Degrees(P.latOffset, node.lat, P.granularity)
    ensures r.Ok? ==> r.value.lon == Degrees(P.lonOffset, node.lon, P.granularity)
    ensures r.Ok? ==> (r.value.meta.None? <==> node.info.None?)
    ensures r.Ok? ==> (r.value.tags.Some? <==> NodeHasTags(node))
    ensures r.Ok? && NodeHasTags(node) ==> Ok(r.value.tags.value) == PairTags(node.keys, node.vals, P.stringtable)
  {
    match EntityMeta(node.info, P)
    case Crash => Crash
    case Ok(meta) =>
      var lat := Degrees(P.latOffset, node.lat, P.granularity);
      var lon := Degrees(P.lonOffset, node.lon, P.granularity);
      if !NodeHasTags(node) then Ok(OsmNode(node.id, lat, lon, meta, None))
      else match PairTags(node.keys, node.vals, P.stringtable)
        case Crash => Crash
        case Ok(tl) => Ok(OsmNode(node.id, lat, lon, meta, Some(tl)))
  }

  method DecodePlainNode(node: Proto.Node, P: PrimitiveBlock) returns (r: Outcome<OsmNode>)
    ensures r == PlainNode(node, P)
  {
    var meta := EntityMeta(node.info, P);
    if meta.Crash? {
      return Crash;
    }
    var tl: Option<seq<Tag>> := None;
    if NodeHasTags(node) {
      var t := DecodePairs(node.keys, node.vals, P.stringtable);
      if t.Crash? {
        return Crash;
      }
      tl := Some(t.value);
    }
    r := Ok(OsmNode(node.id, Degrees(P.latOffset, node.lat, P.granularity),
                    Degrees(P.lonOffset, node.lon, P.granularity), meta.value, tl));
  }

  /** A way's node references: `refs` holds the decoded IDs, `nodes` the
      same IDs followed by the 0 terminator (a lone 0 for an empty way). */
  method DecodeRefs(deltas: seq<int>) returns (nodes: seq<int>, refs: seq<int>)
    ensures refs == RunningSums(deltas)
    ensures nodes == refs + [0]
    ensures forall l :: 0 <= l < |deltas| ==> nodes[l] == Sum(deltas[..l + 1])
  {
    if |deltas| == 0 {
      nodes, refs := [0], [];
      return;
    }
    var deltaref := 0;
    refs := [];
    var l := 0;
    while l < |deltas|
      invariant 0 <= l <= |deltas|
      invariant refs == RunningSums(deltas[..l])
      invariant deltaref == Sum(deltas[..l])
    {
      SumStep(deltas, l);
      assert deltas[..l + 1][..l] == deltas[..l];
      deltaref := deltaref + deltas[l];
      refs := refs + [deltaref];
      l := l + 1;
    }
    assert deltas[..l] == deltas;
    nodes := refs + [0];
    forall l | 0 <= l < |deltas| ensures nodes[l] == Sum(deltas[..l + 1]) {
      RunningSumsAt(deltas, l);
    }
  }

  /** A way and the array of its decoded references: the references are
      the running sums of the deltas, and the way's node list is them
      followed by a 0 terminator. */
  function DecodedWay(W: Way, P: PrimitiveBlock): (r: Outcome<(OsmWay, seq<int>)>)
    ensures r.Ok? <==> EntityMeta(W.info, P).Ok? &&
                       (|W.keys| > 0 ==> PairsReadable(W.keys, W.vals, P.stringtable))
    ensures r.Ok? ==> r.value.0.id == W.id && (r.value.0.meta.None? <==> W.info.None?)
    ensures r.Ok? ==> r.value.1 == RunningSums(W.refs) && r.value.0.nodes == r.value.1 + [0]
    ensures r.Ok? ==> (r.value.0.tags.Some? <==> |W.keys| > 0)
    ensures r.Ok? && |W.keys| > 0 ==> Ok(r.value.0.tags.value) == PairTags(W.keys, W.vals, P.stringtable)
  {
    match EntityMeta(W.info, P)
    case Crash => Crash
    case Ok(meta) =>
      var refs := RunningSums(W.refs);
      if |W.keys| == 0 then Ok((OsmWay(W.id, meta, refs + [0], None), refs))
      else match PairTags(W.keys, W.vals, P.stringtable)
        case Crash => Crash
        case Ok(tl) => Ok((OsmWay(W.id, meta, refs + [0], Some(tl)), refs))
  }

  method DecodeWay(W: Way, P: PrimitiveBlock) returns (r: Outcome<(OsmWay, seq<int>)>)
    ensures r == DecodedWay(W, P)
  {
    var meta := EntityMeta(W.info, P);
    if meta.Crash? {
      return Crash;
    }
    var nodes, refs := DecodeRefs(W.refs);
    var tl: Option<seq<Tag>> := None;
    if |W.keys| > 0 {
      var t := DecodePairs(W.keys, W.vals, P.stringtable);
      if t.Crash? {
        return Crash;
      }
      tl := Some(t.value);
    }
    r := Ok((OsmWay(W.id, meta.value, nodes, tl), refs));
  }

  /** The member type of osmformat.proto; any other number is unassigned. */
  function KindOf(t: int): MemberKind {
    if t == MemberTypeNode then NodeMember
    else if t == MemberTypeWay then WayMember
    else if t == MemberTypeRelation then RelationMember
    else Unassigned
  }

  /** The references of the members of one kind, in member order. */
  function RefsOfKind(ms: seq<Member>, k: MemberKind): (r: seq<int>)
    ensures |r| <= |ms|
  {
    if ms == [] then []
    else RefsOfKind(ms[..|ms| - 1], k) + (if ms[|ms| - 1].kind == k then [ms[|ms| - 1].ref] else [])
  }

  /** Each member goes to at most one of the node and way lists, so together
      they are never longer than the member list. */
  lemma {:induction false} NodeAndWayRefsBounded(ms: seq<Member>)
    ensures |RefsOfKind(ms, NodeMember)| + |RefsOfKind(ms, WayMember)| <= |ms|
  {
    if ms != [] {
      NodeAndWayRefsBounded(ms[..|ms| - 1]);
    }
  }

  /** Whether the `n_memids` role indexes and types can be read. */
  predicate MembersReadable(R: Relation, table: seq<string>) {
    ReadableUpTo(R, table, |R.memids|)
  }

  /** The first `n` members have a type and a role in the string table. */
  predicate ReadableUpTo(R: Relation, table: seq<string>, n: nat) {
    n <= |R.memids| && n <= |R.rolesSid| && n <= |R.types| &&
    forall l :: 0 <= l < n ==> InTable(table, R.rolesSid[l])
  }

  /** Member `l` refers to the running sum of the first `l + 1` member ID
      deltas, with the `l`-th type and role. */
  function MembersUpTo(R: Relation, table: seq<string>, n: nat): (ms: seq<Member>)
    requires ReadableUpTo(R, table, n)
    ensures |ms| == n
  {
    seq(n, l requires 0 <= l < n =>
      Member(Sum(R.memids[..l + 1]), KindOf(R.types[l]), table[R.rolesSid[l]]))
  }

  function MembersOf(R: Relation, table: seq<string>): (ms: seq<Member>)
    requires MembersReadable(R, table)
    ensures |ms| == |R.memids|
  {
    MembersUpTo(R, table, |R.memids|)
  }

  lemma MembersUpToStep(R: Relation, table: seq<string>, n: nat)
    requires ReadableUpTo(R, table, n + 1)
    ensures MembersUpTo(R, table, n + 1) ==
      MembersUpTo(R, table, n) + [Member(Sum(R.memids[..n + 1]), KindOf(R.types[n]), table[R.rolesSid[n]])]
  {
  }

  lemma RefsOfKindAppend(ms: seq<Member>, m: Member, k: MemberKind)
    ensures RefsOfKind(ms + [m], k) == RefsOfKind(ms, k) + (if m.kind == k then [m.ref] else [])
  {
    assert (ms + [m])[..|ms|] == ms;
  }

  /** The member loop: node members are collected into `nref` and way
      members into `wref`, both in member order. */
  method DecodeMembers(R: Relation, table: seq<string>) returns (r: Outcome<(seq<Member>, seq<int>, seq<int>)>)
    ensures r.Ok? <==> MembersReadable(R, table)
    ensures r.Ok? ==> r.value.0 == MembersOf(R, table)
    ensures r.Ok? ==> r.value.1 == RefsOfKind(r.value.0, NodeMember)
    ensures r.Ok? ==> r.value.2 == RefsOfKind(r.value.0, WayMember)
  {
    var members: seq<Member> := [];
    var nref: seq<int> := [];
    var wref: seq<int> := [];
    var deltaMemids := 0;
    var l := 0;
    while l < |R.memids|
      invariant ReadableUpTo(R, table, l) && members == MembersUpTo(R, table, l)
      invariant deltaMemids == Sum(R.memids[..l])
      invariant nref == RefsOfKind(members, NodeMember)
      invariant wref == RefsOfKind(members, WayMember)
    {
      if l >= |R.rolesSid| || !InTable(table, R.rolesSid[l]) || l >= |R.types| {
        return Crash;
      }
      var role := table[R.rolesSid[l]];
      SumStep(R.memids, l);
      deltaMemids := deltaMemids + R.memids[l];
      var kind := KindOf(R.types[l]);
      var m := Member(deltaMemids, kind, role);
      RefsOfKindAppend(members, m, NodeMember);
      RefsOfKindAppend(members, m, WayMember);
      if kind == NodeMember {
        nref := nref + [deltaMemids];
      } else if kind == WayMember {
        wref := wref + [deltaMemids];
      }
      MembersUpToStep(R, table, l);
      members := members + [m];
      l := l + 1;
    }
    r := Ok((members, nref, wref));
  }

  /** A relation (its member list is NULL when it has no members) and its
      node and way member references. */
  function DecodedRelation(R: Relation, P: PrimitiveBlock): (r: Outcome<(OsmRelation, seq<int>, seq<int>)>)
    ensures r.Ok? <==> EntityMeta(R.info, P).Ok? && MembersReadable(R, P.stringtable) &&
                       (|R.keys| > 0 ==> PairsReadable(R.keys, R.vals, P.stringtable))
    ensures r.Ok? ==> r.value.0.id == R.id && (r.value.0.meta.None? <==> R.info.None?)
    ensures r.Ok? ==> (r.value.0.members.None? <==> |R.memids| == 0)
    ensures r.Ok? && |R.memids| > 0 ==>
      r.value.0.members.value == MembersOf(R, P.stringtable) &&
      r.value.1 == RefsOfKind(r.value.0.members.value, NodeMember) &&
      r.value.2 == RefsOfKind(r.value.0.members.value, WayMember)
    ensures r.Ok? && |R.memids| == 0 ==> r.value.1 == [] && r.value.2 == []
    ensures r.Ok? ==> (r.value.0.tags.Some? <==> |R.keys| > 0)
  {
    match EntityMeta(R.info, P)
    case Crash => Crash
    case Ok(meta) =>
      if !MembersReadable(R, P.stringtable) then Crash
      else
        var ms := MembersOf(R, P.stringtable);
        var members := if |R.memids| == 0 then None else Some(ms);
        if |R.keys| == 0 then
          Ok((OsmRelation(R.id, meta, members, None), RefsOfKind(ms, NodeMember), RefsOfKind(ms, WayMember)))
        else match PairTags(R.keys, R.vals, P.stringtable)
          case Crash => Crash
          case Ok(tl) =>
            Ok((OsmRelation(R.id, meta, members, Some(tl)), RefsOfKind(ms, NodeMember), RefsOfKind(ms, WayMember)))
  }

  /** Each member goes to at most one of the `nref` and `wref` lists. */
  lemma RelationRefsBounded(R: Relation, P: PrimitiveBlock)
    requires DecodedRelation(R, P).Ok?
    ensures |DecodedRelation(R, P).value.1| + |DecodedRelation(R, P).value.2| <= |R.memids|
  {
    NodeAndWayRefsBounded(MembersOf(R, P.stringtable));
  }

  method DecodeRelation(R: Relation, P: PrimitiveBlock) returns (r: Outcome<(OsmRelation, seq<int>, seq<int>)>)
    ensures r == DecodedRelation(R, P)
  {
    var meta := EntityMeta(R.info, P);
    if meta.Crash? {
      return Crash;
    }
    var members: Option<seq<Member>> := None;
    var nref: seq<int> := [];
    var wref: seq<int> := [];
    var d := DecodeMembers(R, P.stringtable);
    if d.Crash? {
      return Crash;
    }
    if |R.memids| > 0 {
      members := Some(d.value.0);
      nref, wref := d.value.1, d.value.2;
    }
    var tl: Option<seq<Tag>> := None;
    if |R.keys| > 0 {
      var t := DecodePairs(R.keys, R.vals, P.stringtable);
      if t.Crash? {
        return Crash;
      }
      tl := Some(t.value);
    }
    r := Ok((OsmRelation(R.id, meta.value, members, tl), nref, wref));
  }
}
