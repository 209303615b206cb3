/** Decoding of a DenseNodes group (pbf.c): IDs, coordinates and the
    DenseInfo fields are running sums over the whole group, and the tags of
    all nodes share one flat array of string-table index pairs in which
    each node's pairs end with a 0, read with one cursor that is never reset. */
module Dense {
  import opened Common
  import opened Proto
  import opened Osm
  import opened Deltas
  import opened Decode

  /** The tags read for one node and the cursor after them. */
  datatype TagCursor = TagCursor(tags: seq<Tag>, next: nat)

  /** The pair loop started at cursor `l`: pairs are read until a 0 index,
      which is then skipped. Reading a key past the array, a value past the
      array, or a string outside the table is a `Crash`. */
  function TagRun(kv: seq<int>, l: nat, table: seq<string>): (r: Outcome<TagCursor>)
    decreases |kv| - l
    ensures r.Ok? ==> r.value.next == l + 2 * |r.value.tags| + 1 <= |kv|
    ensures r.Ok? ==> kv[r.value.next - 1] == 0
  {
    if l >= |kv| then Crash
    else if kv[l] == 0 then Ok(TagCursor([], l + 1))
    else if l + 1 >= |kv| || !InTable(table, kv[l]) || !InTable(table, kv[l + 1]) then Crash
    else
      match TagRun(kv, l + 2, table)
      case Crash => Crash
      case Ok(c) => Ok(TagCursor([Tag(table[kv[l]], table[kv[l + 1]])] + c.tags, c.next))
  }

  /** The i-th tag of a run is the pair at offset `2 * i` from the cursor,
      and no key before the delimiter is 0. */
  lemma {:induction false} TagRunPairs(kv: seq<int>, l: nat, table: seq<string>, i: nat)
    requires TagRun(kv, l, table).Ok? && i < |TagRun(kv, l, table).value.tags|
    ensures l + 2 * i + 1 < |kv|
    ensures kv[l + 2 * i] != 0 && InTable(table, kv[l + 2 * i]) && InTable(table, kv[l + 2 * i + 1])
    ensures TagRun(kv, l, table).value.tags[i] == Tag(table[kv[l + 2 * i]], table[kv[l + 2 * i + 1]])
    decreases i
  {
    if i > 0 {
      TagRunPairs(kv, l + 2, table, i - 1);
      assert (l + 2) + 2 * (i - 1) == l + 2 * i;
    }
  }

  /** The tags of one dense node: the pair loop runs only while the cursor
      is inside the array; otherwise the node has no tags and the cursor
      stays where it is. The cursor never moves back. */
  function NodeTags(kv: seq<int>, l: nat, table: seq<string>): (r: Outcome<TagCursor>)
    ensures l >= |kv| ==> r == Ok(TagCursor([], l))
    ensures r.Ok? ==> l <= r.value.next
    ensures r.Ok? && l < |kv| ==> l < r.value.next
  {
    if l < |kv| then TagRun(kv, l, table) else Ok(TagCursor([], l))
  }

  /** The flat encoding of one node's tags (as string-table index pairs)
      followed by its 0 delimiter. */
  function EncodePairs(pairs: seq<(int, int)>): (kv: seq<int>)
    ensures |kv| == 2 * |pairs| + 1
  {
    if pairs == [] then [0] else [pairs[0].0, pairs[0].1] + EncodePairs(pairs[1..])
  }

  predicate PairsInTable(pairs: seq<(int, int)>, table: seq<string>) {
    forall i :: 0 <= i < |pairs| ==> pairs[i].0 != 0 && InTable(table, pairs[i].0) && InTable(table, pairs[i].1)
  }

  function TagsOfPairs(pairs: seq<(int, int)>, table: seq<string>): seq<Tag>
    requires PairsInTable(pairs, table)
  {
    if pairs == [] then []
    else [Tag(table[pairs[0].0], table[pairs[0].1])] + TagsOfPairs(pairs[1..], table)
  }

  /** Decoding the pairs of a node, wherever they sit in the array, gives
      back its tags and leaves the cursor just after its delimiter. */
  lemma {:induction false} TagRunDecodesEncoding(before: seq<int>, pairs: seq<(int, int)>, after: seq<int>, table: seq<string>)
    requires PairsInTable(pairs, table)
    ensures TagRun(before + EncodePairs(pairs) + after, |before|, table) ==
      Ok(TagCursor(TagsOfPairs(pairs, table), |before| + 2 * |pairs| + 1))
    decreases |pairs|
  {
    var kv := before + EncodePairs(pairs) + after;
    if pairs == [] {
      assert kv[|before|] == 0;
    } else {
      var p := pairs[0];
      var before' := before + [p.0, p.1];
      assert kv == before' + EncodePairs(pairs[1..]) + after;
      assert PairsInTable(pairs[1..], table) by {
        forall i | 0 <= i < |pairs[1..]| ensures pairs[1..][i] == pairs[i + 1] { }
      }
      TagRunDecodesEncoding(before', pairs[1..], after, table);
      assert kv[|before|] == p.0 && kv[|before| + 1] == p.1;
    }
  }

  /** The loop of pbf.c for one node, with the shared cursor `l`. */
  method ReadNodeTags(kv: seq<int>, l0: nat, table: seq<string>) returns (r: Outcome<TagCursor>)
    ensures r == NodeTags(kv, l0, table)
  {
    var l := l0;
    var tl: seq<Tag> := [];
    if l < |kv| {
      match TagRun(kv, l, table) {
        case Crash =>
        case Ok(c) => assert tl + c.tags == c.tags;
      }
      while true
        invariant l0 <= l <= |kv| && l == l0 + 2 * |tl|
        invariant TagRun(kv, l0, table) ==
          match TagRun(kv, l, table)
          case Crash => Crash
          case Ok(c) => Ok(TagCursor(tl + c.tags, c.next))
        decreases |kv| - l
      {
        if l >= |kv| {
          return Crash;
        }
        if kv[l] == 0 {
          assert TagRun(kv, l, table) == Ok(TagCursor([], l + 1));
          assert tl + [] == tl;
          break;
        }
        if l + 1 >= |kv| || !InTable(table, kv[l]) || !InTable(table, kv[l + 1]) {
          return Crash;
        }
        var t := Tag(table[kv[l]], table[kv[l + 1]]);
        match TagRun(kv, l + 2, table) {
          case Crash =>
          case Ok(c) => assert tl + [t] + c.tags == tl + ([t] + c.tags);
        }
        tl := tl + [t];
        l := l + 2;
      }
      l := l + 1;
    }
    r := Ok(TagCursor(tl, l));
  }

  /** The metadata of the k-th dense node: the defaults when the group has
      no DenseInfo; otherwise `version` as stored and changeset, uid, user
      index and timestamp as running sums. */
  function DenseMeta(D: DenseNodes, k: nat, P: PrimitiveBlock): (r: Outcome<Meta>)
    ensures D.denseinfo.None? ==> r == Ok(DenseDefaultMeta)
    ensures D.denseinfo.Some? ==>
      var I := D.denseinfo.value;
      (r.Ok? <==> k < |I.version| && k < |I.timestamp| && k < |I.changeset| && k < |I.uid| &&
                  k < |I.userSid| && InTable(P.stringtable, Sum(I.userSid[..k + 1])))
    ensures D.denseinfo.Some? && r.Ok? ==>
      var I := D.denseinfo.value;
      k < |I.userSid| && InTable(P.stringtable, Sum(I.userSid[..k + 1])) &&
      r.value.version == I.version[k] && r.value.changeset == Sum(I.changeset[..k + 1]) &&
      r.value.uid == Sum(I.uid[..k + 1]) && r.value.user == P.stringtable[Sum(I.userSid[..k + 1])] &&
      r.value.timestamp == Timestamp(Sum(I.timestamp[..k + 1]), P.dateGranularity)
  {
    match D.denseinfo
    case None => Ok(DenseDefaultMeta)
    case Some(I) =>
      if k < |I.version| && k < |I.timestamp| && k < |I.changeset| && k < |I.uid| && k < |I.userSid|
         && InTable(P.stringtable, Sum(I.userSid[..k + 1]))
      then
        Ok(Meta(I.version[k], Sum(I.changeset[..k + 1]), P.stringtable[Sum(I.userSid[..k + 1])],
                Sum(I.uid[..k + 1]), Timestamp(Sum(I.timestamp[..k + 1]), P.dateGranularity)))
      else Crash
  }

  /** The k-th dense node, given the tag cursor before it, and the cursor after it. */
  function DenseNodeAt(D: DenseNodes, P: PrimitiveBlock, k: nat, l: nat): Outcome<(OsmNode, nat)> {
    if k < |D.id| && k < |D.lat| && k < |D.lon| then
      match DenseMeta(D, k, P)
      case Crash => Crash
      case Ok(m) =>
        match NodeTags(D.keysVals, l, P.stringtable)
        case Crash => Crash
        case Ok(c) =>
          Ok((OsmNode(Sum(D.id[..k + 1]),
                      Degrees(P.latOffset, Sum(D.lat[..k + 1]), P.granularity),
                      Degrees(P.lonOffset, Sum(D.lon[..k + 1]), P.granularity),
                      Some(m),
                      if c.tags == [] then None else Some(c.tags)),
              c.next))
    else Crash
  }

  /** The nodes of a group from node `k` on, given the tag cursor before
      node `k`; any node that cannot be read makes the whole group a `Crash`. */
  function DenseFrom(D: DenseNodes, P: PrimitiveBlock, k: nat, l: nat): (r: Outcome<seq<OsmNode>>)
    decreases |D.id| - k
    ensures r.Ok? ==> |r.value| == if k < |D.id| then |D.id| - k else 0
  {
    if k >= |D.id| then Ok([])
    else
      match DenseNodeAt(D, P, k, l)
      case Crash => Crash
      case Ok(p) =>
        match DenseFrom(D, P, k + 1, p.1)
        case Crash => Crash
        case Ok(rest) => Ok([p.0] + rest)
  }

  /** `xs` followed by the nodes of `o`, or `Crash`. */
  function Prefixed(xs: seq<OsmNode>, o: Outcome<seq<OsmNode>>): Outcome<seq<OsmNode>> {
    match o
    case Crash => Crash
    case Ok(v) => Ok(xs + v)
  }

  /** The nodes of a whole group. */
  function DenseGroup(D: DenseNodes, P: PrimitiveBlock): Outcome<seq<OsmNode>> {
    DenseFrom(D, P, 0, 0)
  }

  /** The running totals the dense loop keeps across the nodes of a group. */
  datatype Totals = Totals(id: int, lat: int, lon: int, timestamp: int, changeset: int, uid: int, userSid: int)

  /** The running totals before node `k`: each is the sum of the first `k`
      deltas of its column (all start at 0). */
  ghost predicate TotalsBefore(D: DenseNodes, k: nat, t: Totals)
  {
    k <= |D.id| && k <= |D.lat| && k <= |D.lon| &&
    t.id == Sum(D.id[..k]) && t.lat == Sum(D.lat[..k]) && t.lon == Sum(D.lon[..k]) &&
    (D.denseinfo.Some? ==>
      var I := D.denseinfo.value;
      k <= |I.timestamp| && k <= |I.changeset| && k <= |I.uid| && k <= |I.userSid| &&
      t.timestamp == Sum(I.timestamp[..k]) && t.changeset == Sum(I.changeset[..k]) &&
      t.uid == Sum(I.uid[..k]) && t.userSid == Sum(I.userSid[..k]))
  }

  /** One iteration of the dense loop: add the k-th deltas to the totals,
      build the node and read its tags at the shared cursor. */
  method DecodeDenseNode(D: DenseNodes, P: PrimitiveBlock, k: nat, l: nat, t: Totals)
    returns (r: Outcome<(OsmNode, nat)>, t': Totals)
    requires k < |D.id| && TotalsBefore(D, k, t)
    ensures r == DenseNodeAt(D, P, k, l)
    ensures r.Ok? ==> TotalsBefore(D, k + 1, t')
  {
    t' := t;
    if k >= |D.lat| || k >= |D.lon| {
      return Crash, t';
    }
    SumStep(D.id, k);
    SumStep(D.lat, k);
    SumStep(D.lon, k);
    t' := t'.(id := t'.id + D.id[k], lat := t'.lat + D.lat[k], lon := t'.lon + D.lon[k]);
    var meta := DenseDefaultMeta;
    if D.denseinfo.Some? {
      var I := D.denseinfo.value;
      if k >= |I.timestamp| || k >= |I.changeset| || k >= |I.uid| || k >= |I.userSid| || k >= |I.version| {
        return Crash, t';
      }
      SumStep(I.timestamp, k);
      SumStep(I.changeset, k);
      SumStep(I.uid, k);
      SumStep(I.userSid, k);
      t' := t'.(timestamp := t'.timestamp + I.timestamp[k], changeset := t'.changeset + I.changeset[k],
                uid := t'.uid + I.uid[k], userSid := t'.userSid + I.userSid[k]);
      if !InTable(P.stringtable, t'.userSid) {
        return Crash, t';
      }
      meta := Meta(I.version[k], t'.changeset, P.stringtable[t'.userSid], t'.uid,
                   Timestamp(t'.timestamp, P.dateGranularity));
    }
    assert DenseMeta(D, k, P) == Ok(meta);
    var tags := ReadNodeTags(D.keysVals, l, P.stringtable);
    if tags.Crash? {
      return Crash, t';
    }
    var n := OsmNode(t'.id,
                     Degrees(P.latOffset, t'.lat, P.granularity),
                     Degrees(P.lonOffset, t'.lon, P.granularity),
                     Some(meta),
                     if tags.value.tags == [] then None else Some(tags.value.tags));
    r := Ok((n, tags.value.next));
  }

  /** The dense loop over a whole group: the totals and the tag cursor start
      at 0 and are never reset inside the group. */
  method DecodeDense(D: DenseNodes, P: PrimitiveBlock) returns (r: Outcome<seq<OsmNode>>)
    ensures r == DenseGroup(D, P)
  {
    var nodes: seq<OsmNode> := [];
    var l: nat := 0;
    var t := Totals(0, 0, 0, 0, 0, 0, 0);
    var k := 0;
    match DenseGroup(D, P) {
      case Crash =>
      case Ok(v) => assert nodes + v == v;
    }
    while k < |D.id|
      invariant k <= |D.id| && TotalsBefore(D, k, t)
      invariant DenseGroup(D, P) == Prefixed(nodes, DenseFrom(D, P, k, l))
    {
      var step, t' := DecodeDenseNode(D, P, k, l, t);
      DenseFromStep(D, P, k, l);
      if step.Crash? {
        return Crash;
      }
      PrefixedTwice(nodes, step.value.0, DenseFrom(D, P, k + 1, step.value.1));
      nodes := nodes + [step.value.0];
      l := step.value.1;
      t := t';
      k := k + 1;
    }
    assert nodes + [] == nodes;
    r := Ok(nodes);
  }

  /** One node more of the group. */
  lemma DenseFromStep(D: DenseNodes, P: PrimitiveBlock, k: nat, l: nat)
    requires k < |D.id|
    ensures DenseFrom(D, P, k, l) ==
      match DenseNodeAt(D, P, k, l)
      case Crash => Crash
      case Ok(p) => Prefixed([p.0], DenseFrom(D, P, k + 1, p.1))
  {
  }

  lemma PrefixedTwice(xs: seq<OsmNode>, n: OsmNode, o: Outcome<seq<OsmNode>>)
    ensures Prefixed(xs, Prefixed([n], o)) == Prefixed(xs + [n], o)
  {
    if o.Ok? {
      assert xs + ([n] + o.value) == xs + [n] + o.value;
    }
  }

  /** The k-th node of a group that decodes is `DenseNodeAt` at the cursor
      the previous nodes left, so its ID and raw coordinates are the sums
      of the first `k + 1` deltas of the group. */
  lemma {:induction false} DenseIdsAreRunningSums(D: DenseNodes, P: PrimitiveBlock, k: nat, l: nat, j: nat)
    requires DenseFrom(D, P, k, l).Ok? && j < |DenseFrom(D, P, k, l).value|
    ensures k + j < |D.id| && k + j < |D.lat| && k + j < |D.lon|
    ensures DenseFrom(D, P, k, l).value[j].id == Sum(D.id[..k + j + 1])
    ensures DenseFrom(D, P, k, l).value[j].lat == Degrees(P.latOffset, Sum(D.lat[..k + j + 1]), P.granularity)
    ensures DenseFrom(D, P, k, l).value[j].lon == Degrees(P.lonOffset, Sum(D.lon[..k + j + 1]), P.granularity)
    decreases j
  {
    var p := DenseNodeAt(D, P, k, l).value;
    if j > 0 {
      DenseIdsAreRunningSums(D, P, k + 1, p.1, j - 1);
      assert k + 1 + (j - 1) == k + j;
    }
  }

  /** The metadata of the j-th node of a decoded group is `DenseMeta` at its
      position: with DenseInfo, its version as stored and its changeset,
      uid, user index and timestamp the sums of the first `k + j + 1`
      deltas of their columns. */
  lemma {:induction false} DenseMetaAreRunningSums(D: DenseNodes, P: PrimitiveBlock, k: nat, l: nat, j: nat)
    requires DenseFrom(D, P, k, l).Ok? && j < |DenseFrom(D, P, k, l).value|
    ensures DenseMeta(D, k + j, P).Ok?
    ensures DenseFrom(D, P, k, l).value[j].meta == Some(DenseMeta(D, k + j, P).value)
    ensures D.denseinfo.Some? ==>
      var I := D.denseinfo.value;
      var m := DenseFrom(D, P, k, l).value[j].meta.value;
      k + j < |I.version| && k + j < |I.timestamp| && k + j < |I.changeset| && k + j < |I.uid| &&
      k + j < |I.userSid| && InTable(P.stringtable, Sum(I.userSid[..k + j + 1])) &&
      m.version == I.version[k + j] && m.changeset == Sum(I.changeset[..k + j + 1]) &&
      m.uid == Sum(I.uid[..k + j + 1]) && m.user == P.stringtable[Sum(I.userSid[..k + j + 1])] &&
      m.timestamp == Timestamp(Sum(I.timestamp[..k + j + 1]), P.dateGranularity)
    ensures D.denseinfo.Some? ==>
      var I := D.denseinfo.value;
      var m := DenseFrom(D, P, k, l).value[j].meta.value;
      k + j < |I.changeset| && k + j < |I.uid| && k + j < |I.userSid| && k + j < |I.timestamp| &&
      m.changeset == RunningSums(I.changeset)[k + j] && m.uid == RunningSums(I.uid)[k + j] &&
      RunningSums(I.userSid)[k + j] == Sum(I.userSid[..k + j + 1]) &&
      m.user == P.stringtable[RunningSums(I.userSid)[k + j]] &&
      m.timestamp == Timestamp(RunningSums(I.timestamp)[k + j], P.dateGranularity)
    decreases j
  {
    DenseMetaAreSums(D, P, k, l, j);
    if D.denseinfo.Some? {
      var I := D.denseinfo.value;
      RunningSumsAt(I.changeset, k + j);
      RunningSumsAt(I.uid, k + j);
      RunningSumsAt(I.userSid, k + j);
      RunningSumsAt(I.timestamp, k + j);
    }
  }

  lemma {:induction false} DenseMetaAreSums(D: DenseNodes, P: PrimitiveBlock, k: nat, l: nat, j: nat)
    requires DenseFrom(D, P, k, l).Ok? && j < |DenseFrom(D, P, k, l).value|
    ensures DenseMeta(D, k + j, P).Ok?
    ensures DenseFrom(D, P, k, l).value[j].meta == Some(DenseMeta(D, k + j, P).value)
    decreases j
  {
    var p := DenseNodeAt(D, P, k, l).value;
    if j > 0 {
      DenseMetaAreSums(D, P, k + 1, p.1, j - 1);
      assert k + 1 + (j - 1) == k + j;
    }
  }
}
