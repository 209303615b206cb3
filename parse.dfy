/** `osm_pbf_parse` (pbf.c): request validation, the block loop over the
    file, and the passes it runs over the file until one returns. `Resume`
    states what the loop computes from a given point; `Parse` is the loop
    itself over the file and the objects it updates in place. */
module Parse {
  import opened Common
  import opened Proto
  import opened Osm
  import opened Members
  import opened Passes
  import opened Keep
  import opened Process
  import opened PbfUtil

  /** `state`: the kind of the last block whose header named a known type. */
  datatype BlockState = Initializer | HeaderBlock | DataBlock

  /** `"OSMHeader"` and `"OSMData"` set the state; any other type keeps it. */
  function NextBlockState(s: BlockState, kind: string): BlockState {
    if kind == "OSMHeader" then HeaderBlock
    else if kind == "OSMData" then DataBlock
    else s
  }

  /** What the caller passes besides the file and the mode: the box, the
      three filters, and the calls into code outside the model. */
  datatype Request = Request(bbox: Option<BBox>, filters: Filters, ext: Externals)

  /** What has been stored so far: the three result lists and the three
      indexes (`mem_nodes` and `mem_ways` are absent in a dump). */
  datatype Progress = Progress(nodes: seq<OsmNode>, ways: seq<OsmWay>, relations: seq<OsmRelation>,
                               memNodes: Option<IndexState>, memWays: Option<IndexState>,
                               bbn: IndexState)

  const EmptyIndex: IndexState := IndexState([], true)

  /** Nothing stored yet; a dump allocates no `mem_nodes` or `mem_ways`. */
  function Start(p: Pass): Progress {
    var mem := if p.mode == Dump then None else Some(EmptyIndex);
    Progress([], [], [], mem, mem, EmptyIndex)
  }

  /** The context a block is processed in: the live indexes. */
  function ContextOf(p: Pass, req: Request, g: Progress): Context {
    Context(p, req.bbox, req.filters, g.memNodes, g.memWays, g.bbn, req.ext)
  }

  /** What one block adds. */
  function Stored(g: Progress, y: PassYield): Progress {
    Progress(g.nodes + y.nodes, g.ways + y.ways, g.relations + y.relations,
             if g.memNodes.None? then None else Some(Added(g.memNodes.value, y.nodeRefs)),
             if g.memWays.None? then None else Some(Added(g.memWays.value, y.wayRefs)),
             Added(g.bbn, y.boxed))
  }

  /** The sorting done between two passes. */
  function Resorted(g: Progress, sortMembers: bool, sortBoxNodes: bool): Progress {
    g.(memNodes := if sortMembers && g.memNodes.Some? then Some(SortedIndex(g.memNodes.value)) else g.memNodes,
       memWays := if sortMembers && g.memWays.Some? then Some(SortedIndex(g.memWays.value)) else g.memWays,
       bbn := if sortBoxNodes then SortedIndex(g.bbn) else g.bbn)
  }

  /** One block after its 4-byte length `length` has been read, the file
      now at `at`: `Ok(None)` is a NULL return, `Crash` undefined behaviour
      (a NULL header, blob or primitive block dereferenced, or a failing
      pass), and `Ok(Some((next, st', g')))` carries on from `next` with
      block state `st'` and `g'` stored. A blob size of 0 or over 32 MiB
      gives NULL; a block before any known type and a header block store
      nothing. */
  function BlockStep(bytes: seq<Byte>, at: nat, length: nat, st: BlockState, p: Pass, g: Progress,
                     req: Request): (r: Outcome<Option<(nat, BlockState, Progress)>>)
    requires at <= |bytes| && ValidContext(ContextOf(p, req, g))
    ensures r.Ok? && r.value.Some? ==>
      at <= r.value.value.0 <= |bytes| && ValidContext(ContextOf(p, req, r.value.value.2))
  {
    var bh := req.ext.unpackHeader(Window(bytes, at, length));
    var atBlob := Advance(bytes, at, length);
    if bh.None? then Crash
    else
      var size := ToU32(bh.value.dataSize);
      if size == 0 || size > MaxBlobSize then Ok(None)
      else
        var st' := NextBlockState(st, bh.value.kind);
        var blob := req.ext.unpackBlob(Window(bytes, atBlob, size));
        var next := Advance(bytes, atBlob, size);
        if blob.None? || BlobPayload(blob.value, req.ext).None? then Crash
        else if st' != DataBlock then Ok(Some((next, st', g)))
        else
          match UnpackData(blob.value, BlobPayload(blob.value, req.ext).value, req.ext)
          case None => Crash
          case Some(P) =>
            match BlockPass(P.groups, P, ContextOf(p, req, g))
            case Crash => Crash
            case Ok(y) => Ok(Some((next, st', Stored(g, y))))
  }

  /** A data block hands the primitive-block unpacker its payload (the raw
      bytes, or the inflated buffer) together with the declared `raw_size`,
      even when the payload is not `raw_size` bytes long. A NULL primitive
      block is dereferenced (a `Crash`); otherwise the block's groups are
      processed against the live indexes and the file moves past the blob. */
  lemma DataBlockUnpacksPayload(bytes: seq<Byte>, at: nat, length: nat, st: BlockState, p: Pass, g: Progress,
                                req: Request, bh: BlockHeader, B: Blob, payload: seq<Byte>)
    requires at <= |bytes| && ValidContext(ContextOf(p, req, g))
    requires req.ext.unpackHeader(Window(bytes, at, length)) == Some(bh)
    requires 0 < ToU32(bh.dataSize) <= MaxBlobSize && NextBlockState(st, bh.kind) == DataBlock
    requires req.ext.unpackBlob(Window(bytes, Advance(bytes, at, length), ToU32(bh.dataSize))) == Some(B)
    requires B.raw.Some? ==> payload == B.raw.value
    requires B.raw.None? ==> UncompressBlob(B, req.ext) == Some(payload)
    ensures req.ext.unpackPrimitive(payload, B.rawSize).None? ==>
      BlockStep(bytes, at, length, st, p, g, req) == Crash
    ensures req.ext.unpackPrimitive(payload, B.rawSize).Some? ==>
      var P := req.ext.unpackPrimitive(payload, B.rawSize).value;
      var next := Advance(bytes, Advance(bytes, at, length), ToU32(bh.dataSize));
      BlockStep(bytes, at, length, st, p, g, req) ==
        match BlockPass(P.groups, P, ContextOf(p, req, g))
        case Crash => Crash
        case Ok(y) => Ok(Some((next, DataBlock, Stored(g, y))))
  {
  }

  /** A data block whose blob has no raw bytes and cannot be decompressed
      dereferences the NULL blob: a `Crash`. */
  lemma UndecompressedBlobCrashes(bytes: seq<Byte>, at: nat, length: nat, st: BlockState, p: Pass, g: Progress,
                                  req: Request, bh: BlockHeader, B: Blob)
    requires at <= |bytes| && ValidContext(ContextOf(p, req, g))
    requires req.ext.unpackHeader(Window(bytes, at, length)) == Some(bh)
    requires 0 < ToU32(bh.dataSize) <= MaxBlobSize
    requires req.ext.unpackBlob(Window(bytes, Advance(bytes, at, length), ToU32(bh.dataSize))) == Some(B)
    requires B.raw.None? && UncompressBlob(B, req.ext).None?
    ensures BlockStep(bytes, at, length, st, p, g, req) == Crash
  {
  }

  /** What the loop returns when it reaches the position `pos` of `bytes` in
      pass `p`, with block state `st` and `g` stored: `Ok(Some(..))` is the
      returned `data`, `Ok(None)` a NULL return, `Crash` undefined behaviour.
      A block header length of 0 or over 64 KiB gives NULL, except that the
      length `0xFFFFFFFF` ends the pass. */
  function Resume(bytes: seq<Byte>, pos: nat, st: BlockState, p: Pass, g: Progress, req: Request)
    : Outcome<Option<Progress>>
    requires pos <= |bytes| && ValidContext(ContextOf(p, req, g))
    decreases Rank(p), |bytes| - pos
  {
    var length := HeaderLength(bytes, pos);
    if length == 0 || length > MaxBlockHeaderSize then
      if length != EndOfStream then Ok(None)
      else
        match AtEndOfStream(p)
        case Finish => Ok(Some(g))
        case Restart(q, sortMembers, sortBoxNodes) =>
          Resume(bytes, 0, st, q, Resorted(g, sortMembers, sortBoxNodes), req)
    else
      LengthAtEndOfFile(bytes, pos);
      match BlockStep(bytes, Advance(bytes, pos, 4), length, st, p, g, req)
      case Crash => Crash
      case Ok(None) => Ok(None)
      case Ok(Some((next, st', g'))) => Resume(bytes, next, st', p, g', req)
  }

  /** The whole call, the file positioned at `pos`: an invalid request is
      NULL; otherwise the first pass starts where the file stands. */
  function ParseOutcome(bytes: seq<Byte>, pos: nat, mode: Option<Mode>, req: Request)
    : Outcome<Option<Progress>>
    requires pos <= |bytes|
  {
    match FirstPass(mode, req.bbox.Some?)
    case None => Ok(None)
    case Some(p) => Resume(bytes, pos, Initializer, p, Start(p), req)
  }

  /** A pass of `p`'s chain that reads ways, and one that reads relations. */
  predicate ChainReadsWays(p: Pass)
    requires WellFormed(p)
  {
    exists i :: 0 <= i < |Chain(p)| && ReadsWays(Chain(p)[i])
  }

  predicate ChainReadsRelations(p: Pass)
    requires WellFormed(p)
  {
    exists i :: 0 <= i < |Chain(p)| && ReadsRelations(Chain(p)[i])
  }

  /** Nothing stored is ever dropped: the returned lists extend what was
      stored, and a kind no remaining pass reads gains nothing. */
  lemma {:induction false} ResumeKeepsStored(bytes: seq<Byte>, pos: nat, st: BlockState, p: Pass,
                                             g: Progress, req: Request)
    requires pos <= |bytes| && ValidContext(ContextOf(p, req, g))
    requires Resume(bytes, pos, st, p, g, req).Ok? && Resume(bytes, pos, st, p, g, req).value.Some?
    ensures var r := Resume(bytes, pos, st, p, g, req).value.value;
      g.nodes <= r.nodes && g.ways <= r.ways && g.relations <= r.relations
    ensures !ChainReadsWays(p) ==> Resume(bytes, pos, st, p, g, req).value.value.ways == g.ways
    ensures !ChainReadsRelations(p) ==> Resume(bytes, pos, st, p, g, req).value.value.relations == g.relations
    decreases Rank(p), |bytes| - pos
  {
    var length := HeaderLength(bytes, pos);
    if length == 0 || length > MaxBlockHeaderSize {
      match AtEndOfStream(p)
      case Finish =>
      case Restart(q, sortMembers, sortBoxNodes) =>
        ResumeKeepsStored(bytes, 0, st, q, Resorted(g, sortMembers, sortBoxNodes), req);
        ChainStep(p);
    } else {
      LengthAtEndOfFile(bytes, pos);
      var at := Advance(bytes, pos, 4);
      var (next, st', g') := BlockStep(bytes, at, length, st, p, g, req).value.value;
      BlockStepKeepsStored(bytes, at, length, st, p, g, req);
      ResumeKeepsStored(bytes, next, st', p, g', req);
      assert Chain(p)[0] == p;
    }
  }

  /** A block adds to the lists only the kinds its pass reads. */
  lemma BlockStepKeepsStored(bytes: seq<Byte>, at: nat, length: nat, st: BlockState, p: Pass,
                             g: Progress, req: Request)
    requires at <= |bytes| && ValidContext(ContextOf(p, req, g))
    requires BlockStep(bytes, at, length, st, p, g, req).Ok? && BlockStep(bytes, at, length, st, p, g, req).value.Some?
    ensures var g' := BlockStep(bytes, at, length, st, p, g, req).value.value.2;
      g.nodes <= g'.nodes && g.ways <= g'.ways && g.relations <= g'.relations &&
      (!ReadsWays(p) ==> g'.ways == g.ways) && (!ReadsRelations(p) ==> g'.relations == g.relations)
  {
    var bh := req.ext.unpackHeader(Window(bytes, at, length)).value;
    var size := ToU32(bh.dataSize);
    var atBlob := Advance(bytes, at, length);
    var blob := req.ext.unpackBlob(Window(bytes, atBlob, size)).value;
    if NextBlockState(st, bh.kind) == DataBlock {
      var P := UnpackData(blob, BlobPayload(blob, req.ext).value, req.ext).value;
      BlockPassReadsItsKind(P.groups, P, ContextOf(p, req, g));
    }
  }

  /** The chain after a restart is the rest of this one. */
  lemma ChainStep(p: Pass)
    requires WellFormed(p) && AtEndOfStream(p).Restart?
    ensures Chain(p) == [p] + Chain(AtEndOfStream(p).next)
    ensures ChainReadsWays(AtEndOfStream(p).next) ==> ChainReadsWays(p)
    ensures ChainReadsRelations(AtEndOfStream(p).next) ==> ChainReadsRelations(p)
  {
    var q := AtEndOfStream(p).next;
    if ChainReadsWays(q) {
      var i :| 0 <= i < |Chain(q)| && ReadsWays(Chain(q)[i]);
      assert Chain(p)[i + 1] == Chain(q)[i];
    }
    if ChainReadsRelations(q) {
      var i :| 0 <= i < |Chain(q)| && ReadsRelations(Chain(q)[i]);
      assert Chain(p)[i + 1] == Chain(q)[i];
    }
  }

  /** The passes run so far, followed by the chain of the current pass,
      are the chain of the first pass: at a restart, and at the return. */
  lemma ChainAdvance(passes: seq<Pass>, p: Pass, start: Pass)
    requires WellFormed(p) && WellFormed(start) && AtEndOfStream(p).Restart?
    requires passes + Chain(p) == Chain(start)
    ensures (passes + [p]) + Chain(AtEndOfStream(p).next) == Chain(start)
  {
    ChainStep(p);
    assert passes + ([p] + Chain(AtEndOfStream(p).next)) == (passes + [p]) + Chain(AtEndOfStream(p).next);
  }

  lemma ChainFinish(passes: seq<Pass>, p: Pass, start: Pass)
    requires WellFormed(p) && WellFormed(start) && AtEndOfStream(p).Finish?
    requires passes + Chain(p) == Chain(start)
    ensures passes + [p] == Chain(start)
  {
    assert Chain(p) == [p];
  }

  /** A node request returns nodes only, and a way request no relations. */
  lemma RequestedKinds(bytes: seq<Byte>, pos: nat, req: Request)
    requires pos <= |bytes|
    ensures var r := ParseOutcome(bytes, pos, Some(NodeMode), req);
      r.Ok? && r.value.Some? ==> r.value.value.ways == [] && r.value.value.relations == []
    ensures var r := ParseOutcome(bytes, pos, Some(WayMode), req);
      r.Ok? && r.value.Some? ==> r.value.value.relations == []
  {
    PassChains();
    var node := Pass(NodeMode, NoBox);
    if Resume(bytes, pos, Initializer, node, Start(node), req).Ok? &&
       Resume(bytes, pos, Initializer, node, Start(node), req).value.Some? {
      ResumeKeepsStored(bytes, pos, Initializer, node, Start(node), req);
    }
    var way := Pass(WayMode, NoBox);
    if Resume(bytes, pos, Initializer, way, Start(way), req).Ok? &&
       Resume(bytes, pos, Initializer, way, Start(way), req).value.Some? {
      ResumeKeepsStored(bytes, pos, Initializer, way, Start(way), req);
    }
  }

  /** The objects the loop updates, read as a `Progress`. */
  function Snapshot(data: OsmData, memNodes: MemberList?, memWays: MemberList?, bbn: MemberList): Progress
    reads data, memNodes, memWays, bbn
  {
    Progress(data.nodes, data.ways, data.relations,
             if memNodes == null then None else Some(memNodes.State()),
             if memWays == null then None else Some(memWays.State()),
             bbn.State())
  }

  /** The indexes are three distinct objects, `mem_nodes` and `mem_ways`
      NULL exactly in a dump. */
  predicate Distinct(p: Pass, memNodes: MemberList?, memWays: MemberList?, bbn: MemberList) {
    (memNodes == null <==> p.mode == Dump) && (memWays == null <==> p.mode == Dump) &&
    (memNodes != null ==> memNodes != memWays && memNodes != bbn) &&
    (memWays != null ==> memWays != bbn)
  }

  /** One block of the loop body, after its length has been read:
      `proceed` is `Ok(true)` to go on, `Ok(false)` for a NULL return and
      `Crash` for undefined behaviour. */
  method ReadBlock(f: OsmFile, length: nat, st: BlockState, p: Pass, req: Request, data: OsmData,
                   memNodes: MemberList?, memWays: MemberList?, bbn: MemberList)
    returns (proceed: Outcome<bool>, st': BlockState)
    requires f.Valid() && Distinct(p, memNodes, memWays, bbn)
    requires ValidContext(ContextOf(p, req, Snapshot(data, memNodes, memWays, bbn)))
    modifies f, data, memNodes, memWays, bbn
    ensures f.Valid()
    ensures var s := BlockStep(f.bytes, old(f.pos), length, st, p, old(Snapshot(data, memNodes, memWays, bbn)), req);
      (proceed.Crash? <==> s.Crash?) && (proceed == Ok(false) <==> s == Ok(None)) &&
      (proceed == Ok(true) ==> s == Ok(Some((f.pos, st', Snapshot(data, memNodes, memWays, bbn)))))
  {
    ghost var g := Snapshot(data, memNodes, memWays, bbn);
    st' := st;
    var bh := GetBh(f, length, req.ext);
    if bh.None? {
      return Crash, st';
    }
    var size := ToU32(bh.value.dataSize);
    if size == 0 || size > MaxBlobSize {
      return Ok(false), st';
    }
    st' := NextBlockState(st, bh.value.kind);
    var blob := GetBlob(f, size, req.ext);
    if blob.None? {
      return Crash, st';
    }
    if st' == DataBlock {
      var P := UnpackData(blob.value.0, blob.value.1, req.ext);
      if P.None? {
        return Crash, st';
      }
      var c := ContextOf(p, req, Snapshot(data, memNodes, memWays, bbn));
      var crashed := ProcessBlock(P.value, c, data, memNodes, memWays, bbn);
      if crashed {
        return Crash, st';
      }
      assert Snapshot(data, memNodes, memWays, bbn) == Stored(g, BlockPass(P.value.groups, P.value, c).value);
    }
    proceed := Ok(true);
  }

  /** Between two passes: seek to the start of the file and sort the
      indexes the finished pass asks for. */
  method Rewind(f: OsmFile, sortMembers: bool, sortBoxNodes: bool, p: Pass, data: OsmData,
                memNodes: MemberList?, memWays: MemberList?, bbn: MemberList)
    requires f.Valid() && Distinct(p, memNodes, memWays, bbn)
    requires sortMembers ==> p.mode != Dump
    modifies f, memNodes, memWays, bbn
    ensures f.Valid() && f.pos == 0
    ensures Snapshot(data, memNodes, memWays, bbn) ==
      Resorted(old(Snapshot(data, memNodes, memWays, bbn)), sortMembers, sortBoxNodes)
  {
    f.Rewind();
    if sortMembers {
      memWays.Sort();
      memNodes.Sort();
    }
    if sortBoxNodes {
      bbn.Sort();
    }
  }

  /** How one turn of the loop ends. */
  datatype TurnEnd = Continue | ReturnData | ReturnNull | Undefined

  /** One turn of the loop: read a block length, then end the pass (return
      `data`, or rewind into the next pass `q`) or read the block. What the
      loop returns from here is what it returns from where the turn leaves
      it; within a pass the file moves forward. */
  method Turn(f: OsmFile, st: BlockState, p: Pass, req: Request, data: OsmData,
              memNodes: MemberList?, memWays: MemberList?, bbn: MemberList)
    returns (t: TurnEnd, q: Pass, st': BlockState)
    requires f.Valid() && Distinct(p, memNodes, memWays, bbn)
    requires ValidContext(ContextOf(p, req, Snapshot(data, memNodes, memWays, bbn)))
    modifies f, data, memNodes, memWays, bbn
    ensures f.Valid() && Distinct(q, memNodes, memWays, bbn)
    ensures var before := Resume(f.bytes, old(f.pos), st, p, old(Snapshot(data, memNodes, memWays, bbn)), req);
      (t == ReturnData ==> AtEndOfStream(p).Finish? && before == Ok(Some(Snapshot(data, memNodes, memWays, bbn)))) &&
      (t == ReturnNull ==> before == Ok(None)) &&
      (t == Undefined ==> before == Crash) &&
      (t == Continue ==>
        ValidContext(ContextOf(q, req, Snapshot(data, memNodes, memWays, bbn))) &&
        before == Resume(f.bytes, f.pos, st', q, Snapshot(data, memNodes, memWays, bbn), req))
    ensures t == Continue ==>
      (q == p && f.pos > old(f.pos)) || (AtEndOfStream(p).Restart? && q == AtEndOfStream(p).next)
  {
    ghost var g := Snapshot(data, memNodes, memWays, bbn);
    q, st' := p, st;
    LengthAtEndOfFile(f.bytes, f.pos);
    var length := BhLength(f);
    if length == 0 || length > MaxBlockHeaderSize {
      if length != EndOfStream {
        return ReturnNull, q, st';
      }
      match AtEndOfStream(p) {
        case Finish =>
          return ReturnData, q, st';
        case Restart(next, sortMembers, sortBoxNodes) =>
          Rewind(f, sortMembers, sortBoxNodes, p, data, memNodes, memWays, bbn);
          return Continue, next, st';
      }
    }
    var proceed;
    proceed, st' := ReadBlock(f, length, st, p, req, data, memNodes, memWays, bbn);
    if proceed.Crash? {
      t := Undefined;
    } else if proceed.value {
      t := Continue;
    } else {
      t := ReturnNull;
    }
  }

  /** The loop from the start of pass `start`: it ends with `data`
      returned after the passes of `start`'s chain, with NULL, or with
      undefined behaviour, as `Resume` says. */
  method RunPasses(f: OsmFile, start: Pass, req: Request, data: OsmData,
                   memNodes: MemberList?, memWays: MemberList?, bbn: MemberList)
    returns (t: TurnEnd, ghost passes: seq<Pass>)
    requires f.Valid() && Distinct(start, memNodes, memWays, bbn)
    requires ValidContext(ContextOf(start, req, Snapshot(data, memNodes, memWays, bbn)))
    modifies f, data, memNodes, memWays, bbn
    ensures f.Valid() && t != Continue
    ensures var outcome := Resume(f.bytes, old(f.pos), Initializer, start, old(Snapshot(data, memNodes, memWays, bbn)), req);
      (t == ReturnData ==> outcome == Ok(Some(Snapshot(data, memNodes, memWays, bbn))) && passes == Chain(start)) &&
      (t == ReturnNull ==> outcome == Ok(None)) &&
      (t == Undefined ==> outcome == Crash)
  {
    passes := [];
    var p := start;
    var st := Initializer;
    ghost var outcome := Resume(f.bytes, f.pos, st, p, Snapshot(data, memNodes, memWays, bbn), req);
    while true
      invariant f.Valid() && Distinct(p, memNodes, memWays, bbn)
      invariant ValidContext(ContextOf(p, req, Snapshot(data, memNodes, memWays, bbn)))
      invariant Resume(f.bytes, f.pos, st, p, Snapshot(data, memNodes, memWays, bbn), req) == outcome
      invariant passes + Chain(p) == Chain(start)
      decreases Rank(p), |f.bytes| - f.pos
    {
      var q;
      t, q, st := Turn(f, st, p, req, data, memNodes, memWays, bbn);
      match t {
        case ReturnData =>
          ChainFinish(passes, p, start);
          passes := passes + [p];
          return;
        case ReturnNull =>
          return;
        case Undefined =>
          return;
        case Continue =>
          if q != p {
            ChainAdvance(passes, p, start);
            passes := passes + [p];
            p := q;
          }
      }
    }
  }

  /** `osm_pbf_parse`. `r` is `Ok(null)` for a NULL return, `Ok(data)` for
      the returned lists, and `Crash` where the C code has undefined
      behaviour; `passes` are the passes run before a return of `data`. */
  method Parse(f: OsmFile, mode: Option<Mode>, req: Request)
    returns (r: Outcome<OsmData?>, ghost passes: seq<Pass>)
    requires f.Valid()
    modifies f
    ensures f.Valid()
    ensures r.Crash? <==> ParseOutcome(f.bytes, old(f.pos), mode, req).Crash?
    ensures r.Ok? ==> (r.value == null <==> ParseOutcome(f.bytes, old(f.pos), mode, req).value.None?)
    ensures r.Ok? && r.value != null ==>
      var g := ParseOutcome(f.bytes, old(f.pos), mode, req).value.value;
      r.value.nodes == g.nodes && r.value.ways == g.ways && r.value.relations == g.relations
    ensures r.Ok? && r.value != null ==> passes == Chain(FirstPass(mode, req.bbox.Some?).value)
    ensures FirstPass(mode, req.bbox.Some?).None? ==> r == Ok(null) && f.pos == old(f.pos)
  {
    passes := [];
    var first := FirstPass(mode, req.bbox.Some?);
    if first.None? {
      return Ok(null), passes;
    }
    var p := first.value;
    var data := new OsmData();
    var memNodes: MemberList? := null;
    var memWays: MemberList? := null;
    if p.mode != Dump {
      memNodes := new MemberList();
      memWays := new MemberList();
    }
    var bbn := new MemberList();
    assert Snapshot(data, memNodes, memWays, bbn) == Start(p);
    var t;
    t, passes := RunPasses(f, p, req, data, memNodes, memWays, bbn);
    match t {
      case ReturnData => r := Ok(data);
      case ReturnNull => r := Ok(null);
      case Undefined => r := Crash;
    }
  }
}
