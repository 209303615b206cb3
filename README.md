# osm_pbf_parse in Dafny

A model of the OpenStreetMap PBF reader of libosmpbf: the parser
`osm_pbf_parse` (pbf.c) and the block framing and blob helpers it calls
(pbf-util.c).

The parser reads a PBF file as a sequence of blocks. Each block has:

- a 4-byte big-endian length;
- a BlockHeader message of that length;
- a Blob of the size the header names.

Data blocks (`OSMData`) are unpacked into a PrimitiveBlock of groups of
plain nodes, dense nodes, ways and relations. The parser keeps some of these
and appends them to three result lists.

A request names a mode: dump, node, way, relation, or bounding box.

- A way or relation request runs several passes over the file. At the end
  of each pass it rewinds and sorts the member indexes `mem_nodes` and
  `mem_ways`, which the earlier passes fill with the IDs that kept ways and
  relations refer to.
- A box request runs four passes:
  - nodes in the box go to the index `bbn`;
  - relations with a node member in the box are kept;
  - ways with a node in the box are kept;
  - the nodes they need are kept.

The model is split into modules:

- `Proto`: the unpacked protocol-buffer messages, and the foreign calls as
  function-typed fields of `Externals`. The foreign calls are protobuf-c
  unpacking, zlib inflate, `malloc` success, and a binary search of an
  unsorted index.
- `Common`: `Option`, the `Outcome` of a step, `uint32_t` conversion and C
  division.
- `Osm`: the decoded entities and the `OsmData` result lists (a class).
- `Members`: the member index (a class), its state, and the append and sort
  operations.
- `Deltas`: delta coding and its running-sum decoding.
- `Decode`: plain nodes, ways and relations.
- `Dense`: dense node groups, including the shared tag cursor.
- `Keep`: the keep rules, and pure folds (`PlainNodesPass`, `WaysPass`,
  `RelationsPass`, `GroupPass`, `BlockPass`) stating what a pass does with a
  run of entities.
- `Process`: the loops of the pass body, as methods that update `OsmData` and
  the indexes in place, each proved against its fold.
- `Passes`: the mode and box-state machine and the chain of passes a request
  runs.
- `PbfUtil`: the file as bytes with a read position, the length prefix, and
  reading the header and blob.
- `Parse`: the loop. `Resume` states what the loop returns from any point.
  `Parse` is the method whose result is proved equal to it.

The C code has undefined behaviour in several places, such as a NULL header,
blob or primitive block being dereferenced, or a string-table index out of
range. The model makes each of these an explicit `Crash` outcome rather
than excluding it by a precondition. An append to the NULL `mem_nodes` or
`mem_ways` of a dump is also a `Crash`, on the reading of `osm_add_members`
recorded under "Left out".

Behaviours of the code the model keeps:

- Box mode searches `mem_nodes` and `mem_ways` although they are never
  sorted, so the model gives that search an unknown answer
  (`Externals.searchUnsorted`).
- An entity without Info keeps its metadata fields unset (`meta == None`).
  Those fields are not zero.
- In the `NodesInBox` pass, a plain node outside the box is stored in the
  result list. A dense node outside the box is dropped.
  `Keep.PlainNodesInBoxPass` states this.

## Model

| member | source | states |
|---|---|---|
| Common.ToU32 | pbf.c:163 | the signed `datasize` read as `uint32_t`: unchanged when non-negative, plus 2^32 when negative, always below 2^32 |
| Common.CDiv | pbf.c:254 | `date_granularity / 1000` truncates toward zero: the remainder has the sign of the dividend and is smaller than the divisor |
| Deltas.RunningSumsAt | pbf.c:510-514 | the k-th decoded reference is the sum of the first k+1 deltas |
| Deltas.RunningSumsOfDifferences | pbf.c:507-514 | decoding (running sums) undoes delta encoding, for every sequence |
| Deltas.DifferencesOfRunningSums | pbf.c:507-514 | delta encoding undoes decoding, for every sequence |
| Members.Contains | pbf.c:279-280 | `osm_is_member` on a sorted index answers exactly whether the ID was appended |
| Members.SortedIndexAnswersAppended | pbf.c:104-107 | once sorted, an index finds an ID exactly when some earlier append contained it |
| Members.Added | pbf.c:222 | appending adds the IDs at the end, and a non-empty append leaves the index unsorted |
| Members.AddedTwice | pbf.c:727-730 | two appends in a row are the same as one append of both batches |
| Members.MemberList.constructor | pbf.c:78-91 | a fresh index is empty, so every search of it answers "no" |
| Members.MemberList.Add | pbf.c:222 | `osm_add_members` appends the batch and leaves the index unsorted |
| Members.MemberList.Sort | pbf.c:106-107 | `osm_sort_member` keeps the same multiset of IDs and makes the index searchable |
| Members.MemberList.Lookup | pbf.c:541 | a search of a sorted index is exact |
| Osm.OsmData.constructor | pbf.c:57-75 | the three result lists start empty |
| Osm.OsmData.AppendNode | pbf.c:320-322 | a kept node is added at the end of the node list, and the other lists are unchanged |
| Osm.OsmData.AppendWay | pbf.c:587-589 | a kept way is added at the end of the way list, and the other lists are unchanged |
| Osm.OsmData.AppendRelation | pbf.c:732-734 | a kept relation is added at the end of the relation list, and the other lists are unchanged |
| Decode.Degrees | pbf.c:211-213 | a coordinate is `NANO_DEGREE * offset + raw * (NANO_DEGREE * granularity)` |
| Decode.InfoMeta | pbf.c:234-256 | Info metadata crashes exactly when a present user index lies outside the string table |
| Decode.EntityMeta | pbf.c:234-257 | metadata is present exactly when the entity has Info, and crashes only as `InfoMeta` does |
| Decode.PairTags | pbf.c:258-275 | tag pairs can be read exactly when every key and value index is in the table and there are as many values as keys |
| Decode.DecodePairs | pbf.c:524-534 | the tag-copy loop returns `PairTags`: tag x is the pair of strings at the x-th key and value index |
| Decode.PlainNode | pbf.c:210-276 | a plain node keeps its ID and converted coordinates, has metadata iff it has Info, has tags iff it has keys and values, and crashes exactly when a table read is out of range |
| Decode.DecodePlainNode | pbf.c:210-276 | the node built by the source's statements is `PlainNode` |
| Decode.DecodeRefs | pbf.c:501-515 | the reference array holds the running sums of the deltas, and the node array is the same IDs followed by the 0 terminator |
| Decode.DecodedWay | pbf.c:471-535 | a way keeps its ID, its references are the running sums of its deltas followed by 0, it has tags iff it has keys, and it crashes exactly when a table read fails |
| Decode.DecodeWay | pbf.c:471-535 | the way built by the source's statements is `DecodedWay` |
| Decode.NodeAndWayRefsBounded | pbf.c:644-663 | node members and way members together are never more than the members, so `nref` and `wref` fit their `n_memids` buffers |
| Decode.DecodeMembers | pbf.c:639-673 | the member loop crashes exactly when a role or type cannot be read; member l refers to the running sum of the first l+1 IDs; `nref` and `wref` are the node and way members in order |
| Decode.DecodedRelation | pbf.c:601-693 | a relation has a member list iff it has members, its member references are split by kind in order, it has tags iff it has keys, and it crashes exactly when a read fails |
| Decode.RelationRefsBounded | pbf.c:644-645 | the node and way references of a decoded relation fit together in its member count |
| Decode.DecodeRelation | pbf.c:601-693 | the relation built by the source's statements is `DecodedRelation` |
| Dense.TagRun | pbf.c:368-389 | a run of pairs ends just after a 0, with the cursor advanced by two per tag plus one |
| Dense.TagRunPairs | pbf.c:369-386 | tag i of a run is the pair at offset 2i from the cursor, and no key before the delimiter is 0 |
| Dense.NodeTags | pbf.c:367-390 | a cursor at or past the end gives no tags and stays put; otherwise it moves strictly forward |
| Dense.TagRunDecodesEncoding | pbf.c:368-389 | decoding the encoded pairs of a node, wherever they sit in the array, gives back its tags and leaves the cursor just past its delimiter |
| Dense.ReadNodeTags | pbf.c:367-390 | the pair loop with its shared cursor computes `NodeTags` |
| Dense.DenseMeta | pbf.c:348-365 | without DenseInfo a dense node has the default metadata; with DenseInfo it crashes exactly when a column is too short or the summed user index lies outside the string table, and otherwise has its version as stored and changeset, uid, user index and timestamp as sums of the first k+1 deltas |
| Dense.DenseFrom | pbf.c:338-390 | a decoded group has one node per ID |
| Dense.DecodeDenseNode | pbf.c:339-390 | one iteration computes the k-th node at the current cursor and keeps every running total equal to the sum of its column's first k+1 deltas |
| Dense.DecodeDense | pbf.c:326-390 | the dense loop, whose totals and cursor are never reset within a group, returns `DenseGroup` |
| Dense.DenseIdsAreRunningSums | pbf.c:338-347 | the j-th node of a decoded group has as ID and raw coordinates the sums of the first j+1 deltas |
| Dense.DenseMetaAreRunningSums | pbf.c:348-365 | the j-th node of a decoded group carries `DenseMeta` at its position; with DenseInfo its changeset, uid, user index and timestamp are entry j of the running sums of their columns |
| Keep.KeepNode | pbf.c:277-318 | the node keep rule of each pass. Node pass: in `mem_nodes` or accepted by a non-NULL filter. `NodesFind`: in `mem_nodes`, or in `bbn` and accepted. Dump: accepted. `NodesInBox`: always kept |
| Keep.KeepWay | pbf.c:537-581 | the way keep rule. `WayFind`: a reference in `bbn` and accepted, or in `mem_ways`. Way pass: in `mem_ways` or accepted by a non-NULL filter. Dump: accepted |
| Keep.KeepRelation | pbf.c:695-725 | the relation keep rule. `RelationFind`: a node member in `bbn` and accepted. Any other pass: accepted. Indexes play no part outside the box pass |
| Keep.PlainNodeStep | pbf.c:207-324 | one plain node stores or adds to `bbn` at most one node |
| Keep.PlainNodesInBoxPass | pbf.c:214-233 | in the `NodesInBox` pass, `bbn` gains exactly the IDs of the plain nodes inside the box, every other plain node is stored, and no stored node is inside the box |
| Keep.PlainNodesStoredAreKept | pbf.c:277-322 | outside the `NodesInBox` pass, plain nodes add nothing to `bbn` and every stored node passes the keep rule |
| Keep.PlainNodesKeptAreStored | pbf.c:277-322 | the converse: every plain node of a run that does not crash decodes (unless it is inside the box in the `NodesInBox` pass), and is stored when it passes the keep rule |
| Keep.DenseNodesPassYield | pbf.c:392-459 | in the `NodesInBox` pass no dense node is stored and `bbn` gains exactly the IDs of those inside the box; in every other pass `bbn` gains nothing and every stored node passes the keep rule |
| Keep.DenseNodesKeptAreStored | pbf.c:414-459 | the converse outside the `NodesInBox` pass: every dense node that passes the keep rule is stored |
| Keep.WaysPassAddsKeptRefs | pbf.c:583-589 | `mem_nodes` gains exactly the references of the stored ways, in order, and every stored way passes the keep rule |
| Keep.WaysKeptAreStored | pbf.c:537-589 | the converse: every way of a run that does not crash decodes, and is stored when it passes the keep rule |
| Keep.DumpStoresOnlyEmptyWays | pbf.c:583-584 | a dump that does not crash stores only ways without references |
| Keep.RelationsPassAddsMemberRefs | pbf.c:727-734 | `mem_nodes` gains exactly the node members and `mem_ways` exactly the way members of the stored relations, in order, and every stored relation passes the keep rule |
| Keep.RelationsKeptAreStored | pbf.c:695-734 | the converse: every relation of a run that does not crash decodes, and is stored when it passes the keep rule |
| Keep.DumpStoresOnlyUnlinkedRelations | pbf.c:727-730 | a dump that does not crash adds no member references |
| Keep.PlainNodesCrashPersists | pbf.c:207-324 | a node that crashes part-way through makes the whole run crash |
| Keep.WaysCrashPersists | pbf.c:468-590 | a way that crashes part-way through makes the whole run crash |
| Keep.RelationsCrashPersists | pbf.c:599-735 | a relation that crashes part-way through makes the whole run crash |
| Keep.BlockCrashPersists | pbf.c:191-738 | a group that crashes part-way through makes the whole block crash |
| Keep.BlockPassReadsItsKind | pbf.c:201-595 | a pass stores only the kinds it reads, only a relation pass feeds `mem_ways`, and only the `NodesInBox` pass feeds `bbn` |
| Passes.FirstPass | pbf.c:43-55 | mode 0, and a box request without a box, are rejected; a box request starts in `NodesInBox`, and any other request starts in its own mode |
| Passes.AtEndOfStream | pbf.c:97-154 | a dump, a node pass and `NodesFind` return. Every other pass restarts into a pass of lower rank: way and relation passes sort both member indexes, and `NodesInBox` sorts only `bbn` |
| Passes.Chain | pbf.c:93-154 | a request runs one pass per rank, starting at its first pass |
| Passes.PassChains | pbf.c:104-153 | relation request: relation, way, node passes. Way request: way, node. Node and dump: one pass. Box request: its four passes in order |
| Passes.RelationsReadOnlyWhenRequested | pbf.c:594-595 | only a dump, relation or box request runs a pass that reads relations; a way request never does |
| Passes.SortsAlongChain | pbf.c:104-146 | along a box request, the member indexes are never sorted and `bbn` is sorted only after `NodesInBox`; along a way or relation request, every restart sorts the member indexes and never `bbn` |
| PbfUtil.Window | pbf-util.c:98-100 | a read loop stores exactly `len` bytes |
| PbfUtil.Advance | pbf-util.c:127 | reading `n` bytes moves the position by `n`, or to the end of the file |
| PbfUtil.BigEndianDecodesEncoding | pbf-util.c:82 | `ntohl` of the big-endian encoding of a 32-bit value is that value |
| PbfUtil.BigEndianEncodesDecoding | pbf-util.c:82 | the encoding of the value `ntohl` reads gives back the four bytes |
| PbfUtil.LengthAtEndOfFile | pbf-util.c:77-83 | at end of file, the length read is `0xFFFFFFFF`, the `-1` the parser tests for |
| PbfUtil.EndOfStreamIffAllOnes | pbf.c:95-97 | the length is the end-of-stream value exactly when the four bytes read are 0xFF, past the end or inside the file |
| PbfUtil.OsmFile.GetByte | pbf-util.c:77 | `fgetc` converted to `unsigned char`: a file byte, or 0xFF at end of file without moving |
| PbfUtil.OsmFile.Rewind | pbf.c:105 | `fseek` to 0 |
| PbfUtil.ReadBuffer | pbf-util.c:126-129 | the read loop stores the window of `len` bytes from the old position, and the position advances by `len` or stops at the end |
| PbfUtil.BhLength | pbf-util.c:71-84 | the length is the big-endian value of the next four bytes, 0xFF past the end |
| PbfUtil.GetBh | pbf-util.c:90-111 | the header is the unpacker's answer for the next `len` bytes, and NULL when it fails |
| PbfUtil.UncompressBlob | pbf-util.c:23-69 | a buffer is returned exactly for zlib data whose buffer is allocated and whose inflate reaches the stream end; LZMA, bzip2 and no payload give NULL |
| PbfUtil.BlobPayload | pbf-util.c:139-148 | a raw blob's payload is its own bytes (borrowed); otherwise the payload is the decompressed buffer (owned) when there is one |
| PbfUtil.GetBlob | pbf-util.c:119-150 | NULL exactly when unpacking or decompression fails; otherwise the unpacked blob and its payload |
| PbfUtil.FreeMatchesOwnership | pbf-util.c:113-117 | `osm_pbf_free_blob` frees the payload exactly when it was allocated, never when it is the blob's raw bytes |
| Process.AnyFoundAccepted | pbf.c:537-550 | the `bbox_member` loop finds a member exactly when some ID is in the index and the filter accepts |
| Process.ProcessPlainNode | pbf.c:207-322 | one plain node changes the node list and `bbn` as `PlainNodeStep` says, and crashes exactly when it does |
| Process.ProcessPlainNodes | pbf.c:206-325 | the plain nodes of a group are stored as `PlainNodesPass` says, and the indexes the pass searches still hold what the context says |
| Process.KeepPlainNodes | pbf.c:207-324 | the plain-node loop appends and adds to `bbn` exactly what `PlainNodesPass` yields, crashes exactly when it does, and changes `bbn` only in the `NodesInBox` pass |
| Process.ProcessDenseNode | pbf.c:392-459 | one dense node is appended or added to `bbn` as `DenseNodeStep` says |
| Process.KeepDenseNodes | pbf.c:392-459 | the keep part of the dense loop appends and adds to `bbn` exactly what `DenseNodesPass` yields, and leaves `bbn` unchanged outside `NodesInBox` |
| Process.ProcessDenseNodes | pbf.c:326-461 | the dense loop crashes exactly when the group cannot be decoded, and otherwise stores what `DenseNodesPass` yields for the decoded nodes |
| Process.ProcessWay | pbf.c:469-589 | one way is appended, with its references added to `mem_nodes`, as `WayStep` says |
| Process.ProcessWays | pbf.c:466-591 | the ways of a group are stored as `WaysPass` says, and the indexes the pass searches still hold what the context says |
| Process.KeepWays | pbf.c:468-590 | the way loop appends and adds to `mem_nodes` exactly what `WaysPass` yields, and crashes exactly when it does |
| Process.ProcessRelation | pbf.c:600-734 | one relation is appended, with its members added to the indexes, as `RelationStep` says |
| Process.ProcessRelations | pbf.c:597-736 | the relations of a group are stored as `RelationsPass` says, and the indexes the pass searches still hold what the context says |
| Process.KeepRelations | pbf.c:599-735 | the relation loop appends and adds to `mem_nodes` and `mem_ways` exactly what `RelationsPass` yields, and crashes exactly when it does |
| Process.ProcessGroupNodes | pbf.c:201-462 | the plain then dense nodes of a group store what `GroupNodes` yields |
| Process.ProcessGroup | pbf.c:200-737 | one group updates the lists and indexes as `GroupPass` says, reading only the kinds the pass reads |
| Process.ProcessBlock | pbf.c:190-738 | the group loop updates the lists and indexes as `BlockPass` says, and crashes exactly when it does |
| Parse.BlockStep | pbf.c:162-191 | a block that carries on leaves the position inside the file and not before where it started |
| Parse.DataBlockUnpacksPayload | pbf-util.c:156-164 | a data block hands the unpacker its payload (raw bytes, or the inflated buffer) with the blob's `raw_size` as the length, whatever the payload's length; a NULL primitive block is a crash, and otherwise the block's groups are processed and the file moves past the blob (pbf.c:185-191) |
| Parse.UndecompressedBlobCrashes | pbf-util.c:113-146 | a blob without raw bytes that cannot be decompressed makes `osm_pbf_get_blob` return NULL, which the block then dereferences (`osm_pbf_free_blob` at pbf.c:741, in every block state): a crash |
| Parse.BlockStepKeepsStored | pbf.c:185-191 | a block only extends the lists, and adds ways or relations only in a pass that reads them |
| Parse.ResumeKeepsStored | pbf.c:93-160 | what the loop returns extends what was stored, and a kind no remaining pass reads gains nothing |
| Parse.ChainStep | pbf.c:121 | after a restart, the remaining chain is the rest of the current one |
| Parse.RequestedKinds | pbf.c:98-122 | a node request returns no ways or relations, and a way request returns no relations |
| Parse.ReadBlock | pbf.c:162-191 | reading one block changes the file, the lists and the indexes as `BlockStep` says, and crashes or returns NULL exactly when it does |
| Parse.Rewind | pbf.c:104-146 | between passes the file is at 0, and the indexes are sorted as the finished pass asks |
| Parse.Turn | pbf.c:95-191 | one turn returns data, NULL or crashes exactly as `Resume` says; otherwise `Resume` from the new state gives the same result, and the position has moved forward or the next pass has begun |
| Parse.RunPasses | pbf.c:93-742 | the loop ends as `Resume` says from where it started, after running exactly the chain of the first pass |
| Parse.Parse | pbf.c:14-744 | `osm_pbf_parse` crashes, returns NULL or returns lists exactly as `ParseOutcome` says; it runs the first pass's chain; an invalid request returns NULL without reading the file |

## Left out

- File I/O is modelled as a byte sequence with a read position. `fgetc`, `fseek` and stdio buffering are not modelled.
- protobuf-c decoding, zlib inflation, `malloc` success and a binary search of unsorted data are calls into code that is not part of this model. They are parameters (`Proto.Externals`) with no assumed properties.
- Coordinates are exact reals. The model does not capture IEEE double rounding, including at the box boundary.
- Integers are unbounded. The 64-bit accumulators (`deltaid`, `deltaref`, `deltamemids` and the dense totals) do not wrap around.
- osm.h is not part of this model. The limits of 64 KiB for a block header and 32 MiB for a blob are the PBF format's, and the mode bit values are not known. So:
  - the five request modes are read as "Dump, or the kind's own mode";
  - mode values other than these five, and bit patterns that combine them, are not modelled.
- `osm_add_members` (osm.c) is not part of this model. It is taken to dereference the index it appends to, so appending to the NULL `mem_nodes` or `mem_ways` of a dump (pbf.c:26-27, 76-85, 584, 728-730) is read as undefined behaviour, a `Crash` in `Keep.WayStep` and `Keep.RelationStep`. `Keep.DumpStoresOnlyEmptyWays` and `Keep.DumpStoresOnlyUnlinkedRelations` hold only under this reading.
- String-table entries, user names and roles are taken as NUL-free text and copied whole. The byte encoding of strings is not modelled, so the truncation of `strndup` at an embedded NUL byte (pbf.c:247, 271-273, 362, 382-384, 488, 530-532, 618, 672, 688-690) is not captured by `Decode.InfoMeta`, `Decode.PairTags`, `Decode.DecodeMembers`, `Dense.DenseMeta` or `Dense.TagRunPairs`.
- `osm_pbf_timestamp` and free.c are not modelled, and `debug` output is left out.
- List capacity growth (`osm_realloc_*_list`, `osm_realloc_tag_list`) and memory leaks are left out, because only the list contents are observable.
- A failing `malloc` of `OSM_Data`, of the lists or of a decoded entity is not modelled. Every allocation except the decompression buffer is taken to succeed.
- Members.MemberList.Sort: does not reorder the IDs. A search of a sorted index depends only on the IDs it holds, so order is not observable.
- Members.Contains: on an unsorted index, the answer of the binary search is an unknown function of the IDs and the searched ID.
- The OSMHeader block's content is ignored, as in the source.
- Dense.DecodeDense: a dense group is decoded in full before its nodes are filtered. A crash part-way through therefore hides the nodes stored before it, which is not observable once the behaviour is undefined.
- Keep decisions in a block use a snapshot of the indexes the pass searches. No pass searches an index it adds to. The loops of `Process` keep `Process.Tracks`, which ties each searched index to the snapshot.
- PbfUtil.GetBh: the `malloc` of its buffer is taken to succeed, since the source does not check it.
- The block loop does not free headers, blobs or primitive blocks, because their lifetime has no effect on the result lists.
