/** The decoded protocol-buffer messages of the PBF format (fileformat.proto
    and osmformat.proto) as the parser sees them after protobuf-c unpacked
    them, and the foreign calls the parser makes. Repeated fields are
    sequences whose length is the message's `n_<field>` count; optional
    scalar fields carry their `has_<field>` flag as an `Option`. */
module Proto {
  import opened Common

  /** BlockHeader: the block type string and the size of the blob after it. */
  datatype BlockHeader = BlockHeader(kind: string, dataSize: int)

  /** Blob: raw bytes, or a compressed payload of one of three codecs, with
      the declared uncompressed size `raw_size`. */
  datatype Blob = Blob(
    raw: Option<seq<Byte>>,
    rawSize: int,
    zlibData: Option<seq<Byte>>,
    lzmaData: Option<seq<Byte>>,
    bzip2Data: Option<seq<Byte>>)

  /** Info: optional per-entity metadata, each field with its own flag. */
  datatype Info = Info(
    version: Option<int>,
    timestamp: Option<int>,
    changeset: Option<int>,
    uid: Option<int>,
    userSid: Option<int>)

  datatype Node = Node(id: int, keys: seq<int>, vals: seq<int>, info: Option<Info>, lat: int, lon: int)

  /** DenseInfo: parallel arrays; all but `version` are delta-coded. */
  datatype DenseInfo = DenseInfo(
    version: seq<int>,
    timestamp: seq<int>,
    changeset: seq<int>,
    uid: seq<int>,
    userSid: seq<int>)

  /** DenseNodes: parallel delta-coded arrays; `id` fixes how many nodes there are. */
  datatype DenseNodes = DenseNodes(
    id: seq<int>,
    denseinfo: Option<DenseInfo>,
    lat: seq<int>,
    lon: seq<int>,
    keysVals: seq<int>)

  datatype Way = Way(id: int, keys: seq<int>, vals: seq<int>, info: Option<Info>, refs: seq<int>)

  /** Relation member types as numbered in osmformat.proto. */
  const MemberTypeNode: int := 0
  const MemberTypeWay: int := 1
  const MemberTypeRelation: int := 2

  datatype Relation = Relation(
    id: int,
    keys: seq<int>,
    vals: seq<int>,
    info: Option<Info>,
    rolesSid: seq<int>,
    memids: seq<int>,
    types: seq<int>)

  datatype PrimitiveGroup = PrimitiveGroup(
    nodes: seq<Node>,
    dense: Option<DenseNodes>,
    ways: seq<Way>,
    relations: seq<Relation>)

  datatype PrimitiveBlock = PrimitiveBlock(
    stringtable: seq<string>,
    groups: seq<PrimitiveGroup>,
    granularity: int,
    latOffset: int,
    lonOffset: int,
    dateGranularity: int)

  /** What one zlib `inflate(..., Z_NO_FLUSH)` call reports. */
  datatype InflateResult =
    | InitFailed                          // inflateInit did not return Z_OK
    | StreamEnd(output: seq<Byte>)        // Z_STREAM_END: the buffer's final contents
    | Stopped(code: int)                  // any other return code

  /** The calls into code outside the model, as functions of their inputs:
      protobuf-c's three `*__unpack` calls (each given the buffer and the
      length it is told to decode), whether `malloc` of the given size
      succeeds, one zlib inflate of a payload into a buffer of the given
      size, and `osm_is_member` asked about an index that has not been sorted
      since it was last appended to (a binary search over unsorted data). */
  datatype Externals = Externals(
    unpackHeader: seq<Byte> -> Option<BlockHeader>,
    unpackBlob: seq<Byte> -> Option<Blob>,
    unpackPrimitive: (seq<Byte>, int) -> Option<PrimitiveBlock>,
    mallocSucceeds: int -> bool,
    inflate: (seq<Byte>, int) -> InflateResult,
    searchUnsorted: (seq<int>, int) -> bool)
}
