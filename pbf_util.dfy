/** Block framing and blob handling (pbf-util.c): the 4-byte length prefix,
    reading the BlockHeader and Blob messages, choosing how a blob's payload
    is obtained, and who owns that payload afterwards. */
module PbfUtil {
  import opened Common
  import opened Proto

  /** The limits of the PBF format on a BlockHeader and on a Blob. */
  const MaxBlockHeaderSize: nat := 64 * 1024
  const MaxBlobSize: nat := 32 * 1024 * 1024

  /** The value the length read yields at end of file: `(uint32_t) -1`. */
  const EndOfStream: nat := 0xFFFF_FFFF

  /** The byte that `fgetc` stores through an `unsigned char` at offset `p`:
      past the end, EOF (-1) becomes 0xFF, and the `!= EOF` test compares
      255 with -1, so it never stops a read loop. */
  function ByteAt(s: seq<Byte>, p: nat): Byte {
    if p < |s| then s[p] else 0xFF
  }

  /** The `n` bytes a read loop of `n` iterations stores, starting at `p`. */
  function Window(s: seq<Byte>, p: nat, n: nat): (w: seq<Byte>)
    ensures |w| == n
  {
    seq(n, i requires 0 <= i < n => ByteAt(s, p + i))
  }

  /** The file position after `n` calls of `fgetc` from `p`: it stops at the end. */
  function Advance(s: seq<Byte>, p: nat, n: nat): (q: nat)
    requires p <= |s|
    ensures p <= q <= |s|
    ensures q - p == n || q == |s|
  {
    if p + n <= |s| then p + n else |s|
  }

  /** `ntohl` of the four buffered bytes: the first byte is the most significant. */
  function BigEndian32(b: seq<Byte>): (n: nat)
    requires |b| == 4
    ensures n < TwoTo32
  {
    b[0] as nat * 0x100_0000 + b[1] as nat * 0x1_0000 + b[2] as nat * 0x100 + b[3] as nat
  }

  /** The four bytes that encode `n` big-endian. */
  function ToBigEndian32(n: nat): (b: seq<Byte>)
    requires n < TwoTo32
    ensures |b| == 4
  {
    [(n / 0x100_0000) as Byte, (n / 0x1_0000 % 0x100) as Byte, (n / 0x100 % 0x100) as Byte, (n % 0x100) as Byte]
  }

  lemma BigEndianDecodesEncoding(n: nat)
    requires n < TwoTo32
    ensures BigEndian32(ToBigEndian32(n)) == n
  {
    var b := ToBigEndian32(n);
    assert b[0] as nat == n / 0x100_0000;
    assert b[1] as nat == n / 0x1_0000 % 0x100;
    assert b[2] as nat == n / 0x100 % 0x100;
    assert b[3] as nat == n % 0x100;
    assert n / 0x1_0000 == (n / 0x100_0000) * 0x100 + n / 0x1_0000 % 0x100;
    assert n / 0x100 == (n / 0x1_0000) * 0x100 + n / 0x100 % 0x100;
    assert n == (n / 0x100) * 0x100 + n % 0x100;
  }

  lemma BigEndianEncodesDecoding(b: seq<Byte>)
    requires |b| == 4
    ensures ToBigEndian32(BigEndian32(b)) == b
  {
    var n := BigEndian32(b);
    var b0, b1, b2, b3 := b[0] as nat, b[1] as nat, b[2] as nat, b[3] as nat;
    assert n / 0x100 == b0 * 0x1_0000 + b1 * 0x100 + b2;
    assert n % 0x100 == b3;
    assert n / 0x1_0000 == b0 * 0x100 + b1;
    assert n / 0x100 % 0x100 == b2;
    assert n / 0x100_0000 == b0;
    assert n / 0x1_0000 % 0x100 == b1;
    var e := ToBigEndian32(n);
    assert e[0] == b[0] && e[1] == b[1] && e[2] == b[2] && e[3] == b[3];
  }

  /** What `osm_pbf_bh_length` returns when the file position is `p`. */
  function HeaderLength(s: seq<Byte>, p: nat): (n: nat)
    ensures n < TwoTo32
  {
    BigEndian32(Window(s, p, 4))
  }

  /** At end of file the length read yields `(uint32_t) -1`. */
  lemma LengthAtEndOfFile(s: seq<Byte>, p: nat)
    ensures p >= |s| ==> HeaderLength(s, p) == EndOfStream
  {
    var w := Window(s, p, 4);
    assert w[0] == ByteAt(s, p) && w[1] == ByteAt(s, p + 1);
    assert w[2] == ByteAt(s, p + 2) && w[3] == ByteAt(s, p + 3);
  }

  /** The end-of-stream value arises exactly when all four bytes read are
      0xFF: past the end of the file, or four 0xFF bytes inside it. */
  lemma EndOfStreamIffAllOnes(s: seq<Byte>, p: nat)
    ensures HeaderLength(s, p) == EndOfStream <==>
            Window(s, p, 4) == [0xFF, 0xFF, 0xFF, 0xFF]
  {
    var w := Window(s, p, 4);
    if HeaderLength(s, p) == EndOfStream {
      BigEndianEncodesDecoding(w);
      assert w == ToBigEndian32(EndOfStream);
    }
  }

  /** The input file: its bytes and the position `fgetc` reads from. */
  class OsmFile {
    const bytes: seq<Byte>
    var pos: nat

    ghost predicate Valid()
      reads this
    {
      pos <= |bytes|
    }

    constructor (contents: seq<Byte>)
      ensures Valid() && bytes == contents && pos == 0
    {
      bytes := contents;
      pos := 0;
    }

    /** `fgetc` followed by the conversion to `unsigned char`. */
    method GetByte() returns (c: Byte)
      requires Valid()
      modifies this
      ensures Valid()
      ensures c == ByteAt(bytes, old(pos)) && pos == Advance(bytes, old(pos), 1)
    {
      if pos < |bytes| {
        c := bytes[pos];
        pos := pos + 1;
      } else {
        c := 0xFF;
      }
    }

    /** `fseek(F->file, 0, SEEK_SET)`. */
    method Rewind()
      requires Valid()
      modifies this
      ensures Valid() && pos == 0
    {
      pos := 0;
    }
  }

  /** A loop of `len` `fgetc` calls storing each byte into a fresh buffer. */
  method ReadBuffer(f: OsmFile, len: nat) returns (buffer: seq<Byte>)
    requires f.Valid()
    modifies f
    ensures f.Valid()
    ensures buffer == Window(f.bytes, old(f.pos), len)
    ensures f.pos == Advance(f.bytes, old(f.pos), len)
  {
    var buf := new Byte[len];
    var i := 0;
    while i < len
      invariant 0 <= i <= len && f.Valid()
      invariant f.pos == Advance(f.bytes, old(f.pos), i)
      invariant forall j :: 0 <= j < i ==> buf[j] == ByteAt(f.bytes, old(f.pos) + j)
    {
      var c := f.GetByte();
      buf[i] := c;
      i := i + 1;
    }
    buffer := buf[..];
  }

  /** `osm_pbf_bh_length`: four bytes, big-endian, whatever the file holds. */
  method BhLength(f: OsmFile) returns (length: nat)
    requires f.Valid()
    modifies f
    ensures f.Valid()
    ensures length == HeaderLength(f.bytes, old(f.pos))
    ensures length == BigEndian32([ByteAt(f.bytes, old(f.pos)), ByteAt(f.bytes, old(f.pos) + 1),
                                   ByteAt(f.bytes, old(f.pos) + 2), ByteAt(f.bytes, old(f.pos) + 3)])
    ensures f.pos == Advance(f.bytes, old(f.pos), 4)
  {
    var lenbuf := new Byte[4];
    var i := 0;
    while i < 4
      invariant 0 <= i <= 4 && f.Valid()
      invariant f.pos == Advance(f.bytes, old(f.pos), i)
      invariant forall j :: 0 <= j < i ==> lenbuf[j] == ByteAt(f.bytes, old(f.pos) + j)
    {
      var c := f.GetByte();
      lenbuf[i] := c;
      i := i + 1;
    }
    assert lenbuf[..] == Window(f.bytes, old(f.pos), 4);
    length := BigEndian32(lenbuf[..]);
  }

  /** `osm_pbf_get_bh`: `len` bytes handed to the BlockHeader unpacker;
      `None` is its NULL. */
  method GetBh(f: OsmFile, len: nat, ext: Externals) returns (bh: Option<BlockHeader>)
    requires f.Valid()
    modifies f
    ensures f.Valid()
    ensures bh == ext.unpackHeader(Window(f.bytes, old(f.pos), len))
    ensures f.pos == Advance(f.bytes, old(f.pos), len)
  {
    var buffer := ReadBuffer(f, len);
    bh := ext.unpackHeader(buffer);
  }

  /** The uncompressed payload of a blob, and whether it is the blob's own
      `raw` bytes (`Borrowed`: `*uncompressed` aliases `B->raw.data`) or a
      buffer allocated for it (`Owned`). */
  datatype Payload = Borrowed(bytes: seq<Byte>) | Owned(bytes: seq<Byte>)

  /** `osm_pbf_uncompress_blob`. Only zlib is handled; the buffer of
      `raw_size` bytes is returned only when inflate reports the end of the
      stream. LZMA, bzip2 and a blob with no compressed payload give NULL. */
  function UncompressBlob(b: Blob, ext: Externals): (r: Option<seq<Byte>>)
    ensures r.Some? <==>
      b.zlibData.Some? && ext.mallocSucceeds(b.rawSize) && ext.inflate(b.zlibData.value, b.rawSize).StreamEnd?
    ensures r.Some? ==> r.value == ext.inflate(b.zlibData.value, b.rawSize).output
  {
    if b.zlibData.Some? then
      if !ext.mallocSucceeds(b.rawSize) then None
      else match ext.inflate(b.zlibData.value, b.rawSize)
        case InitFailed => None
        case StreamEnd(out) => Some(out)
        case Stopped(_) => None
    else if b.lzmaData.Some? then None
    else if b.bzip2Data.Some? then None
    else None
  }

  /** The payload `osm_pbf_get_blob` stores through `uncompressed` for an
      unpacked blob: the raw bytes themselves, or a decompressed buffer. */
  function BlobPayload(b: Blob, ext: Externals): (r: Option<Payload>)
    ensures b.raw.Some? ==> r == Some(Borrowed(b.raw.value))
    ensures b.raw.None? ==> (r.Some? <==> UncompressBlob(b, ext).Some?)
    ensures b.raw.None? && r.Some? ==> r.value == Owned(UncompressBlob(b, ext).value)
  {
    if b.raw.Some? then Some(Borrowed(b.raw.value))
    else match UncompressBlob(b, ext)
      case None => None
      case Some(tmp) => Some(Owned(tmp))
  }

  /** `osm_pbf_get_blob`: `len` bytes handed to the Blob unpacker, then the
      payload. NULL (`None`) when either step fails. */
  method GetBlob(f: OsmFile, len: nat, ext: Externals) returns (r: Option<(Blob, Payload)>)
    requires f.Valid()
    modifies f
    ensures f.Valid()
    ensures f.pos == Advance(f.bytes, old(f.pos), len)
    ensures var unpacked := ext.unpackBlob(Window(f.bytes, old(f.pos), len));
      r.Some? <==> unpacked.Some? && BlobPayload(unpacked.value, ext).Some?
    ensures r.Some? ==>
      r.value.0 == ext.unpackBlob(Window(f.bytes, old(f.pos), len)).value &&
      Some(r.value.1) == BlobPayload(r.value.0, ext)
  {
    var buffer := ReadBuffer(f, len);
    var blob := ext.unpackBlob(buffer);
    if blob.None? {
      return None;
    }
    var B := blob.value;
    if B.raw.Some? {
      r := Some((B, Borrowed(B.raw.value)));
    } else {
      var tmp := UncompressBlob(B, ext);
      if tmp.None? {
        return None;
      }
      r := Some((B, Owned(tmp.value)));
    }
  }

  /** `osm_pbf_free_blob` frees the payload buffer only for a blob without raw bytes. */
  function FreesPayload(b: Blob): bool {
    b.raw.None?
  }

  /** The ownership rule agrees with the aliasing rule: a payload is freed
      exactly when it was allocated for the blob, never when it is the blob's
      own raw bytes. */
  lemma FreeMatchesOwnership(b: Blob, ext: Externals)
    requires BlobPayload(b, ext).Some?
    ensures FreesPayload(b) <==> BlobPayload(b, ext).value.Owned?
    ensures !FreesPayload(b) ==> BlobPayload(b, ext).value == Borrowed(b.raw.value)
  {
  }

  /** `osm_pbf_unpack_data`: the primitive-block unpacker is told to decode
      `B->raw_size` bytes of the payload, whatever the payload's length;
      `Parse.DataBlockUnpacksPayload` states what a data block does with it. */
  function UnpackData(b: Blob, payload: Payload, ext: Externals): Option<PrimitiveBlock> {
    ext.unpackPrimitive(payload.bytes, b.rawSize)
  }
}
