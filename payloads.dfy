/** The binary placeholders the builder packs into an APK: the `classes.dex`
    and `resources.arsc` images, the signature filler and the launcher icon.
    Node's `Buffer` is an `array<byte>` here; the images are specified as byte
    sequences and the methods that fill the buffers are proved to produce them. */
module Payloads {
  import opened Wrappers

  const Pow32 := 0x1_0000_0000

  /** `writeUInt32LE` layout: least significant byte first. */
  function U32LE(v: int): (bs: seq<byte>)
    requires 0 <= v < Pow32
    ensures |bs| == 4
  {
    [(v % 256) as byte, (v / 256 % 256) as byte, (v / 65536 % 256) as byte, (v / 16777216) as byte]
  }

  /** `readUInt32LE(off)` */
  function ReadU32LE(s: seq<byte>, off: nat): (v: int)
    requires off + 4 <= |s|
  {
    s[off] as int + 256 * s[off + 1] as int + 65536 * s[off + 2] as int + 16777216 * s[off + 3] as int
  }

  /** `readUInt32BE(off)`, the byte order of PNG chunk lengths. */
  function ReadU32BE(s: seq<byte>, off: nat): (v: int)
    requires off + 4 <= |s|
  {
    16777216 * s[off] as int + 65536 * s[off + 1] as int + 256 * s[off + 2] as int + s[off + 3] as int
  }

  /** Reading back a written 32-bit value gives the value, wherever it sits. */
  lemma ReadWrittenU32LE(prefix: seq<byte>, v: int, suffix: seq<byte>)
    requires 0 <= v < Pow32
    ensures ReadU32LE(prefix + U32LE(v) + suffix, |prefix|) == v
  {
    var s := prefix + U32LE(v) + suffix;
    var b0, b1, b2, b3 := v % 256, v / 256 % 256, v / 65536 % 256, v / 16777216;
    assert s[|prefix|] as int == b0 && s[|prefix| + 1] as int == b1;
    assert s[|prefix| + 2] as int == b2 && s[|prefix| + 3] as int == b3;
    assert v / 256 == b1 + 256 * (v / 65536);
    assert v / 65536 == b2 + 256 * b3;
  }

  function Zeros(n: nat): (z: seq<byte>)
    ensures |z| == n && forall i :: 0 <= i < n ==> z[i] == 0
  {
    seq(n, _ => 0)
  }

  /** `buf.fill(v)` */
  method Fill(buf: array<byte>, v: byte)
    modifies buf
    ensures forall i :: 0 <= i < buf.Length ==> buf[i] == v
  {
    for i := 0 to buf.Length
      invariant forall k :: 0 <= k < i ==> buf[k] == v
    {
      buf[i] := v;
    }
  }

  /** `buf.writeUInt32LE(v, off)`: the four bytes at `off` become `v`, the rest stays. */
  method WriteUInt32LE(buf: array<byte>, v: int, off: nat)
    requires 0 <= v < Pow32 && off + 4 <= buf.Length
    modifies buf
    ensures buf[..] == old(buf[..])[..off] + U32LE(v) + old(buf[..])[off + 4..]
  {
    var bs := U32LE(v);
    buf[off] := bs[0];
    buf[off + 1] := bs[1];
    buf[off + 2] := bs[2];
    buf[off + 3] := bs[3];
    assert buf[..] == old(buf[..])[..off] + bs + old(buf[..])[off + 4..];
  }

  /** `source.copy(buf, off)` for a source that fits. */
  method CopyInto(source: seq<byte>, buf: array<byte>, off: nat)
    requires off + |source| <= buf.Length
    modifies buf
    ensures buf[..] == old(buf[..])[..off] + source + old(buf[..])[off + |source|..]
  {
    ghost var before := buf[..];
    for i := 0 to |source|
      invariant buf[..] == before[..off] + source[..i] + before[off + i..]
    {
      buf[off + i] := source[i];
      assert buf[..] == before[..off] + source[..i + 1] + before[off + i + 1..];
    }
  }

  // ---------------------------------------------------------------- classes.dex

  const DexSize := 8192
  /** `dex\n035\0` */
  const DexMagic: seq<byte> := [0x64, 0x65, 0x78, 0x0A, 0x30, 0x33, 0x35, 0x00]
  const DexChecksum := 0x12345678

  /** The image `generateClassesDex` returns. */
  function DexImage(): seq<byte> {
    DexMagic + U32LE(DexChecksum) + Zeros(DexSize - 12)
  }

  /** The DEX image is 8 KiB: the magic, the placeholder checksum read back
      little-endian at offset 8, then zeros. */
  lemma DexImageLayout()
    ensures |DexImage()| == DexSize
    ensures DexImage()[..8] == DexMagic
    ensures ReadU32LE(DexImage(), 8) == DexChecksum
    ensures forall i :: 12 <= i < DexSize ==> DexImage()[i] == 0
  {
    ReadWrittenU32LE(DexMagic, DexChecksum, Zeros(DexSize - 12));
  }

  /** `generateClassesDex`: a zeroed 8 KiB buffer, the header copied in, the checksum written. */
  method GenerateClassesDex() returns (dex: array<byte>)
    ensures dex[..] == DexImage()
  {
    dex := new byte[DexSize];
    Fill(dex, 0);
    CopyInto(DexMagic, dex, 0);
    WriteUInt32LE(dex, DexChecksum, 8);
    assert dex[..] == DexImage();
  }

  // ---------------------------------------------------------------- resources.arsc

  const ArscSize := 4096
  const ArscType := 0x080C0003

  function ArscImage(): seq<byte> {
    U32LE(ArscType) + U32LE(ArscSize) + Zeros(ArscSize - 8)
  }

  /** The resource table is 4 KiB: the type word at offset 0 and its own size at
      offset 4, both little-endian, then zeros. */
  lemma ArscImageLayout()
    ensures |ArscImage()| == ArscSize
    ensures ReadU32LE(ArscImage(), 0) == ArscType
    ensures ReadU32LE(ArscImage(), 4) == ArscSize == |ArscImage()|
    ensures forall i :: 8 <= i < ArscSize ==> ArscImage()[i] == 0
  {
    ReadWrittenU32LE([], ArscType, U32LE(ArscSize) + Zeros(ArscSize - 8));
    assert [] + U32LE(ArscType) + (U32LE(ArscSize) + Zeros(ArscSize - 8)) == ArscImage();
    ReadWrittenU32LE(U32LE(ArscType), ArscSize, Zeros(ArscSize - 8));
  }

  /** `generateResourcesArsc` */
  method GenerateResourcesArsc() returns (arsc: array<byte>)
    ensures arsc[..] == ArscImage()
  {
    arsc := new byte[ArscSize];
    Fill(arsc, 0);
    WriteUInt32LE(arsc, ArscType, 0);
    WriteUInt32LE(arsc, ArscSize, 4);
    assert arsc[..] == ArscImage();
  }

  // ---------------------------------------------------------------- CERT.RSA

  const RsaSize := 256
  /** The ASN.1 sequence tag the signature filler repeats. */
  const RsaFill: byte := 0x30

  /** The `rsa` buffer of `generateMetaInf`: 256 bytes, all the sequence tag. */
  method GenerateRsaFiller() returns (rsa: array<byte>)
    ensures rsa.Length == RsaSize
    ensures forall i :: 0 <= i < RsaSize ==> rsa[i] == RsaFill
  {
    rsa := new byte[RsaSize];
    Fill(rsa, RsaFill);
  }

  // ---------------------------------------------------------------- the launcher icon

  const PngSignature: seq<byte> := [0x89, 0x50, 0x4E, 0x47, 0x0D, 0x0A, 0x1A, 0x0A]
  const Ihdr: seq<byte> := [0x49, 0x48, 0x44, 0x52]
  const Idat: seq<byte> := [0x49, 0x44, 0x41, 0x54]
  const Iend: seq<byte> := [0x49, 0x45, 0x4E, 0x44]

  /** A PNG chunk: a big-endian data length, a four-byte type, the data and a CRC. */
  datatype Chunk = Chunk(kind: seq<byte>, data: seq<byte>, crc: seq<byte>)

  /** The chunks of a PNG stream after the signature; `None` when a declared
      length runs past the end or bytes are left over. */
  function Chunks(s: seq<byte>): (r: Option<seq<Chunk>>)
    ensures r.Some? ==> forall k :: 0 <= k < |r.value| ==> |r.value[k].kind| == 4 && |r.value[k].crc| == 4
    decreases |s|
  {
    if s == [] then Some([])
    else if |s| < 12 then None
    else
      var n := ReadU32BE(s, 0);
      if 12 + n > |s| then None
      else
        match Chunks(s[12 + n..])
        case None => None
        case Some(rest) => Some([Chunk(s[4..8], s[8..8 + n], s[8 + n..12 + n])] + rest)
  }

  /** One chunk's bytes: its length, type, data and CRC. */
  function ChunkBytes(kind: seq<byte>, len: seq<byte>, data: seq<byte>, crc: seq<byte>): seq<byte> {
    len + kind + data + crc
  }

  /** Width 48, height 48, bit depth 8, colour type 2 (RGB), no interlace. */
  const IhdrData: seq<byte> := [0x00, 0x00, 0x00, 0x30, 0x00, 0x00, 0x00, 0x30, 0x08, 0x02, 0x00, 0x00, 0x00]
  const IhdrCrc: seq<byte> := [0x91, 0x5D, 0x53, 0x8E]
  const IhdrChunk: seq<byte> := ChunkBytes(Ihdr, [0x00, 0x00, 0x00, 0x0D], IhdrData, IhdrCrc)
  const IdatData: seq<byte> := [0x78, 0x9C, 0x63, 0x00, 0x01, 0x00, 0x00, 0x05, 0x00, 0x01]
  const IdatCrc: seq<byte> := [0x0D, 0x0A, 0x2D, 0xB4]
  const IendCrc: seq<byte> := [0xAE, 0x42, 0x60, 0x82]
  const IendChunk: seq<byte> := ChunkBytes(Iend, [0x00, 0x00, 0x00, 0x00], [], IendCrc)

  /** The icon's chunks, with the length the IDAT chunk declares as a parameter. */
  function IconChunks(idatLength: byte): seq<byte> {
    IhdrChunk + (ChunkBytes(Idat, [0x00, 0x00, 0x00, idatLength], IdatData, IdatCrc) + IendChunk)
  }

  function AppIconWith(idatLength: byte): (icon: seq<byte>)
    ensures |icon| == 8 + |IconChunks(idatLength)| && icon[..8] == PngSignature && icon[8..] == IconChunks(idatLength)
  {
    var icon := PngSignature + IconChunks(idatLength);
    assert icon[..|PngSignature|] == PngSignature;
    icon
  }

  /** `generateAppIcon` as written: its IDAT chunk declares 11 data bytes. */
  const AppIconAsWritten: seq<byte> := AppIconWith(0x0B)

  /** The icon with the IDAT length matching the ten data bytes it carries. */
  const AppIcon: seq<byte> := AppIconWith(0x0A)

  /** A chunk whose declared length fits its data is read off the front of the stream. */
  lemma ChunksOfChunk(kind: seq<byte>, len: seq<byte>, data: seq<byte>, crc: seq<byte>, rest: seq<byte>)
    requires |kind| == 4 && |len| == 4 && |crc| == 4 && ReadU32BE(len, 0) == |data|
    ensures Chunks(ChunkBytes(kind, len, data, crc) + rest) ==
      if Chunks(rest).Some? then Some([Chunk(kind, data, crc)] + Chunks(rest).value) else None
  {
    var s := ChunkBytes(kind, len, data, crc) + rest;
    var n := |data|;
    assert s[..4] == len;
    assert ReadU32BE(s, 0) == ReadU32BE(len, 0);
    assert s[4..8] == kind && s[8..8 + n] == data && s[8 + n..12 + n] == crc && s[12 + n..] == rest;
  }

  /** As written, the reader takes the first CRC byte as IDAT data, and the 11
      bytes left over do not form a chunk: the stream does not divide into chunks. */
  lemma AppIconAsWrittenIsMalformed()
    ensures AppIconAsWritten[..8] == PngSignature
    ensures Chunks(AppIconAsWritten[8..]).None?
  {
    var s1 := ChunkBytes(Idat, [0x00, 0x00, 0x00, 0x0B], IdatData, IdatCrc) + IendChunk;
    ChunksOfChunk(Ihdr, [0x00, 0x00, 0x00, 0x0D], IhdrData, IhdrCrc, s1);
    assert |s1| == 34 && ReadU32BE(s1, 0) == 11;
    var s2 := s1[23..];
    assert |s2| == 11;
    assert Chunks(s2).None?;
  }

  /** The corrected icon divides into exactly three chunks, IHDR, IDAT and IEND, and
      its IHDR declares a 48 by 48 image of bit depth 8 and colour type 2. `Chunks`
      reads chunk boundaries only: it checks neither CRCs nor the compressed data. */
  lemma AppIconIsWellFormed()
    ensures AppIcon[..8] == PngSignature
    ensures Chunks(AppIcon[8..]) == Some([Chunk(Ihdr, IhdrData, IhdrCrc), Chunk(Idat, IdatData, IdatCrc), Chunk(Iend, [], IendCrc)])
    ensures |IhdrData| == 13 && ReadU32BE(IhdrData, 0) == 48 && ReadU32BE(IhdrData, 4) == 48
    ensures IhdrData[8] == 8 && IhdrData[9] == 2 && |IdatData| == 10
  {
    IconChunksRead();
    IhdrFields();
  }

  lemma IhdrFields()
    ensures |IhdrData| == 13 && ReadU32BE(IhdrData, 0) == 48 && ReadU32BE(IhdrData, 4) == 48
    ensures IhdrData[8] == 8 && IhdrData[9] == 2 && |IdatData| == 10
  {
    assert IhdrData[..4] == [0x00, 0x00, 0x00, 0x30];
    assert IhdrData[4..8] == [0x00, 0x00, 0x00, 0x30];
  }

  lemma IconChunksRead()
    ensures Chunks(AppIcon[8..]) == Some([Chunk(Ihdr, IhdrData, IhdrCrc), Chunk(Idat, IdatData, IdatCrc), Chunk(Iend, [], IendCrc)])
  {
    var idat := ChunkBytes(Idat, [0x00, 0x00, 0x00, 0x0A], IdatData, IdatCrc);
    ChunksOfChunk(Iend, [0x00, 0x00, 0x00, 0x00], [], IendCrc, []);
    assert IendChunk + [] == IendChunk;
    assert Chunks([]) == Some([]);
    ChunksOfChunk(Idat, [0x00, 0x00, 0x00, 0x0A], IdatData, IdatCrc, IendChunk);
    ChunksOfChunk(Ihdr, [0x00, 0x00, 0x00, 0x0D], IhdrData, IhdrCrc, idat + IendChunk);
    var a, b, c := Chunk(Ihdr, IhdrData, IhdrCrc), Chunk(Idat, IdatData, IdatCrc), Chunk(Iend, [], IendCrc);
    assert [a] + ([b] + ([c] + [])) == [a, b, c];
  }
}
