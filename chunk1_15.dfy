/** The 1.15 chunk packet body: coordinates, the ground-up flag, the section bitmask, the height map, 1024
  * biome ints on a ground-up chunk, a size-prefixed block of the present sections (each led by its count
  * of non-air blocks), and the block entities. The NBT, chunk-section and NBT-array codecs are
  * parameters of the model, given to round-trip. */
module Chunk1_15 {
  import opened Wrappers
  import opened Bytes
  import opened Nbt
  import opened LegacyTypes

  const SectionCount: nat := 16
  const BiomeCount: nat := 1024

  /** A chunk section with the non-air block count the packet carries in front of it. */
  datatype ChunkSection = ChunkSection(nonAirBlocks: int, blocks: Section)

  datatype Chunk = Chunk(x: int, z: int, groundUp: bool, bitmask: int, heightMap: Tag,
                         biomes: Option<seq<int>>, sections: seq<Option<ChunkSection>>, blockEntities: seq<Tag>)

  /** The sub-codecs: NBT, the 1.13 chunk section, and the array of NBT compounds. */
  datatype Codecs = Codecs(nbt: Codec<Tag>, section: Codec<Section>, nbtArray: Codec<seq<Tag>>)

  ghost predicate Sound(c: Codecs) {
    RoundTrips(c.nbt) && RoundTrips(c.section) && RoundTrips(c.nbtArray)
  }

  /** Bit `i` of the natural number `u`. */
  predicate BitOf(u: nat, i: nat) {
    if i == 0 then u % 2 == 1 else BitOf(u / 2, i - 1)
  }

  /** `(bitmask & (1 << i)) != 0`: bit `i` of the mask's 32-bit pattern. */
  predicate Bit(mask: int, i: nat) {
    BitOf(mask % TWO_32, i)
  }

  // ---------------------------------------------------------------- byte layout

  /** The leading fields: x and z as INTs, the ground-up BOOLEAN, the bitmask as a VAR_INT, the height map. */
  function HeaderBytes(c: Codecs, chunk: Chunk): seq<byte>
    requires IsInt32(chunk.bitmask)
  {
    EncodeInt(chunk.x) + EncodeInt(chunk.z) + EncodeBool(chunk.groundUp) + EncodeVarInt(chunk.bitmask)
      + c.nbt.encode(chunk.heightMap)
  }

  /** Consecutive INTs. */
  function IntsBytes(vs: seq<int>): seq<byte> {
    if |vs| == 0 then [] else EncodeInt(vs[0]) + IntsBytes(vs[1..])
  }

  /** One section slot: nothing for an absent section, else its non-air count as a SHORT and the section. */
  function SlotBytes(c: Codecs, slot: Option<ChunkSection>): seq<byte> {
    match slot
    case None => []
    case Some(s) => EncodeShort(s.nonAirBlocks) + c.section.encode(s.blocks)
  }

  /** Consecutive section slots. */
  function SectionsBytes(c: Codecs, slots: seq<Option<ChunkSection>>): seq<byte> {
    if |slots| == 0 then [] else SlotBytes(c, slots[0]) + SectionsBytes(c, slots[1..])
  }

  /** What `write` produces, with `size` as the section block's prefix. */
  function ChunkBytesWithSize(c: Codecs, chunk: Chunk, size: int): seq<byte>
    requires IsInt32(chunk.bitmask) && IsInt32(size) && |chunk.sections| >= SectionCount
  {
    HeaderBytes(c, chunk) + (if chunk.biomes.Some? then IntsBytes(chunk.biomes.value) else [])
      + EncodeVarInt(size) + SectionsBytes(c, chunk.sections[..SectionCount]) + c.nbtArray.encode(chunk.blockEntities)
  }

  /** What a chunk's Java fields allow `write` to be asked: an `int` bitmask, and a section block that fits
    * the size an `int` can count. */
  predicate Writable(c: Codecs, chunk: Chunk) {
    IsInt32(chunk.bitmask)
    && (|chunk.sections| >= SectionCount ==> |SectionsBytes(c, chunk.sections[..SectionCount])| < TWO_31)
  }

  /** `write`: fails (on the section array index) when the chunk holds fewer than 16 section slots;
    * otherwise the section block is prefixed by its own byte length. */
  function EncodeChunk(c: Codecs, chunk: Chunk): (r: Option<seq<byte>>)
    requires Writable(c, chunk)
    ensures r.Some? <==> |chunk.sections| >= SectionCount
  {
    if |chunk.sections| < SectionCount then None
    else Some(ChunkBytesWithSize(c, chunk, |SectionsBytes(c, chunk.sections[..SectionCount])|))
  }

  // ---------------------------------------------------------------- reading

  datatype Header = Header(x: int, z: int, groundUp: bool, bitmask: int, heightMap: Tag)

  function DecodeHeader(c: Codecs, bs: seq<byte>): Option<(Header, seq<byte>)> {
    match DecodeInt(bs)
    case None => None
    case Some((x, r1)) =>
      match DecodeInt(r1)
      case None => None
      case Some((z, r2)) =>
        match DecodeBool(r2)
        case None => None
        case Some((groundUp, r3)) =>
          match DecodeVarInt(r3)
          case None => None
          case Some((mask, r4)) =>
            match c.nbt.decode(r4)
            case None => None
            case Some((heightMap, r5)) => Some((Header(x, z, groundUp, mask, heightMap), r5))
  }

  /** `n` consecutive INTs. */
  function DecodeInts(bs: seq<byte>, n: nat): (r: Option<(seq<int>, seq<byte>)>)
    ensures r.Some? ==> |r.value.0| == n && forall i :: 0 <= i < n ==> IsInt32(r.value.0[i])
  {
    if n == 0 then Some(([], bs))
    else
      match DecodeInt(bs)
      case None => None
      case Some((v, rest)) =>
        match DecodeInts(rest, n - 1)
        case None => None
        case Some((vs, rest')) => Some(([v] + vs, rest'))
  }

  /** The slots from index `i` on: a slot whose bitmask bit is clear is absent and reads nothing; a set bit
    * reads a SHORT non-air count and then a section. */
  function DecodeSections(c: Codecs, bs: seq<byte>, mask: int, i: nat): (r: Option<(seq<Option<ChunkSection>>, seq<byte>)>)
    requires i <= SectionCount
    ensures r.Some? ==> |r.value.0| == SectionCount - i
    decreases SectionCount - i
  {
    if i == SectionCount then Some(([], bs))
    else if !Bit(mask, i) then
      match DecodeSections(c, bs, mask, i + 1)
      case None => None
      case Some((ss, rest)) => Some(([None] + ss, rest))
    else
      match DecodeShort(bs)
      case None => None
      case Some((count, r1)) =>
        match c.section.decode(r1)
        case None => None
        case Some((section, r2)) =>
          match DecodeSections(c, r2, mask, i + 1)
          case None => None
          case Some((ss, rest)) => Some(([Some(ChunkSection(count, section))] + ss, rest))
  }

  /** `read`: the header, the biomes when ground-up, a VAR_INT size that is read and ignored, the sections
    * the bitmask names, the block entities; whatever follows is discarded. */
  function DecodeChunk(c: Codecs, bs: seq<byte>): Option<Chunk> {
    match DecodeHeader(c, bs)
    case None => None
    case Some((h, r1)) =>
      match (if h.groundUp then DecodeInts(r1, BiomeCount) else Some(([], r1)))
      case None => None
      case Some((biomes, r2)) =>
        match DecodeVarInt(r2)
        case None => None
        case Some((_, r3)) =>
          match DecodeSections(c, r3, h.bitmask, 0)
          case None => None
          case Some((sections, r4)) =>
            match c.nbtArray.decode(r4)
            case None => None
            case Some((blockEntities, _)) =>
              Some(Chunk(h.x, h.z, h.groundUp, h.bitmask, h.heightMap,
                         if h.groundUp then Some(biomes) else None, sections, blockEntities))
  }

  // ---------------------------------------------------------------- round trips

  lemma Assoc(a: seq<byte>, b: seq<byte>, d: seq<byte>)
    ensures (a + b) + d == a + (b + d)
  {
  }

  lemma HeaderRoundTrip(c: Codecs, chunk: Chunk, rest: seq<byte>)
    requires Sound(c) && IsInt32(chunk.x) && IsInt32(chunk.z) && IsInt32(chunk.bitmask)
    ensures DecodeHeader(c, HeaderBytes(c, chunk) + rest)
      == Some((Header(chunk.x, chunk.z, chunk.groundUp, chunk.bitmask, chunk.heightMap), rest))
  {
    var r4 := c.nbt.encode(chunk.heightMap) + rest;
    var r3 := EncodeVarInt(chunk.bitmask) + r4;
    var r2 := EncodeBool(chunk.groundUp) + r3;
    var r1 := EncodeInt(chunk.z) + r2;
    assert HeaderBytes(c, chunk) + rest == EncodeInt(chunk.x) + r1;
    IntRoundTrip(chunk.x, r1);
    IntRoundTrip(chunk.z, r2);
    BoolRoundTrip(chunk.groundUp, r3);
    VarIntRoundTrip(chunk.bitmask, r4);
  }

  lemma {:induction false} IntsRoundTrip(vs: seq<int>, rest: seq<byte>)
    requires forall i :: 0 <= i < |vs| ==> IsInt32(vs[i])
    ensures DecodeInts(IntsBytes(vs) + rest, |vs|) == Some((vs, rest))
  {
    if |vs| == 0 {
      assert IntsBytes(vs) + rest == rest;
    } else {
      var tail := IntsBytes(vs[1..]) + rest;
      Assoc(EncodeInt(vs[0]), IntsBytes(vs[1..]), rest);
      IntRoundTrip(vs[0], tail);
      IntsRoundTrip(vs[1..], rest);
      assert [vs[0]] + vs[1..] == vs;
    }
  }

  /** The slots from `i` on, as far as reading them back is concerned: present exactly where the mask's
    * bits are set, with `short` non-air counts. */
  predicate SlotsMatch(slots: seq<Option<ChunkSection>>, mask: int, i: nat) {
    i + |slots| == SectionCount
    && forall j :: 0 <= j < |slots| ==>
         (slots[j].Some? <==> Bit(mask, i + j)) && (slots[j].Some? ==> IsInt16(slots[j].value.nonAirBlocks))
  }

  lemma SlotsMatchTail(slots: seq<Option<ChunkSection>>, mask: int, i: nat)
    requires |slots| > 0 && SlotsMatch(slots, mask, i)
    ensures SlotsMatch(slots[1..], mask, i + 1)
    ensures slots[0].Some? <==> Bit(mask, i)
    ensures slots[0].Some? ==> IsInt16(slots[0].value.nonAirBlocks)
  {
    assert slots[0].Some? <==> Bit(mask, i + 0);
    forall j | 0 <= j < |slots[1..]|
      ensures slots[1..][j] == slots[j + 1]
    {
    }
  }

  lemma SlotRoundTrip(c: Codecs, s: ChunkSection, tail: seq<byte>)
    requires Sound(c) && IsInt16(s.nonAirBlocks)
    ensures DecodeShort(SlotBytes(c, Some(s)) + tail) == Some((s.nonAirBlocks, c.section.encode(s.blocks) + tail))
    ensures c.section.decode(c.section.encode(s.blocks) + tail) == Some((s.blocks, tail))
  {
    Assoc(EncodeShort(s.nonAirBlocks), c.section.encode(s.blocks), tail);
    ShortRoundTrip(s.nonAirBlocks, c.section.encode(s.blocks) + tail);
  }

  lemma DecodePresentSlot(c: Codecs, bs: seq<byte>, mask: int, i: nat, count: int, r1: seq<byte>, section: Section,
                          r2: seq<byte>, slots: seq<Option<ChunkSection>>, rest: seq<byte>)
    requires i < SectionCount && Bit(mask, i)
    requires DecodeShort(bs) == Some((count, r1)) && c.section.decode(r1) == Some((section, r2))
    requires DecodeSections(c, r2, mask, i + 1) == Some((slots, rest))
    ensures DecodeSections(c, bs, mask, i) == Some(([Some(ChunkSection(count, section))] + slots, rest))
  {
  }

  lemma DecodeAbsentSlot(c: Codecs, bs: seq<byte>, mask: int, i: nat, slots: seq<Option<ChunkSection>>, rest: seq<byte>)
    requires i < SectionCount && !Bit(mask, i)
    requires DecodeSections(c, bs, mask, i + 1) == Some((slots, rest))
    ensures DecodeSections(c, bs, mask, i) == Some(([None] + slots, rest))
  {
  }

  lemma {:induction false} SectionsRoundTrip(c: Codecs, slots: seq<Option<ChunkSection>>, mask: int, i: nat, rest: seq<byte>)
    requires Sound(c) && SlotsMatch(slots, mask, i)
    ensures DecodeSections(c, SectionsBytes(c, slots) + rest, mask, i) == Some((slots, rest))
    decreases |slots|
  {
    if |slots| == 0 {
      assert SectionsBytes(c, slots) + rest == rest;
    } else {
      var tail := SectionsBytes(c, slots[1..]) + rest;
      Assoc(SlotBytes(c, slots[0]), SectionsBytes(c, slots[1..]), rest);
      SlotsMatchTail(slots, mask, i);
      SectionsRoundTrip(c, slots[1..], mask, i + 1, rest);
      if slots[0].Some? {
        var s := slots[0].value;
        SlotRoundTrip(c, s, tail);
        DecodePresentSlot(c, SlotBytes(c, slots[0]) + tail, mask, i, s.nonAirBlocks, c.section.encode(s.blocks) + tail,
                          s.blocks, tail, slots[1..], rest);
      } else {
        assert SlotBytes(c, slots[0]) + tail == tail;
        DecodeAbsentSlot(c, tail, mask, i, slots[1..], rest);
      }
      assert [slots[0]] + slots[1..] == slots;
    }
  }

  /** The fields a Java chunk holds as `int`s and `short`s, and a chunk whose sections, biomes and flag
    * agree with each other the way `read` builds them: a slot for each of the 16 sections, present exactly
    * where the bitmask says, and 1024 biome ints exactly on a ground-up chunk. */
  predicate Consistent(chunk: Chunk) {
    IsInt32(chunk.x) && IsInt32(chunk.z) && IsInt32(chunk.bitmask)
    && SlotsMatch(chunk.sections, chunk.bitmask, 0)
    && (chunk.biomes.Some? <==> chunk.groundUp)
    && (chunk.biomes.Some? ==> |chunk.biomes.value| == BiomeCount
                               && forall i :: 0 <= i < BiomeCount ==> IsInt32(chunk.biomes.value[i]))
  }

  /** The slots read from index `i` on are present exactly where the mask's bits are set. */
  lemma {:induction false} DecodedSlotsMatch(c: Codecs, bs: seq<byte>, mask: int, i: nat)
    requires i <= SectionCount && DecodeSections(c, bs, mask, i).Some?
    ensures SlotsMatch(DecodeSections(c, bs, mask, i).value.0, mask, i)
    decreases SectionCount - i
  {
    if i < SectionCount {
      var slots := DecodeSections(c, bs, mask, i).value.0;
      var rest := if !Bit(mask, i) then bs else c.section.decode(DecodeShort(bs).value.1).value.1;
      DecodedSlotsMatch(c, rest, mask, i + 1);
      var tail := DecodeSections(c, rest, mask, i + 1).value.0;
      assert slots == [slots[0]] + tail;
      forall j | 0 <= j < |slots|
        ensures (slots[j].Some? <==> Bit(mask, i + j)) && (slots[j].Some? ==> IsInt16(slots[j].value.nonAirBlocks))
      {
        if j > 0 {
          assert slots[j] == tail[j - 1];
        }
      }
    }
  }

  /** Whatever `read` returns is a consistent chunk: its coordinates and bitmask are `int`s, its 16 slots
    * follow the bitmask, and it has 1024 biome ints exactly when it is ground-up. */
  lemma ReadIsConsistent(c: Codecs, bs: seq<byte>)
    requires DecodeChunk(c, bs).Some?
    ensures Consistent(DecodeChunk(c, bs).value)
  {
    var h := DecodeHeader(c, bs).value.0;
    var r1 := DecodeHeader(c, bs).value.1;
    var r2 := (if h.groundUp then DecodeInts(r1, BiomeCount) else Some(([], r1))).value.1;
    var r3 := DecodeVarInt(r2).value.1;
    DecodedSlotsMatch(c, r3, h.bitmask, 0);
  }

  /** Reading what `write` produced, with any size prefix and anything after it, gives the chunk back:
    * the size prefix is ignored and trailing bytes are discarded. */
  lemma ChunkRoundTripAnySize(c: Codecs, chunk: Chunk, size: int, trailing: seq<byte>)
    requires Sound(c) && Consistent(chunk) && IsInt32(size)
    ensures DecodeChunk(c, ChunkBytesWithSize(c, chunk, size) + trailing) == Some(chunk)
  {
    var slots := chunk.sections[..SectionCount];
    assert slots == chunk.sections;
    var r4 := c.nbtArray.encode(chunk.blockEntities) + trailing;
    var r3 := SectionsBytes(c, slots) + r4;
    var r2 := EncodeVarInt(size) + r3;
    var biomeBytes := if chunk.biomes.Some? then IntsBytes(chunk.biomes.value) else [];
    var r1 := biomeBytes + r2;
    assert ChunkBytesWithSize(c, chunk, size) + trailing == HeaderBytes(c, chunk) + r1;
    HeaderRoundTrip(c, chunk, r1);
    if chunk.groundUp {
      IntsRoundTrip(chunk.biomes.value, r2);
    } else {
      assert r1 == r2;
    }
    VarIntRoundTrip(size, r3);
    SectionsRoundTrip(c, slots, chunk.bitmask, 0, r4);
  }

  /** `read(write(chunk)) == chunk` for a consistent chunk. */
  lemma ChunkRoundTrip(c: Codecs, chunk: Chunk, trailing: seq<byte>)
    requires Sound(c) && Consistent(chunk) && Writable(c, chunk)
    ensures EncodeChunk(c, chunk).Some?
    ensures DecodeChunk(c, EncodeChunk(c, chunk).value + trailing) == Some(chunk)
  {
    ChunkRoundTripAnySize(c, chunk, |SectionsBytes(c, chunk.sections[..SectionCount])|, trailing);
  }
  // ---------------------------------------------------------------- the type's read and write

  /** Values read so far in front of the outcome of reading the rest. */
  function Prepend<T>(xs: seq<T>, r: Option<(seq<T>, seq<byte>)>): Option<(seq<T>, seq<byte>)> {
    match r
    case None => None
    case Some((ys, rest)) => Some((xs + ys, rest))
  }

  lemma PrependNothing<T>(r: Option<(seq<T>, seq<byte>)>)
    ensures Prepend([], r) == r
  {
    if r.Some? {
      assert [] + r.value.0 == r.value.0;
    }
  }

  lemma PrependOne<T>(xs: seq<T>, x: T, r: Option<(seq<T>, seq<byte>)>)
    ensures Prepend(xs, Prepend([x], r)) == Prepend(xs + [x], r)
  {
    if r.Some? {
      assert xs + ([x] + r.value.0) == (xs + [x]) + r.value.0;
    }
  }

  method ReadHeader(c: Codecs, input: seq<byte>) returns (r: Option<(Header, seq<byte>)>)
    ensures r == DecodeHeader(c, input)
  {
    var x := DecodeInt(input);
    if x.None? { return None; }
    var z := DecodeInt(x.value.1);
    if z.None? { return None; }
    var groundUp := DecodeBool(z.value.1);
    if groundUp.None? { return None; }
    var mask := DecodeVarInt(groundUp.value.1);
    if mask.None? { return None; }
    var heightMap := c.nbt.decode(mask.value.1);
    if heightMap.None? { return None; }
    r := Some((Header(x.value.0, z.value.0, groundUp.value.0, mask.value.0, heightMap.value.0), heightMap.value.1));
  }

  /** The biome loop: 1024 INTs into the biome array. */
  method ReadBiomes(input: seq<byte>) returns (r: Option<(seq<int>, seq<byte>)>)
    ensures r == DecodeInts(input, BiomeCount)
  {
    var biomes: seq<int> := [];
    var rest := input;
    var i := 0;
    PrependNothing(DecodeInts(input, BiomeCount));
    while i < BiomeCount
      invariant 0 <= i <= BiomeCount
      invariant DecodeInts(input, BiomeCount) == Prepend(biomes, DecodeInts(rest, BiomeCount - i))
    {
      var value := DecodeInt(rest);
      if value.None? {
        return None;
      }
      PrependOne(biomes, value.value.0, DecodeInts(value.value.1, BiomeCount - i - 1));
      biomes := biomes + [value.value.0];
      rest := value.value.1;
      i := i + 1;
    }
    assert biomes + [] == biomes;
    r := Some((biomes, rest));
  }

  /** The bitmask loop: which of the 16 sections are present. */
  method UsedSections(mask: int) returns (used: seq<bool>)
    ensures |used| == SectionCount && forall i :: 0 <= i < SectionCount ==> (used[i] <==> Bit(mask, i))
  {
    used := [];
    var i := 0;
    while i < SectionCount
      invariant 0 <= i <= SectionCount && |used| == i
      invariant forall j :: 0 <= j < i ==> (used[j] <==> Bit(mask, j))
    {
      used := used + [Bit(mask, i)];
      i := i + 1;
    }
  }

  /** The section loop: for each used slot a SHORT non-air count, then the section. */
  method ReadSections(c: Codecs, input: seq<byte>, mask: int, used: seq<bool>) returns (r: Option<(seq<Option<ChunkSection>>, seq<byte>)>)
    requires |used| == SectionCount && forall i :: 0 <= i < SectionCount ==> (used[i] <==> Bit(mask, i))
    ensures r == DecodeSections(c, input, mask, 0)
  {
    var sections: seq<Option<ChunkSection>> := [];
    var rest := input;
    var i := 0;
    PrependNothing(DecodeSections(c, input, mask, 0));
    while i < SectionCount
      invariant 0 <= i <= SectionCount
      invariant DecodeSections(c, input, mask, 0) == Prepend(sections, DecodeSections(c, rest, mask, i))
    {
      if !used[i] {
        PrependOne(sections, None, DecodeSections(c, rest, mask, i + 1));
        sections := sections + [None];
        i := i + 1;
        continue;
      }
      var count := DecodeShort(rest);
      if count.None? {
        return None;
      }
      var section := c.section.decode(count.value.1);
      if section.None? {
        return None;
      }
      var slot := Some(ChunkSection(count.value.0, section.value.0));
      PrependOne(sections, slot, DecodeSections(c, section.value.1, mask, i + 1));
      sections := sections + [slot];
      rest := section.value.1;
      i := i + 1;
    }
    assert sections + [] == sections;
    r := Some((sections, rest));
  }

  /** `read`. */
  method Read(c: Codecs, input: seq<byte>) returns (r: Option<Chunk>)
    ensures r == DecodeChunk(c, input)
  {
    var header := ReadHeader(c, input);
    if header.None? {
      return None;
    }
    var h := header.value.0;
    var rest := header.value.1;
    var biomes: Option<seq<int>> := None;
    if h.groundUp {
      var read := ReadBiomes(rest);
      if read.None? {
        return None;
      }
      biomes := Some(read.value.0);
      rest := read.value.1;
    }
    var size := DecodeVarInt(rest);
    if size.None? {
      return None;
    }
    var used := UsedSections(h.bitmask);
    var sections := ReadSections(c, size.value.1, h.bitmask, used);
    if sections.None? {
      return None;
    }
    var blockEntities := c.nbtArray.decode(sections.value.1);
    if blockEntities.None? {
      return None;
    }
    r := Some(Chunk(h.x, h.z, h.groundUp, h.bitmask, h.heightMap, biomes, sections.value.0, blockEntities.value.0));
  }

  /** The biome loop of `write`: every biome value as an INT. */
  method WriteBiomes(output: seq<byte>, biomes: seq<int>) returns (out: seq<byte>)
    ensures out == output + IntsBytes(biomes)
  {
    out := output;
    var i := 0;
    while i < |biomes|
      invariant 0 <= i <= |biomes|
      invariant out + IntsBytes(biomes[i..]) == output + IntsBytes(biomes)
    {
      assert biomes[i..][1..] == biomes[i + 1..];
      Assoc(out, EncodeInt(biomes[i]), IntsBytes(biomes[i + 1..]));
      out := out + EncodeInt(biomes[i]);
      i := i + 1;
    }
    assert out + IntsBytes(biomes[i..]) == out;
  }

  /** One slot of the section loop: nothing for an empty slot, otherwise its non-air count and the section. */
  method WriteSlot(c: Codecs, buf: seq<byte>, slot: Option<ChunkSection>) returns (out: seq<byte>)
    ensures out == buf + SlotBytes(c, slot)
  {
    if slot.None? {
      assert buf + [] == buf;
      return buf;
    }
    out := buf + EncodeShort(slot.value.nonAirBlocks);
    Assoc(buf, EncodeShort(slot.value.nonAirBlocks), c.section.encode(slot.value.blocks));
    out := out + c.section.encode(slot.value.blocks);
  }

  /** Splitting off the first of the remaining slots. */
  lemma SectionsStep(c: Codecs, buf: seq<byte>, sections: seq<Option<ChunkSection>>, i: int)
    requires 0 <= i < SectionCount <= |sections|
    ensures buf + SectionsBytes(c, sections[i..SectionCount]) ==
            (buf + SlotBytes(c, sections[i])) + SectionsBytes(c, sections[i + 1..SectionCount])
  {
    assert sections[i..SectionCount][1..] == sections[i + 1..SectionCount];
    Assoc(buf, SlotBytes(c, sections[i]), SectionsBytes(c, sections[i + 1..SectionCount]));
  }

  /** The section loop of `write`, into the temporary buffer: each present section's non-air count as a
    * SHORT and the section; the loop fails on a chunk with fewer than 16 section slots. */
  method WriteSections(c: Codecs, sections: seq<Option<ChunkSection>>) returns (r: Option<seq<byte>>)
    ensures r.Some? <==> |sections| >= SectionCount
    ensures r.Some? ==> r.value == SectionsBytes(c, sections[..SectionCount])
  {
    var buf: seq<byte> := [];
    var i := 0;
    while i < SectionCount
      invariant 0 <= i <= SectionCount && i <= |sections|
      invariant |sections| >= SectionCount ==>
        buf + SectionsBytes(c, sections[i..SectionCount]) == SectionsBytes(c, sections[..SectionCount])
    {
      if i >= |sections| {
        return None;
      }
      if |sections| >= SectionCount {
        SectionsStep(c, buf, sections, i);
      }
      buf := WriteSlot(c, buf, sections[i]);
      i := i + 1;
    }
    assert buf + SectionsBytes(c, sections[i..SectionCount]) == buf;
    r := Some(buf);
  }

  /** `write`. */
  method Write(c: Codecs, chunk: Chunk) returns (r: Option<seq<byte>>)
    requires Writable(c, chunk)
    ensures r == EncodeChunk(c, chunk)
  {
    var output := EncodeInt(chunk.x) + EncodeInt(chunk.z);
    output := output + EncodeBool(chunk.groundUp);
    output := output + EncodeVarInt(chunk.bitmask);
    output := output + c.nbt.encode(chunk.heightMap);
    if chunk.biomes.Some? {
      output := WriteBiomes(output, chunk.biomes.value);
    } else {
      assert output + [] == output;
    }
    var buf := WriteSections(c, chunk.sections);
    if buf.None? {
      return None;
    }
    output := output + EncodeVarInt(|buf.value|);
    output := output + buf.value;
    output := output + c.nbtArray.encode(chunk.blockEntities);
    r := Some(output);
  }
}
