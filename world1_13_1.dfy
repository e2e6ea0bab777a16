/** The 1.13 to 1.13.1 world packets: chunk palettes moved onto the 1.13.1 block-state ids, and the
  * environment the client is in recorded from join-game and respawn. */
module World1_13_1 {
  import opened Wrappers
  import opened Packets
  import opened LegacyTypes
  import Protocol1_13_1
  import Environments
  import Bytes

  /** A section as the chunk handler leaves it: every palette entry moved to its 1.13.1 block state. */
  function RewriteSection(s: Option<Section>): (r: Option<Section>)
    ensures r.None? <==> s.None?
    ensures s.Some? ==> r.value.body == s.value.body && |r.value.palette| == |s.value.palette|
    ensures s.Some? ==> forall j :: 0 <= j < |s.value.palette| ==>
      r.value.palette[j] == Protocol1_13_1.NewBlockStateId(s.value.palette[j])
  {
    match s
    case None => None
    case Some(section) => Some(Section(Protocol1_13_1.MapIds(Protocol1_13_1.NewBlockStateId, section.palette), section.body))
  }

  /** A column as the chunk handler leaves it: same place, same number of sections, absent sections
    * still absent, each present section rewritten. */
  function RewriteColumn(c: Column): (r: Column)
    ensures r.x == c.x && r.z == c.z && |r.sections| == |c.sections|
    ensures forall i :: 0 <= i < |c.sections| ==> r.sections[i] == RewriteSection(c.sections[i])
  {
    Column(c.x, c.z, seq(|c.sections|, i requires 0 <= i < |c.sections| => RewriteSection(c.sections[i])))
  }

  /** Every palette entry lies below the ids whose block-state shift wraps. */
  predicate BelowWrap(s: Option<Section>) {
    s.Some? ==> forall j :: 0 <= j < |s.value.palette| ==> s.value.palette[j] < Bytes.TWO_31 - 17
  }

  /** The palette rewrite is injective on sections below the wrap: distinct palette entries stay distinct,
    * because there the block-state shift is strictly increasing. */
  lemma RewriteSectionInjective(a: Option<Section>, b: Option<Section>)
    requires BelowWrap(a) && BelowWrap(b)
    requires RewriteSection(a) == RewriteSection(b)
    ensures a == b
  {
    if a.Some? && b.Some? {
      assert |a.value.palette| == |b.value.palette|;
      forall j | 0 <= j < |a.value.palette|
        ensures a.value.palette[j] == b.value.palette[j]
      {
        var x, y := a.value.palette[j], b.value.palette[j];
        if x < y {
          Protocol1_13_1.NewBlockStateIdIncreasing(x, y);
        } else if y < x {
          Protocol1_13_1.NewBlockStateIdIncreasing(y, x);
        }
      }
      assert a.value.palette == b.value.palette;
    }
  }

  /** The nested loop of the chunk handler: each present section's palette entries are replaced one by one. */
  method RewritePalettes(c: Column) returns (r: Column)
    ensures r == RewriteColumn(c)
  {
    var sections := c.sections;
    var i := 0;
    while i < |sections|
      invariant 0 <= i <= |sections| && |sections| == |c.sections|
      invariant forall k :: 0 <= k < i ==> sections[k] == RewriteSection(c.sections[k])
      invariant forall k :: i <= k < |sections| ==> sections[k] == c.sections[k]
    {
      if sections[i].Some? {
        var palette := sections[i].value.palette;
        var j := 0;
        while j < |palette|
          invariant 0 <= j <= |palette| && |palette| == |c.sections[i].value.palette|
          invariant forall k :: 0 <= k < j ==> palette[k] == Protocol1_13_1.NewBlockStateId(c.sections[i].value.palette[k])
          invariant forall k :: j <= k < |palette| ==> palette[k] == c.sections[i].value.palette[k]
        {
          palette := palette[j := Protocol1_13_1.NewBlockStateId(palette[j])];
          j := j + 1;
        }
        assert palette == Protocol1_13_1.MapIds(Protocol1_13_1.NewBlockStateId, c.sections[i].value.palette);
        sections := sections[i := Some(Section(palette, sections[i].value.body))];
      }
      i := i + 1;
    }
    r := Column(c.x, c.z, sections);
  }

  predicate WellFormedChunk(fs: seq<Field>) {
    HasLayout(fs, [Chunk]) && fs[0].value.ColumnV?
  }

  /** Chunk data: the column is passed through with its palettes rewritten. */
  method ChunkData(w: PacketWrapper) returns (r: Result<()>)
    modifies w
    requires w.output == []
    ensures r.Success? <==> WellFormedChunk(old(w.input))
    ensures r.Success? ==>
      w.output == [Field(Chunk, ColumnV(RewriteColumn(old(w.input)[0].value.column)))] && w.input == old(w.input)[1..]
    ensures w.id == old(w.id) && w.cancelled == old(w.cancelled) && w.sent == old(w.sent)
  {
    var chunk :- w.Passthrough(Chunk);
    if !chunk.ColumnV? {
      return Failure("chunk is not a column");
    }
    var column := RewritePalettes(chunk.column);
    var updated := w.Set(Chunk, 0, ColumnV(column));
    r := Success(());
  }

  const JoinGameLayout: seq<FieldType> := [Int, UnsignedByte, Int]

  predicate WellFormedJoinGame(fs: seq<Field>) {
    HasLayout(fs, JoinGameLayout) && fs[2].value.IntV?
  }

  /** Join game: entity id, gamemode and dimension pass through, and the dimension (the second int)
    * becomes the client world's environment. */
  method JoinGame(w: PacketWrapper, world: Environments.ClientWorld) returns (r: Result<()>)
    modifies w, world
    requires w.output == []
    ensures r.Success? <==> WellFormedJoinGame(old(w.input))
    ensures r.Success? ==>
      w.output == old(w.input)[..3] && w.input == old(w.input)[3..] &&
      world.environment == Some(Environments.ById(old(w.input)[2].value.n))
    ensures r.Failure? ==> world.environment == old(world.environment)
    ensures w.id == old(w.id) && w.cancelled == old(w.cancelled) && w.sent == old(w.sent)
  {
    var fields :- w.PassthroughAll(JoinGameLayout);
    assert w.output[0].ty == Int && w.output[1].ty == UnsignedByte && w.output[2].ty == Int;
    assert w.output[..2][1..] == [w.output[1]] && [w.output[1]][1..] == [];
    assert Count([w.output[1]], Int) == 0;
    PositionOfAt(w.output, Int, 1, 2);
    var dimension := w.Get(Int, 1);
    if dimension.Failure? || !dimension.value.IntV? {
      return Failure("dimension is not an int");
    }
    world.SetEnvironment(dimension.value.n);
    r := Success(());
  }

  predicate WellFormedRespawn(fs: seq<Field>) {
    HasLayout(fs, [Int]) && fs[0].value.IntV?
  }

  /** Respawn: the dimension passes through and becomes the client world's environment. */
  method Respawn(w: PacketWrapper, world: Environments.ClientWorld) returns (r: Result<()>)
    modifies w, world
    requires w.output == []
    ensures r.Success? <==> WellFormedRespawn(old(w.input))
    ensures r.Success? ==>
      w.output == old(w.input)[..1] && w.input == old(w.input)[1..] &&
      world.environment == Some(Environments.ById(old(w.input)[0].value.n))
    ensures r.Failure? ==> world.environment == old(world.environment)
    ensures w.id == old(w.id) && w.cancelled == old(w.cancelled) && w.sent == old(w.sent)
  {
    var dimension :- w.Passthrough(Int);
    if !dimension.IntV? {
      return Failure("dimension is not an int");
    }
    world.SetEnvironment(dimension.n);
    r := Success(());
  }
}
