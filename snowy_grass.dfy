/** The 1.13 block-connection handler that turns grass, podzol and mycelium snowy when snow lies on top.
  * Its two tables are filled once, block state by block state, while the connection data is loaded; the
  * per-block `connect` is then a lookup with a fallback to the block's own state. */
module SnowyGrass {
  /** The blocks that have a snowy variant. */
  const GrassKeys: set<string> := {"minecraft:grass_block", "minecraft:podzol", "minecraft:mycelium"}
  /** The blocks that count as snow on top. */
  const SnowKeys: set<string> := {"minecraft:snow", "minecraft:snow_block"}
  /** The default return value of the grass table, reported for a missing key. */
  const Missing: int := -1

  /** A grass-table key: a block state and whether snow lies above it. */
  datatype GrassBlock = GrassBlock(blockStateId: int, snowy: bool)

  /** One block state as the loader presents it: its block key, its own state id, and the ids of the states
    * that the same block takes with its `snowy` property set to true and to false. Looking those states
    * up by their property string belongs to the connection data loader, which is not part of this model. */
  datatype BlockData = BlockData(key: string, savedId: int, snowyId: int, plainId: int)

  /** The grass table after one block state has been offered to the init action. */
  function WithGrass(grass: map<GrassBlock, int>, b: BlockData): (r: map<GrassBlock, int>)
    ensures b.key in GrassKeys ==> GrassBlock(b.savedId, true) in r && r[GrassBlock(b.savedId, true)] == b.snowyId
    ensures b.key in GrassKeys ==> GrassBlock(b.savedId, false) in r && r[GrassBlock(b.savedId, false)] == b.plainId
    ensures forall k :: k in grass && k.blockStateId != b.savedId ==> k in r && r[k] == grass[k]
    ensures b.key !in GrassKeys ==> r == grass
    ensures r.Keys == grass.Keys + (if b.key in GrassKeys then {GrassBlock(b.savedId, true), GrassBlock(b.savedId, false)} else {})
  {
    if b.key in GrassKeys then
      grass[GrassBlock(b.savedId, true) := b.snowyId][GrassBlock(b.savedId, false) := b.plainId]
    else grass
  }

  /** The snow set after one block state has been offered to the init action. */
  function WithSnow(snow: set<int>, b: BlockData): (r: set<int>)
    ensures b.key in SnowKeys ==> b.savedId in r
    ensures r - {b.savedId} == snow - {b.savedId}
    ensures b.key !in SnowKeys ==> r == snow
  {
    if b.key in SnowKeys then snow + {b.savedId} else snow
  }

  /** `getInt` on the grass table: the stored value, or the default `Missing`. */
  function GetInt(grass: map<GrassBlock, int>, k: GrassBlock): int {
    if k in grass then grass[k] else Missing
  }

  /** `connect`: the table entry for the state and whether the block above is snow, unless the entry is
    * missing (or holds the default value itself), in which case the state stays as it is. */
  function Connect(grass: map<GrassBlock, int>, snow: set<int>, blockState: int, blockUpId: int): (r: int)
    ensures var k := GrassBlock(blockState, blockUpId in snow);
      r == blockState || (k in grass && r == grass[k] && r != Missing)
    ensures GrassBlock(blockState, blockUpId in snow) !in grass ==> r == blockState
    ensures r == Missing ==> blockState == Missing
  {
    var newId := GetInt(grass, GrassBlock(blockState, blockUpId in snow));
    if newId != Missing then newId else blockState
  }

  /** Once a grass, podzol or mycelium state has been loaded, connecting it yields its snowy variant
    * exactly when the block above is in the snow set, and its plain variant otherwise. */
  lemma ConnectLoadedGrass(grass: map<GrassBlock, int>, snow: set<int>, b: BlockData, blockUpId: int)
    requires b.key in GrassKeys && b.snowyId != Missing && b.plainId != Missing
    ensures Connect(WithGrass(grass, b), snow, b.savedId, blockUpId) == (if blockUpId in snow then b.snowyId else b.plainId)
  {
  }

  /** A state the grass table has no entry for, in either snow case, is never changed. */
  lemma ConnectUnknownState(grass: map<GrassBlock, int>, snow: set<int>, blockState: int, blockUpId: int)
    requires GrassBlock(blockState, true) !in grass && GrassBlock(blockState, false) !in grass
    ensures Connect(grass, snow, blockState, blockUpId) == blockState
  {
  }

  /** Once a snow or snow-block state has been loaded, having it above a grass state selects the table's
    * snowy entry for that grass state. */
  lemma ConnectUnderLoadedSnow(grass: map<GrassBlock, int>, snow: set<int>, b: BlockData, blockState: int)
    requires b.key in SnowKeys
    requires GrassBlock(blockState, true) in grass && grass[GrassBlock(blockState, true)] != Missing
    ensures Connect(grass, WithSnow(snow, b), blockState, b.savedId) == grass[GrassBlock(blockState, true)]
  {
  }

  /** The handler's static tables and the connection-handler registrations it makes. */
  class SnowyGrassConnectionHandler {
    var grassBlocks: map<GrassBlock, int>
    var snowyGrassBlocks: set<int>
    /** The state ids the init action registers this handler for. */
    var handled: set<int>

    constructor ()
      ensures grassBlocks == map[] && snowyGrassBlocks == {} && handled == {}
    {
      grassBlocks := map[];
      snowyGrassBlocks := {};
      handled := {};
    }

    /** The init action applied to one block state: a grass-like block gets both of its table entries, a
      * snow block joins the snow set, and either is registered for this handler. */
    method Accept(b: BlockData)
      modifies this
      ensures grassBlocks == WithGrass(old(grassBlocks), b)
      ensures snowyGrassBlocks == WithSnow(old(snowyGrassBlocks), b)
      ensures handled == old(handled) + (if b.key in GrassKeys || b.key in SnowKeys then {b.savedId} else {})
    {
      if b.key in GrassKeys {
        handled := handled + {b.savedId};
        grassBlocks := grassBlocks[GrassBlock(b.savedId, true) := b.snowyId];
        grassBlocks := grassBlocks[GrassBlock(b.savedId, false) := b.plainId];
      }
      if b.key == "minecraft:snow" || b.key == "minecraft:snow_block" {
        handled := handled + {b.savedId};
        snowyGrassBlocks := snowyGrassBlocks + {b.savedId};
      }
    }

    /** `connect` for a block whose upper neighbour has state `blockUpId`. Reading the neighbour from the
      * world belongs to the connection provider, which is not part of this model. */
    method ConnectBlock(blockState: int, blockUpId: int) returns (r: int)
      ensures r == Connect(grassBlocks, snowyGrassBlocks, blockState, blockUpId)
    {
      var snowy := blockUpId in snowyGrassBlocks;
      var key := GrassBlock(blockState, snowy);
      var newId := if key in grassBlocks then grassBlocks[key] else Missing;
      r := if newId != Missing then newId else blockState;
    }
  }
}
