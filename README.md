# ViaVersion translation core, modelled in Dafny

ViaVersion lets clients of one Minecraft version join servers of another. Every protocol step translates
packets between two adjacent versions. This project models the core of that translation and proves
properties of the model:

- **Packet dispatch** (`protocol.dfy`). A protocol step has two tables keyed by state and packet id. Each
  entry holds the id pair and an optional remapper. Dispatch rewrites the id in the direction of travel
  and runs the remapper. A per-class object store sits beside the tables.
- **Packet handlers** (`packet_wrapper.dfy` and the `protocol1_*`, `inventory1_*`, `world1_13_1`,
  `player1_15` and `entity1_17` files). Every handler works on one packet wrapper: the typed fields still
  to be read, the fields written so far, the packet id, the cancelled flag and the packets sent beside
  it. Each handler is a method on that wrapper. Its contract gives the exact output layout and when the
  handler fails; a failure stands for the exception the Java code would throw.
- **Reversible item and text rewriting**:
  - `structured_item_rewriter.dfy`: data-component items with name backups kept in their custom data;
  - `inventory1_14.dfy`: the 1.14 lore backup;
  - `inventory1_16.dfy`: the 1.16 skull-owner UUID swap;
  - `components1_20_3.dfy` and `uuids.dfy`: the 1.20.3 JSON/NBT text-component conversion.
  Round trips and "no residue" properties are proved for each.
- **Id arithmetic and lookup tables**:
  - the 1.13.1 block, block-state and item shifts;
  - the window-type, enchantment and sound shifts;
  - the item mapping lookups that fall back to 1;
  - the 1.10 and 1.13 entity type tables with their parent chains;
  - the environment lookups;
  - the snowy-grass connection table;
  - the Bungee proxy's choice of a server's protocol version.
- **Codecs**:
  - `chunk1_15.dfy`: the 1.15 chunk packet;
  - `data_component_predicate.dfy`: data component predicates.
  The integer codecs (INT, SHORT, BOOLEAN and VAR_INT, in `bytes.dfy`) are defined concretely, with proved
  round trips. The NBT, chunk-section and NBT-array codecs are parameters that round-trip.
- **Per-connection state** (`entity_trackers.dfy`, `sneak_storage.dfy`, `connection.dfy`,
  `registry_data_rewriter.dfy`). These are classes whose methods update fields in place.

`wrappers.dfy`, `bytes.dfy`, `nbt.dfy` and `legacy_types.dfy` hold the shared value types: the
Option/Result wrappers, byte encodings, NBT tags, and the legacy item and chunk column.

Three behaviours of the code worth naming up front:

- The 1.14 and 1.16 `getNewItemId`/`getOldItemId` return 1 when the mapping has no entry, and the model
  does the same.
- The 1.13.1 `init` replaces the entity tracker but keeps a client world that is already stored. The model
  (`Protocol1_13_1.Init`) keeps it too.
- `Environment.getEnvironmentById(int)` maps every id other than 0 and 1 to NETHER, because its `default`
  label falls into the `-1` case.

## Model

| member | source | states |
|---|---|---|
| Protocols.SameKey | common/src/main/java/us/myles/ViaVersion/api/protocol/Protocol.java:248-254 | two packet keys are equal exactly when state and packet id agree |
| Protocols.CancellingRemapper | common/src/main/java/us/myles/ViaVersion/api/protocol/Protocol.java:123-128 | the remapper always succeeds, leaves the packet cancelled and changes nothing else |
| Protocols.Protocol.constructor | common/src/main/java/us/myles/ViaVersion/api/protocol/Protocol.java:18-20 | a new protocol has empty incoming, outgoing and stored-object tables |
| Protocols.Protocol.RegisterIncoming | common/src/main/java/us/myles/ViaVersion/api/protocol/Protocol.java:112-120 | the entry is stored under (state, new id) and replaces any earlier one; a warning is logged exactly when the key was present and override is off; the other tables are unchanged |
| Protocols.Protocol.RegisterOutgoing | common/src/main/java/us/myles/ViaVersion/api/protocol/Protocol.java:158-166 | the entry is stored under (state, old id) and replaces any earlier one; a warning is logged exactly when the key was present and override is off; the other tables are unchanged |
| Protocols.Protocol.CancelIncoming | common/src/main/java/us/myles/ViaVersion/api/protocol/Protocol.java:122-129 | registers the cancelling remapper under (state, new id), without override |
| Protocols.Protocol.CancelIncomingNew | common/src/main/java/us/myles/ViaVersion/api/protocol/Protocol.java:131-133 | as CancelIncoming, with the old id recorded as -1 |
| Protocols.Protocol.CancelOutgoing | common/src/main/java/us/myles/ViaVersion/api/protocol/Protocol.java:168-175 | registers the cancelling remapper under (state, old id), without override |
| Protocols.Protocol.CancelOutgoingOld | common/src/main/java/us/myles/ViaVersion/api/protocol/Protocol.java:177-179 | as CancelOutgoing, with the new id recorded as -1 |
| Protocols.Protocol.Transform | common/src/main/java/us/myles/ViaVersion/api/protocol/Protocol.java:193-211 | an unregistered (state, id) leaves the wrapper untouched; otherwise the id becomes the entry's new id (outgoing) or old id (incoming), the remapper runs, and a packet it leaves cancelled ends in the cancel signal (a fresh one exactly in debug mode) |
| Protocols.Protocol.Get | common/src/main/java/us/myles/ViaVersion/api/protocol/Protocol.java:213-215 | returns the object stored for the class, absent when none |
| Protocols.Protocol.Put | common/src/main/java/us/myles/ViaVersion/api/protocol/Protocol.java:217-219 | afterwards Get of the object's class returns it; every other class's lookup and the packet tables are unchanged |
| Sneaking.SneakStorage.constructor | common/src/main/java/com/viaversion/viaversion/protocols/v1_21_5to1_21_6/storage/SneakStorage.java:22-23 | a new storage is not sneaking |
| Sneaking.SneakStorage.Sneaking | common/src/main/java/com/viaversion/viaversion/protocols/v1_21_5to1_21_6/storage/SneakStorage.java:25-27 | reports the stored flag |
| Sneaking.SneakStorage.SetSneaking | common/src/main/java/com/viaversion/viaversion/protocols/v1_21_5to1_21_6/storage/SneakStorage.java:29-33 | stores the value and returns true exactly when it differs from the previous one |
| Sneaking.SetTwice | common/src/main/java/com/viaversion/viaversion/protocols/v1_21_5to1_21_6/storage/SneakStorage.java:29-33 | setting the same value twice in a row: the second call reports no change |
| EntityTrackers.EntityTracker1_14_1.constructor | common/src/main/java/us/myles/ViaVersion/protocols/protocol1_14_1to1_14/storage/EntityTracker.java:15-22 | a new tracker tracks nothing |
| EntityTrackers.EntityTracker1_14_1.RemoveEntity | common/src/main/java/us/myles/ViaVersion/protocols/protocol1_14_1to1_14/storage/EntityTracker.java:24-26 | removes only that id; an untracked id leaves the map as it was; afterwards has(id) is false |
| EntityTrackers.EntityTracker1_14_1.AddEntity | common/src/main/java/us/myles/ViaVersion/protocols/protocol1_14_1to1_14/storage/EntityTracker.java:28-30 | afterwards get(id) is the new type, overwriting any earlier one; the client entity id is unchanged |
| EntityTrackers.EntityTracker1_14_1.Has | common/src/main/java/us/myles/ViaVersion/protocols/protocol1_14_1to1_14/storage/EntityTracker.java:32-34 | has(id) holds exactly when get(id) is present |
| EntityTrackers.EntityTracker1_14_1.Get | common/src/main/java/us/myles/ViaVersion/protocols/protocol1_14_1to1_14/storage/EntityTracker.java:36-38 | present exactly for tracked ids, with the recorded type; absent for unknown ids |
| EntityTrackers.EntityTracker1_14_1.OnExternalJoinGame | common/src/main/java/us/myles/ViaVersion/protocols/protocol1_14_1to1_14/storage/EntityTracker.java:40-44 | the client entity id becomes the joining id, which is tracked as the player |
| EntityTrackers.EntityTracker1_13.constructor | common/src/main/java/us/myles/ViaVersion/protocols/protocol1_13to1_12_2/storage/EntityTracker.java:13-17 | a new tracker tracks nothing |
| EntityTrackers.EntityTracker1_13.RemoveEntity | common/src/main/java/us/myles/ViaVersion/protocols/protocol1_13to1_12_2/storage/EntityTracker.java:19-21 | removes only that id (every other lookup is unchanged); afterwards has(id) is false |
| EntityTrackers.EntityTracker1_13.AddEntity | common/src/main/java/us/myles/ViaVersion/protocols/protocol1_13to1_12_2/storage/EntityTracker.java:23-25 | afterwards get(id) is the new type; every other id's lookup is unchanged |
| EntityTrackers.EntityTracker1_13.Has | common/src/main/java/us/myles/ViaVersion/protocols/protocol1_13to1_12_2/storage/EntityTracker.java:27-29 | has(id) holds exactly when get(id) is present |
| EntityTrackers.EntityTracker1_13.Get | common/src/main/java/us/myles/ViaVersion/protocols/protocol1_13to1_12_2/storage/EntityTracker.java:31-33 | present exactly for tracked ids, with the recorded type |
| EntityTrackers.EntityTracker1_13.OnExternalJoinGame | common/src/main/java/us/myles/ViaVersion/protocols/protocol1_13to1_12_2/storage/EntityTracker.java:35-38 | the joining id is tracked as PLAYER |
| EntityTrackers.TrackedIffAddedNotRemoved | common/src/main/java/us/myles/ViaVersion/protocols/protocol1_13to1_12_2/storage/EntityTracker.java:19-29 | after any sequence of add/remove calls, has(id) holds exactly when some call added id and no later call removed it |
| EntityTrackers.Apply | common/src/main/java/us/myles/ViaVersion/protocols/protocol1_13to1_12_2/storage/EntityTracker.java:19-25 | applying a history call by call leaves exactly the replayed map |
| Entity1_13Types.ParentDeclaredFirst | common/src/main/java/us/myles/ViaVersion/api/entities/Entity1_13Types.java:32-198 | every type's parent is declared before it, so walking up the parents ends |
| Entity1_13Types.IsOrHasParent | common/src/main/java/us/myles/ViaVersion/api/entities/Entity1_13Types.java:230-241 | the walk answers true exactly when the argument is this type or lies on its parent chain |
| Entity1_13Types.OnlyEntityIsRoot | common/src/main/java/us/myles/ViaVersion/api/entities/Entity1_13Types.java:32-206 | ENTITY is the only type without a parent |
| Entity1_13Types.ChainReachesEntity | common/src/main/java/us/myles/ViaVersion/api/entities/Entity1_13Types.java:32-206 | every type's parent chain reaches ENTITY, so isOrHasParent(ENTITY) holds for all types |
| Entity1_13Types.ChainTransitive | common/src/main/java/us/myles/ViaVersion/api/entities/Entity1_13Types.java:230-241 | lying on a parent chain is transitive |
| Entity1_13Types.IsAnyOf | common/src/main/java/us/myles/ViaVersion/api/entities/Entity1_13Types.java:219-228 | is(types...) is true exactly when some argument is this very type |
| Entity1_13Types.FirstIndexWithId | common/src/main/java/us/myles/ViaVersion/api/entities/Entity1_13Types.java:212-214 | the index found carries the id and no earlier entry does; none found means no entry carries it (shared by the entity and object type searches) |
| Entity1_13Types.FirstDeclaredWithId | common/src/main/java/us/myles/ViaVersion/api/entities/Entity1_13Types.java:208-217 | nothing for -1; otherwise a declared type carrying the id, and nothing only when no declared type carries it |
| Entity1_13Types.ScanIds | common/src/main/java/us/myles/ViaVersion/api/entities/Entity1_13Types.java:212-216 | the loop of both findById methods finds the first declared value with the id |
| Entity1_13Types.FindById | common/src/main/java/us/myles/ViaVersion/api/entities/Entity1_13Types.java:208-217 | findById is absent for -1 and otherwise returns the first declared type carrying the id |
| Entity1_13Types.FirstDeclaredObjectWithId | common/src/main/java/us/myles/ViaVersion/api/entities/Entity1_13Types.java:278-287 | nothing for -1; otherwise a declared object type carrying the id |
| Entity1_13Types.ObjectFindById | common/src/main/java/us/myles/ViaVersion/api/entities/Entity1_13Types.java:278-287 | ObjectTypes.findById is absent for -1 and otherwise the first declared object type carrying the id |
| Entity1_13Types.GetPCEntity | common/src/main/java/us/myles/ViaVersion/api/entities/Entity1_13Types.java:289-295 | the entity type paired with a known object id; absent for an unknown id and for -1 |
| Entity1_13Types.GetTypeFromId | common/src/main/java/us/myles/ViaVersion/api/entities/Entity1_13Types.java:11-25 | the object table when isObject, the entity table otherwise; ENTITY when the lookup misses |
| Entity1_10Types.FindById | common/src/main/java/us/myles/ViaVersion/api/entities/Entity1_10Types.java:135-139 | absent for -1; a type found carries the id asked for |
| Entity1_10Types.TypeWithIdOwn | common/src/main/java/us/myles/ViaVersion/api/entities/Entity1_10Types.java:129-133 | every type the id map stores sits under its own id |
| Entity1_10Types.FindOwnId | common/src/main/java/us/myles/ViaVersion/api/entities/Entity1_10Types.java:33-139 | ids other than -1 are not shared, so findById(t.id) returns t for every such type |
| Entity1_10Types.FindByIdExactly | common/src/main/java/us/myles/ViaVersion/api/entities/Entity1_10Types.java:129-139 | findById(id) is t exactly when id is not -1 and t carries id |
| Entity1_10Types.ObjectFindById | common/src/main/java/us/myles/ViaVersion/api/entities/Entity1_10Types.java:182-186 | absent for -1; an object type found carries the id asked for |
| Entity1_10Types.GetPCEntity | common/src/main/java/us/myles/ViaVersion/api/entities/Entity1_10Types.java:188-194 | present exactly when the object lookup succeeds, with the paired entity type |
| Entity1_10Types.PCEntityOfOwnId | common/src/main/java/us/myles/ViaVersion/api/entities/Entity1_10Types.java:145-194 | object ids are not shared: findById(o.id) is o and getPCEntity(o.id) is o's type |
| Entity1_10Types.GetTypeFromId | common/src/main/java/us/myles/ViaVersion/api/entities/Entity1_10Types.java:14-28 | the object table when isObject, the entity table otherwise; ENTITY when either lookup misses |
| Environments.Environment.Id | common/src/main/java/us/myles/ViaVersion/api/minecraft/Environment.java:5-18 | NORMAL, NETHER and END carry ids between -1 and 1; every id is a 32-bit int (CUSTOM carries the largest one) |
| Environments.ById | common/src/main/java/us/myles/ViaVersion/api/minecraft/Environment.java:20-30 | 0 is NORMAL and 1 is END; every other id, not just -1, is NETHER (the default label falls into the -1 case); never CUSTOM |
| Environments.ByName | common/src/main/java/us/myles/ViaVersion/api/minecraft/Environment.java:32-43 | each of the three vanilla dimension keys maps to its environment, in both directions; anything else is CUSTOM |
| Environments.ByIdInvertsId | common/src/main/java/us/myles/ViaVersion/api/minecraft/Environment.java:5-30 | the id lookup inverts getId exactly on NORMAL, NETHER and END; CUSTOM's id comes back as NETHER |
| Environments.ClientWorld.SetEnvironment | common/src/main/java/us/myles/ViaVersion/api/minecraft/Environment.java:20-30 | the stored environment is the one the id looks up to |
| SnowyGrass.WithGrass | common/src/main/java/com/viaversion/viaversion/protocols/v1_12_2to1_13/blockconnections/SnowyGrassConnectionHandler.java:42-49 | a grass, podzol or mycelium state gets both a snowy=true and a snowy=false entry; entries of other states are kept; other blocks leave the table as it was |
| SnowyGrass.WithSnow | common/src/main/java/com/viaversion/viaversion/protocols/v1_12_2to1_13/blockconnections/SnowyGrassConnectionHandler.java:50-53 | a snow or snow_block state is added to the snow set; nothing else changes |
| SnowyGrass.Connect | common/src/main/java/com/viaversion/viaversion/protocols/v1_12_2to1_13/blockconnections/SnowyGrassConnectionHandler.java:57-62 | the table value for (state, block above is snow); a missing entry (default -1) returns the state unchanged |
| SnowyGrass.ConnectLoadedGrass | common/src/main/java/com/viaversion/viaversion/protocols/v1_12_2to1_13/blockconnections/SnowyGrassConnectionHandler.java:42-62 | once a grass-like state is loaded, connecting it yields its snowy variant under snow and its plain variant otherwise |
| SnowyGrass.ConnectUnknownState | common/src/main/java/com/viaversion/viaversion/protocols/v1_12_2to1_13/blockconnections/SnowyGrassConnectionHandler.java:40-62 | a state with no table entry is never changed |
| SnowyGrass.ConnectUnderLoadedSnow | common/src/main/java/com/viaversion/viaversion/protocols/v1_12_2to1_13/blockconnections/SnowyGrassConnectionHandler.java:50-62 | a loaded snow state above a grass state selects the table's snowy entry |
| SnowyGrass.SnowyGrassConnectionHandler.constructor | common/src/main/java/com/viaversion/viaversion/protocols/v1_12_2to1_13/blockconnections/SnowyGrassConnectionHandler.java:31-32 | the tables start empty |
| SnowyGrass.SnowyGrassConnectionHandler.Accept | common/src/main/java/com/viaversion/viaversion/protocols/v1_12_2to1_13/blockconnections/SnowyGrassConnectionHandler.java:42-54 | the init action updates the grass table and the snow set as WithGrass and WithSnow say, and registers the handler for exactly the grass-like and snow states |
| SnowyGrass.SnowyGrassConnectionHandler.ConnectBlock | common/src/main/java/com/viaversion/viaversion/protocols/v1_12_2to1_13/blockconnections/SnowyGrassConnectionHandler.java:57-62 | connect over the handler's tables agrees with Connect |
| ProtocolDetector.ProtocolId | bungee/src/main/java/us/myles/ViaVersion/bungee/service/ProtocolDetectorService.java:25-44 | precedence: the configured entry for the server, then the detected id, then the configured "default", then the lowest supported version |
| ProtocolDetector.ProtocolDetectorService.constructor | bungee/src/main/java/us/myles/ViaVersion/bungee/service/ProtocolDetectorService.java:16-23 | nothing detected yet; the configuration is as given |
| ProtocolDetector.ProtocolDetectorService.Done | bungee/src/main/java/us/myles/ViaVersion/bungee/service/ProtocolDetectorService.java:57-77 | a result is recorded only with no error, a version present and a protocol > 0; with ping-save it is written to the configuration, and the save is skipped when the configuration already holds that value |
| ProtocolDetector.ProtocolDetectorService.GetDetectedIds | bungee/src/main/java/us/myles/ViaVersion/bungee/service/ProtocolDetectorService.java:81-83 | returns the detected ids as a value; later changes to either side cannot affect the other |
| ProtocolDetector.StoredPingDecides | bungee/src/main/java/us/myles/ViaVersion/bungee/service/ProtocolDetectorService.java:25-71 | after a stored ping for a server with no configured entry, its protocol id is the pinged one |
| ProtocolDetector.ConfiguredWins | bungee/src/main/java/us/myles/ViaVersion/bungee/service/ProtocolDetectorService.java:27-31 | a configured entry wins even when a detected id exists |
| Bytes.EncodeVarInt | api/src/main/java/com/viaversion/viaversion/api/minecraft/data/predicate/DataComponentPredicate.java:43 | `VAR_INT.writePrimitive` of a Java int takes one to five bytes; VarIntRoundTrip is its inverse |
| Bytes.DecodeVarInt | api/src/main/java/com/viaversion/viaversion/api/minecraft/data/predicate/DataComponentPredicate.java:36 | `VAR_INT.readPrimitive` yields a Java int and consumes at least one byte, failing on a missing or sixth group |
| Bytes.VarIntRoundTrip | api/src/main/java/com/viaversion/viaversion/api/minecraft/data/predicate/DataComponentPredicate.java:36-43 | reading a written VAR_INT gives every Java int back and leaves the following bytes untouched |
| DataComponentPredicates.Write | api/src/main/java/com/viaversion/viaversion/api/minecraft/data/predicate/DataComponentPredicate.java:42-45 | the written bytes start with the id as a VAR_INT that reads back as the id, followed by the encoded tag; RoundTrip is its inverse |
| DataComponentPredicates.WriteArray | api/src/main/java/com/viaversion/viaversion/api/minecraft/data/predicate/DataComponentPredicate.java:47 | the written array starts with its element count as a VAR_INT that reads back as the count, followed by the elements; ArrayRoundTrip is its inverse |
| DataComponentPredicates.Read | api/src/main/java/com/viaversion/viaversion/api/minecraft/data/predicate/DataComponentPredicate.java:35-39 | a decoded predicate's id is the leading VAR_INT, and a failed VAR_INT fails the read |
| DataComponentPredicates.RoundTrip | api/src/main/java/com/viaversion/viaversion/api/minecraft/data/predicate/DataComponentPredicate.java:33-46 | read(write(p)) == p, leaving the following bytes untouched, given that the tag codec round-trips |
| DataComponentPredicates.ReadAll | api/src/main/java/com/viaversion/viaversion/api/minecraft/data/predicate/DataComponentPredicate.java:47 | reading count elements yields exactly count predicates |
| DataComponentPredicates.ReadArray | api/src/main/java/com/viaversion/viaversion/api/minecraft/data/predicate/DataComponentPredicate.java:47 | an array read holds at most 64 predicates, as many as its VAR_INT length prefix says |
| DataComponentPredicates.ReadAllWriteAll | api/src/main/java/com/viaversion/viaversion/api/minecraft/data/predicate/DataComponentPredicate.java:33-47 | elements written one after another read back in order |
| DataComponentPredicates.ArrayRoundTrip | api/src/main/java/com/viaversion/viaversion/api/minecraft/data/predicate/DataComponentPredicate.java:47 | an array of at most 64 predicates reads back as written |
| DataComponentPredicates.ArrayOverBound | api/src/main/java/com/viaversion/viaversion/api/minecraft/data/predicate/DataComponentPredicate.java:47 | an array of more than 64 predicates is refused when read back |
| Chunk1_15.EncodeChunk | common/src/main/java/us/myles/ViaVersion/protocols/protocol1_15to1_14_4/types/Chunk1_15Type.java:76-108 | write fails exactly when the chunk holds fewer than 16 section slots |
| Chunk1_15.DecodeInts | common/src/main/java/us/myles/ViaVersion/protocols/protocol1_15to1_14_4/types/Chunk1_15Type.java:35-40 | reading n INTs yields n 32-bit values |
| Chunk1_15.DecodeSections | common/src/main/java/us/myles/ViaVersion/protocols/protocol1_15to1_14_4/types/Chunk1_15Type.java:53-60 | one slot is decoded per remaining section index |
| Chunk1_15.HeaderRoundTrip | common/src/main/java/us/myles/ViaVersion/protocols/protocol1_15to1_14_4/types/Chunk1_15Type.java:28-33 | the x, z, ground-up flag, bitmask and height map read back as written |
| Chunk1_15.IntsRoundTrip | common/src/main/java/us/myles/ViaVersion/protocols/protocol1_15to1_14_4/types/Chunk1_15Type.java:37-39 | INTs written one after another read back in order |
| Chunk1_15.SectionsRoundTrip | common/src/main/java/us/myles/ViaVersion/protocols/protocol1_15to1_14_4/types/Chunk1_15Type.java:54-60 | sections written with their SHORT non-air counts, present exactly where the mask's bits are set, read back unchanged |
| Chunk1_15.DecodedSlotsMatch | common/src/main/java/us/myles/ViaVersion/protocols/protocol1_15to1_14_4/types/Chunk1_15Type.java:44-60 | section i is read exactly when bit i of the bitmask is set; every other slot stays empty |
| Chunk1_15.ReadIsConsistent | common/src/main/java/us/myles/ViaVersion/protocols/protocol1_15to1_14_4/types/Chunk1_15Type.java:27-73 | whatever read returns has int coordinates and bitmask, 16 slots present exactly at the mask's set bits, and biomes (1024 of them) exactly when ground-up |
| Chunk1_15.ChunkRoundTripAnySize | common/src/main/java/us/myles/ViaVersion/protocols/protocol1_15to1_14_4/types/Chunk1_15Type.java:42-108 | reading what write produced, whatever the size prefix and however many trailing bytes, returns the same chunk: read ignores the prefix and discards what follows the block entities |
| Chunk1_15.ChunkRoundTrip | common/src/main/java/us/myles/ViaVersion/protocols/protocol1_15to1_14_4/types/Chunk1_15Type.java:27-108 | read(write(chunk)) == chunk for a chunk whose sections match its bitmask and whose biomes are present exactly when ground-up |
| Chunk1_15.ReadHeader | common/src/main/java/us/myles/ViaVersion/protocols/protocol1_15to1_14_4/types/Chunk1_15Type.java:28-33 | reads the header fields in order |
| Chunk1_15.ReadBiomes | common/src/main/java/us/myles/ViaVersion/protocols/protocol1_15to1_14_4/types/Chunk1_15Type.java:35-40 | the biome loop reads exactly 1024 INTs |
| Chunk1_15.UsedSections | common/src/main/java/us/myles/ViaVersion/protocols/protocol1_15to1_14_4/types/Chunk1_15Type.java:44-51 | slot i is marked used exactly when (bitmask & (1 << i)) != 0 |
| Chunk1_15.ReadSections | common/src/main/java/us/myles/ViaVersion/protocols/protocol1_15to1_14_4/types/Chunk1_15Type.java:53-60 | the section loop reads a SHORT count and a section for each used slot and nothing for the others |
| Chunk1_15.Read | common/src/main/java/us/myles/ViaVersion/protocols/protocol1_15to1_14_4/types/Chunk1_15Type.java:27-73 | the whole read agrees with the layout DecodeChunk describes |
| Chunk1_15.WriteBiomes | common/src/main/java/us/myles/ViaVersion/protocols/protocol1_15to1_14_4/types/Chunk1_15Type.java:84-89 | every biome value is appended as an INT, in order |
| Chunk1_15.WriteSlot | common/src/main/java/us/myles/ViaVersion/protocols/protocol1_15to1_14_4/types/Chunk1_15Type.java:94-97 | an empty slot appends nothing, a present one its SHORT non-air count and the section |
| Chunk1_15.WriteSections | common/src/main/java/us/myles/ViaVersion/protocols/protocol1_15to1_14_4/types/Chunk1_15Type.java:91-98 | the temporary buffer holds the present sections in ascending index order; fails when fewer than 16 slots exist |
| Chunk1_15.Write | common/src/main/java/us/myles/ViaVersion/protocols/protocol1_15to1_14_4/types/Chunk1_15Type.java:76-108 | the whole write produces the header, biomes, the VAR_INT byte length of the section block, the sections and the block entities |
| Uuids.UuidString | common/src/main/java/com/viaversion/viaversion/protocols/protocol1_20_3to1_20_2/Protocol1_20_3To1_20_2.java:563 | the UUID string of four ints is 36 characters long |
| Uuids.UuidIntsToString | common/src/main/java/com/viaversion/viaversion/protocols/protocol1_20_3to1_20_2/Protocol1_20_3To1_20_2.java:559-564 | a four-int array gives its dashed UUID string; any other length gives the all-zero UUID |
| Uuids.ParseUuid | common/src/main/java/com/viaversion/viaversion/protocols/protocol1_20_3to1_20_2/Protocol1_20_3To1_20_2.java:482-488 | a parsed UUID string has the canonical 36-character form and yields four 32-bit ints; anything else is unparseable (null) |
| Uuids.UuidRoundTrip | common/src/main/java/com/viaversion/viaversion/protocols/protocol1_20_3to1_20_2/Protocol1_20_3To1_20_2.java:473-563 | every four-int UUID array survives the trip through its string |
| Uuids.UuidStringOfParse | common/src/main/java/com/viaversion/viaversion/protocols/protocol1_20_3to1_20_2/Protocol1_20_3To1_20_2.java:469-563 | a parsed UUID string comes back as the same string in lower case |
| Components1_20_3.UuidOfId | common/src/main/java/com/viaversion/viaversion/protocols/protocol1_20_3to1_20_2/Protocol1_20_3To1_20_2.java:467-469 | only a string id that parses as a UUID is taken as one |
| Components1_20_3.ToTag | common/src/main/java/com/viaversion/viaversion/protocols/protocol1_20_3to1_20_2/Protocol1_20_3To1_20_2.java:388-425 | convertToTag of a non-null element: a compound exactly for an object, and never an int array; RoundTrip and ComponentRoundTrip pair it with ToJson |
| Components1_20_3.ToJson | common/src/main/java/com/viaversion/viaversion/protocols/protocol1_20_3to1_20_2/Protocol1_20_3To1_20_2.java:490-538 | convertToJson never yields null, yields an object exactly for a compound, and no object it yields has an empty key |
| Components1_20_3.EntryToJson | common/src/main/java/com/viaversion/viaversion/protocols/protocol1_20_3to1_20_2/Protocol1_20_3To1_20_2.java:540-557 | convertCompoundTagEntry never stores null, and stores an object exactly for a compound entry; EntryRoundTrip and ContentsRoundTrip pair it with the conversion to NBT |
| Components1_20_3.CompoundCopies | common/src/main/java/com/viaversion/viaversion/protocols/protocol1_20_3to1_20_2/Protocol1_20_3To1_20_2.java:447-453 | the mixed-type branch yields at most one entry per element, each of them the original list tag (the wrapped compounds are never added) |
| Components1_20_3.FirstMismatch | common/src/main/java/com/viaversion/viaversion/protocols/protocol1_20_3to1_20_2/Protocol1_20_3To1_20_2.java:431-437 | finds the first converted element whose tag class differs from the first element's |
| Components1_20_3.ArrayToTag | common/src/main/java/com/viaversion/viaversion/protocols/protocol1_20_3to1_20_2/Protocol1_20_3To1_20_2.java:427-461 | an array always converts to a list tag; when every element has the first one's tag class, that list holds the elements in order |
| Components1_20_3.ObjectToTag | common/src/main/java/com/viaversion/viaversion/protocols/protocol1_20_3to1_20_2/Protocol1_20_3To1_20_2.java:391-397 | an object converts to one compound entry per member key, each converted as convertObjectEntry says |
| Components1_20_3.JsonComponentToTag | common/src/main/java/com/viaversion/viaversion/protocols/protocol1_20_3to1_20_2/Protocol1_20_3To1_20_2.java:379-386 | null and JsonNull give null; a conversion failure gives the "<error>" string tag instead of an exception; otherwise the converted tag |
| Components1_20_3.Rekey | common/src/main/java/com/viaversion/viaversion/protocols/protocol1_20_3to1_20_2/Protocol1_20_3To1_20_2.java:555-556 | an empty key is stored under "text", replacing any "text" entry; no object has an empty key; other keys are kept |
| Components1_20_3.CompoundToJson | common/src/main/java/com/viaversion/viaversion/protocols/protocol1_20_3to1_20_2/Protocol1_20_3To1_20_2.java:493-498 | a compound converts to one object member per entry key, each converted as convertCompoundTagEntry says |
| Components1_20_3.TagComponentToJson | common/src/main/java/com/viaversion/viaversion/protocols/protocol1_20_3to1_20_2/Protocol1_20_3To1_20_2.java:370-377 | null converts to null and only null does; every tag class is handled, so the "<error>" fallback is never taken |
| Components1_20_3.KindOfToTag | common/src/main/java/com/viaversion/viaversion/protocols/protocol1_20_3to1_20_2/Protocol1_20_3To1_20_2.java:388-425 | the tag class an element converts to is determined by the element's kind and, for numbers, the boxed class |
| Components1_20_3.EntryNotIntArray | common/src/main/java/com/viaversion/viaversion/protocols/protocol1_20_3to1_20_2/Protocol1_20_3To1_20_2.java:463-480 | no element or object entry converts to an int array: those only appear for UUIDs inside contents |
| Components1_20_3.ToTagShapes | common/src/main/java/com/viaversion/viaversion/protocols/protocol1_20_3to1_20_2/Protocol1_20_3To1_20_2.java:388-406 | a string becomes a StringTag, a boolean a ByteTag 1/0, an object a compound with one entry per key, an array a list tag |
| Components1_20_3.ContentsIdToTag | common/src/main/java/com/viaversion/viaversion/protocols/protocol1_20_3to1_20_2/Protocol1_20_3To1_20_2.java:463-480 | under contents, a UUID-string id becomes its 4-int array, and any other id is converted as usual |
| Components1_20_3.ContentsIdToJson | common/src/main/java/com/viaversion/viaversion/protocols/protocol1_20_3to1_20_2/Protocol1_20_3To1_20_2.java:540-564 | going back, an int-array id under contents becomes the UUID string that parses to the same ints, and the all-zero UUID when the length is not 4 |
| Components1_20_3.NumberTagToJson | common/src/main/java/com/viaversion/viaversion/protocols/protocol1_20_3to1_20_2/Protocol1_20_3To1_20_2.java:506-512 | a number tag under one of the six style keys becomes a JSON boolean; under any other key, a JSON number |
| Components1_20_3.EmptyKeyToText | common/src/main/java/com/viaversion/viaversion/protocols/protocol1_20_3to1_20_2/Protocol1_20_3To1_20_2.java:555-556 | a compound's empty key comes back as "text" (winning over an existing "text" entry), and the object has no empty key |
| Components1_20_3.RoundTrip | common/src/main/java/com/viaversion/viaversion/protocols/protocol1_20_3to1_20_2/Protocol1_20_3To1_20_2.java:388-556 | converting a preserved element (no nulls, booleans only under the style keys, single-type arrays, no empty keys, lower-case UUID ids) to NBT and back gives the element again |
| Components1_20_3.RoundTripArray | common/src/main/java/com/viaversion/viaversion/protocols/protocol1_20_3to1_20_2/Protocol1_20_3To1_20_2.java:427-443 | the single-type array case of the round trip |
| Components1_20_3.RoundTripObject | common/src/main/java/com/viaversion/viaversion/protocols/protocol1_20_3to1_20_2/Protocol1_20_3To1_20_2.java:391-398 | the object case of the round trip |
| Components1_20_3.EntryRoundTrip | common/src/main/java/com/viaversion/viaversion/protocols/protocol1_20_3to1_20_2/Protocol1_20_3To1_20_2.java:463-557 | an object entry converts to NBT and back unchanged |
| Components1_20_3.ContentsRoundTrip | common/src/main/java/com/viaversion/viaversion/protocols/protocol1_20_3to1_20_2/Protocol1_20_3To1_20_2.java:463-553 | a UUID id under contents leaves as an int array and comes back as the same string |
| Components1_20_3.ComponentRoundTrip | common/src/main/java/com/viaversion/viaversion/protocols/protocol1_20_3to1_20_2/Protocol1_20_3To1_20_2.java:370-386 | tagComponentToJson(jsonComponentToTag(j)) == j for every preserved component |
| Protocol1_20_3.ResetObjective | common/src/main/java/com/viaversion/viaversion/protocols/protocol1_20_3to1_20_2/Protocol1_20_3To1_20_2.java:118 | the optional objective is absent exactly when the name is empty |
| Protocol1_20_3.UpdateScore | common/src/main/java/com/viaversion/viaversion/protocols/protocol1_20_3to1_20_2/Protocol1_20_3To1_20_2.java:111-129 | action 1 becomes RESET_SCORE carrying the owner and the optional objective; any other action writes the objective, passes the score through and appends a null tag and false; malformed input fails |
| Protocol1_20_3.ScoreAfterObjective | common/src/main/java/com/viaversion/viaversion/protocols/protocol1_20_3to1_20_2/Protocol1_20_3To1_20_2.java:123-128 | writes the objective, passes the score through, then a null tag and false |
| Protocol1_20_3.UpdateJigsawBlock | common/src/main/java/com/viaversion/viaversion/protocols/protocol1_20_3to1_20_2/Protocol1_20_3To1_20_2.java:140-149 | the six leading fields pass through and the two priorities are dropped |
| Protocol1_20_3.ResourcePackAction | common/src/main/java/com/viaversion/viaversion/protocols/protocol1_20_3to1_20_2/Protocol1_20_3To1_20_2.java:336-343 | action 4 gives no answer, actions above 4 become 2, smaller ones are unchanged |
| Protocol1_20_3.ResourcePackStatus | common/src/main/java/com/viaversion/viaversion/protocols/protocol1_20_3to1_20_2/Protocol1_20_3To1_20_2.java:332-345 | the pack UUID is dropped; action 4 cancels the packet; otherwise the narrowed action is written |
| RegistryDataRewriters.StripNamespace | common/src/main/java/com/viaversion/viaversion/rewriter/RegistryDataRewriter.java:59 | the result is the key without a leading "minecraft:", and the key itself when it has none |
| RegistryDataRewriters.StripNamespaced | common/src/main/java/com/viaversion/viaversion/rewriter/RegistryDataRewriter.java:59 | stripping undoes adding the namespace |
| RegistryDataRewriters.CompoundAt | common/src/main/java/com/viaversion/viaversion/rewriter/RegistryDataRewriter.java:109 | present exactly when the key holds a compound tag |
| RegistryDataRewriters.StringAt | common/src/main/java/com/viaversion/viaversion/rewriter/RegistryDataRewriter.java:163 | present exactly when the key holds a string tag |
| RegistryDataRewriters.MappedAttribute | common/src/main/java/com/viaversion/viaversion/rewriter/RegistryDataRewriter.java:183-188 | the attribute (without namespace) is rewritten to its mapped identifier, and to the identifier of id 0 when unmapped |
| RegistryDataRewriters.UpdateAttributeFieldAsWritten | common/src/main/java/com/viaversion/viaversion/rewriter/RegistryDataRewriter.java:177-190 | a tag without a string attribute is untouched; with one, the attribute is mapped, and with no attribute mappings the update fails (a null dereference) |
| RegistryDataRewriters.UpdateAttributeField | common/src/main/java/com/viaversion/viaversion/rewriter/RegistryDataRewriter.java:147-190 | only the attribute entry may change; a tag without a string attribute, or a protocol without attribute mappings, is untouched; otherwise the attribute is mapped |
| RegistryDataRewriters.AttributeFieldGuarded | common/src/main/java/com/viaversion/viaversion/rewriter/RegistryDataRewriter.java:147-190 | the as-written update fails exactly when there is an attribute and no mappings, and otherwise agrees with the guarded one |
| RegistryDataRewriters.AttributeEffectWithoutMappings | common/src/main/java/com/viaversion/viaversion/rewriter/RegistryDataRewriter.java:162-190 | an attribute-type effect reaching runEffectRewriters without attribute mappings makes the as-written update fail |
| RegistryDataRewriters.RunEffectRewriters | common/src/main/java/com/viaversion/viaversion/rewriter/RegistryDataRewriter.java:162-175 | an effect without a string type is left alone; otherwise its attribute is updated first, then the rewriter registered for the stripped type runs; the attribute update is the guarded one, so without attribute mappings the attribute stays where the code as written throws |
| RegistryDataRewriters.UpdateNestedEffect | common/src/main/java/com/viaversion/viaversion/rewriter/RegistryDataRewriter.java:129-145 | only the effect entry changes, and nothing changes when there is none |
| RegistryDataRewriters.UpdateEffects | common/src/main/java/com/viaversion/viaversion/rewriter/RegistryDataRewriter.java:115-123 | every effect that is a compound or a list of compounds gets its nested effects updated; all other entries are kept |
| RegistryDataRewriters.AttributesKey | common/src/main/java/com/viaversion/viaversion/rewriter/RegistryDataRewriter.java:152 | the attribute list is found under "minecraft:attributes" first, then under "attributes", and only when it is a list of compounds |
| RegistryDataRewriters.UpdateAttributesFields | common/src/main/java/com/viaversion/viaversion/rewriter/RegistryDataRewriter.java:147-160 | without attribute mappings or without an attribute list nothing changes; otherwise only the attribute list changes |
| RegistryDataRewriters.UpdateEnchantment | common/src/main/java/com/viaversion/viaversion/rewriter/RegistryDataRewriter.java:104-126 | fails exactly when the entry's tag is present and not a compound (the cast throws); otherwise the entry keeps its key and the presence of its tag, and an entry without a tag, or without an effects compound, is unchanged |
| RegistryDataRewriters.FirstUncast | common/src/main/java/com/viaversion/viaversion/rewriter/RegistryDataRewriter.java:94-96 | the index of the first entry whose tag does not cast to a compound, every entry before it casting, and the length exactly when every entry casts |
| RegistryDataRewriters.DimensionMap | common/src/main/java/com/viaversion/viaversion/rewriter/RegistryDataRewriter.java:90-98 | for entries whose tags all cast, the last entry's key without namespace is a dimension |
| RegistryDataRewriters.DimensionMapHasKey | common/src/main/java/com/viaversion/viaversion/rewriter/RegistryDataRewriter.java:90-98 | every entry's key without namespace is a dimension |
| RegistryDataRewriters.DimensionMapLast | common/src/main/java/com/viaversion/viaversion/rewriter/RegistryDataRewriter.java:90-98 | each dimension is described by the last entry with its key: the data carries that entry's index, its tag, or the defaults for its key when it has none |
| RegistryDataRewriters.DimensionMapKeys | common/src/main/java/com/viaversion/viaversion/rewriter/RegistryDataRewriter.java:90-98 | the dimensions are exactly the entries' keys without namespace |
| RegistryDataRewriters.RegistryTracker.constructor | common/src/main/java/com/viaversion/viaversion/rewriter/RegistryDataRewriter.java:86-101 | the tracker starts with no biomes and no dimensions |
| RegistryDataRewriters.RegistryDataRewriter.constructor | common/src/main/java/com/viaversion/viaversion/rewriter/RegistryDataRewriter.java:43-49 | nothing is registered yet |
| RegistryDataRewriters.RegistryDataRewriter.Additions | common/src/main/java/com/viaversion/viaversion/rewriter/RegistryDataRewriter.java:64 | a key never registered has no additions |
| RegistryDataRewriters.RegistryDataRewriter.Handled | common/src/main/java/com/viaversion/viaversion/rewriter/RegistryDataRewriter.java:58-76 | nothing exactly when the registry is the enchantment registry and some entry's tag is not a compound; otherwise n + added entries: the original entries in place (each updated as UpdateEnchantment says for the enchantment registry, unchanged for others) and the additions after them in registration order |
| RegistryDataRewriters.RegistryDataRewriter.AddEntries | common/src/main/java/com/viaversion/viaversion/rewriter/RegistryDataRewriter.java:78-80 | the entries are appended to those already registered under the stripped key |
| RegistryDataRewriters.RegistryDataRewriter.AddEnchantmentEffectRewriter | common/src/main/java/com/viaversion/viaversion/rewriter/RegistryDataRewriter.java:82-84 | registers or replaces the rewriter under the stripped effect type |
| RegistryDataRewriters.RegistryDataRewriter.UpdateEnchantments | common/src/main/java/com/viaversion/viaversion/rewriter/RegistryDataRewriter.java:103-127 | fails exactly when some entry's tag is not a compound; the entries before the first such entry are updated in place as UpdateEnchantment says, and it and the later ones stay as they were |
| RegistryDataRewriters.RegistryDataRewriter.TrackDimensionAndBiomes | common/src/main/java/com/viaversion/viaversion/rewriter/RegistryDataRewriter.java:86-101 | worldgen/biome sets the biome count to the entry count; dimension_type fails exactly when some entry's tag is not a compound, and otherwise sets the dimensions to the map of the entries; other registries and a failure leave the tracker alone |
| RegistryDataRewriters.RegistryDataRewriter.CopyAppend | common/src/main/java/com/viaversion/viaversion/rewriter/RegistryDataRewriter.java:66-71 | a new array holding the entries followed by the additions |
| RegistryDataRewriters.RegistryDataRewriter.Handle | common/src/main/java/com/viaversion/viaversion/rewriter/RegistryDataRewriter.java:58-76 | succeeds exactly when Handled gives entries and, for dimension_type, every final entry's tag is a compound; the returned entries are then Handled(key, entries); for worldgen/biome the biome count becomes the final length including additions and the dimensions stay; for dimension_type the dimensions describe the final entries and the biome count stays; any other registry, and any failure, leaves the tracker as it was; the input array changes only for the enchantment registry; a registry without additions returns the same array |
| StructuredItemRewriter.CustomTagFor | common/src/main/java/com/viaversion/viaversion/rewriter/StructuredItemRewriter.java:220-229 | the item's custom data when present, otherwise a new compound holding only the marker |
| StructuredItemRewriter.SaveTag | common/src/main/java/com/viaversion/viaversion/rewriter/StructuredItemRewriter.java:231-236 | the backup is stored under its name only when nothing is stored there yet; every other entry is kept |
| StructuredItemRewriter.SaveTagKeepsFirst | common/src/main/java/com/viaversion/viaversion/rewriter/StructuredItemRewriter.java:231-236 | saveTag never overwrites an existing backup: the first backup saved under a name stays |
| StructuredItemRewriter.UpdateComponent | common/src/main/java/com/viaversion/viaversion/rewriter/StructuredItemRewriter.java:181-192 | a missing name is left alone; the name is replaced by its processed form; the original is backed up in custom data only when processing changed it; no other component changes |
| StructuredItemRewriter.UpdateNames | common/src/main/java/com/viaversion/viaversion/rewriter/StructuredItemRewriter.java:119-120 | the item-name then custom-name updates change only the names and the custom data |
| StructuredItemRewriter.UpdateBodies | common/src/main/java/com/viaversion/viaversion/rewriter/StructuredItemRewriter.java:122-137 | every lore line and every book page's raw and (when present) filtered text is processed; nothing else changes |
| StructuredItemRewriter.UpdateTexts | common/src/main/java/com/viaversion/viaversion/rewriter/StructuredItemRewriter.java:118-137 | the clientbound text rewrites add at most a custom-data entry and leave other components and nested items alone |
| StructuredItemRewriter.RemoveCustomTag | common/src/main/java/com/viaversion/viaversion/rewriter/StructuredItemRewriter.java:242-247 | the custom data is removed exactly when the marker is its only entry |
| StructuredItemRewriter.RestoreOne | common/src/main/java/com/viaversion/viaversion/rewriter/StructuredItemRewriter.java:206-216 | a present backup is removed from custom data and put back into its component, and the custom data is dropped when only the marker remains; an absent backup changes nothing |
| StructuredItemRewriter.DropAddedName | common/src/main/java/com/viaversion/viaversion/rewriter/StructuredItemRewriter.java:202-204 | with the added_custom_name marker, the custom name is removed and the custom data goes once only the marker remains |
| StructuredItemRewriter.RestoreBackups | common/src/main/java/com/viaversion/viaversion/rewriter/StructuredItemRewriter.java:205-217 | moving the backups back touches only the names and the custom data |
| StructuredItemRewriter.RestoreTextComponents | common/src/main/java/com/viaversion/viaversion/rewriter/StructuredItemRewriter.java:194-218 | no custom data: nothing changes; the added_custom_name marker removes the custom name; other components are never touched |
| StructuredItemRewriter.TextsFor | common/src/main/java/com/viaversion/viaversion/rewriter/StructuredItemRewriter.java:118 | the text rewrites run only clientbound with a component rewriter, and never touch item-carrying entries |
| StructuredItemRewriter.Handle | common/src/main/java/com/viaversion/viaversion/rewriter/StructuredItemRewriter.java:62-93 | an empty item is returned unchanged in both directions; otherwise the id is mapped with getNewItemId clientbound or getOldItemId serverbound (only when item mappings exist) and the amount is kept |
| StructuredItemRewriter.NestedItems | common/src/main/java/com/viaversion/viaversion/rewriter/StructuredItemRewriter.java:148-154 | a nested item stays an item, and a nested item array keeps its length |
| StructuredItemRewriter.RewritePayload | common/src/main/java/com/viaversion/viaversion/rewriter/StructuredItemRewriter.java:155-167 | an entry without items stays one without items |
| StructuredItemRewriter.RewriteEntries | common/src/main/java/com/viaversion/viaversion/rewriter/StructuredItemRewriter.java:141-168 | the entry loop keeps the container's keys |
| StructuredItemRewriter.ItemNameBackedUp | common/src/main/java/com/viaversion/viaversion/rewriter/StructuredItemRewriter.java:181-192 | the item-name update alone backs up the item name exactly when it changes |
| StructuredItemRewriter.NamesBackedUp | common/src/main/java/com/viaversion/viaversion/rewriter/StructuredItemRewriter.java:119-120 | after both name updates, the custom data (when created) holds the marker and a backup of exactly the names that changed |
| StructuredItemRewriter.BackupsRestored | common/src/main/java/com/viaversion/viaversion/rewriter/StructuredItemRewriter.java:205-247 | restoring from custom data holding only the marker and backups puts each backed-up name back and leaves no custom data |
| StructuredItemRewriter.RestoreOneLocal | common/src/main/java/com/viaversion/viaversion/rewriter/StructuredItemRewriter.java:206-216 | moving one backup back depends on and changes only the names and the custom data |
| StructuredItemRewriter.RestoreLocal | common/src/main/java/com/viaversion/viaversion/rewriter/StructuredItemRewriter.java:194-218 | restoring depends on and changes only the names and the custom data |
| StructuredItemRewriter.NamesRestored | common/src/main/java/com/viaversion/viaversion/rewriter/StructuredItemRewriter.java:194-247 | restoring what the name updates left behind gives both names back and removes the custom data |
| StructuredItemRewriter.NamesRoundTrip | common/src/main/java/com/viaversion/viaversion/rewriter/StructuredItemRewriter.java:181-247 | an item with no custom data whose names are changed clientbound gets its original names back serverbound, and no custom data remains |
| StructuredItemRewriter.HandleNamesRoundTrip | common/src/main/java/com/viaversion/viaversion/rewriter/StructuredItemRewriter.java:62-93 | an item without custom data, handled towards the client and then towards the server, comes back with its item name and custom name as they were and no custom data, with or without a component rewriter |
| StructuredItemRewriter.OtherEntryRewritten | common/src/main/java/com/viaversion/viaversion/rewriter/StructuredItemRewriter.java:140-168 | in the entry loop an empty entry is skipped, a nested item and every element of a nested item array is handled in the same direction, and a rewritable value is rewritten |
| StructuredItemRewriter.IdentifierRoundTrip | common/src/main/java/com/viaversion/viaversion/rewriter/StructuredItemRewriter.java:62-93 | with id maps inverse on an item's id, the id and the amount survive the way to the client and back |
| StructuredItemRewriter.RewriteItemArray | common/src/main/java/com/viaversion/viaversion/rewriter/StructuredItemRewriter.java:151-154 | each element of a nested item array is handled in place, in the same direction |
| Inventory1_14.ConvertLore | common/src/main/java/us/myles/ViaVersion/protocols/protocol1_14to1_13_2/packets/InventoryPackets.java:341-349 | the lore keeps its length; every string line becomes the converted text and every line of another tag class is left as it was |
| Inventory1_14.LoreDisplay | common/src/main/java/us/myles/ViaVersion/protocols/protocol1_14to1_13_2/packets/InventoryPackets.java:331-338 | a display compound is found exactly when the tag is present, its display entry is a compound and that compound's Lore entry is a list |
| Inventory1_14.ToClient | common/src/main/java/us/myles/ViaVersion/protocols/protocol1_14to1_13_2/packets/InventoryPackets.java:327-353 | an absent item stays absent; otherwise the id is mapped forward (1 when unmapped), amount and data stay, the original lore is copied under the protocol's Lore backup key and the visible lore is its line-by-line conversion; no other display or tag entry changes |
| Inventory1_14.ToServer | common/src/main/java/us/myles/ViaVersion/protocols/protocol1_14to1_13_2/packets/InventoryPackets.java:364-395 | an absent item stays absent; otherwise the id is mapped back, the lore is restored from the backup when there is one (conversion back to legacy text otherwise), the backup entry is removed and no other entry changes; a backup that is not a list is the failure the source's cast would raise |
| Inventory1_14.LoreRoundTrip | common/src/main/java/us/myles/ViaVersion/protocols/protocol1_14to1_13_2/packets/InventoryPackets.java:327-395 | an item whose id is mapped and whose display has no backup entry of its own comes back from the client exactly as it was sent, whatever the two text converters do |
| Inventory1_14.JavaDiv | common/src/main/java/us/myles/ViaVersion/protocols/protocol1_14to1_13_2/packets/InventoryPackets.java:60 | division of a slot count by 9 truncates towards zero as Java's int division does, also for negative counts |
| Inventory1_14.WindowTypeId | common/src/main/java/us/myles/ViaVersion/protocols/protocol1_14to1_13_2/packets/InventoryPackets.java:56-93 | a chest or container window type is its row count minus one; every other name gets its fixed id or -1 |
| Inventory1_14.WindowTypeRanges | common/src/main/java/us/myles/ViaVersion/protocols/protocol1_14to1_13_2/packets/InventoryPackets.java:56-93 | chests of one to six rows take types 0 to 5; every fixed name takes a type between 6 and 19; every unknown name takes -1 |
| Inventory1_14.FixedWindowTypesDistinct | common/src/main/java/us/myles/ViaVersion/protocols/protocol1_14to1_13_2/packets/InventoryPackets.java:56-93 | two different fixed names share a window type only when they are the dropper and the dispenser |
| Inventory1_14.FixedWindowTypeNamed | common/src/main/java/us/myles/ViaVersion/protocols/protocol1_14to1_13_2/packets/InventoryPackets.java:56-93 | each fixed window type tells back the name it came from, 6 standing for the dropper or the dispenser |
| Inventory1_14.ReadWindowHeader | common/src/main/java/us/myles/ViaVersion/protocols/protocol1_14to1_13_2/packets/InventoryPackets.java:40-43 | succeeds exactly when the packet starts with an unsigned byte, two strings and an unsigned byte, returning those four values and consuming them; nothing is written |
| Inventory1_14.OpenWindow | common/src/main/java/us/myles/ViaVersion/protocols/protocol1_14to1_13_2/packets/InventoryPackets.java:37-102 | a horse window becomes packet 0x1F with the window id, the slot count as a var-int and the horse's entity id; any other window becomes packet 0x2E with the window id as a var-int, the numeric window type and the translated title; malformed input fails |
| Inventory1_14.HorseWindow | common/src/main/java/us/myles/ViaVersion/protocols/protocol1_14to1_13_2/packets/InventoryPackets.java:46-51 | the packet id becomes 0x1F and the window id, the slot count as a var-int and the entity int read next are written in that order; fails exactly when no int follows |
| Inventory1_14.RecipeKindOf | common/src/main/java/us/myles/ViaVersion/protocols/protocol1_14to1_13_2/packets/InventoryPackets.java:230-253 | only crafting_shapeless, crafting_shaped and smelting have a body the handler reads |
| Inventory1_14.ItemsToClient | common/src/main/java/us/myles/ViaVersion/protocols/protocol1_14to1_13_2/packets/InventoryPackets.java:235 | every item of an ingredient array goes through toClient, in place and in order |
| Inventory1_14.ClientField | common/src/main/java/us/myles/ViaVersion/protocols/protocol1_14to1_13_2/packets/InventoryPackets.java:234-250 | items and ingredient arrays go through toClient; every other field is kept unchanged with its type |
| Inventory1_14.Recipe | common/src/main/java/us/myles/ViaVersion/protocols/protocol1_14to1_13_2/packets/InventoryPackets.java:221-253 | a recipe is its identifier and type strings; a removed type removes exactly one recipe and writes nothing; a kept one writes its type then its identifier, followed by its rewritten body |
| Inventory1_14.RecipeList | common/src/main/java/us/myles/ViaVersion/protocols/protocol1_14to1_13_2/packets/InventoryPackets.java:220-254 | the recipes read from a position end after it and within the packet; a non-positive count reads nothing |
| Inventory1_14.RecipeListDeleted | common/src/main/java/us/myles/ViaVersion/protocols/protocol1_14to1_13_2/packets/InventoryPackets.java:219-255 | no more recipes are removed than are counted, so the count written back is never negative |
| Inventory1_14.PassRecipe | common/src/main/java/us/myles/ViaVersion/protocols/protocol1_14to1_13_2/packets/InventoryPackets.java:221-253 | handles one recipe against the function Recipe: succeeds exactly when that recipe reads, consumes it and writes what it gives |
| Inventory1_14.PassKeptRecipe | common/src/main/java/us/myles/ViaVersion/protocols/protocol1_14to1_13_2/packets/InventoryPackets.java:227-253 | a kept recipe writes its type string, then its identifier, then its body rewritten, succeeding exactly when the body reads |
| Inventory1_14.KeptRecipe | common/src/main/java/us/myles/ViaVersion/protocols/protocol1_14to1_13_2/packets/InventoryPackets.java:227-253 | the fields of a kept recipe are its two strings swapped, followed by its rewritten body |
| Inventory1_14.SetCount | common/src/main/java/us/myles/ViaVersion/protocols/protocol1_14to1_13_2/packets/InventoryPackets.java:255 | only the leading count is replaced; the recipes written after it stay |
| Inventory1_14.PassRecipes | common/src/main/java/us/myles/ViaVersion/protocols/protocol1_14to1_13_2/packets/InventoryPackets.java:220-254 | the recipe loop matches the fold RecipeList over the count: it succeeds exactly when the list reads, and returns the number of removed recipes, having written every kept one |
| Inventory1_14.DeclareRecipes | common/src/main/java/us/myles/ViaVersion/protocols/protocol1_14to1_13_2/packets/InventoryPackets.java:212-259 | succeeds exactly when the packet is a count followed by that many readable recipes; the output is the count minus the removed recipes followed by every kept recipe, and the rest of the packet is left to pass |
| ItemMappings.NewItemId | common/src/main/java/us/myles/ViaVersion/protocols/protocol1_14to1_13_2/packets/InventoryPackets.java:355-362 | a mapped old id gives its mapped id; an unmapped one gives 1 |
| ItemMappings.OldItemId | common/src/main/java/us/myles/ViaVersion/protocols/protocol1_14to1_13_2/packets/InventoryPackets.java:397-400 | an id with an inverse mapping gives it back; any other gives 1 |
| ItemMappings.OldAfterNew | common/src/main/java/us/myles/ViaVersion/protocols/protocol1_14to1_13_2/packets/InventoryPackets.java:355-400 | every mapped id survives the trip to the client and back; an unmapped one comes back as whatever 1 maps back to |
| ItemMappings.NewAfterOld | common/src/main/java/us/myles/ViaVersion/protocols/protocol1_16to1_15_2/packets/InventoryPackets.java:222-234 | an id the inverse map knows maps back forward to itself |
| ItemMappings.NewItemIdInjective | common/src/main/java/us/myles/ViaVersion/protocols/protocol1_16to1_15_2/packets/InventoryPackets.java:222-234 | two mapped old ids never share a new id, because the inverse of the map exists |
| Recipes.RewriteFields | common/src/main/java/us/myles/ViaVersion/protocols/protocol1_14to1_13_2/packets/InventoryPackets.java:233-237 | a run of fields rewrites exactly when every field does, and the result is each field's rewrite in order |
| Recipes.ShapedCount | common/src/main/java/us/myles/ViaVersion/protocols/protocol1_14to1_13_2/packets/InventoryPackets.java:239 | the shaped ingredient count is width times height when that product fits a Java int; a negative count runs no loop |
| Recipes.BodyEnd | common/src/main/java/us/myles/ViaVersion/protocols/protocol1_14to1_13_2/packets/InventoryPackets.java:230-253 | an unknown type has an empty body; a cooking body reads exactly when group, one ingredient array, result, experience and cooking time follow; any body ends within the packet |
| Recipes.RewriteBody | common/src/main/java/us/myles/ViaVersion/protocols/protocol1_14to1_13_2/packets/InventoryPackets.java:230-253 | a body passes exactly when its layout reads and each of its fields rewrites; it then ends where its layout does |
| Recipes.RewriteNext | common/src/main/java/us/myles/ViaVersion/protocols/protocol1_14to1_13_2/packets/InventoryPackets.java:231-252 | one passthrough: succeeds exactly when the next field has the expected type and rewrites, and writes the rewritten field |
| Recipes.PassFields | common/src/main/java/us/myles/ViaVersion/protocols/protocol1_14to1_13_2/packets/InventoryPackets.java:246-252 | a fixed layout passes field by field, succeeding exactly when the fields have those types and all rewrite |
| Recipes.PassBody | common/src/main/java/us/myles/ViaVersion/protocols/protocol1_14to1_13_2/packets/InventoryPackets.java:230-253 | passing a body matches RewriteBody: it succeeds exactly when that is defined, consuming the body and writing its rewrite |
| Recipes.PassShapeless | common/src/main/java/us/myles/ViaVersion/protocols/protocol1_14to1_13_2/packets/InventoryPackets.java:230-237 | group, ingredient count, that many ingredient arrays and the result, each field rewritten, matching RewriteBody for the shapeless kind |
| Recipes.PassShaped | common/src/main/java/us/myles/ViaVersion/protocols/protocol1_14to1_13_2/packets/InventoryPackets.java:238-245 | width, height, group, width times height ingredient arrays and the result, each rewritten, matching RewriteBody for the shaped kind |
| Recipes.Then | common/src/main/java/us/myles/ViaVersion/protocols/protocol1_14to1_13_2/packets/InventoryPackets.java:219-254 | folding one recipe's outcome into the rest adds the removed counts and concatenates what both wrote |
| Recipes.StepsBounded | common/src/main/java/us/myles/ViaVersion/protocols/protocol1_14to1_13_2/packets/InventoryPackets.java:219-255 | when each recipe removes at most itself, a list removes at most as many recipes as it counts |
| Inventory1_16.SkullOwner | common/src/main/java/us/myles/ViaVersion/protocols/protocol1_16to1_15_2/packets/InventoryPackets.java:188-191 | the SkullOwner compound is found exactly when the tag is present and its SkullOwner entry is a compound |
| Inventory1_16.OwnerId | common/src/main/java/us/myles/ViaVersion/protocols/protocol1_16to1_15_2/packets/InventoryPackets.java:188-192 | the owner id is found exactly when there is a SkullOwner compound with an Id entry |
| Inventory1_16.WithOwnerId | common/src/main/java/us/myles/ViaVersion/protocols/protocol1_16to1_15_2/packets/InventoryPackets.java:195 | putting an owner id sets exactly that Id; every other tag entry and every other SkullOwner entry stays |
| Inventory1_16.WithOwnerIdTwice | common/src/main/java/us/myles/ViaVersion/protocols/protocol1_16to1_15_2/packets/InventoryPackets.java:195-216 | putting the owner id twice leaves only the second |
| Inventory1_16.WithOwnerIdRestores | common/src/main/java/us/myles/ViaVersion/protocols/protocol1_16to1_15_2/packets/InventoryPackets.java:195-216 | putting back the owner id the tag had undoes a replacement |
| Inventory1_16.ToClient | common/src/main/java/us/myles/ViaVersion/protocols/protocol1_16to1_15_2/packets/InventoryPackets.java:184-201 | an absent item stays absent; a player head's string owner id becomes its four-int form and a string that is not a UUID fails; every other tag stays; the id is mapped forward with amount and data kept |
| Inventory1_16.ToServer | common/src/main/java/us/myles/ViaVersion/protocols/protocol1_16to1_15_2/packets/InventoryPackets.java:203-220 | an absent item stays absent; the id is mapped back first, then a player head's int-array owner id becomes the UUID string of its first four ints, failing when it has fewer than four; every other tag stays |
| Inventory1_16.SkullRoundTrip | common/src/main/java/us/myles/ViaVersion/protocols/protocol1_16to1_15_2/packets/InventoryPackets.java:184-220 | a mapped item with a UUID-string owner id, or without an owner id, survives the trip to the client and back, the owner id coming back lower-cased |
| Inventory1_16.SkullRoundTripToServer | common/src/main/java/us/myles/ViaVersion/protocols/protocol1_16to1_15_2/packets/InventoryPackets.java:184-220 | a 1.16 item whose player-head owner id is four ints survives the trip to the server and back |
| Inventory1_16.IntIncrement | common/src/main/java/us/myles/ViaVersion/protocols/protocol1_16to1_15_2/packets/InventoryPackets.java:35 | Java's int increment adds one below the largest int and always stays a 32-bit int |
| Inventory1_16.ShortIncrement | common/src/main/java/us/myles/ViaVersion/protocols/protocol1_16to1_15_2/packets/InventoryPackets.java:54 | Java's short increment adds one below the largest short and always stays a 16-bit short |
| Inventory1_16.WindowTypeShift | common/src/main/java/us/myles/ViaVersion/protocols/protocol1_16to1_15_2/packets/InventoryPackets.java:33-36 | window types below 20 stay; the others move up by one; no result is the smithing table's 20; distinct types stay distinct below the wrap-around |
| Inventory1_16.EnchantmentIdShift | common/src/main/java/us/myles/ViaVersion/protocols/protocol1_16to1_15_2/packets/InventoryPackets.java:50-56 | enchantment ids below 11 stay; the others move up by one; no result is soul speed's 11; distinct ids stay distinct below the wrap-around |
| Inventory1_16.OpenWindow | common/src/main/java/us/myles/ViaVersion/protocols/protocol1_16to1_15_2/packets/InventoryPackets.java:25-39 | succeeds exactly when the packet starts with two var-ints and a string; they pass through with the window type shifted for 1.16 |
| Inventory1_16.WindowProperty | common/src/main/java/us/myles/ViaVersion/protocols/protocol1_16to1_15_2/packets/InventoryPackets.java:42-59 | window id, property and value pass through; for properties 4 to 6 the value is shifted as an enchantment id, for the others it stays |
| Inventory1_16.RemoveAll | common/src/main/java/us/myles/ViaVersion/protocols/protocol1_16to1_15_2/packets/InventoryPackets.java:116 | removing every occurrence of the namespace never lengthens the type |
| Inventory1_16.RemoveAllAbsent | common/src/main/java/us/myles/ViaVersion/protocols/protocol1_16to1_15_2/packets/InventoryPackets.java:116 | a type lacking one of the namespace's characters is left unchanged |
| Inventory1_16.NamespacedRecipeType | common/src/main/java/us/myles/ViaVersion/protocols/protocol1_16to1_15_2/packets/InventoryPackets.java:116-118 | a recipe type with or without the minecraft: namespace is told apart as the same bare type |
| Inventory1_16.RecipeKindOf | common/src/main/java/us/myles/ViaVersion/protocols/protocol1_16to1_15_2/packets/InventoryPackets.java:118-162 | blasting, smoking, campfire_cooking and smelting share the cooking body; only the shapeless, shaped, cooking and stonecutting types have a body the handler reads |
| Inventory1_16.ItemsToClient | common/src/main/java/us/myles/ViaVersion/protocols/protocol1_16to1_15_2/packets/InventoryPackets.java:124-125 | an ingredient array converts exactly when each item does, into each item's conversion in order |
| Inventory1_16.ClientField | common/src/main/java/us/myles/ViaVersion/protocols/protocol1_16to1_15_2/packets/InventoryPackets.java:120-161 | items and ingredient arrays go through toClient keeping their type; every other field passes unchanged |
| Inventory1_16.Recipe | common/src/main/java/us/myles/ViaVersion/protocols/protocol1_16to1_15_2/packets/InventoryPackets.java:115-163 | a recipe is its type and identifier strings passed through, then the body its namespace-stripped type names; nothing is removed and the fields written are as many as read |
| Inventory1_16.UnknownRecipeType | common/src/main/java/us/myles/ViaVersion/protocols/protocol1_16to1_15_2/packets/InventoryPackets.java:118-163 | a recipe of an unknown type is its two strings and nothing more |
| Inventory1_16.ClientRewriteOnlyItems | common/src/main/java/us/myles/ViaVersion/protocols/protocol1_16to1_15_2/packets/InventoryPackets.java:120-161 | the client rewrite changes only item fields and keeps every field's type |
| Inventory1_16.RecipeOnlyItems | common/src/main/java/us/myles/ViaVersion/protocols/protocol1_16to1_15_2/packets/InventoryPackets.java:115-163 | a recipe written for the client is the recipe read, field for field, with only its items rewritten |
| Inventory1_16.RecipeListOnlyItems | common/src/main/java/us/myles/ViaVersion/protocols/protocol1_16to1_15_2/packets/InventoryPackets.java:114-164 | the recipes written for the client are the recipes read, with only their items rewritten |
| Inventory1_16.RecipeList | common/src/main/java/us/myles/ViaVersion/protocols/protocol1_16to1_15_2/packets/InventoryPackets.java:114-164 | the recipes read from a position end after it and within the packet; a non-positive count reads nothing |
| Inventory1_16.PassHeader | common/src/main/java/us/myles/ViaVersion/protocols/protocol1_16to1_15_2/packets/InventoryPackets.java:116-117 | succeeds exactly when two strings come next; both pass through and the type's value is returned |
| Inventory1_16.PassRecipe | common/src/main/java/us/myles/ViaVersion/protocols/protocol1_16to1_15_2/packets/InventoryPackets.java:115-163 | handles one recipe against the function Recipe: succeeds exactly when that recipe reads, consuming it and writing what it gives |
| Inventory1_16.PassRecipes | common/src/main/java/us/myles/ViaVersion/protocols/protocol1_16to1_15_2/packets/InventoryPackets.java:114-164 | the recipe loop matches the fold RecipeList over the count read |
| Inventory1_16.DeclareRecipes | common/src/main/java/us/myles/ViaVersion/protocols/protocol1_16to1_15_2/packets/InventoryPackets.java:110-167 | succeeds exactly when the packet is a count followed by that many readable recipes; the count and every recipe are written with their items rewritten |
| Inventory1_16.DeclareRecipesOnlyItems | common/src/main/java/us/myles/ViaVersion/protocols/protocol1_16to1_15_2/packets/InventoryPackets.java:110-167 | what declare recipes writes is what it read, field for field, with only items rewritten |
| Protocol1_13_1.NewBlockStateId | common/src/main/java/us/myles/ViaVersion/protocols/protocol1_13_1to1_13/Protocol1_13_1To1_13.java:158-170 | states up to 1126 stay where they are; below the wrap a state never moves down and moves up by at most 17; an `int` state stays an `int`, and the seventeen largest wrap round to the smallest ids |
| Protocol1_13_1.NewBlockStateIdIncreasing | common/src/main/java/us/myles/ViaVersion/protocols/protocol1_13_1to1_13/Protocol1_13_1To1_13.java:158-170 | below the wrap the state shift is strictly increasing, so no two 1.13 states meet in one 1.13.1 state |
| Protocol1_13_1.NewBlockId | common/src/main/java/us/myles/ViaVersion/protocols/protocol1_13_1to1_13/Protocol1_13_1To1_13.java:172-178 | ids below 561 stay, larger ones move up five short of the wrap; no `int` result falls among the five inserted ids 561 to 565, and the five largest ids wrap round |
| Protocol1_13_1.NewBlockIdIncreasing | common/src/main/java/us/myles/ViaVersion/protocols/protocol1_13_1to1_13/Protocol1_13_1To1_13.java:172-178 | below the wrap the block id shift is strictly increasing |
| Protocol1_13_1.NewBlockStateIdWraps | common/src/main/java/us/myles/ViaVersion/protocols/protocol1_13_1to1_13/Protocol1_13_1To1_13.java:158-170 | across the wrap two states meet: the largest `int` less sixteen and the smallest `int` both become the smallest `int` |
| Protocol1_13_1.StripSlash | common/src/main/java/us/myles/ViaVersion/protocols/protocol1_13_1to1_13/Protocol1_13_1To1_13.java:38-44 | a text starting with a slash loses exactly that one slash; any other text is unchanged |
| Protocol1_13_1.TabCompleteIncoming | common/src/main/java/us/myles/ViaVersion/protocols/protocol1_13_1to1_13/Protocol1_13_1To1_13.java:34-46 | succeeds exactly when a var-int and a string come first; the transaction id passes and the text loses its leading slash |
| Protocol1_13_1.PassBook | common/src/main/java/us/myles/ViaVersion/protocols/protocol1_13_1to1_13/Protocol1_13_1To1_13.java:51-58 | the book item is written back with its 1.13 id and the signing flag passes; fails exactly when those two fields are missing |
| Protocol1_13_1.EditBook | common/src/main/java/us/myles/ViaVersion/protocols/protocol1_13_1to1_13/Protocol1_13_1To1_13.java:48-70 | the book item goes back to its 1.13 id, the signing flag passes, the hand field is dropped, and a hand of 1 cancels the packet while any other hand leaves the cancel state as it was |
| Protocol1_13_1.SuggestionEnd | common/src/main/java/us/myles/ViaVersion/protocols/protocol1_13_1to1_13/Protocol1_13_1To1_13.java:87-91 | a suggestion is a string and a tooltip flag, followed by a tooltip string only when the flag is set; it ends within the packet |
| Protocol1_13_1.SuggestionsEnd | common/src/main/java/us/myles/ViaVersion/protocols/protocol1_13_1to1_13/Protocol1_13_1To1_13.java:86-92 | a list of suggestions ends within the packet; a non-positive count reads nothing |
| Protocol1_13_1.PassSuggestion | common/src/main/java/us/myles/ViaVersion/protocols/protocol1_13_1to1_13/Protocol1_13_1To1_13.java:87-91 | passes one suggestion unchanged, succeeding exactly when SuggestionEnd is defined |
| Protocol1_13_1.PassSuggestions | common/src/main/java/us/myles/ViaVersion/protocols/protocol1_13_1to1_13/Protocol1_13_1To1_13.java:86-92 | passes the suggestions unchanged, succeeding exactly when SuggestionsEnd is defined |
| Protocol1_13_1.PassTabCompleteHeader | common/src/main/java/us/myles/ViaVersion/protocols/protocol1_13_1to1_13/Protocol1_13_1To1_13.java:75-85 | the four leading var-ints pass with the start moved one on as a Java `int` (the largest wraps to the smallest), and the suggestion count is returned |
| Protocol1_13_1.TabCompleteOutgoing | common/src/main/java/us/myles/ViaVersion/protocols/protocol1_13_1to1_13/Protocol1_13_1To1_13.java:72-96 | succeeds exactly when the header and its suggestions read; the output is the input with only the start moved one on as a Java `int` |
| Protocol1_13_1.BossbarFlags | common/src/main/java/us/myles/ViaVersion/protocols/protocol1_13_1to1_13/Protocol1_13_1To1_13.java:112-114 | when play-boss-music (0x02) is set, create-fog (0x04) is set too; every other bit stays; fog ends up set exactly when either bit was set |
| Protocol1_13_1.PassNewBar | common/src/main/java/us/myles/ViaVersion/protocols/protocol1_13_1to1_13/Protocol1_13_1To1_13.java:107-115 | title, health, colour and division pass through and the flags byte is written back as an unsigned byte widened by BossbarFlags |
| Protocol1_13_1.Bossbar | common/src/main/java/us/myles/ViaVersion/protocols/protocol1_13_1to1_13/Protocol1_13_1To1_13.java:98-119 | for the add action the new-bar fields pass and the flags are widened; every other action only passes the uuid and action |
| Protocol1_13_1.MapIds | common/src/main/java/us/myles/ViaVersion/protocols/protocol1_13_1to1_13/Protocol1_13_1To1_13.java:130-133 | the same number of ids, each rewritten by the mapping |
| Protocol1_13_1.RewriteIds | common/src/main/java/us/myles/ViaVersion/protocols/protocol1_13_1to1_13/Protocol1_13_1To1_13.java:131-133 | the id array is rewritten in place, each entry replaced by its mapping, in order |
| Protocol1_13_1.TagFields | common/src/main/java/us/myles/ViaVersion/protocols/protocol1_13_1to1_13/Protocol1_13_1To1_13.java:129-133 | each tag field is rewritten by itself: id arrays mapped and names untouched |
| Protocol1_13_1.TagFieldsAppend | common/src/main/java/us/myles/ViaVersion/protocols/protocol1_13_1to1_13/Protocol1_13_1To1_13.java:128-142 | the tag field rewrite distributes over concatenation |
| Protocol1_13_1.TagsEnd | common/src/main/java/us/myles/ViaVersion/protocols/protocol1_13_1to1_13/Protocol1_13_1To1_13.java:128-134 | a list of tags, each a name and an id array, ends within the packet |
| Protocol1_13_1.PassTag | common/src/main/java/us/myles/ViaVersion/protocols/protocol1_13_1to1_13/Protocol1_13_1To1_13.java:129-133 | one tag passes with its id array rewritten, succeeding exactly when a name and an id array come next |
| Protocol1_13_1.PassTags | common/src/main/java/us/myles/ViaVersion/protocols/protocol1_13_1to1_13/Protocol1_13_1To1_13.java:128-134 | the tags pass with their id arrays rewritten, succeeding exactly when TagsEnd is defined |
| Protocol1_13_1.BlockTagsEnd | common/src/main/java/us/myles/ViaVersion/protocols/protocol1_13_1to1_13/Protocol1_13_1To1_13.java:127-134 | the block tags of a well-formed tags packet end before the item tag count |
| Protocol1_13_1.ItemTagsEnd | common/src/main/java/us/myles/ViaVersion/protocols/protocol1_13_1to1_13/Protocol1_13_1To1_13.java:135-142 | the item tags end after the block tags and within the packet |
| Protocol1_13_1.Tags | common/src/main/java/us/myles/ViaVersion/protocols/protocol1_13_1to1_13/Protocol1_13_1To1_13.java:121-146 | the block tags' ids get the new block ids and the item tags' ids the new item ids; both counts and all names pass; the rest of the packet is left |
| Protocol1_13_1.Init | common/src/main/java/us/myles/ViaVersion/protocols/protocol1_13_1to1_13/Protocol1_13_1To1_13.java:150-155 | a fresh 1.13 entity tracker always replaces the old one; a client world is created only when the connection has none; every other stored object stays as it was, and none is added or removed |
| Inventory1_13_1.NewItemId | common/src/main/java/us/myles/ViaVersion/protocols/protocol1_13_1to1_13/packets/InventoryPackets.java:86-91 | ids below 443 stay, larger ones move up five short of the wrap; no `int` result falls among the five inserted ids 443 to 447, and the five largest ids wrap to negative ids |
| Inventory1_13_1.OldItemId | common/src/main/java/us/myles/ViaVersion/protocols/protocol1_13_1to1_13/packets/InventoryPackets.java:98-103 | ids from 448 move down five; smaller ids stay |
| Inventory1_13_1.OldAfterNew | common/src/main/java/us/myles/ViaVersion/protocols/protocol1_13_1to1_13/packets/InventoryPackets.java:86-103 | going to the client and back gives every `int` id back except the five largest, which come back wrapped by 2^32 |
| Inventory1_13_1.NewAfterOld | common/src/main/java/us/myles/ViaVersion/protocols/protocol1_13_1to1_13/packets/InventoryPackets.java:86-103 | going back and then forward gives the id back exactly when it is not one of 443 to 447, which no old id reaches |
| Inventory1_13_1.ToClient | common/src/main/java/us/myles/ViaVersion/protocols/protocol1_13_1to1_13/packets/InventoryPackets.java:81-84 | an absent item stays absent; otherwise only the identifier can change |
| Inventory1_13_1.ToServer | common/src/main/java/us/myles/ViaVersion/protocols/protocol1_13_1to1_13/packets/InventoryPackets.java:93-96 | an absent item stays absent; otherwise only the identifier can change |
| Inventory1_13_1.ServerAfterClient | common/src/main/java/us/myles/ViaVersion/protocols/protocol1_13_1to1_13/packets/InventoryPackets.java:81-103 | every item sent to the client and back arrives unchanged, except one whose id is among the five largest ints, which comes back with the wrapped id |
| Inventory1_13_1.ClientFields | common/src/main/java/us/myles/ViaVersion/protocols/protocol1_13_1to1_13/packets/InventoryPackets.java:39-46 | every field is rewritten by itself, with the length kept |
| Inventory1_13_1.ClientFieldsAppend | common/src/main/java/us/myles/ViaVersion/protocols/protocol1_13_1to1_13/packets/InventoryPackets.java:37-52 | the field rewrite distributes over concatenation |
| Inventory1_13_1.TradeEnd | common/src/main/java/us/myles/ViaVersion/protocols/protocol1_13_1to1_13/packets/InventoryPackets.java:39-51 | a trade is two items and a flag, a third item only when the flag is set, then the disabled flag and two use counters; it ends within the packet |
| Inventory1_13_1.TradesEnd | common/src/main/java/us/myles/ViaVersion/protocols/protocol1_13_1to1_13/packets/InventoryPackets.java:37-52 | a list of trades ends within the packet; a non-positive count reads nothing |
| Inventory1_13_1.RewriteNext | common/src/main/java/us/myles/ViaVersion/protocols/protocol1_13_1to1_13/packets/InventoryPackets.java:39-51 | one passthrough: succeeds exactly when the next field has the expected type, and writes it as the client rewrite leaves it |
| Inventory1_13_1.RewriteFields | common/src/main/java/us/myles/ViaVersion/protocols/protocol1_13_1to1_13/packets/InventoryPackets.java:49-51 | a fixed layout passes succeeding exactly when the input has it, each field written as the client rewrite leaves it |
| Inventory1_13_1.PassTrade | common/src/main/java/us/myles/ViaVersion/protocols/protocol1_13_1to1_13/packets/InventoryPackets.java:39-51 | one trade passes with its items rewritten, succeeding exactly when TradeEnd is defined |
| Inventory1_13_1.PassTrades | common/src/main/java/us/myles/ViaVersion/protocols/protocol1_13_1to1_13/packets/InventoryPackets.java:37-52 | the trades pass with their items rewritten, succeeding exactly when TradesEnd is defined |
| Inventory1_13_1.PassTraderHeader | common/src/main/java/us/myles/ViaVersion/protocols/protocol1_13_1to1_13/packets/InventoryPackets.java:34-36 | the window id and trade count pass and the count is returned |
| Inventory1_13_1.PluginMessage | common/src/main/java/us/myles/ViaVersion/protocols/protocol1_13_1to1_13/packets/InventoryPackets.java:25-57 | only the minecraft:trader_list and trader_list channels have their trades' items rewritten; any other channel passes only the channel name |
| World1_13_1.RewriteSection | common/src/main/java/us/myles/ViaVersion/protocols/protocol1_13_1to1_13/packets/WorldPackets.java:30-34 | an absent section stays absent; a present one keeps its body and palette size, each palette entry moved to its 1.13.1 state |
| World1_13_1.RewriteColumn | common/src/main/java/us/myles/ViaVersion/protocols/protocol1_13_1to1_13/packets/WorldPackets.java:30-35 | the column keeps its position and number of sections, each section rewritten by itself |
| World1_13_1.RewriteSectionInjective | common/src/main/java/us/myles/ViaVersion/protocols/protocol1_13_1to1_13/packets/WorldPackets.java:30-34 | two sections whose palettes lie below the wrap and come out the same went in the same: the rewrite loses nothing there |
| World1_13_1.RewritePalettes | common/src/main/java/us/myles/ViaVersion/protocols/protocol1_13_1to1_13/packets/WorldPackets.java:30-35 | the nested loop over sections and palette entries computes exactly RewriteColumn |
| World1_13_1.ChunkData | common/src/main/java/us/myles/ViaVersion/protocols/protocol1_13_1to1_13/packets/WorldPackets.java:21-39 | succeeds exactly when a chunk comes next, and writes it with its palettes rewritten |
| World1_13_1.JoinGame | common/src/main/java/us/myles/ViaVersion/protocols/protocol1_13_1to1_13/packets/WorldPackets.java:46-63 | entity id, gamemode and dimension pass through, and the dimension becomes the client world's environment; a failure leaves the environment unchanged |
| World1_13_1.Respawn | common/src/main/java/us/myles/ViaVersion/protocols/protocol1_13_1to1_13/packets/WorldPackets.java:65-78 | the dimension passes through and becomes the client world's environment; a failure leaves the environment unchanged |
| Entity1_17.RemovePackets | common/src/main/java/com/viaversion/viaversion/protocols/protocol1_17to1_16_4/packets/EntityPackets.java:50-57 | one remove-entity packet per destroyed id, carrying that id as a var-int, in array order |
| Entity1_17.DestroyEntities | common/src/main/java/com/viaversion/viaversion/protocols/protocol1_17to1_16_4/packets/EntityPackets.java:42-60 | the original packet is cancelled, every destroyed id is dropped from the tracker, and one remove packet per id is sent in array order; a malformed packet changes neither the tracker nor the sent packets |
| Entity1_17.DestroyedUntracked | common/src/main/java/com/viaversion/viaversion/protocols/protocol1_17to1_16_4/packets/EntityPackets.java:50-51 | after destroy-entities no destroyed id is tracked and every other tracked id keeps its type |
| Entity1_17.EntityProperties | common/src/main/java/com/viaversion/viaversion/protocols/protocol1_17to1_16_4/packets/EntityPackets.java:62-71 | the entity id passes and the collection length read as an int is written back as a var-int with the same value |
| Entity1_17.PlayerPosition | common/src/main/java/com/viaversion/viaversion/protocols/protocol1_17to1_16_4/packets/EntityPackets.java:73-88 | the seven position fields pass unchanged and a false dismount-vehicle flag follows them |
| Entity1_17.CombatPacket | common/src/main/java/com/viaversion/viaversion/protocols/protocol1_17to1_16_4/packets/EntityPackets.java:97-109 | combat types 0, 1 and 2 become combat-enter, combat-end and combat-kill, and every other type is invalid |
| Entity1_17.CombatEvent | common/src/main/java/com/viaversion/viaversion/protocols/protocol1_17to1_16_4/packets/EntityPackets.java:90-114 | the type field is consumed and the packet id becomes that of the packet the type picks; an unknown type fails and leaves the packet id as it was |
| Entity1_17.EntityMovement | common/src/main/java/com/viaversion/viaversion/protocols/protocol1_17to1_16_4/packets/EntityPackets.java:117 | the packet is always cancelled and nothing else changes |
| Player1_15.Respawn | common/src/main/java/us/myles/ViaVersion/protocols/protocol1_15to1_14_4/packets/PlayerPackets.java:19-38 | the dimension passes, becomes the client world's environment, and a zero level seed follows it; a failure leaves the environment unchanged |
| Player1_15.JoinGame | common/src/main/java/us/myles/ViaVersion/protocols/protocol1_15to1_14_4/packets/PlayerPackets.java:41-89 | entity id, gamemode and dimension pass, a zero seed follows them, then max players, level type, view distance and reduced-debug, then the negation of the instant-respawn setting; the dimension becomes the environment and the entity id is tracked as the player with no other tracker change |
| Protocol1_9.ConstructJson | common/src/main/java/us/myles/ViaVersion/protocols/protocol1_9to1_8/Protocol1_9To1_8.java:75-79 | an object whose only member is text, holding the given string |
| Protocol1_9.ParseOrFallback | common/src/main/java/us/myles/ViaVersion/protocols/protocol1_9to1_8/Protocol1_9To1_8.java:63-72 | a line that parses gives its parse; otherwise forcing gives the line as plain text and not forcing gives the empty component |
| Protocol1_9.FixJson | common/src/main/java/us/myles/ViaVersion/protocols/protocol1_9to1_8/Protocol1_9To1_8.java:52-73 | fixJson fails only when not forced and the parser cannot read even the empty component; the FixJson lemmas below state each branch |
| Protocol1_9.FixJsonNull | common/src/main/java/us/myles/ViaVersion/protocols/protocol1_9to1_8/Protocol1_9To1_8.java:53-54 | a missing line and the word null in any letter case give the empty text component |
| Protocol1_9.FixJsonPlain | common/src/main/java/us/myles/ViaVersion/protocols/protocol1_9to1_8/Protocol1_9To1_8.java:56-58 | a line neither quoted nor braced becomes plain text without being parsed, whatever the parser or the force setting |
| Protocol1_9.FixJsonQuoted | common/src/main/java/us/myles/ViaVersion/protocols/protocol1_9to1_8/Protocol1_9To1_8.java:59-72 | a quoted line is parsed as the text member of an object; on a parse error forcing makes the wrapped text the plain text, otherwise the empty component |
| Protocol1_9.FixJsonBraced | common/src/main/java/us/myles/ViaVersion/protocols/protocol1_9to1_8/Protocol1_9To1_8.java:56-72 | a braced line is parsed as it stands, with the same fallback |
| Protocol1_9.FixJsonTotal | common/src/main/java/us/myles/ViaVersion/protocols/protocol1_9to1_8/Protocol1_9To1_8.java:52-73 | fixJson never fails and its result is either a parse or a plain-text object |
| Protocol1_9.IsSword | common/src/main/java/us/myles/ViaVersion/protocols/protocol1_9to1_8/Protocol1_9To1_8.java:85-93 | true exactly for the ids 267, 268, 272, 276 and 283 |
| Protocol1_9.InitializedStores | common/src/main/java/us/myles/ViaVersion/protocols/protocol1_9to1_8/Protocol1_9To1_8.java:137-151 | after init every tracker class holds a new object, created in declaration order, and every other stored object is untouched |
| Protocol1_9.Init | common/src/main/java/us/myles/ViaVersion/protocols/protocol1_9to1_8/Protocol1_9To1_8.java:137-151 | init stores the six trackers as Initialized says and creates exactly six objects |
| Protocol1_9_1.JoinGame | common/src/main/java/us/myles/ViaVersion/protocols/protocol1_9_1to1_9/Protocol1_9_1To1_9.java:16-28 | the seven fields pass in order, the dimension read as a byte and written as an int with the same value |
| Protocol1_9_1.NewSoundId | common/src/main/java/us/myles/ViaVersion/protocols/protocol1_9_1to1_9/Protocol1_9_1To1_9.java:39-42 | sounds below 415 keep their id, larger ones move up one, no `int` sound takes 415, and the largest `int` wraps to the smallest |
| Protocol1_9_1.NewSoundIdIncreasing | common/src/main/java/us/myles/ViaVersion/protocols/protocol1_9_1to1_9/Protocol1_9_1To1_9.java:39-42 | below the largest `int` the sound shift is strictly increasing, so no two sounds collide |
| Protocol1_9_1.SoundEffect | common/src/main/java/us/myles/ViaVersion/protocols/protocol1_9_1to1_9/Protocol1_9_1To1_9.java:31-46 | the sound id passes and is overwritten with its shifted value |
| Protocol1_9_1.Init | common/src/main/java/us/myles/ViaVersion/protocols/protocol1_9_1to1_9/Protocol1_9_1To1_9.java:49-52 | init leaves the connection's storage unchanged |

## Left out

- Packet I/O, Netty buffers and the wire encoding of the packet envelope. A packet is a sequence of typed fields. The NBT, chunk-section and NBT-array codecs are parameters assumed to round-trip; the INT, SHORT, BOOLEAN and VAR_INT codecs are modelled in `bytes.dfy` with proved round trips.
- `PacketRemapper`, `PacketWrapper`, `UserConnection` and `ClientWorld` are not part of this model as Java classes. The wrapper, the connection store and the client world are modelled by the small classes in `packet_wrapper.dfy`, `connection.dfy` and `environment.dfy`.
- The `ItemRewriter`, `BlockRewriter`, `RecipeRewriter1_13_2`, `ComponentRewriter` and metadata rewriter helpers are not part of this model. So the handlers they register are left out: set cooldown, window items, set slot, entity equipment, click window, creative action, advancements, block changes, effects, particles, metadata, and the 1.13.1 declare recipes.
- The 1.14 handlers that only pass items through `toClient`/`toServer` are left out: window items, set slot, trade list, entity equipment, click window and creative action. So is select trade, whose resync packet carries a random action number and a NaN tag.
- The 1.16 trade list and edit book handlers are left out; they only pass items through `toClient`/`toServer`.
- `ChatRewriter` (legacy text to JSON and back) and `InventoryNameRewriter.processTranslate` are parameters of the 1.14 model, given as arbitrary string functions.
- Gson parsing in `fixJson` is a parameter (`parse`), and the `isForceJsonTransform` setting is the `force` flag.
- `Key.stripMinecraftNamespace` and `TagUtil` are not part of this model. Namespace stripping removes a leading `minecraft:` prefix.
- `nbtTagName` is the `tagName` parameter of the structured item rewriter. `processTag` of the component rewriter is the `process` parameter.
- `updateItemDataComponentTypeIds` and the component type id remapping are left out. The component keys are the model's own `Key` values.
- The generated mapping data (`MappingData.oldToNewItems`, attribute and item mappings) are parameters: a bidirectional map, or id functions.
- Items and tags that Java mutates in place (item identifiers, display compounds, custom data, palettes) are modelled as values that a function returns updated. Aliasing between an item and the wrapper that holds it is not captured. The id arrays of the 1.13.1 tags handler keep the in-place update.
- `FloatTag`, `DoubleTag`, FLOAT and DOUBLE fields and JSON numbers are opaque values. No floating-point arithmetic is modelled.
- A JSON null nested inside an object or array is modelled as a conversion failure. The Java code stores a null entry and fails only later, when the tag is written.
- Components1_20_3.Rekey: when a compound holds both an empty key and `"text"`, Java keeps whichever of the two its entry set iterates last; the model always keeps the empty key's entry, because a compound is a map without iteration order. `EmptyKeyToText` states the same choice.
- Components1_20_3.EntryToJson: the `contents` branch of `convertCompoundTagEntry` removes `id` from the input compound in place. The model converts the compound without its `id` but leaves the input tag as it was.
- The mixed-type branch of `convertJsonArray` is modelled as written. Properties are proved only for arrays whose elements are all of one kind.
- Java `ClassCastException` and `NullPointerException` paths are modelled as handler failures (`Result.Failure`) or as skipped entries, matching where the Java code would throw or skip. This includes the `(CompoundTag)` casts of registry entry tags in `updateEnchantments` and `trackDimensionAndBiomes`. The one exception is the unguarded `updateAttributeField` call of `runEffectRewriters`, described in the next line.
- RegistryDataRewriters.RunEffectRewriters: uses the guarded `UpdateAttributeField`, so without attribute mappings an effect's attribute stays, where the code as written throws a `NullPointerException`. `UpdateNestedEffect`, `UpdateEffects`, `UpdateEnchantment`, `UpdateEnchantments`, `Handled` and `Handle` inherit this. Only `UpdateAttributeFieldAsWritten` and `AttributeEffectWithoutMappings` state the throwing case (see "## Findings").
- Uuids.ParseUuid: accepts only the canonical 36-character form. The lenient forms `UUID.fromString` also accepts (shorter groups) are not modelled.
- `UUID.randomUUID()` in the 1.20.3 resource-pack handler and all logging are left out.
- The Bungee network ping, the `probeServer` loop, the `run` scheduling and the config file write are left out. Only the store rule and the "skip when unchanged" decision are modelled.
- The 1.9 `registerPackets`, providers, `getHandItem`, `isFiltered`/`filterPacket` and the 1.8 handler classes they register are left out. Only `fixJson`, `constructJson`, `isSword` and `init` are modelled.
- The block-state lookup of the block above in the snowy-grass handler is a parameter. So is the connection data loader that names block states by their property strings.
- `ArrayType` internals beyond the 64-entry bound of the predicate array are left out.
- DataComponentPredicates.WriteArray: writes an array of any length below 2^31. `ArrayType` is not part of this model, so a bound check on the write side is not modelled.
- `ConcurrentHashMap` in the trackers is a plain map; concurrency is not modelled.
- The 1.15 and 1.17 entity trackers are not part of this model. `Player1_15.JoinGame` and `Entity1_17.DestroyEntities` are given the 1.14.1 tracker (`EntityTrackers.EntityTracker1_14_1`) in their place, with its add, remove and join-game rules.
- Protocols.Protocol.Transform: when a remapper throws, the model leaves the wrapper as the id rewrite left it. The Java wrapper keeps whatever the remapper had already changed in place before throwing; a remapper here is a function from one packet state to the next, so partial changes are not modelled.
- The wrapper-level `handle(PacketWrapper)` of the registry data rewriter, which reads and writes the registry key and entry list, is left out. `Handle` works on the key and entries directly.

## Findings

| source | as written | input that shows it | evidently intended | confidence | as-written member | corrected member |
|---|---|---|---|---|---|---|
| common/src/main/java/com/viaversion/viaversion/rewriter/RegistryDataRewriter.java:162-190 | `runEffectRewriters` calls `updateAttributeField` without the `hasAttributeMappings` guard that `updateAttributesFields` applies, so with no attribute mappings the lookup goes through null mappings | an enchantment effect `{type: "minecraft:attribute", attribute: "minecraft:generic.armor"}` under a protocol without attribute mappings | skip the attribute update when there are no attribute mappings, as `updateAttributesFields` does | low, not executed | RegistryDataRewriters.AttributeEffectWithoutMappings | RegistryDataRewriters.UpdateAttributeField |
