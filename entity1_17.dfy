/** The 1.16.4 to 1.17 entity packets: destroy-entities split into one remove packet per entity, the
  * entity-properties count re-encoded, a dismount flag added to player position, the combat event split
  * into three packets, and the unused entity-movement packet dropped. */
module Entity1_17 {
  import opened Wrappers
  import opened Packets
  import EntityTrackers

  /** The 1.17 clientbound packets these handlers produce. Their numeric ids are not part of this model;
    * every handler is given them as a function. */
  datatype Clientbound1_17 = RemoveEntity | CombatEnter | CombatEnd | CombatKill

  /** The single-entity remove packets, one per id, in array order. */
  function RemovePackets(removeId: int, ids: seq<int>): (r: seq<Packet>)
    ensures |r| == |ids|
    ensures forall i :: 0 <= i < |ids| ==> r[i] == Packet(removeId, [Field(VarInt, IntV(ids[i]))])
  {
    if |ids| == 0 then [] else RemovePackets(removeId, ids[..|ids| - 1]) + [Packet(removeId, [Field(VarInt, IntV(ids[|ids| - 1]))])]
  }

  predicate WellFormedDestroy(fs: seq<Field>) {
    HasLayout(fs, [VarIntArray]) && fs[0].value.IntsV?
  }

  /** Destroy entities: the packet is cancelled; each id is forgotten by the tracker and announced in a
    * remove packet of its own. */
  method DestroyEntities<T(==)>(w: PacketWrapper, tracker: EntityTrackers.EntityTracker1_14_1<T>,
                                packetIds: Clientbound1_17 -> int) returns (r: Result<()>)
    modifies w, tracker
    ensures r.Success? <==> WellFormedDestroy(old(w.input))
    ensures r.Success? ==>
      var ids := old(w.input)[0].value.ints;
      w.cancelled && w.input == old(w.input)[1..] && w.output == old(w.output) &&
      w.sent == old(w.sent) + RemovePackets(packetIds(RemoveEntity), ids) &&
      tracker.clientEntityTypes == old(tracker.clientEntityTypes) - set i | 0 <= i < |ids| :: ids[i]
    ensures r.Failure? ==> w.cancelled == old(w.cancelled) && w.sent == old(w.sent) &&
                           tracker.clientEntityTypes == old(tracker.clientEntityTypes)
    ensures w.id == old(w.id) && tracker.clientEntityId == old(tracker.clientEntityId)
  {
    var value :- w.Read(VarIntArray);
    if !value.IntsV? {
      return Failure("entity ids are not an int array");
    }
    var ids := value.ints;
    w.Cancel();
    var removeId := packetIds(RemoveEntity);
    var k := 0;
    while k < |ids|
      invariant 0 <= k <= |ids|
      invariant w.sent == old(w.sent) + RemovePackets(removeId, ids[..k])
      invariant tracker.clientEntityTypes == old(tracker.clientEntityTypes) - set i | 0 <= i < k :: ids[i]
      invariant w.cancelled && w.input == old(w.input)[1..] && w.output == old(w.output) && w.id == old(w.id)
      invariant tracker.clientEntityId == old(tracker.clientEntityId)
    {
      ForgetNext(tracker.clientEntityTypes, old(tracker.clientEntityTypes), ids, k);
      RemovePacketsNext(removeId, ids, k);
      tracker.RemoveEntity(ids[k]);
      w.Send(removeId, [Field(VarInt, IntV(ids[k]))]);
      k := k + 1;
    }
    assert ids[..k] == ids;
    r := Success(());
  }

  /** The remove packets for one more id are those before it followed by its own. */
  lemma RemovePacketsNext(removeId: int, ids: seq<int>, k: nat)
    requires k < |ids|
    ensures RemovePackets(removeId, ids[..k + 1]) ==
            RemovePackets(removeId, ids[..k]) + [Packet(removeId, [Field(VarInt, IntV(ids[k]))])]
  {
    assert ids[..k + 1][..k] == ids[..k];
  }

  /** Forgetting one more id of `ids` from what is left of `prior`. */
  lemma ForgetNext<T>(current: map<int, T>, prior: map<int, T>, ids: seq<int>, k: nat)
    requires k < |ids| && current == prior - set i | 0 <= i < k :: ids[i]
    ensures current - {ids[k]} == prior - set i | 0 <= i < k + 1 :: ids[i]
  {
    assert (set i | 0 <= i < k + 1 :: ids[i]) == (set i | 0 <= i < k :: ids[i]) + {ids[k]};
  }

  /** After destroy-entities, none of the destroyed ids is tracked and every other id keeps its type. */
  lemma DestroyedUntracked<T>(prior: map<int, T>, ids: seq<int>, id: int)
    ensures var after := prior - set i | 0 <= i < |ids| :: ids[i];
      (id in ids ==> id !in after) &&
      (id !in ids && id in prior ==> id in after && after[id] == prior[id])
  {
    if id in ids {
      var i :| 0 <= i < |ids| && ids[i] == id;
      assert id in set j | 0 <= j < |ids| :: ids[j];
    }
  }

  predicate WellFormedProperties(fs: seq<Field>) {
    HasLayout(fs, [VarInt, Int])
  }

  /** Entity properties: after the entity id, the collection length read as an int is written back as a
    * var-int with the same value. */
  method EntityProperties(w: PacketWrapper) returns (r: Result<()>)
    modifies w
    ensures r.Success? <==> WellFormedProperties(old(w.input))
    ensures r.Success? ==>
      w.output == old(w.output) + [old(w.input)[0], Field(VarInt, old(w.input)[1].value)] &&
      w.input == old(w.input)[2..]
    ensures w.id == old(w.id) && w.cancelled == old(w.cancelled) && w.sent == old(w.sent)
  {
    var entity :- w.Passthrough(VarInt);
    var length := w.Read(Int);
    if length.Failure? {
      return Failure(length.error);
    }
    w.Write(VarInt, length.value);
    r := Success(());
  }

  /** The player-position fields: x, y, z, yaw, pitch, relative flags, teleport id. */
  const PlayerPositionLayout: seq<FieldType> := [Double, Double, Double, Float, Float, Byte, VarInt]

  /** Player position: the seven fields pass through and a false dismount-vehicle flag follows them. */
  method PlayerPosition(w: PacketWrapper) returns (r: Result<()>)
    modifies w
    ensures r.Success? <==> HasLayout(old(w.input), PlayerPositionLayout)
    ensures r.Success? ==>
      w.output == old(w.output) + old(w.input)[..7] + [Field(Boolean, BoolV(false))] &&
      w.input == old(w.input)[7..]
    ensures w.id == old(w.id) && w.cancelled == old(w.cancelled) && w.sent == old(w.sent)
  {
    var fields :- w.PassthroughAll(PlayerPositionLayout);
    w.Write(Boolean, BoolV(false));
    r := Success(());
  }

  /** The packet a combat event type becomes; any type other than 0, 1 and 2 is invalid. */
  function CombatPacket(combatType: int): (r: Option<Clientbound1_17>)
    ensures r == Some(CombatEnter) <==> combatType == 0
    ensures r == Some(CombatEnd) <==> combatType == 1
    ensures r == Some(CombatKill) <==> combatType == 2
    ensures r.None? <==> !(0 <= combatType <= 2)
  {
    if combatType == 0 then Some(CombatEnter)
    else if combatType == 1 then Some(CombatEnd)
    else if combatType == 2 then Some(CombatKill)
    else None
  }

  predicate WellFormedCombat(fs: seq<Field>) {
    HasLayout(fs, [VarInt]) && fs[0].value.IntV? && CombatPacket(fs[0].value.n).Some?
  }

  /** Combat event: the type field is consumed and picks the packet the rest of the content is sent as;
    * an unknown type is an error. */
  method CombatEvent(w: PacketWrapper, packetIds: Clientbound1_17 -> int) returns (r: Result<()>)
    modifies w
    ensures r.Success? <==> WellFormedCombat(old(w.input))
    ensures r.Success? ==>
      w.id == packetIds(CombatPacket(old(w.input)[0].value.n).value) &&
      w.input == old(w.input)[1..] && w.output == old(w.output)
    ensures r.Failure? ==> w.id == old(w.id)
    ensures w.cancelled == old(w.cancelled) && w.sent == old(w.sent)
  {
    var combatType :- w.Read(VarInt);
    if !combatType.IntV? {
      return Failure("combat type is not an int");
    }
    match CombatPacket(combatType.n)
    case None =>
      r := Failure("Invalid combat type received");
    case Some(packet) =>
      w.SetId(packetIds(packet));
      r := Success(());
  }

  /** Entity movement: always cancelled. */
  method EntityMovement(w: PacketWrapper)
    modifies w
    ensures w.cancelled
    ensures w.id == old(w.id) && w.input == old(w.input) && w.output == old(w.output) && w.sent == old(w.sent)
  {
    w.Cancel();
  }
}
