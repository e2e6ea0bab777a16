/** The 1.14.4 to 1.15 player packets: join-game and respawn gain the hashed level seed (always 0 here),
  * join-game gains the show-death-screen flag, and both record the client's environment. */
module Player1_15 {
  import opened Wrappers
  import opened Packets
  import Environments
  import EntityTrackers

  predicate WellFormedRespawn(fs: seq<Field>) {
    HasLayout(fs, [Int]) && fs[0].value.IntV?
  }

  /** Respawn: the dimension passes through, becomes the environment, and a zero seed follows it. */
  method Respawn(w: PacketWrapper, world: Environments.ClientWorld) returns (r: Result<()>)
    modifies w, world
    requires w.output == []
    ensures r.Success? <==> WellFormedRespawn(old(w.input))
    ensures r.Success? ==>
      w.output == old(w.input)[..1] + [Field(Long, IntV(0))] && w.input == old(w.input)[1..] &&
      world.environment == Some(Environments.ById(old(w.input)[0].value.n))
    ensures r.Failure? ==> world.environment == old(world.environment)
    ensures w.id == old(w.id) && w.cancelled == old(w.cancelled) && w.sent == old(w.sent)
  {
    var dimension :- w.Passthrough(Int);
    var got := w.Get(Int, 0);
    if got.Failure? || !got.value.IntV? {
      return Failure("dimension is not an int");
    }
    world.SetEnvironment(got.value.n);
    w.Write(Long, IntV(0));
    r := Success(());
  }

  /** The fields join-game reads: entity id, gamemode, dimension, then max players, level type,
    * view distance and reduced-debug flag. */
  const JoinGameLayout: seq<FieldType> := [Int, UnsignedByte, Int, UnsignedByte, Str, VarInt, Boolean]

  predicate WellFormedJoinGame(fs: seq<Field>) {
    HasLayout(fs, JoinGameLayout) && fs[0].value.IntV? && fs[2].value.IntV?
  }

  /** Join game: the player's entity id is tracked as the player (twice, by two handlers; the second add
    * changes nothing), the dimension becomes the environment, a zero seed is inserted after the
    * dimension, and the show-death-screen flag, the negation of the instant-respawn setting, is appended. */
  method JoinGame<T(==)>(w: PacketWrapper, world: Environments.ClientWorld, tracker: EntityTrackers.EntityTracker1_14_1<T>,
                         instantRespawn: bool) returns (r: Result<()>)
    modifies w, world, tracker
    requires w.output == []
    ensures r.Success? <==> WellFormedJoinGame(old(w.input))
    ensures r.Success? ==>
      var fs := old(w.input);
      w.output == fs[..3] + [Field(Long, IntV(0))] + fs[3..7] + [Field(Boolean, BoolV(!instantRespawn))] &&
      w.input == fs[7..] &&
      world.environment == Some(Environments.ById(fs[2].value.n)) &&
      tracker.clientEntityTypes == old(tracker.clientEntityTypes)[fs[0].value.n := tracker.player] &&
      tracker.clientEntityId == old(tracker.clientEntityId)
    ensures w.id == old(w.id) && w.cancelled == old(w.cancelled) && w.sent == old(w.sent)
  {
    HasLayoutSplit(w.input, JoinGameLayout[..3], JoinGameLayout[3..]);
    var head :- w.PassthroughAll(JoinGameLayout[..3]);
    assert w.output[0].ty == Int && w.output[1].ty == UnsignedByte && w.output[2].ty == Int;
    assert w.output[..2][1..] == [w.output[1]] && [w.output[1]][1..] == [];
    assert Count([w.output[1]], Int) == 0;
    PositionOfAt(w.output, Int, 0, 0);
    PositionOfAt(w.output, Int, 1, 2);
    var entity := w.Get(Int, 0);
    if entity.Failure? || !entity.value.IntV? {
      return Failure("entity id is not an int");
    }
    tracker.AddEntity(entity.value.n, tracker.player);
    var dimension := w.Get(Int, 1);
    if dimension.Failure? || !dimension.value.IntV? {
      return Failure("dimension is not an int");
    }
    world.SetEnvironment(dimension.value.n);
    tracker.AddEntity(entity.value.n, tracker.player);
    w.Write(Long, IntV(0));
    assert w.input == old(w.input)[3..];
    var tail := w.PassthroughAll(JoinGameLayout[3..]);
    if tail.Failure? {
      return Failure(tail.error);
    }
    assert old(w.input)[3..][..4] == old(w.input)[3..7];
    assert old(w.input)[3..][4..] == old(w.input)[7..];
    w.Write(Boolean, BoolV(!instantRespawn));
    r := Success(());
  }
}
