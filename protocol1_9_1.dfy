/** The 1.9 to 1.9.1 translation: the join-game dimension widened from a byte to an int, and sound ids
  * shifted past the elytra sound the 1.9 server does not know. */
module Protocol1_9_1 {
  import opened Wrappers
  import opened Packets
  import Connections
  import Bytes

  const JoinGameLayout: seq<FieldType> := [Int, UnsignedByte, Byte, UnsignedByte, UnsignedByte, Str, Boolean]

  /** Join game: seven fields, the third read as a byte and written as an int with the same value. */
  method JoinGame(w: PacketWrapper) returns (r: Result<()>)
    modifies w
    ensures r.Success? <==> HasLayout(old(w.input), JoinGameLayout)
    ensures r.Success? ==>
      w.output == old(w.output) + old(w.input)[..2] + [Field(Int, old(w.input)[2].value)] + old(w.input)[3..7] &&
      w.input == old(w.input)[7..]
    ensures w.id == old(w.id) && w.cancelled == old(w.cancelled) && w.sent == old(w.sent)
  {
    HasLayoutSplit(w.input, JoinGameLayout[..2], JoinGameLayout[2..]);
    assert JoinGameLayout[2..] == [Byte] + JoinGameLayout[3..];
    var first := w.PassthroughAll(JoinGameLayout[..2]);
    if first.Failure? {
      return Failure(first.error);
    }
    HasLayoutSplit(w.input, [Byte], JoinGameLayout[3..]);
    var dimension := w.Read(Byte);
    if dimension.Failure? {
      return Failure(dimension.error);
    }
    w.Write(Int, dimension.value);
    assert w.input == old(w.input)[3..];
    var rest := w.PassthroughAll(JoinGameLayout[3..]);
    if rest.Failure? {
      assert old(w.input)[2..][1..] == old(w.input)[3..];
      return Failure(rest.error);
    }
    assert old(w.input)[3..][..4] == old(w.input)[3..7];
    assert old(w.input)[3..][4..] == old(w.input)[7..];
    r := Success(());
  }

  /** The sound-id shift: every id from 415 on moves up one, freeing 415 for the elytra sound. The sum is a
    * Java `int` sum, so the largest id wraps to the smallest. */
  function NewSoundId(sound: int): (r: int)
    ensures sound < 415 ==> r == sound
    ensures 415 <= sound < Bytes.TWO_31 - 1 ==> r == sound + 1
    ensures Bytes.IsInt32(sound) ==> Bytes.IsInt32(r) && r != 415
    ensures sound == Bytes.TWO_31 - 1 ==> r == -Bytes.TWO_31
  {
    if sound >= 415 then Bytes.IntAdd(sound, 1) else sound
  }

  /** Below the largest `int` the shift is strictly increasing, so no two sounds collide. */
  lemma NewSoundIdIncreasing(a: int, b: int)
    requires a < b < Bytes.TWO_31 - 1
    ensures NewSoundId(a) < NewSoundId(b)
  {
  }

  /** Sound effect: the sound id is passed through, then overwritten with its shifted value. */
  method SoundEffect(w: PacketWrapper) returns (r: Result<()>)
    modifies w
    requires w.output == []
    ensures r.Success? <==> HasLayout(old(w.input), [VarInt]) && old(w.input)[0].value.IntV?
    ensures r.Success? ==>
      w.output == [Field(VarInt, IntV(NewSoundId(old(w.input)[0].value.n)))] && w.input == old(w.input)[1..]
    ensures w.id == old(w.id) && w.cancelled == old(w.cancelled) && w.sent == old(w.sent)
  {
    var p := w.Passthrough(VarInt);
    if p.Failure? {
      return Failure(p.error);
    }
    var got := w.Get(VarInt, 0);
    if got.Failure? || !got.value.IntV? {
      return Failure("sound id is not an int");
    }
    var sound := got.value.n;
    if sound >= 415 {
      var updated := w.Set(VarInt, 0, IntV(Bytes.IntAdd(sound, 1)));
    }
    r := Success(());
  }

  /** `init` stores nothing for this translation. */
  method Init(connection: Connections.UserConnection)
    ensures connection.storage == old(connection.storage)
  {
  }
}
