/** The 1.20.2 to 1.20.3 packet handlers that do not touch text components: score updates split into
  * update and reset, jigsaw priorities dropped, and resource-pack status answers narrowed. */
module Protocol1_20_3 {
  import opened Wrappers
  import opened Packets

  predicate WellFormedUpdateScore(fs: seq<Field>) {
    HasLayout(fs, [Str, Byte, Str]) && fs[1].value.IntV? && fs[2].value.StrV? &&
    (fs[1].value.n != 1 ==> HasLayout(fs[3..], [VarInt]))
  }

  /** The objective a reset carries: absent when its name is empty. */
  function ResetObjective(objective: string): (r: Option<string>)
    ensures r.None? <==> objective == ""
    ensures r.Some? ==> r.value == objective
  {
    if objective == "" then None else Some(objective)
  }

  /** Update score. Action 1 becomes the reset-score packet carrying the optional objective; any other
    * action keeps the owner, objective and score, drops the action byte, and gains a null display tag
    * and a false number-format flag. */
  method UpdateScore(w: PacketWrapper, resetScoreId: int) returns (r: Result<()>)
    modifies w
    ensures r.Success? <==> WellFormedUpdateScore(old(w.input))
    ensures r.Success? && old(w.input)[1].value.n == 1 ==>
      w.id == resetScoreId && w.input == old(w.input)[3..] &&
      w.output == old(w.output) + [old(w.input)[0], Field(OptionalString, OptStrV(ResetObjective(old(w.input)[2].value.s)))]
    ensures r.Success? && old(w.input)[1].value.n != 1 ==>
      w.id == old(w.id) && w.input == old(w.input)[4..] &&
      w.output == old(w.output) + [old(w.input)[0], Field(Str, old(w.input)[2].value), old(w.input)[3],
                                   Field(OptionalNbtTag, TagV(None)), Field(Boolean, BoolV(false))]
    ensures w.cancelled == old(w.cancelled) && w.sent == old(w.sent)
  {
    var owner :- w.Passthrough(Str);
    var action :- w.Read(Byte);
    var objective :- w.Read(Str);
    if !action.IntV? || !objective.StrV? {
      return Failure("malformed score update");
    }
    if action.n == 1 {
      w.Write(OptionalString, OptStrV(ResetObjective(objective.s)));
      w.SetId(resetScoreId);
      return Success(());
    }
    ghost var rest := w.input;
    r := ScoreAfterObjective(w, objective);
    if r.Success? {
      assert rest[0] == old(w.input)[3] && rest[1..] == old(w.input)[4..];
      AppendAssoc(old(w.output), [old(w.input)[0]], [Field(Str, objective), rest[0], Field(OptionalNbtTag, TagV(None)),
                                                     Field(Boolean, BoolV(false))]);
    }
  }

  /** The fields of a score update that sets a score, from the objective on: objective, score, a null
    * display tag and a false number-format flag. */
  method ScoreAfterObjective(w: PacketWrapper, objective: Value) returns (r: Result<()>)
    modifies w
    ensures r.Success? <==> HasLayout(old(w.input), [VarInt])
    ensures r.Success? ==>
      w.input == old(w.input)[1..] &&
      w.output == old(w.output) + [Field(Str, objective), old(w.input)[0], Field(OptionalNbtTag, TagV(None)),
                                   Field(Boolean, BoolV(false))]
    ensures w.id == old(w.id) && w.cancelled == old(w.cancelled) && w.sent == old(w.sent)
  {
    w.Write(Str, objective);
    var score :- w.Passthrough(VarInt);
    w.Write(OptionalNbtTag, TagV(None));
    w.Write(Boolean, BoolV(false));
    r := Success(());
  }

  /** Position, name, target, pool, final state, joint type, then the two priorities. */
  const JigsawLayout: seq<FieldType> := [Position, Str, Str, Str, Str, Str, VarInt, VarInt]

  /** Update jigsaw block: the six leading fields pass through and the selection and placement
    * priorities are dropped. */
  method UpdateJigsawBlock(w: PacketWrapper) returns (r: Result<()>)
    modifies w
    ensures r.Success? <==> HasLayout(old(w.input), JigsawLayout)
    ensures r.Success? ==> w.output == old(w.output) + old(w.input)[..6] && w.input == old(w.input)[8..]
    ensures w.id == old(w.id) && w.cancelled == old(w.cancelled) && w.sent == old(w.sent)
  {
    HasLayoutSplit(w.input, JigsawLayout[..6], JigsawLayout[6..]);
    var kept :- w.PassthroughAll(JigsawLayout[..6]);
    HasLayoutSplit(w.input, [VarInt], [VarInt]);
    var selection :- w.Read(VarInt);
    var placement :- w.Read(VarInt);
    r := Success(());
  }

  /** The answer a 1.20.2 server gets for a 1.20.3 resource-pack status: none for "downloaded" (4), which
    * it does not know; "failed download" (2) for the newer failure codes above 4; the action itself otherwise. */
  function ResourcePackAction(action: int): (r: Option<int>)
    ensures r.None? <==> action == 4
    ensures action > 4 ==> r == Some(2)
    ensures action < 4 ==> r == Some(action)
  {
    if action == 4 then None else if action > 4 then Some(2) else Some(action)
  }

  predicate WellFormedResourcePackStatus(fs: seq<Field>) {
    HasLayout(fs, [Uuid, VarInt]) && fs[1].value.IntV?
  }

  /** Resource-pack status: the pack UUID is dropped and the action is narrowed; "downloaded" cancels the packet. */
  method ResourcePackStatus(w: PacketWrapper) returns (r: Result<()>)
    modifies w
    ensures r.Success? <==> WellFormedResourcePackStatus(old(w.input))
    ensures r.Success? ==>
      var answer := ResourcePackAction(old(w.input)[1].value.n);
      w.input == old(w.input)[2..] &&
      (answer.None? ==> w.cancelled && w.output == old(w.output)) &&
      (answer.Some? ==> w.cancelled == old(w.cancelled) && w.output == old(w.output) + [Field(VarInt, IntV(answer.value))])
    ensures w.id == old(w.id) && w.sent == old(w.sent)
  {
    var pack :- w.Read(Uuid);
    var action :- w.Read(VarInt);
    if !action.IntV? {
      return Failure("action is not an int");
    }
    if action.n == 4 {
      w.Cancel();
    } else if action.n > 4 {
      w.Write(VarInt, IntV(2));
    } else {
      w.Write(VarInt, action);
    }
    r := Success(());
  }
}
