/** The 1.13 to 1.13.1 translation: block-state and block ids shifted around the blocks 1.13.1 inserted,
  * and the packets whose layout changed. */
module Protocol1_13_1 {
  import opened Wrappers
  import opened Packets
  import opened LegacyTypes
  import Inventory1_13_1
  import Bytes
  import Connections

  /** `getNewBlockStateId`: the states of the inserted blocks are skipped over, and the five states from 8459
    * on are spread two apart. The last branch is a Java `int` sum and wraps for the seventeen largest ids. */
  function NewBlockStateId(id: int): (r: int)
    ensures id <= 1126 ==> r == id
    ensures id < Bytes.TWO_31 - 17 ==> id <= r <= id + 17
    ensures Bytes.IsInt32(id) ==> Bytes.IsInt32(r)
    ensures Bytes.IsInt32(id) && id >= Bytes.TWO_31 - 17 ==> r == id + 17 - Bytes.TWO_32
  {
    if id > 8573 then Bytes.IntAdd(id, 17)
    else if id > 8463 then id + 16
    else if id > 8458 then 8470 + (id - 8459) * 2
    else if id > 1126 then id + 1
    else id
  }

  /** Below the wrap the state shift is strictly increasing, so no two old states meet in one new state. */
  lemma NewBlockStateIdIncreasing(a: int, b: int)
    requires a < b < Bytes.TWO_31 - 17
    ensures NewBlockStateId(a) < NewBlockStateId(b)
  {
  }

  /** Across the wrap two states do meet: the largest `int` less sixteen lands where the smallest stays. */
  lemma NewBlockStateIdWraps()
    ensures NewBlockStateId(Bytes.TWO_31 - 17) == NewBlockStateId(-Bytes.TWO_31) == -Bytes.TWO_31
  {
  }

  /** `getNewBlockId`: the five inserted blocks sit at 561; the Java `int` sum wraps for the five largest ids. */
  function NewBlockId(id: int): (r: int)
    ensures id < 561 ==> r == id
    ensures 561 <= id < Bytes.TWO_31 - 5 ==> r == id + 5
    ensures Bytes.IsInt32(id) ==> Bytes.IsInt32(r) && (r < 561 || r >= 566)
    ensures Bytes.IsInt32(id) && id >= Bytes.TWO_31 - 5 ==> r == id + 5 - Bytes.TWO_32
  {
    if id >= 561 then Bytes.IntAdd(id, 5) else id
  }

  /** Below the wrap the block shift is strictly increasing. */
  lemma NewBlockIdIncreasing(a: int, b: int)
    requires a < b < Bytes.TWO_31 - 5
    ensures NewBlockId(a) < NewBlockId(b)
  {
  }

  /** A tab-complete text with exactly one leading slash removed, when it has one. */
  function StripSlash(text: string): (r: string)
    ensures |text| > 0 && text[0] == '/' ==> "/" + r == text
    ensures !(|text| > 0 && text[0] == '/') ==> r == text
  {
    if |text| > 0 && text[0] == '/' then text[1..] else text
  }

  /** Serverbound tab complete: the transaction id passes, the text loses its leading slash. */
  method TabCompleteIncoming(w: PacketWrapper) returns (r: Result<()>)
    modifies w
    ensures r.Success? <==> HasLayout(old(w.input), [VarInt, Str]) && old(w.input)[1].value.StrV?
    ensures r.Success? ==>
      w.output == old(w.output) + [old(w.input)[0], Field(Str, StrV(StripSlash(old(w.input)[1].value.s)))] &&
      w.input == old(w.input)[2..]
    ensures w.id == old(w.id) && w.cancelled == old(w.cancelled) && w.sent == old(w.sent)
  {
    var transaction :- w.Passthrough(VarInt);
    var text :- w.Read(Str);
    if !text.StrV? {
      return Failure("text is not a string");
    }
    w.Write(Str, StrV(StripSlash(text.s)));
    r := Success(());
  }

  /** The input the edit book handler accepts: the book, the signing flag and the hand. */
  predicate WellFormedEditBook(fs: seq<Field>) {
    HasLayout(fs, [FlatItem, Boolean, VarInt]) && fs[0].value.ItemV? && fs[2].value.IntV?
  }

  /** Serverbound edit book: the book item goes back to the 1.13 ids, the signing flag passes, and the hand
    * field is dropped; a book in the off hand (hand 1) cancels the packet. */
  method EditBook(w: PacketWrapper) returns (r: Result<()>)
    modifies w
    requires w.output == []
    ensures r.Success? <==> WellFormedEditBook(old(w.input))
    ensures r.Success? ==>
      w.output == [Field(FlatItem, ItemV(Inventory1_13_1.ToServer(old(w.input)[0].value.item))), old(w.input)[1]] &&
      w.input == old(w.input)[3..] &&
      w.cancelled == (old(w.cancelled) || old(w.input)[2].value.n == 1)
    ensures w.id == old(w.id) && w.sent == old(w.sent)
  {
    ghost var fs := w.input;
    var book := PassBook(w);
    if book.Failure? {
      return Failure(book.error);
    }
    assert w.input == fs[2..];
    var hand :- w.Read(VarInt);
    if !hand.IntV? {
      return Failure("hand is not an int");
    }
    if hand.n == 1 {
      w.Cancel();
    }
    r := Success(());
  }

  /** The book item, turned back to the 1.13 ids, and the signing flag of an edit-book packet. */
  method PassBook(w: PacketWrapper) returns (r: Result<()>)
    modifies w
    requires w.output == []
    ensures r.Success? <==> HasLayout(old(w.input), [FlatItem, Boolean]) && old(w.input)[0].value.ItemV?
    ensures r.Success? ==>
      w.output == [Field(FlatItem, ItemV(Inventory1_13_1.ToServer(old(w.input)[0].value.item))), old(w.input)[1]] &&
      w.input == old(w.input)[2..]
    ensures w.id == old(w.id) && w.cancelled == old(w.cancelled) && w.sent == old(w.sent)
  {
    var book :- w.Passthrough(FlatItem);
    var signing :- w.Passthrough(Boolean);
    var item := w.Get(FlatItem, 0);
    if item.Failure? || !item.value.ItemV? {
      return Failure("book is not an item");
    }
    var updated := w.Set(FlatItem, 0, ItemV(Inventory1_13_1.ToServer(item.value.item)));
    r := Success(());
  }

  /** Where the suggestion starting at index `at` ends: the text, a tooltip flag, and the tooltip when set. */
  function SuggestionEnd(fs: seq<Field>, at: nat): (r: Option<nat>)
    ensures r.Some? ==> at + 2 <= r.value <= |fs|
  {
    if !(at + 2 <= |fs| && fs[at].ty == Str && fs[at + 1].ty == Boolean) then None
    else if fs[at + 1].value.BoolV? && fs[at + 1].value.b then
      (if at + 3 <= |fs| && fs[at + 2].ty == Str then Some(at + 3) else None)
    else Some(at + 2)
  }

  /** Where `count` suggestions starting at index `at` end. */
  function SuggestionsEnd(fs: seq<Field>, at: nat, count: int): (r: Option<nat>)
    ensures r.Some? ==> at <= r.value <= |fs| || (count <= 0 && r.value == at)
    decreases count
  {
    if count <= 0 then Some(at)
    else match SuggestionEnd(fs, at)
      case None => None
      case Some(next) => SuggestionsEnd(fs, next, count - 1)
  }

  /** Passes the suggestion at index `at` of `fs` through. */
  method PassSuggestion(w: PacketWrapper, ghost fs: seq<Field>, ghost at: nat) returns (r: Result<()>)
    modifies w
    requires at <= |fs| && w.input == fs[at..]
    ensures r.Success? <==> SuggestionEnd(fs, at).Some?
    ensures r.Success? ==> var e := SuggestionEnd(fs, at).value;
      w.input == fs[e..] && w.output == old(w.output) + fs[at..e]
    ensures w.id == old(w.id) && w.cancelled == old(w.cancelled) && w.sent == old(w.sent)
  {
    var text :- w.Passthrough(Str);
    var hasTooltip :- w.Passthrough(Boolean);
    assert fs[at..at + 2] == [fs[at], fs[at + 1]];
    if hasTooltip.BoolV? && hasTooltip.b {
      var tooltip :- w.Passthrough(Str);
      assert fs[at..at + 3] == [fs[at], fs[at + 1], fs[at + 2]];
    }
    r := Success(());
  }

  /** Passes `count` suggestions starting at index `at` of `fs` through. */
  method PassSuggestions(w: PacketWrapper, ghost fs: seq<Field>, ghost at: nat, count: int) returns (r: Result<()>)
    modifies w
    requires at <= |fs| && w.input == fs[at..]
    ensures r.Success? <==> SuggestionsEnd(fs, at, count).Some?
    ensures r.Success? ==> var e := SuggestionsEnd(fs, at, count).value;
      w.input == fs[e..] && w.output == old(w.output) + fs[at..e]
    ensures w.id == old(w.id) && w.cancelled == old(w.cancelled) && w.sent == old(w.sent)
  {
    ghost var out := w.output;
    var i := 0;
    ghost var pos: nat := at;
    while i < count
      invariant 0 <= i && (count >= 0 ==> i <= count)
      invariant at <= pos <= |fs|
      invariant w.input == fs[pos..] && w.output == out + fs[at..pos]
      invariant SuggestionsEnd(fs, at, count) == SuggestionsEnd(fs, pos, count - i)
      invariant w.id == old(w.id) && w.cancelled == old(w.cancelled) && w.sent == old(w.sent)
      decreases count - i
    {
      var suggestion := PassSuggestion(w, fs, pos);
      if suggestion.Failure? {
        return Failure(suggestion.error);
      }
      ghost var next := SuggestionEnd(fs, pos).value;
      assert fs[at..next] == fs[at..pos] + fs[pos..next];
      pos := next;
      i := i + 1;
    }
    r := Success(());
  }

  /** The input a clientbound tab complete handler accepts: transaction id, start, length and count, then
    * `count` suggestions. */
  predicate WellFormedTabComplete(fs: seq<Field>) {
    HasLayout(fs, [VarInt, VarInt, VarInt, VarInt]) && fs[1].value.IntV? && fs[3].value.IntV? &&
    SuggestionsEnd(fs, 4, fs[3].value.n).Some?
  }

  /** The first four fields with the second replaced. */
  lemma ReplaceSecond(fs: seq<Field>, f: Field)
    requires |fs| >= 4
    ensures fs[..4][1 := f] == fs[..1] + [f] + fs[2..4]
  {
  }

  /** The four leading fields of a clientbound tab complete, with the start moved one on (a Java `int`
    * sum); the result is the suggestion count. */
  method PassTabCompleteHeader(w: PacketWrapper) returns (r: Result<int>)
    modifies w
    requires w.output == []
    ensures r.Success? <==>
      HasLayout(old(w.input), [VarInt, VarInt, VarInt, VarInt]) && old(w.input)[1].value.IntV? && old(w.input)[3].value.IntV?
    ensures r.Success? ==>
      r.value == old(w.input)[3].value.n && w.input == old(w.input)[4..] &&
      w.output == old(w.input)[..1] + [Field(VarInt, IntV(Bytes.IntAdd(old(w.input)[1].value.n, 1)))] + old(w.input)[2..4]
    ensures w.id == old(w.id) && w.cancelled == old(w.cancelled) && w.sent == old(w.sent)
  {
    ghost var fs := w.input;
    var head :- w.PassthroughAll([VarInt, VarInt, VarInt, VarInt]);
    CountUniform(fs[..1], VarInt);
    CountUniform(fs[..3], VarInt);
    assert fs[..4][..1] == fs[..1] && fs[..4][..3] == fs[..3];
    assert w.output[..1] == fs[..1] && w.output[..3] == fs[..3];
    PositionOfAt(w.output, VarInt, 1, 1);
    PositionOfAt(w.output, VarInt, 3, 3);
    var start := w.Get(VarInt, 1);
    if start.Failure? || !start.value.IntV? {
      return Failure("start is not an int");
    }
    var updated := w.Set(VarInt, 1, IntV(Bytes.IntAdd(start.value.n, 1)));
    CountUniform(w.output[..3], VarInt);
    PositionOfAt(w.output, VarInt, 3, 3);
    var count := w.Get(VarInt, 3);
    if count.Failure? || !count.value.IntV? {
      return Failure("count is not an int");
    }
    ReplaceSecond(fs, Field(VarInt, IntV(Bytes.IntAdd(fs[1].value.n, 1))));
    r := Success(count.value.n);
  }

  /** Clientbound tab complete: the start index moves one on (a Java `int` sum), to count the slash the
    * 1.13 client types, and the suggestions with their optional tooltips pass through. */
  method TabCompleteOutgoing(w: PacketWrapper) returns (r: Result<()>)
    modifies w
    requires w.output == []
    ensures r.Success? <==> WellFormedTabComplete(old(w.input))
    ensures r.Success? ==> var e := SuggestionsEnd(old(w.input), 4, old(w.input)[3].value.n).value;
      w.output == old(w.input)[..1] + [Field(VarInt, IntV(Bytes.IntAdd(old(w.input)[1].value.n, 1)))] + old(w.input)[2..e] &&
      w.input == old(w.input)[e..]
    ensures w.id == old(w.id) && w.cancelled == old(w.cancelled) && w.sent == old(w.sent)
  {
    ghost var fs := w.input;
    var count :- PassTabCompleteHeader(w);
    ghost var start' := fs[..1] + [Field(VarInt, IntV(Bytes.IntAdd(fs[1].value.n, 1)))];
    r := PassSuggestions(w, fs, 4, count);
    if r.Success? {
      ghost var e := SuggestionsEnd(fs, 4, count).value;
      SliceSplit(fs, 2, 4, e);
      AppendAssoc(start', fs[2..4], fs[4..e]);
    }
  }

  /** The bossbar flags as written back: when "play boss music" (0x02) is set, "create fog" (0x04) is set too.
    * The flags are read as a signed byte and written as an unsigned byte, so they are taken modulo 256. */
  function BossbarFlags(flags: int): (r: bv8)
    ensures ((flags % 256) as bv8) & 0x02 != 0 ==> r & 0x04 != 0
    ensures r & 0xFB == ((flags % 256) as bv8) & 0xFB
    ensures r & 0x04 != 0 <==> ((flags % 256) as bv8) & 0x06 != 0
  {
    var b := (flags % 256) as bv8;
    if b & 0x02 != 0 then b | 0x04 else b
  }

  /** The input the bossbar handler accepts: uuid and action, and for the "add" action the five fields of a
    * new bar. */
  predicate WellFormedBossbar(fs: seq<Field>) {
    HasLayout(fs, [Uuid, VarInt]) && fs[1].value.IntV? &&
    (fs[1].value.n == 0 ==> HasLayout(fs, [Uuid, VarInt, Component, Float, VarInt, VarInt, Byte]) && fs[6].value.IntV?)
  }

  /** The fields of a new bar after the uuid and action: title, health, colour and division pass through and
    * the flags are widened. */
  method PassNewBar(w: PacketWrapper, ghost fs: seq<Field>) returns (r: Result<()>)
    modifies w
    requires HasLayout(fs, [Uuid, VarInt]) && w.input == fs[2..] && w.output == fs[..2]
    ensures r.Success? <==> HasLayout(fs, [Uuid, VarInt, Component, Float, VarInt, VarInt, Byte]) && fs[6].value.IntV?
    ensures r.Success? ==>
      w.output == fs[..6] + [Field(UnsignedByte, IntV(BossbarFlags(fs[6].value.n) as int))] && w.input == fs[7..]
    ensures w.id == old(w.id) && w.cancelled == old(w.cancelled) && w.sent == old(w.sent)
  {
    HasLayoutSplit(fs, [Uuid, VarInt], [Component, Float, VarInt, VarInt, Byte]);
    HasLayoutSplit(fs[2..], [Component, Float, VarInt, VarInt], [Byte]);
    var body := w.PassthroughAll([Component, Float, VarInt, VarInt]);
    if body.Failure? {
      return Failure(body.error);
    }
    assert fs[2..][4..] == fs[6..];
    var flags := w.Read(Byte);
    if flags.Failure? || !flags.value.IntV? {
      return Failure("flags are not a byte");
    }
    w.Write(UnsignedByte, IntV(BossbarFlags(flags.value.n) as int));
    assert fs[..6] == fs[..2] + fs[2..][..4];
    r := Success(());
  }

  /** Clientbound bossbar: for the "add" action (0) the title, health, colour and division pass through and
    * the flags are widened as `BossbarFlags` says; every other action only passes the uuid and action. */
  method Bossbar(w: PacketWrapper) returns (r: Result<()>)
    modifies w
    requires w.output == []
    ensures r.Success? <==> WellFormedBossbar(old(w.input))
    ensures r.Success? && old(w.input)[1].value.n != 0 ==> w.output == old(w.input)[..2] && w.input == old(w.input)[2..]
    ensures r.Success? && old(w.input)[1].value.n == 0 ==>
      w.output == old(w.input)[..6] + [Field(UnsignedByte, IntV(BossbarFlags(old(w.input)[6].value.n) as int))] &&
      w.input == old(w.input)[7..]
    ensures w.id == old(w.id) && w.cancelled == old(w.cancelled) && w.sent == old(w.sent)
  {
    ghost var fs := w.input;
    var head :- w.PassthroughAll([Uuid, VarInt]);
    assert Count(fs[..2][..1], VarInt) == 0;
    PositionOfAt(w.output, VarInt, 0, 1);
    var action := w.Get(VarInt, 0);
    if action.Failure? || !action.value.IntV? {
      return Failure("action is not an int");
    }
    if action.value.n == 0 {
      r := PassNewBar(w, fs);
    } else {
      r := Success(());
    }
  }

  /** Every id of `ids` rewritten with `f`. */
  function MapIds(f: int -> int, ids: seq<int>): (r: seq<int>)
    ensures |r| == |ids|
    ensures forall j :: 0 <= j < |ids| ==> r[j] == f(ids[j])
  {
    seq(|ids|, j requires 0 <= j < |ids| => f(ids[j]))
  }

  /** Rewrites every id of `ids` in place with `f`. */
  method RewriteIds(ids: array<int>, f: int -> int)
    modifies ids
    ensures ids[..] == MapIds(f, old(ids[..]))
  {
    var j := 0;
    while j < ids.Length
      invariant 0 <= j <= ids.Length
      invariant forall k :: 0 <= k < j ==> ids[k] == f(old(ids[k]))
      invariant forall k :: j <= k < ids.Length ==> ids[k] == old(ids[k])
    {
      ids[j] := f(ids[j]);
      j := j + 1;
    }
  }

  /** A tag entry field as the tags handler leaves it: id arrays rewritten with `f`, names untouched. */
  function TagField(f: int -> int, field: Field): Field {
    if field.ty == VarIntArray && field.value.IntsV? then
      Field(VarIntArray, IntsV(MapIds(f, field.value.ints)))
    else field
  }

  function TagFields(f: int -> int, fs: seq<Field>): (r: seq<Field>)
    ensures |r| == |fs|
    ensures forall i :: 0 <= i < |fs| ==> r[i] == TagField(f, fs[i])
  {
    seq(|fs|, i requires 0 <= i < |fs| => TagField(f, fs[i]))
  }

  lemma TagFieldsAppend(f: int -> int, a: seq<Field>, b: seq<Field>)
    ensures TagFields(f, a + b) == TagFields(f, a) + TagFields(f, b)
  {
    assert forall i :: 0 <= i < |a + b| ==> TagFields(f, a + b)[i] == (TagFields(f, a) + TagFields(f, b))[i];
  }

  /** Where `count` tags, each a name and an array of ids, starting at index `at` end. */
  function TagsEnd(fs: seq<Field>, at: nat, count: int): (r: Option<nat>)
    ensures r.Some? ==> at <= r.value <= |fs| || (count <= 0 && r.value == at)
    decreases count
  {
    if count <= 0 then Some(at)
    else if at + 2 <= |fs| && fs[at].ty == Str && fs[at + 1].ty == VarIntArray && fs[at + 1].value.IntsV? then
      TagsEnd(fs, at + 2, count - 1)
    else None
  }

  /** Passes one tag through, rewriting its id array in place. */
  method PassTag(w: PacketWrapper, ghost fs: seq<Field>, ghost at: nat, f: int -> int) returns (r: Result<()>)
    modifies w
    requires at <= |fs| && w.input == fs[at..]
    ensures r.Success? <==>
      at + 2 <= |fs| && fs[at].ty == Str && fs[at + 1].ty == VarIntArray && fs[at + 1].value.IntsV?
    ensures r.Success? ==> w.input == fs[at + 2..] && w.output == old(w.output) + TagFields(f, fs[at..at + 2])
    ensures w.id == old(w.id) && w.cancelled == old(w.cancelled) && w.sent == old(w.sent)
  {
    var name :- w.Passthrough(Str);
    var entries :- w.Read(VarIntArray);
    if !entries.IntsV? {
      return Failure("tag entries are not an id array");
    }
    var ids := new int[|entries.ints|](j requires 0 <= j < |entries.ints| => entries.ints[j]);
    assert ids[..] == entries.ints;
    RewriteIds(ids, f);
    w.Write(VarIntArray, IntsV(ids[..]));
    assert TagFields(f, fs[at..at + 2]) == [fs[at], TagField(f, fs[at + 1])];
    r := Success(());
  }

  /** Passes the next tag, at index `pos`, after those from index `at` already written. */
  method PassNextTag(w: PacketWrapper, ghost fs: seq<Field>, ghost at: nat, ghost pos: nat, f: int -> int,
                     ghost out: seq<Field>) returns (r: Result<()>)
    modifies w
    requires at <= pos <= |fs| && w.input == fs[pos..] && w.output == out + TagFields(f, fs[at..pos])
    ensures r.Success? <==>
      pos + 2 <= |fs| && fs[pos].ty == Str && fs[pos + 1].ty == VarIntArray && fs[pos + 1].value.IntsV?
    ensures r.Success? ==> w.input == fs[pos + 2..] && w.output == out + TagFields(f, fs[at..pos + 2])
    ensures w.id == old(w.id) && w.cancelled == old(w.cancelled) && w.sent == old(w.sent)
  {
    r := PassTag(w, fs, pos, f);
    if r.Success? {
      assert fs[at..pos + 2] == fs[at..pos] + fs[pos..pos + 2];
      TagFieldsAppend(f, fs[at..pos], fs[pos..pos + 2]);
      AppendAssoc(out, TagFields(f, fs[at..pos]), TagFields(f, fs[pos..pos + 2]));
    }
  }

  /** Passes `count` tags starting at index `at` of `fs` through, rewriting their id arrays with `f`. */
  method PassTags(w: PacketWrapper, ghost fs: seq<Field>, ghost at: nat, count: int, f: int -> int)
    returns (r: Result<()>)
    modifies w
    requires at <= |fs| && w.input == fs[at..]
    ensures r.Success? <==> TagsEnd(fs, at, count).Some?
    ensures r.Success? ==> var e := TagsEnd(fs, at, count).value;
      w.input == fs[e..] && w.output == old(w.output) + TagFields(f, fs[at..e])
    ensures w.id == old(w.id) && w.cancelled == old(w.cancelled) && w.sent == old(w.sent)
  {
    ghost var out := w.output;
    var i := 0;
    ghost var pos: nat := at;
    assert fs[at..at] == [];
    while i < count
      invariant 0 <= i && (count >= 0 ==> i <= count)
      invariant at <= pos <= |fs|
      invariant w.input == fs[pos..] && w.output == out + TagFields(f, fs[at..pos])
      invariant TagsEnd(fs, at, count) == TagsEnd(fs, pos, count - i)
      invariant w.id == old(w.id) && w.cancelled == old(w.cancelled) && w.sent == old(w.sent)
      decreases count - i
    {
      var tag := PassNextTag(w, fs, at, pos, f, out);
      if tag.Failure? {
        return Failure(tag.error);
      }
      pos := pos + 2;
      i := i + 1;
    }
    r := Success(());
  }

  /** The input the tags handler accepts: a count and that many block tags, then a count and that many item
    * tags; the fluid tags after them are not read. */
  predicate WellFormedTags(fs: seq<Field>) {
    HasLayout(fs, [VarInt]) && fs[0].value.IntV? &&
    TagsEnd(fs, 1, fs[0].value.n).Some? &&
    var b := TagsEnd(fs, 1, fs[0].value.n).value;
    b < |fs| && fs[b].ty == VarInt && fs[b].value.IntV? &&
    TagsEnd(fs, b + 1, fs[b].value.n).Some?
  }

  /** Where the block tags of a well-formed tags packet end (the index of the item tag count). */
  function BlockTagsEnd(fs: seq<Field>): (b: nat)
    requires WellFormedTags(fs)
    ensures 1 <= b < |fs|
  {
    TagsEnd(fs, 1, fs[0].value.n).value
  }

  /** Where the item tags of a well-formed tags packet end. */
  function ItemTagsEnd(fs: seq<Field>): (e: nat)
    requires WellFormedTags(fs)
    ensures BlockTagsEnd(fs) < e <= |fs|
  {
    var b := BlockTagsEnd(fs);
    TagsEnd(fs, b + 1, fs[b].value.n).value
  }

  /** Clientbound tags: the block tags' ids get the new block ids and the item tags' ids the new item ids;
    * the rest of the packet (the fluid tags) is left as it is. */
  method Tags(w: PacketWrapper) returns (r: Result<()>)
    modifies w
    ensures r.Success? <==> WellFormedTags(old(w.input))
    ensures r.Success? ==> var b, e := BlockTagsEnd(old(w.input)), ItemTagsEnd(old(w.input));
      w.output == old(w.output) + [old(w.input)[0]] + TagFields(NewBlockId, old(w.input)[1..b]) +
        [old(w.input)[b]] + TagFields(Inventory1_13_1.NewItemId, old(w.input)[b + 1..e]) &&
      w.input == old(w.input)[e..]
    ensures w.id == old(w.id) && w.cancelled == old(w.cancelled) && w.sent == old(w.sent)
  {
    ghost var fs := w.input;
    var blockTags :- w.Passthrough(VarInt);
    if !blockTags.IntV? {
      return Failure("block tag count is not an int");
    }
    var blocks :- PassTags(w, fs, 1, blockTags.n, NewBlockId);
    ghost var b := TagsEnd(fs, 1, blockTags.n).value;
    var itemTags := w.Passthrough(VarInt);
    if itemTags.Failure? {
      return Failure(itemTags.error);
    }
    if !itemTags.value.IntV? {
      return Failure("item tag count is not an int");
    }
    assert fs[b..][1..] == fs[b + 1..];
    var items :- PassTags(w, fs, b + 1, itemTags.value.n, Inventory1_13_1.NewItemId);
    r := Success(());
  }

  /** `init`: a new 1.13 entity tracker always replaces the old one; a client world is only created when the
    * connection has none. */
  method Init(connection: Connections.UserConnection)
    modifies connection
    ensures "EntityTracker1_13" in connection.storage &&
      connection.storage["EntityTracker1_13"] == Connections.Stored("EntityTracker1_13", old(connection.created))
    ensures "ClientWorld" in connection.storage
    ensures old(connection.Has("ClientWorld")) ==> connection.storage["ClientWorld"] == old(connection.storage["ClientWorld"])
    ensures !old(connection.Has("ClientWorld")) ==>
      connection.storage["ClientWorld"] == Connections.Stored("ClientWorld", old(connection.created) + 1)
    ensures forall cls :: cls != "EntityTracker1_13" && cls != "ClientWorld" ==>
      (cls in connection.storage <==> cls in old(connection.storage))
    ensures forall cls :: cls in old(connection.storage) && cls != "EntityTracker1_13" && cls != "ClientWorld" ==>
      connection.storage[cls] == old(connection.storage)[cls]
  {
    connection.PutNew("EntityTracker1_13");
    if !connection.Has("ClientWorld") {
      connection.PutNew("ClientWorld");
    }
  }
}
