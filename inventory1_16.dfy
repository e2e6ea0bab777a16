/** The 1.15.2 to 1.16 inventory translation: the item id mapping, the player-head owner id that 1.16 stores
  * as four ints instead of a UUID string, the window types and enchantment ids shifted by the smithing
  * table and soul speed, and the declare-recipes handler that only rewrites the items inside recipes. */
module Inventory1_16 {
  import opened Wrappers
  import opened Bytes
  import opened Nbt
  import opened Packets
  import opened LegacyTypes
  import opened ItemMappings
  import opened Recipes
  import opened Uuids

  // ---------------------------------------------------------------- skull owner id

  /** The 1.15.2 item id of the player head. */
  const PlayerHead := 771

  /** The `SkullOwner` compound of an item tag, when the tag has one. */
  function SkullOwner(tag: Option<map<string, Tag>>): (r: Option<map<string, Tag>>)
    ensures r.Some? <==> tag.Some? && "SkullOwner" in tag.value && tag.value["SkullOwner"].CompoundTag?
    ensures r.Some? ==> tag.value["SkullOwner"] == CompoundTag(r.value)
  {
    if tag.Some? && "SkullOwner" in tag.value && tag.value["SkullOwner"].CompoundTag? then
      Some(tag.value["SkullOwner"].entries)
    else None
  }

  /** The `Id` entry of the skull owner compound, when there is one. */
  function OwnerId(tag: Option<map<string, Tag>>): (r: Option<Tag>)
    ensures r.Some? <==> SkullOwner(tag).Some? && "Id" in SkullOwner(tag).value
    ensures r.Some? ==> r.value == SkullOwner(tag).value["Id"]
  {
    match SkullOwner(tag)
    case None => None
    case Some(owner) => if "Id" in owner then Some(owner["Id"]) else None
  }

  /** The tag with the skull owner's `Id` replaced by `id`. */
  function WithOwnerId(tag: Option<map<string, Tag>>, id: Tag): (r: Option<map<string, Tag>>)
    requires SkullOwner(tag).Some?
    ensures OwnerId(r) == Some(id)
    ensures r.Some? && r.value.Keys == tag.value.Keys
    ensures forall k :: k in tag.value && k != "SkullOwner" ==> r.value[k] == tag.value[k]
    ensures SkullOwner(r).Some? && SkullOwner(r).value.Keys == SkullOwner(tag).value.Keys + {"Id"}
    ensures forall k :: k in SkullOwner(tag).value && k != "Id" ==> SkullOwner(r).value[k] == SkullOwner(tag).value[k]
  {
    Some(tag.value["SkullOwner" := CompoundTag(SkullOwner(tag).value["Id" := id])])
  }

  /** Replacing the owner id twice keeps only the second replacement. */
  lemma WithOwnerIdTwice(tag: Option<map<string, Tag>>, a: Tag, b: Tag)
    requires SkullOwner(tag).Some?
    ensures WithOwnerId(WithOwnerId(tag, a), b) == WithOwnerId(tag, b)
  {
    var owner := SkullOwner(tag).value;
    var once := WithOwnerId(tag, a);
    assert SkullOwner(once) == Some(owner["Id" := a]);
    assert owner["Id" := a]["Id" := b] == owner["Id" := b];
    assert once.value["SkullOwner" := CompoundTag(owner["Id" := b])] == tag.value["SkullOwner" := CompoundTag(owner["Id" := b])];
  }

  /** Putting back the owner id a tag had undoes any replacement of it. */
  lemma WithOwnerIdRestores(tag: Option<map<string, Tag>>, id: Tag)
    requires OwnerId(tag).Some?
    ensures WithOwnerId(WithOwnerId(tag, id), OwnerId(tag).value) == tag
  {
    var owner := SkullOwner(tag).value;
    WithOwnerIdTwice(tag, id, OwnerId(tag).value);
    assert owner["Id" := owner["Id"]] == owner;
    assert tag.value["SkullOwner" := CompoundTag(owner)] == tag.value;
  }

  /** `toClient` on the tag of a player head: a string owner id becomes its four-int form; a string that
    * is not a UUID throws. */
  function SkullToClient(item: Item): (r: Result<Item>)
  {
    if item.identifier == PlayerHead && OwnerId(item.tag).Some? && OwnerId(item.tag).value.StringTag? then
      match ParseUuid(OwnerId(item.tag).value.text)
      case None => Failure("skull owner id is not a UUID")
      case Some(ints) => Success(item.(tag := WithOwnerId(item.tag, IntArrayTag(ints))))
    else Success(item)
  }

  /** `toClient`: the skull owner id of a player head is converted, then the id is mapped to 1.16. */
  function ToClient(m: BiMap, item: Option<Item>): (r: Result<Option<Item>>)
    ensures item.None? ==> r == Success(None)
    ensures r.Failure? <==>
      item.Some? && item.value.identifier == PlayerHead && OwnerId(item.value.tag).Some? &&
      OwnerId(item.value.tag).value.StringTag? && ParseUuid(OwnerId(item.value.tag).value.text).None?
    ensures r.Success? && item.Some? ==>
      r.value.Some? && r.value.value.identifier == NewItemId(m, item.value.identifier) &&
      r.value.value.amount == item.value.amount && r.value.value.data == item.value.data
    ensures r.Success? && item.Some? && item.value.identifier == PlayerHead && OwnerId(item.value.tag).Some? &&
            OwnerId(item.value.tag).value.StringTag? ==>
      r.value.value.tag == WithOwnerId(item.value.tag, IntArrayTag(ParseUuid(OwnerId(item.value.tag).value.text).value))
    ensures r.Success? && item.Some? &&
            !(item.value.identifier == PlayerHead && OwnerId(item.value.tag).Some? && OwnerId(item.value.tag).value.StringTag?) ==>
      r.value.value.tag == item.value.tag
  {
    if item.None? then Success(None)
    else
      match SkullToClient(item.value)
      case Failure(e) => Failure(e)
      case Success(i) => Success(Some(i.(identifier := NewItemId(m, i.identifier))))
  }

  /** `toServer` on the tag of a player head: an int-array owner id becomes the UUID string of its first
    * four ints; fewer than four throws. */
  function SkullToServer(item: Item): (r: Result<Item>)
  {
    if item.identifier == PlayerHead && OwnerId(item.tag).Some? && OwnerId(item.tag).value.IntArrayTag? then
      var ints := OwnerId(item.tag).value.intArray;
      if |ints| < 4 then Failure("skull owner id has fewer than four ints")
      else Success(item.(tag := WithOwnerId(item.tag, StringTag(UuidIntsToString(ints[..4])))))
    else Success(item)
  }

  /** `toServer`: the id is mapped back to 1.15.2 first, then the skull owner id of a player head is converted. */
  function ToServer(m: BiMap, item: Option<Item>): (r: Result<Option<Item>>)
    ensures item.None? ==> r == Success(None)
    ensures r.Failure? <==>
      item.Some? && OldItemId(m, item.value.identifier) == PlayerHead && OwnerId(item.value.tag).Some? &&
      OwnerId(item.value.tag).value.IntArrayTag? && |OwnerId(item.value.tag).value.intArray| < 4
    ensures r.Success? && item.Some? ==>
      r.value.Some? && r.value.value.identifier == OldItemId(m, item.value.identifier) &&
      r.value.value.amount == item.value.amount && r.value.value.data == item.value.data
    ensures r.Success? && item.Some? && OldItemId(m, item.value.identifier) == PlayerHead && OwnerId(item.value.tag).Some? &&
            OwnerId(item.value.tag).value.IntArrayTag? ==>
      r.value.value.tag == WithOwnerId(item.value.tag, StringTag(UuidIntsToString(OwnerId(item.value.tag).value.intArray[..4])))
    ensures r.Success? && item.Some? &&
            !(OldItemId(m, item.value.identifier) == PlayerHead && OwnerId(item.value.tag).Some? &&
              OwnerId(item.value.tag).value.IntArrayTag?) ==>
      r.value.value.tag == item.value.tag
  {
    if item.None? then Success(None)
    else
      match SkullToServer(item.value.(identifier := OldItemId(m, item.value.identifier)))
      case Failure(e) => Failure(e)
      case Success(i) => Success(Some(i))
  }

  /** A mapped 1.15.2 item survives the trip to the client and back, its owner id (when a player head has
    * one) coming back as the lower-case UUID string. */
  lemma SkullRoundTrip(m: BiMap, item: Option<Item>)
    requires m.Valid()
    requires item.Some? ==> item.value.identifier in m.forward
    requires item.Some? && item.value.identifier == PlayerHead && OwnerId(item.value.tag).Some? ==>
      OwnerId(item.value.tag).value.StringTag? && ParseUuid(OwnerId(item.value.tag).value.text).Some?
    ensures ToClient(m, item).Success?
    ensures item.Some? && item.value.identifier == PlayerHead && OwnerId(item.value.tag).Some? ==>
      ToServer(m, ToClient(m, item).value) ==
        Success(Some(item.value.(tag := WithOwnerId(item.value.tag, StringTag(Lower(OwnerId(item.value.tag).value.text))))))
    ensures !(item.Some? && item.value.identifier == PlayerHead && OwnerId(item.value.tag).Some?) ==>
      ToServer(m, ToClient(m, item).value) == Success(item)
  {
    if item.Some? {
      var i := item.value;
      OldAfterNew(m, i.identifier);
      if i.identifier == PlayerHead && OwnerId(i.tag).Some? {
        var s := OwnerId(i.tag).value.text;
        var ints := ParseUuid(s).value;
        UuidStringOfParse(s);
        assert ints[..4] == ints;
        WithOwnerIdTwice(i.tag, IntArrayTag(ints), StringTag(Lower(s)));
      }
    }
  }

  /** A 1.16 item whose player-head owner id is four 32-bit ints survives the trip to the server and back. */
  lemma SkullRoundTripToServer(m: BiMap, item: Option<Item>)
    requires m.Valid()
    requires item.Some? ==> item.value.identifier in m.inverse
    requires item.Some? && OldItemId(m, item.value.identifier) == PlayerHead && OwnerId(item.value.tag).Some? ==>
      OwnerId(item.value.tag).value.IntArrayTag? && |OwnerId(item.value.tag).value.intArray| == 4 &&
      forall i :: 0 <= i < 4 ==> IsInt32(OwnerId(item.value.tag).value.intArray[i])
    ensures ToServer(m, item).Success?
    ensures ToClient(m, ToServer(m, item).value) == Success(item)
  {
    if item.Some? {
      var i := item.value;
      NewAfterOld(m, i.identifier);
      if OldItemId(m, i.identifier) == PlayerHead && OwnerId(i.tag).Some? {
        var ints := OwnerId(i.tag).value.intArray;
        assert ints[..4] == ints;
        UuidRoundTrip(ints);
        var server := ToServer(m, item).value.value;
        assert server.tag == WithOwnerId(i.tag, StringTag(UuidIntsToString(ints)));
        WithOwnerIdRestores(i.tag, StringTag(UuidIntsToString(ints)));
      }
    }
  }

  // ---------------------------------------------------------------- window types and enchantments

  /** Java's `++` on an `int`: wraps from the largest value to the smallest. */
  function IntIncrement(x: int): (r: int)
    ensures IsInt32(x) && x < TWO_31 - 1 ==> r == x + 1
    ensures IsInt32(r)
  {
    ToInt32((x + 1) % TWO_32)
  }

  /** Java's `++` on a `short`: wraps from the largest value to the smallest. */
  function ShortIncrement(x: int): (r: int)
    ensures IsInt16(x) && x < 0x7FFF ==> r == x + 1
    ensures IsInt16(r)
  {
    (x + 1 + 0x8000) % 0x1_0000 - 0x8000
  }

  /** The 1.16 window type: the smithing table takes id 20, so every id from 20 up moves up by one. */
  function WindowType(windowType: int): int {
    if windowType >= 20 then IntIncrement(windowType) else windowType
  }

  /** The shift keeps ids below 20, moves the ones above up by one, never yields the smithing table's 20
    * and keeps distinct ids apart (short of the largest `int`, which wraps). */
  lemma WindowTypeShift(a: int, b: int)
    requires IsInt32(a) && IsInt32(b)
    ensures a < 20 ==> WindowType(a) == a
    ensures 20 <= a < TWO_31 - 1 ==> WindowType(a) == a + 1
    ensures WindowType(a) != 20
    ensures a < TWO_31 - 1 && b < TWO_31 - 1 && WindowType(a) == WindowType(b) ==> a == b
  {
  }

  /** The 1.16 enchantment id shown by the enchanting-table properties: soul speed takes id 11. */
  function EnchantmentId(enchantment: int): int {
    if enchantment >= 11 then ShortIncrement(enchantment) else enchantment
  }

  /** The enchantment shift keeps ids below 11, moves the others up by one, never yields soul speed's 11 and
    * keeps distinct ids apart (short of the largest `short`, which wraps). */
  lemma EnchantmentIdShift(a: int, b: int)
    requires IsInt16(a) && IsInt16(b)
    ensures a < 11 ==> EnchantmentId(a) == a
    ensures 11 <= a < 0x7FFF ==> EnchantmentId(a) == a + 1
    ensures EnchantmentId(a) != 11
    ensures a < 0x7FFF && b < 0x7FFF && EnchantmentId(a) == EnchantmentId(b) ==> a == b
  {
  }

  predicate WellFormedOpenWindow(fs: seq<Field>) {
    HasLayout(fs, [VarInt, VarInt, Str]) && fs[1].value.IntV?
  }

  /** Open window: window id, window type and title pass through, and the type is shifted for 1.16. */
  method OpenWindow(w: PacketWrapper) returns (r: Result<()>)
    modifies w
    requires w.output == []
    ensures r.Success? <==> WellFormedOpenWindow(old(w.input))
    ensures r.Success? ==>
      var fs := old(w.input);
      w.output == [fs[0], Field(VarInt, IntV(WindowType(fs[1].value.n))), fs[2]] && w.input == fs[3..]
    ensures w.id == old(w.id) && w.cancelled == old(w.cancelled) && w.sent == old(w.sent)
  {
    var mapped :- w.PassthroughAll([VarInt, VarInt, Str]);
    assert w.output == old(w.input)[..3];
    assert w.output[..1] == [w.output[0]] && w.output[0].ty == VarInt && w.output[1].ty == VarInt;
    PositionOfAt(w.output, VarInt, 1, 1);
    var windowType := w.Get(VarInt, 1);
    if windowType.Failure? || !windowType.value.IntV? {
      return Failure("window type is not an int");
    }
    if windowType.value.n >= 20 {
      var shifted := w.Set(VarInt, 1, IntV(IntIncrement(windowType.value.n)));
    }
    r := Success(());
  }

  predicate WellFormedWindowProperty(fs: seq<Field>) {
    HasLayout(fs, [UnsignedByte, Short, Short]) && fs[1].value.IntV? &&
    (4 <= fs[1].value.n <= 6 ==> fs[2].value.IntV?)
  }

  /** Window property: window id, property and value pass through; the value of the three enchantment
    * properties (4 to 6) is an enchantment id and is shifted for 1.16. */
  method WindowProperty(w: PacketWrapper) returns (r: Result<()>)
    modifies w
    requires w.output == []
    ensures r.Success? <==> WellFormedWindowProperty(old(w.input))
    ensures r.Success? && 4 <= old(w.input)[1].value.n <= 6 ==>
      var fs := old(w.input);
      w.output == [fs[0], fs[1], Field(Short, IntV(EnchantmentId(fs[2].value.n)))] && w.input == fs[3..]
    ensures r.Success? && !(4 <= old(w.input)[1].value.n <= 6) ==>
      w.output == old(w.input)[..3] && w.input == old(w.input)[3..]
    ensures w.id == old(w.id) && w.cancelled == old(w.cancelled) && w.sent == old(w.sent)
  {
    var mapped :- w.PassthroughAll([UnsignedByte, Short, Short]);
    assert w.output == old(w.input)[..3];
    assert w.output[..1] == [w.output[0]] && w.output[0].ty == UnsignedByte && w.output[1].ty == Short;
    assert w.output[..2][1..] == [w.output[1]] && [w.output[1]][1..] == [] && w.output[2].ty == Short;
    PositionOfAt(w.output, Short, 0, 1);
    PositionOfAt(w.output, Short, 1, 2);
    var property := w.Get(Short, 0);
    if property.Failure? || !property.value.IntV? {
      return Failure("property is not an int");
    }
    if 4 <= property.value.n <= 6 {
      var enchantment := w.Get(Short, 1);
      if enchantment.Failure? || !enchantment.value.IntV? {
        return Failure("enchantment id is not an int");
      }
      if enchantment.value.n >= 11 {
        var shifted := w.Set(Short, 1, IntV(ShortIncrement(enchantment.value.n)));
      }
    }
    r := Success(());
  }

  // ---------------------------------------------------------------- declare recipes

  /** The namespace the handler strips from recipe types before telling them apart. */
  const Namespace := "minecraft:"

  /** Java's `replace(pat, "")`: the occurrences of `pat` found scanning from the left, removed. */
  function RemoveAll(s: string, pat: string): (r: string)
    requires |pat| > 0
    ensures |r| <= |s|
    decreases |s|
  {
    if |s| < |pat| then s
    else if s[..|pat|] == pat then RemoveAll(s[|pat|..], pat)
    else [s[0]] + RemoveAll(s[1..], pat)
  }

  /** A string lacking one of the pattern's characters has nothing removed. */
  lemma {:induction false} RemoveAllAbsent(s: string, pat: string, c: char)
    requires |pat| > 0 && c in pat && c !in s
    ensures RemoveAll(s, pat) == s
    decreases |s|
  {
    if |pat| <= |s| {
      var j :| 0 <= j < |pat| && pat[j] == c;
      assert s[..|pat|][j] == s[j];
      RemoveAllAbsent(s[1..], pat, c);
      assert [s[0]] + s[1..] == s;
    }
  }

  /** A namespaced recipe type and the bare type without a colon are told apart as the same type. */
  lemma NamespacedRecipeType(recipeType: string)
    requires ':' !in recipeType
    ensures RemoveAll(Namespace + recipeType, Namespace) == recipeType
    ensures RemoveAll(recipeType, Namespace) == recipeType
  {
    var s := Namespace + recipeType;
    assert s[..|Namespace|] == Namespace && s[|Namespace|..] == recipeType;
    assert Namespace[9] == ':';
    RemoveAllAbsent(recipeType, Namespace, ':');
  }

  /** The body each 1.15.2 recipe type has; the types not named here have none the handler reads. */
  function RecipeKindOf(recipeType: string): (r: RecipeKind)
    ensures r == Cooking <==> recipeType in {"blasting", "smoking", "campfire_cooking", "smelting"}
    ensures r != NoBody <==>
      recipeType in {"crafting_shapeless", "crafting_shaped", "blasting", "smoking", "campfire_cooking", "smelting", "stonecutting"}
  {
    if recipeType == "crafting_shapeless" then Shapeless
    else if recipeType == "crafting_shaped" then Shaped
    else if recipeType in {"blasting", "smoking", "campfire_cooking", "smelting"} then Cooking
    else if recipeType == "stonecutting" then Stonecutting
    else NoBody
  }

  /** Every item of an array through `toClient`; the first item that throws fails the array. */
  function ItemsToClient(m: BiMap, items: seq<Option<Item>>): (r: Result<seq<Option<Item>>>)
    ensures r.Success? <==> forall i :: 0 <= i < |items| ==> ToClient(m, items[i]).Success?
    ensures r.Success? ==> |r.value| == |items| && forall i :: 0 <= i < |items| ==> r.value[i] == ToClient(m, items[i]).value
  {
    if items == [] then Success([])
    else
      match ToClient(m, items[0])
      case Failure(e) => Failure(e)
      case Success(first) =>
        match ItemsToClient(m, items[1..])
        case Failure(e) => Failure(e)
        case Success(rest) => Success([first] + rest)
  }

  /** The two field types that hold items. */
  predicate IsItemType(t: FieldType) {
    t == FlatVarIntItem || t == FlatVarIntItemArrayVarInt
  }

  /** A field as the recipe handler leaves it: items and item arrays go through `toClient`. */
  function ClientField(m: BiMap, f: Field): (r: Result<Field>)
    ensures r.Success? ==> r.value.ty == f.ty
    ensures !IsItemType(f.ty) ==> r == Success(f)
    ensures f.ty == FlatVarIntItem && f.value.ItemV? ==>
      (r.Success? <==> ToClient(m, f.value.item).Success?) &&
      (r.Success? ==> r.value.value == ItemV(ToClient(m, f.value.item).value))
    ensures f.ty == FlatVarIntItemArrayVarInt && f.value.ItemsV? ==>
      (r.Success? <==> forall i :: 0 <= i < |f.value.items| ==> ToClient(m, f.value.items[i]).Success?) &&
      (r.Success? ==> r.value.value.ItemsV? && |r.value.value.items| == |f.value.items| &&
                      forall i :: 0 <= i < |f.value.items| ==> r.value.value.items[i] == ToClient(m, f.value.items[i]).value)
  {
    if f.ty == FlatVarIntItem && f.value.ItemV? then
      match ToClient(m, f.value.item)
      case Failure(e) => Failure(e)
      case Success(item) => Success(Field(f.ty, ItemV(item)))
    else if f.ty == FlatVarIntItemArrayVarInt && f.value.ItemsV? then
      match ItemsToClient(m, f.value.items)
      case Failure(e) => Failure(e)
      case Success(items) => Success(Field(f.ty, ItemsV(items)))
    else Success(f)
  }

  function ClientRewrite(m: BiMap): Field -> Result<Field> {
    f => ClientField(m, f)
  }

  /** One recipe from index `at` of `fs`: type and identifier pass through, then the body the type names,
    * with the namespace stripped, passes with its items rewritten. */
  function Recipe(rewrite: Field -> Result<Field>, fs: seq<Field>, at: nat): (r: Option<Step>)
    ensures r.Some? ==> at + 2 <= r.value.end <= |fs| && r.value.deleted == 0
    ensures r.Some? ==> fs[at].value.StrV? && fs[at + 1].value.StrV?
    ensures r.Some? ==> |r.value.out| == r.value.end - at && r.value.out[..2] == fs[at..at + 2]
  {
    if !(Typed(fs, at, [Str, Str]) && fs[at].value.StrV? && fs[at + 1].value.StrV?) then None
    else
      match RewriteBody(rewrite, fs, at + 2, RecipeKindOf(RemoveAll(fs[at].value.s, Namespace)))
      case None => None
      case Some(body) => Some(Step(body.end, 0, [fs[at], fs[at + 1]] + body.out))
  }

  /** A recipe of a type the handler does not know is its type and identifier and nothing more. */
  lemma UnknownRecipeType(rewrite: Field -> Result<Field>, fs: seq<Field>, at: nat)
    requires Typed(fs, at, [Str, Str]) && fs[at].value.StrV? && fs[at + 1].value.StrV?
    requires RecipeKindOf(RemoveAll(fs[at].value.s, Namespace)) == NoBody
    ensures Recipe(rewrite, fs, at) == Some(Step(at + 2, 0, fs[at..at + 2]))
  {
    assert fs[at + 2..at + 2] == [];
    assert fs[at..at + 2] == [fs[at], fs[at + 1]] + [];
  }

  /** The recipe reader the list fold applies at each index. */
  function RecipeAt(rewrite: Field -> Result<Field>, fs: seq<Field>): nat -> Option<Step> {
    (at: nat) => Recipe(rewrite, fs, at)
  }

  /** Every recipe read ends after its start, within `fs`, and removes nothing. */
  lemma RecipeAtBounded(rewrite: Field -> Result<Field>, fs: seq<Field>)
    ensures forall a: nat :: RecipeAt(rewrite, fs)(a).Some? ==>
      a <= RecipeAt(rewrite, fs)(a).value.end <= |fs| && RecipeAt(rewrite, fs)(a).value.deleted <= 1
  {
    forall a: nat | RecipeAt(rewrite, fs)(a).Some?
      ensures a <= RecipeAt(rewrite, fs)(a).value.end <= |fs| && RecipeAt(rewrite, fs)(a).value.deleted <= 1
    {
      assert RecipeAt(rewrite, fs)(a) == Recipe(rewrite, fs, a);
    }
  }

  /** `count` recipes from index `at` of `fs`. */
  function RecipeList(rewrite: Field -> Result<Field>, fs: seq<Field>, at: nat, count: int): (r: Option<Step>)
    ensures r.Some? ==> at <= r.value.end <= |fs| || (count <= 0 && r.value.end == at)
  {
    RecipeAtBounded(rewrite, fs);
    StepsBounded(RecipeAt(rewrite, fs), at, count, |fs|);
    Steps(RecipeAt(rewrite, fs), at, count)
  }

  /** `out` is `input` with at most its items rewritten: same length, same types, every other field as it was. */
  predicate OnlyItemsRewritten(input: seq<Field>, out: seq<Field>) {
    |input| == |out| &&
    forall i :: 0 <= i < |input| ==> out[i].ty == input[i].ty && (!IsItemType(input[i].ty) ==> out[i] == input[i])
  }

  lemma OnlyItemsRewrittenAppend(a: seq<Field>, b: seq<Field>, x: seq<Field>, y: seq<Field>)
    requires OnlyItemsRewritten(a, x) && OnlyItemsRewritten(b, y)
    ensures OnlyItemsRewritten(a + b, x + y)
  {
    forall i | 0 <= i < |a + b|
      ensures (x + y)[i].ty == (a + b)[i].ty && (!IsItemType((a + b)[i].ty) ==> (x + y)[i] == (a + b)[i])
    {
      if i >= |a| {
        assert (x + y)[i] == y[i - |a|] && (a + b)[i] == b[i - |a|];
      }
    }
  }

  /** `rewrite` changes nothing but items, and keeps every field's type. */
  ghost predicate RewritesOnlyItems(rewrite: Field -> Result<Field>) {
    forall f :: rewrite(f).Success? ==> OnlyItemsRewritten([f], [rewrite(f).value])
  }

  /** The 1.16 client rewrite touches only items. */
  lemma ClientRewriteOnlyItems(m: BiMap)
    ensures RewritesOnlyItems(ClientRewrite(m))
  {
    forall f | ClientRewrite(m)(f).Success?
      ensures OnlyItemsRewritten([f], [ClientRewrite(m)(f).value])
    {
      assert ClientRewrite(m)(f) == ClientField(m, f);
    }
  }

  /** A recipe written for the client is the recipe read, field for field, with only its items rewritten. */
  lemma {:induction false} RecipeOnlyItems(rewrite: Field -> Result<Field>, fs: seq<Field>, at: nat, s: Step)
    requires RewritesOnlyItems(rewrite) && Recipe(rewrite, fs, at) == Some(s)
    ensures OnlyItemsRewritten(fs[at..s.end], s.out)
  {
    var body := RewriteBody(rewrite, fs, at + 2, RecipeKindOf(RemoveAll(fs[at].value.s, Namespace))).value;
    var rest := fs[at + 2..s.end];
    forall i | 0 <= i < |rest|
      ensures body.out[i].ty == rest[i].ty && (!IsItemType(rest[i].ty) ==> body.out[i] == rest[i])
    {
      assert body.out[i] == rewrite(rest[i]).value;
      assert OnlyItemsRewritten([rest[i]], [rewrite(rest[i]).value]);
      assert [rest[i]][0] == rest[i];
    }
    assert fs[at..s.end] == fs[at..at + 2] + rest;
    OnlyItemsRewrittenAppend(fs[at..at + 2], rest, [fs[at], fs[at + 1]], body.out);
  }

  /** When every recipe `recipe` reads is written with only its items rewritten, so is a list of them. */
  lemma {:induction false} StepsOnlyItems(recipe: nat -> Option<Step>, fs: seq<Field>, at: nat, count: int, s: Step)
    requires forall a: nat :: recipe(a).Some? ==>
      a <= recipe(a).value.end <= |fs| && OnlyItemsRewritten(fs[a..recipe(a).value.end], recipe(a).value.out)
    requires at <= |fs| && Steps(recipe, at, count) == Some(s)
    ensures at <= s.end <= |fs|
    ensures OnlyItemsRewritten(fs[at..s.end], s.out)
    decreases count
  {
    if count <= 0 {
      assert fs[at..at] == [];
    } else {
      var first := recipe(at).value;
      var rest := Steps(recipe, first.end, count - 1).value;
      StepsOnlyItems(recipe, fs, first.end, count - 1, rest);
      OnlyItemsRewrittenJoin(fs, at, first.end, rest.end, first.out, rest.out);
    }
  }

  /** The recipes written for the client are the recipes read, with only their items rewritten. */
  lemma RecipeListOnlyItems(rewrite: Field -> Result<Field>, fs: seq<Field>, at: nat, count: int, s: Step)
    requires RewritesOnlyItems(rewrite)
    requires at <= |fs| && RecipeList(rewrite, fs, at, count) == Some(s)
    ensures at <= s.end <= |fs|
    ensures OnlyItemsRewritten(fs[at..s.end], s.out)
  {
    forall a: nat | RecipeAt(rewrite, fs)(a).Some?
      ensures a <= RecipeAt(rewrite, fs)(a).value.end <= |fs|
      ensures OnlyItemsRewritten(fs[a..RecipeAt(rewrite, fs)(a).value.end], RecipeAt(rewrite, fs)(a).value.out)
    {
      assert RecipeAt(rewrite, fs)(a) == Recipe(rewrite, fs, a);
      RecipeOnlyItems(rewrite, fs, a, Recipe(rewrite, fs, a).value);
    }
    StepsOnlyItems(RecipeAt(rewrite, fs), fs, at, count, s);
  }

  lemma OnlyItemsRewrittenJoin(fs: seq<Field>, a: nat, b: nat, c: nat, x: seq<Field>, y: seq<Field>)
    requires a <= b <= c <= |fs|
    requires OnlyItemsRewritten(fs[a..b], x) && OnlyItemsRewritten(fs[b..c], y)
    ensures OnlyItemsRewritten(fs[a..c], x + y)
  {
    assert fs[a..c] == fs[a..b] + fs[b..c];
    OnlyItemsRewrittenAppend(fs[a..b], fs[b..c], x, y);
  }

  /** Passes the type and identifier of the recipe at index `at` of `fs`. */
  method PassHeader(w: PacketWrapper, ghost fs: seq<Field>, ghost at: nat) returns (r: Result<string>)
    modifies w
    requires at <= |fs| && w.input == fs[at..]
    ensures r.Success? <==> Typed(fs, at, [Str, Str]) && fs[at].value.StrV? && fs[at + 1].value.StrV?
    ensures r.Success? ==>
      r.value == fs[at].value.s && w.input == fs[at + 2..] && w.output == old(w.output) + fs[at..at + 2]
    ensures w.id == old(w.id) && w.cancelled == old(w.cancelled) && w.sent == old(w.sent)
  {
    TypedSplit(fs, at, [Str], [Str]);
    assert [Str] + [Str] == [Str, Str];
    TypedOne(fs, at, Str);
    var recipeType := w.Passthrough(Str);
    if recipeType.Failure? {
      return Failure(recipeType.error);
    }
    TypedOne(fs, at + 1, Str);
    var id := w.Passthrough(Str);
    if id.Failure? {
      return Failure(id.error);
    }
    assert recipeType.value == fs[at].value && id.value == fs[at + 1].value;
    if !recipeType.value.StrV? || !id.value.StrV? {
      return Failure("recipe type or identifier is not a string");
    }
    assert fs[at..at + 2] == [fs[at], fs[at + 1]];
    AppendAssoc(old(w.output), [fs[at]], [fs[at + 1]]);
    r := Success(recipeType.value.s);
  }

  /** Handles the recipe at index `at` of `fs`. */
  method PassRecipe(w: PacketWrapper, rewrite: Field -> Result<Field>, ghost fs: seq<Field>, ghost at: nat)
    returns (r: Result<()>)
    modifies w
    requires at <= |fs| && w.input == fs[at..]
    ensures r.Success? <==> Recipe(rewrite, fs, at).Some?
    ensures r.Success? ==>
      var s := Recipe(rewrite, fs, at).value;
      w.input == fs[s.end..] && w.output == old(w.output) + s.out
    ensures w.id == old(w.id) && w.cancelled == old(w.cancelled) && w.sent == old(w.sent)
  {
    var recipeType :- PassHeader(w, fs, at);
    var kind := RecipeKindOf(RemoveAll(recipeType, Namespace));
    var body := PassBody(w, fs, at + 2, kind, rewrite);
    if body.Failure? {
      return Failure(body.error);
    }
    ghost var b := RewriteBody(rewrite, fs, at + 2, kind).value;
    assert fs[at..at + 2] == [fs[at], fs[at + 1]];
    AppendAssoc(old(w.output), fs[at..at + 2], b.out);
    r := Success(());
  }

  /** Handles one more recipe after those done so far, keeping the fold of the whole list `whole`. */
  method PassNext(w: PacketWrapper, rewrite: Field -> Result<Field>, ghost fs: seq<Field>, ghost whole: Option<Step>,
                  ghost done: Step, ghost pos: nat, ghost left: int, ghost base: seq<Field>)
    returns (r: Result<()>, ghost done': Step, ghost pos': nat, ghost left': int)
    modifies w
    requires left > 0 && pos <= |fs| && w.input == fs[pos..] && w.output == base + done.out
    requires Folded(RecipeAt(rewrite, fs), whole, done, pos, left)
    ensures r.Failure? ==> whole.None?
    ensures r.Success? ==>
      pos' <= |fs| && w.input == fs[pos'..] && w.output == base + done'.out &&
      left' == left - 1 && Folded(RecipeAt(rewrite, fs), whole, done', pos', left')
    ensures w.id == old(w.id) && w.cancelled == old(w.cancelled) && w.sent == old(w.sent)
  {
    done', pos', left' := done, pos, left - 1;
    r := PassRecipe(w, rewrite, fs, pos);
    assert RecipeAt(rewrite, fs)(pos) == Recipe(rewrite, fs, pos);
    if r.Failure? {
      FoldedFail(RecipeAt(rewrite, fs), whole, done, pos, left);
      return;
    }
    ghost var s := Recipe(rewrite, fs, pos).value;
    done', pos' := Step(0, done.deleted + s.deleted, done.out + s.out), s.end;
    FoldedStep(RecipeAt(rewrite, fs), whole, done, pos, left, s, done', left');
    AppendAssoc(base, done.out, s.out);
  }

  /** Handles `count` recipes from index 1 of `fs`. */
  method PassRecipes(w: PacketWrapper, rewrite: Field -> Result<Field>, ghost fs: seq<Field>, count: int)
    returns (r: Result<()>)
    modifies w
    requires 1 <= |fs| && w.input == fs[1..]
    ensures r.Success? <==> RecipeList(rewrite, fs, 1, count).Some?
    ensures r.Success? ==>
      var s := RecipeList(rewrite, fs, 1, count).value;
      s.end <= |fs| && w.input == fs[s.end..] && w.output == old(w.output) + s.out
    ensures w.id == old(w.id) && w.cancelled == old(w.cancelled) && w.sent == old(w.sent)
  {
    ghost var whole := RecipeList(rewrite, fs, 1, count);
    ghost var base := w.output;
    ghost var pos: nat := 1;
    ghost var done := Step(0, 0, []);
    var i := 0;
    ghost var left := count;
    ghost var frame := (w.id, w.cancelled, w.sent);
    FoldedStart(RecipeAt(rewrite, fs), 1, count);
    while i < count
      invariant 0 <= i && (count >= 0 ==> i <= count)
      invariant pos <= |fs| && w.input == fs[pos..] && w.output == base + done.out
      invariant left == count - i && Folded(RecipeAt(rewrite, fs), whole, done, pos, left)
      invariant (w.id, w.cancelled, w.sent) == frame
      decreases count - i
    {
      var passed;
      passed, done, pos, left := PassNext(w, rewrite, fs, whole, done, pos, left, base);
      if passed.Failure? {
        return Failure(passed.error);
      }
      i := i + 1;
    }
    FoldedDone(RecipeAt(rewrite, fs), whole, done, pos, left);
    r := Success(());
  }

  predicate WellFormedDeclareRecipes(m: BiMap, fs: seq<Field>) {
    HasLayout(fs, [VarInt]) && fs[0].value.IntV? && RecipeList(ClientRewrite(m), fs, 1, fs[0].value.n).Some?
  }

  /** Declare recipes: the count and every recipe pass through, each recipe's items rewritten for the client. */
  method DeclareRecipes(w: PacketWrapper, m: BiMap) returns (r: Result<()>)
    modifies w
    requires w.output == []
    ensures r.Success? <==> WellFormedDeclareRecipes(m, old(w.input))
    ensures r.Success? ==>
      var s := RecipeList(ClientRewrite(m), old(w.input), 1, old(w.input)[0].value.n).value;
      w.output == [old(w.input)[0]] + s.out && s.end <= |old(w.input)| && w.input == old(w.input)[s.end..]
    ensures w.id == old(w.id) && w.cancelled == old(w.cancelled) && w.sent == old(w.sent)
  {
    ghost var fs := w.input;
    var size := w.Passthrough(VarInt);
    if size.Failure? {
      return Failure(size.error);
    }
    if !size.value.IntV? {
      return Failure("recipe count is not an int");
    }
    assert w.output == [fs[0]] && size.value == fs[0].value;
    r := PassRecipes(w, ClientRewrite(m), fs, size.value.n);
  }

  /** What declare recipes writes is what it read, with only the items of its recipes rewritten. */
  lemma {:induction false} DeclareRecipesOnlyItems(m: BiMap, fs: seq<Field>, s: Step)
    requires 1 <= |fs| && fs[0].value.IntV? && RecipeList(ClientRewrite(m), fs, 1, fs[0].value.n) == Some(s)
    ensures s.end <= |fs| && OnlyItemsRewritten(fs[..s.end], [fs[0]] + s.out)
  {
    ClientRewriteOnlyItems(m);
    RecipeListOnlyItems(ClientRewrite(m), fs, 1, fs[0].value.n, s);
    assert fs[0..1] == [fs[0]];
    OnlyItemsRewrittenJoin(fs, 0, 1, s.end, [fs[0]], s.out);
  }
}
