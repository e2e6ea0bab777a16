/** The 1.13.2 to 1.14 item translation: item ids through the 1.14 mapping data, item lore turned into
  * JSON text towards the client with the original lines backed up in the display compound and restored
  * towards the server, the open-window packet's window type names replaced by numeric ids, and two
  * recipe types the 1.14 client does not know dropped from declare-recipes. */
module Inventory1_14 {
  import opened Wrappers
  import opened Nbt
  import opened Packets
  import opened LegacyTypes
  import opened ItemMappings
  import opened Recipes

  // ---------------------------------------------------------------- lore backup

  /** The display entry the original lore is kept under: the protocol's tag name prefix, then `|Lore`. */
  const LoreBackupKey: string := "ViaVersion|Protocol1_14To1_13_2|Lore"

  /** A lore list with every string line converted by `convert`; lines of other tag classes are kept. */
  function ConvertLore(lore: seq<Tag>, convert: string -> string): (r: seq<Tag>)
    ensures |r| == |lore|
    ensures forall i :: 0 <= i < |lore| && lore[i].StringTag? ==> r[i] == StringTag(convert(lore[i].text))
    ensures forall i :: 0 <= i < |lore| && !lore[i].StringTag? ==> r[i] == lore[i]
  {
    seq(|lore|, i requires 0 <= i < |lore| => if lore[i].StringTag? then StringTag(convert(lore[i].text)) else lore[i])
  }

  /** The display compound of an item tag, when the tag has one and it holds a `Lore` list. */
  function LoreDisplay(tag: Option<map<string, Tag>>): (r: Option<map<string, Tag>>)
    ensures r.Some? ==> tag.Some? && "display" in tag.value && tag.value["display"] == CompoundTag(r.value) &&
                        "Lore" in r.value && r.value["Lore"].ListTag?
    ensures r.None? ==> tag.None? || "display" !in tag.value || !tag.value["display"].CompoundTag? ||
                        "Lore" !in tag.value["display"].entries || !tag.value["display"].entries["Lore"].ListTag?
  {
    if tag.Some? && "display" in tag.value && tag.value["display"].CompoundTag? then
      var display := tag.value["display"].entries;
      if "Lore" in display && display["Lore"].ListTag? then Some(display) else None
    else None
  }

  /** The client-bound tag: the lore list is copied to the backup entry, then its string lines are converted. */
  function ClientTag(tag: Option<map<string, Tag>>, legacyToJson: string -> string): Option<map<string, Tag>> {
    match LoreDisplay(tag)
    case None => tag
    case Some(display) =>
      var lore := display["Lore"].elems;
      var updated := display[LoreBackupKey := ListTag(lore)]["Lore" := ListTag(ConvertLore(lore, legacyToJson))];
      Some(tag.value["display" := CompoundTag(updated)])
  }

  /** `toClient`: an absent item stays absent; otherwise the id is mapped, the original lore is backed up
    * and every string lore line is converted from legacy text to JSON. Nothing else changes. */
  function ToClient(m: BiMap, legacyToJson: string -> string, item: Option<Item>): (r: Option<Item>)
    ensures r.None? <==> item.None?
    ensures r.Some? ==> r.value.identifier == NewItemId(m, item.value.identifier) &&
                        r.value.amount == item.value.amount && r.value.data == item.value.data
    ensures r.Some? && LoreDisplay(item.value.tag).None? ==> r.value.tag == item.value.tag
    ensures r.Some? && LoreDisplay(item.value.tag).Some? ==>
      var before := LoreDisplay(item.value.tag).value;
      var lore := before["Lore"].elems;
      LoreDisplay(r.value.tag).Some? &&
      var after := LoreDisplay(r.value.tag).value;
      after.Keys == before.Keys + {LoreBackupKey} &&
      after[LoreBackupKey] == ListTag(lore) && after["Lore"] == ListTag(ConvertLore(lore, legacyToJson)) &&
      (forall k :: k in before && k != "Lore" && k != LoreBackupKey ==> after[k] == before[k]) &&
      r.value.tag.value.Keys == item.value.tag.value.Keys &&
      (forall k :: k in item.value.tag.value && k != "display" ==> r.value.tag.value[k] == item.value.tag.value[k])
  {
    match item
    case None => None
    case Some(i) => Some(i.(identifier := NewItemId(m, i.identifier), tag := ClientTag(i.tag, legacyToJson)))
  }

  /** The server-bound tag: the lore comes back from the backup when there is one and is converted line by
    * line otherwise; the backup entry is removed either way. A backup that is not a list cannot be cast. */
  function ServerTag(tag: Option<map<string, Tag>>, jsonToLegacy: string -> string): Result<Option<map<string, Tag>>> {
    match LoreDisplay(tag)
    case None => Success(tag)
    case Some(display) =>
      if LoreBackupKey in display && !display[LoreBackupKey].ListTag? then Failure("lore backup is not a list")
      else
        var lore := if LoreBackupKey in display then display[LoreBackupKey]
                    else ListTag(ConvertLore(display["Lore"].elems, jsonToLegacy));
        Success(Some(tag.value["display" := CompoundTag(display["Lore" := lore] - {LoreBackupKey})]))
  }

  /** `toServer`: an absent item stays absent; otherwise the id is mapped back and the lore restored from
    * its backup, or converted from JSON to legacy text when there is none; no backup entry is left behind. */
  function ToServer(m: BiMap, jsonToLegacy: string -> string, item: Option<Item>): (r: Result<Option<Item>>)
    ensures item.None? ==> r == Success(None)
    ensures r.Failure? <==>
      item.Some? && LoreDisplay(item.value.tag).Some? && LoreBackupKey in LoreDisplay(item.value.tag).value &&
      !LoreDisplay(item.value.tag).value[LoreBackupKey].ListTag?
    ensures r.Success? && item.Some? ==>
      r.value.Some? && r.value.value.identifier == OldItemId(m, item.value.identifier) &&
      r.value.value.amount == item.value.amount && r.value.value.data == item.value.data
    ensures r.Success? && item.Some? && LoreDisplay(item.value.tag).None? ==> r.value.value.tag == item.value.tag
    ensures r.Success? && item.Some? && LoreDisplay(item.value.tag).Some? ==>
      var before := LoreDisplay(item.value.tag).value;
      LoreDisplay(r.value.value.tag).Some? &&
      var after := LoreDisplay(r.value.value.tag).value;
      LoreBackupKey !in after && after.Keys == before.Keys - {LoreBackupKey} &&
      (LoreBackupKey in before ==> after["Lore"] == before[LoreBackupKey]) &&
      (LoreBackupKey !in before ==> after["Lore"] == ListTag(ConvertLore(before["Lore"].elems, jsonToLegacy))) &&
      (forall k :: k in before && k != "Lore" && k != LoreBackupKey ==> after[k] == before[k])
  {
    match item
    case None => Success(None)
    case Some(i) =>
      var tag :- ServerTag(i.tag, jsonToLegacy);
      Success(Some(i.(identifier := OldItemId(m, i.identifier), tag := tag)))
  }

  /** An item with a mapped id and no lore backup of its own comes back from the client unchanged: the
    * backup restores the lore whatever the two text conversions do to it. */
  lemma LoreRoundTrip(m: BiMap, legacyToJson: string -> string, jsonToLegacy: string -> string, item: Option<Item>)
    requires m.Valid()
    requires item.Some? ==> item.value.identifier in m.forward
    requires item.Some? && LoreDisplay(item.value.tag).Some? ==> LoreBackupKey !in LoreDisplay(item.value.tag).value
    ensures ToServer(m, jsonToLegacy, ToClient(m, legacyToJson, item)) == Success(item)
  {
    if item.Some? {
      var i := item.value;
      OldAfterNew(m, i.identifier);
      if LoreDisplay(i.tag).Some? {
        var before := LoreDisplay(i.tag).value;
        var lore := before["Lore"].elems;
        var after := before[LoreBackupKey := ListTag(lore)]["Lore" := ListTag(ConvertLore(lore, legacyToJson))];
        var clientTag := i.tag.value["display" := CompoundTag(after)];
        assert ClientTag(i.tag, legacyToJson) == Some(clientTag);
        assert LoreDisplay(Some(clientTag)) == Some(after);
        var restored := after["Lore" := after[LoreBackupKey]] - {LoreBackupKey};
        assert restored == before;
        assert clientTag["display" := CompoundTag(before)] == i.tag.value;
      }
    }
  }

  // ---------------------------------------------------------------- open window

  predicate IsChestWindow(windowType: string) {
    windowType == "minecraft:container" || windowType == "minecraft:chest"
  }

  /** Java's `int` division, which truncates towards zero. */
  function JavaDiv(a: int, b: int): (r: int)
    requires b > 0
    ensures a >= 0 ==> r == a / b
    ensures a < 0 ==> r == -((-a) / b)
  {
    if a >= 0 then a / b else -((-a) / b)
  }

  /** The 1.14 window type for a 1.13 window type name: chests and containers by their row count, the
    * other known blocks by fixed ids, and -1 for every other name. */
  function WindowTypeId(windowType: string, slots: int): (r: int)
    ensures IsChestWindow(windowType) ==> r == JavaDiv(slots, 9) - 1
  {
    if IsChestWindow(windowType) then JavaDiv(slots, 9) - 1
    else if windowType == "minecraft:crafting_table" then 11
    else if windowType == "minecraft:furnace" then 13
    else if windowType == "minecraft:dropper" || windowType == "minecraft:dispenser" then 6
    else if windowType == "minecraft:enchanting_table" then 12
    else if windowType == "minecraft:brewing_stand" then 10
    else if windowType == "minecraft:villager" then 18
    else if windowType == "minecraft:beacon" then 8
    else if windowType == "minecraft:anvil" then 7
    else if windowType == "minecraft:hopper" then 15
    else if windowType == "minecraft:shulker_box" then 19
    else -1
  }

  /** The names with a fixed window type. */
  const FixedWindowTypes: set<string> := {
    "minecraft:crafting_table", "minecraft:furnace", "minecraft:dropper", "minecraft:dispenser",
    "minecraft:enchanting_table", "minecraft:brewing_stand", "minecraft:villager", "minecraft:beacon",
    "minecraft:anvil", "minecraft:hopper", "minecraft:shulker_box"
  }

  /** Chests of one to six rows take the generic container types 0 to 5, below every fixed type, which lie
    * between 6 and 19; every other name gets -1. */
  lemma WindowTypeRanges(windowType: string, slots: int)
    ensures IsChestWindow(windowType) && 9 <= slots < 63 ==> 0 <= WindowTypeId(windowType, slots) <= 5
    ensures windowType in FixedWindowTypes ==> 6 <= WindowTypeId(windowType, slots) <= 19
    ensures !IsChestWindow(windowType) && windowType !in FixedWindowTypes ==> WindowTypeId(windowType, slots) == -1
  {
  }

  /** Two fixed names share a window type only when they are the dropper and the dispenser. */
  lemma FixedWindowTypesDistinct(a: string, b: string, slots: int)
    requires a in FixedWindowTypes && b in FixedWindowTypes && a != b
    requires WindowTypeId(a, slots) == WindowTypeId(b, slots)
    ensures {a, b} == {"minecraft:dropper", "minecraft:dispenser"}
  {
    assert !IsChestWindow(a) && !IsChestWindow(b);
    if WindowTypeId(a, slots) != 6 {
      FixedWindowTypeNamed(a, slots);
      FixedWindowTypeNamed(b, slots);
    }
  }

  /** Apart from the dropper and the dispenser, a fixed window type tells its name. */
  lemma FixedWindowTypeNamed(a: string, slots: int)
    requires a in FixedWindowTypes
    ensures WindowTypeId(a, slots) == 6 <==> a == "minecraft:dropper" || a == "minecraft:dispenser"
    ensures WindowTypeId(a, slots) == 11 ==> a == "minecraft:crafting_table"
    ensures WindowTypeId(a, slots) == 13 ==> a == "minecraft:furnace"
    ensures WindowTypeId(a, slots) == 12 ==> a == "minecraft:enchanting_table"
    ensures WindowTypeId(a, slots) == 10 ==> a == "minecraft:brewing_stand"
    ensures WindowTypeId(a, slots) == 18 ==> a == "minecraft:villager"
    ensures WindowTypeId(a, slots) == 8 ==> a == "minecraft:beacon"
    ensures WindowTypeId(a, slots) == 7 ==> a == "minecraft:anvil"
    ensures WindowTypeId(a, slots) == 15 ==> a == "minecraft:hopper"
    ensures WindowTypeId(a, slots) == 19 ==> a == "minecraft:shulker_box"
  {
    assert !IsChestWindow(a);
  }

  predicate WellFormedOpenWindow(fs: seq<Field>) {
    HasLayout(fs, [UnsignedByte, Str, Str, UnsignedByte]) &&
    fs[0].value.IntV? && fs[1].value.StrV? && fs[2].value.StrV? && fs[3].value.IntV? &&
    (fs[1].value.s == "EntityHorse" ==> HasLayout(fs[4..], [Int]))
  }

  /** Reads the window id, window type, title and slot count of the 1.13.2 open-window packet. */
  method ReadWindowHeader(w: PacketWrapper) returns (r: Result<(Value, Value, Value, Value)>)
    modifies w
    ensures r.Success? <==> HasLayout(old(w.input), [UnsignedByte, Str, Str, UnsignedByte])
    ensures r.Success? ==>
      var fs := old(w.input);
      r.value == (fs[0].value, fs[1].value, fs[2].value, fs[3].value) && w.input == fs[4..]
    ensures w.output == old(w.output) && w.id == old(w.id) && w.cancelled == old(w.cancelled) && w.sent == old(w.sent)
  {
    ghost var fs := w.input;
    var windowId :- w.Read(UnsignedByte);
    var windowType :- w.Read(Str);
    var title :- w.Read(Str);
    var slots :- w.Read(UnsignedByte);
    r := Success((windowId, windowType, title, slots));
  }

  /** Open window. A horse window becomes the horse-window packet (0x1F) with the window id, the slot count
    * as a var-int and the horse's entity id; any other window becomes the 1.14 open-window packet (0x2E)
    * with the window id as a var-int, the numeric window type and the translated title. */
  method OpenWindow(w: PacketWrapper, processTranslate: string -> string) returns (r: Result<()>)
    modifies w
    ensures r.Success? <==> WellFormedOpenWindow(old(w.input))
    ensures r.Success? && old(w.input)[1].value.s == "EntityHorse" ==>
      var fs := old(w.input);
      w.id == 0x1F && w.input == fs[5..] &&
      w.output == old(w.output) + [Field(UnsignedByte, fs[0].value), Field(VarInt, fs[3].value), fs[4]]
    ensures r.Success? && old(w.input)[1].value.s != "EntityHorse" ==>
      var fs := old(w.input);
      w.id == 0x2E && w.input == fs[4..] &&
      w.output == old(w.output) + [Field(VarInt, fs[0].value), Field(VarInt, IntV(WindowTypeId(fs[1].value.s, fs[3].value.n))),
                                   Field(Str, StrV(processTranslate(fs[2].value.s)))]
    ensures w.cancelled == old(w.cancelled) && w.sent == old(w.sent)
  {
    var header := ReadWindowHeader(w);
    if header.Failure? {
      return Failure(header.error);
    }
    var (windowId, windowType, title, slots) := header.value;
    if !windowId.IntV? || !windowType.StrV? || !title.StrV? || !slots.IntV? {
      return Failure("malformed open-window packet");
    }
    var translated := processTranslate(title.s);
    if windowType.s == "EntityHorse" {
      ghost var rest := w.input;
      r := HorseWindow(w, windowId, slots);
      assert r.Success? ==> rest[0] == old(w.input)[4] && rest[1..] == old(w.input)[5..];
    } else {
      w.SetId(0x2E);
      w.Write(VarInt, windowId);
      w.Write(VarInt, IntV(WindowTypeId(windowType.s, slots.n)));
      w.Write(Str, StrV(translated));
      r := Success(());
    }
  }

  /** The horse-window packet (0x1F): window id, slot count as a var-int, then the horse's entity id read
    * from what is left of the packet. */
  method HorseWindow(w: PacketWrapper, windowId: Value, slots: Value) returns (r: Result<()>)
    modifies w
    ensures r.Success? <==> HasLayout(old(w.input), [Int])
    ensures r.Success? ==>
      w.id == 0x1F && w.input == old(w.input)[1..] &&
      w.output == old(w.output) + [Field(UnsignedByte, windowId), Field(VarInt, slots), old(w.input)[0]]
    ensures w.cancelled == old(w.cancelled) && w.sent == old(w.sent)
  {
    w.SetId(0x1F);
    var entityIdRead := w.Read(Int);
    if entityIdRead.Failure? { return Failure(entityIdRead.error); }
    w.Write(UnsignedByte, windowId);
    w.Write(VarInt, slots);
    w.Write(Int, entityIdRead.value);
    r := Success(());
  }

  // ---------------------------------------------------------------- declare recipes

  /** The recipe types the 1.14 client no longer has. */
  predicate IsRemovedRecipeType(recipeType: string) {
    recipeType == "crafting_special_banneraddpattern" || recipeType == "crafting_special_repairitem"
  }

  /** The body each recipe type has in 1.13.2; the types not named here have none the handler reads. */
  function RecipeKindOf(recipeType: string): (r: RecipeKind)
    ensures r != NoBody <==> recipeType in {"crafting_shapeless", "crafting_shaped", "smelting"}
  {
    if recipeType == "crafting_shapeless" then Shapeless
    else if recipeType == "crafting_shaped" then Shaped
    else if recipeType == "smelting" then Cooking
    else NoBody
  }

  /** Every item of an array through `toClient`. */
  function ItemsToClient(m: BiMap, legacyToJson: string -> string, items: seq<Option<Item>>): (r: seq<Option<Item>>)
    ensures |r| == |items| && forall i :: 0 <= i < |items| ==> r[i] == ToClient(m, legacyToJson, items[i])
  {
    if items == [] then [] else [ToClient(m, legacyToJson, items[0])] + ItemsToClient(m, legacyToJson, items[1..])
  }

  /** A field as the recipe handler leaves it: items and item arrays go through `toClient`. */
  function ClientField(m: BiMap, legacyToJson: string -> string, f: Field): (r: Result<Field>)
    ensures r.Success? && r.value.ty == f.ty
    ensures f.ty != FlatVarIntItem && f.ty != FlatVarIntItemArrayVarInt ==> r.value == f
    ensures f.ty == FlatVarIntItem && f.value.ItemV? ==> r.value.value == ItemV(ToClient(m, legacyToJson, f.value.item))
    ensures f.ty == FlatVarIntItemArrayVarInt && f.value.ItemsV? ==>
      r.value.value.ItemsV? && |r.value.value.items| == |f.value.items| &&
      forall i :: 0 <= i < |f.value.items| ==> r.value.value.items[i] == ToClient(m, legacyToJson, f.value.items[i])
  {
    if f.ty == FlatVarIntItem && f.value.ItemV? then
      Success(Field(f.ty, ItemV(ToClient(m, legacyToJson, f.value.item))))
    else if f.ty == FlatVarIntItemArrayVarInt && f.value.ItemsV? then
      Success(Field(f.ty, ItemsV(ItemsToClient(m, legacyToJson, f.value.items))))
    else Success(f)
  }

  function ClientRewrite(m: BiMap, legacyToJson: string -> string): Field -> Result<Field> {
    f => ClientField(m, legacyToJson, f)
  }

  /** One recipe from index `at` of `fs`: identifier and type, then the body its type has. A removed type
    * contributes nothing but a deletion; any other is written type first, then its body with items rewritten. */
  function Recipe(rewrite: Field -> Result<Field>, fs: seq<Field>, at: nat): (r: Option<Step>)
    ensures r.Some? ==> at + 2 <= r.value.end <= |fs| && r.value.deleted <= 1
    ensures r.Some? ==> fs[at + 1].value.StrV? && (r.value.deleted == 1 <==> IsRemovedRecipeType(fs[at + 1].value.s))
    ensures r.Some? && r.value.deleted == 1 ==> r.value.end == at + 2 && r.value.out == []
    ensures r.Some? && r.value.deleted == 0 ==> |r.value.out| >= 2 && r.value.out[..2] == [fs[at + 1], fs[at]]
  {
    if !(Typed(fs, at, [Str, Str]) && fs[at].value.StrV? && fs[at + 1].value.StrV?) then None
    else
      var recipeType := fs[at + 1].value.s;
      if IsRemovedRecipeType(recipeType) then Some(Step(at + 2, 1, []))
      else
        match RewriteBody(rewrite, fs, at + 2, RecipeKindOf(recipeType))
        case None => None
        case Some(body) => Some(Step(body.end, 0, [fs[at + 1], fs[at]] + body.out))
  }

  /** The recipe reader the list fold applies at each index. */
  function RecipeAt(rewrite: Field -> Result<Field>, fs: seq<Field>): nat -> Option<Step> {
    (at: nat) => Recipe(rewrite, fs, at)
  }

  /** Every recipe read ends after its start, within `fs`, and removes at most itself. */
  lemma RecipeAtBounded(rewrite: Field -> Result<Field>, fs: seq<Field>)
    ensures forall a: nat :: RecipeAt(rewrite, fs)(a).Some? ==>
      a <= RecipeAt(rewrite, fs)(a).value.end <= |fs| && RecipeAt(rewrite, fs)(a).value.deleted <= 1
  {
    forall a: nat | RecipeAt(rewrite, fs)(a).Some?
      ensures a <= RecipeAt(rewrite, fs)(a).value.end <= |fs| && RecipeAt(rewrite, fs)(a).value.deleted <= 1
    {
      assert RecipeAt(rewrite, fs)(a) == Recipe(rewrite, fs, a);
    }
  }

  /** `count` recipes from index `at` of `fs`. */
  function RecipeList(rewrite: Field -> Result<Field>, fs: seq<Field>, at: nat, count: int): (r: Option<Step>)
    ensures r.Some? ==> at <= r.value.end <= |fs| || (count <= 0 && r.value.end == at)
  {
    RecipeAtBounded(rewrite, fs);
    StepsBounded(RecipeAt(rewrite, fs), at, count, |fs|);
    Steps(RecipeAt(rewrite, fs), at, count)
  }

  /** The removed recipes are among those counted, so the count written back is never negative. */
  lemma RecipeListDeleted(rewrite: Field -> Result<Field>, fs: seq<Field>, at: nat, count: int, s: Step)
    requires RecipeList(rewrite, fs, at, count) == Some(s)
    ensures s.deleted <= (if count < 0 then 0 else count)
  {
    RecipeAtBounded(rewrite, fs);
    StepsBounded(RecipeAt(rewrite, fs), at, count, |fs|);
  }

  /** Handles the recipe at index `at` of `fs`; the result tells whether it was removed. */
  method PassRecipe(w: PacketWrapper, rewrite: Field -> Result<Field>, ghost fs: seq<Field>, ghost at: nat)
    returns (r: Result<bool>)
    modifies w
    requires at <= |fs| && w.input == fs[at..]
    ensures r.Success? <==> Recipe(rewrite, fs, at).Some?
    ensures r.Success? ==>
      var s := Recipe(rewrite, fs, at).value;
      w.input == fs[s.end..] && w.output == old(w.output) + s.out && (r.value <==> s.deleted == 1)
    ensures w.id == old(w.id) && w.cancelled == old(w.cancelled) && w.sent == old(w.sent)
  {
    TypedSplit(fs, at, [Str], [Str]);
    assert [Str] + [Str] == [Str, Str];
    TypedOne(fs, at, Str);
    var id := w.Read(Str);
    if id.Failure? {
      return Failure(id.error);
    }
    TypedOne(fs, at + 1, Str);
    var recipeType := w.Read(Str);
    if recipeType.Failure? {
      return Failure(recipeType.error);
    }
    assert id.value == fs[at].value && recipeType.value == fs[at + 1].value;
    assert Typed(fs, at, [Str, Str]);
    if !id.value.StrV? || !recipeType.value.StrV? {
      return Failure("recipe identifier or type is not a string");
    }
    if IsRemovedRecipeType(recipeType.value.s) {
      return Success(true);
    }
    var kept := PassKeptRecipe(w, rewrite, fs, at, id.value, recipeType.value);
    if kept.Failure? {
      return Failure(kept.error);
    }
    KeptRecipe(rewrite, fs, at, id.value, recipeType.value);
    r := Success(false);
  }

  /** Writes a recipe that is kept, type first, then its body with every field rewritten. */
  method PassKeptRecipe(w: PacketWrapper, rewrite: Field -> Result<Field>, ghost fs: seq<Field>, ghost at: nat,
                        id: Value, recipeType: Value) returns (r: Result<()>)
    modifies w
    requires at + 2 <= |fs| && w.input == fs[at + 2..] && recipeType.StrV?
    ensures r.Success? <==> RewriteBody(rewrite, fs, at + 2, RecipeKindOf(recipeType.s)).Some?
    ensures r.Success? ==>
      var b := RewriteBody(rewrite, fs, at + 2, RecipeKindOf(recipeType.s)).value;
      w.input == fs[b.end..] && w.output == old(w.output) + ([Field(Str, recipeType), Field(Str, id)] + b.out)
    ensures w.id == old(w.id) && w.cancelled == old(w.cancelled) && w.sent == old(w.sent)
  {
    w.Write(Str, recipeType);
    w.Write(Str, id);
    var body := PassBody(w, fs, at + 2, RecipeKindOf(recipeType.s), rewrite);
    if body.Failure? {
      return Failure(body.error);
    }
    ghost var b := RewriteBody(rewrite, fs, at + 2, RecipeKindOf(recipeType.s)).value;
    AppendAssoc(old(w.output), [Field(Str, recipeType), Field(Str, id)], b.out);
    r := Success(());
  }

  /** A kept recipe is its two strings, type first, followed by its rewritten body. */
  lemma KeptRecipe(rewrite: Field -> Result<Field>, fs: seq<Field>, at: nat, id: Value, recipeType: Value)
    requires Typed(fs, at, [Str, Str]) && fs[at].value == id && fs[at + 1].value == recipeType
    requires id.StrV? && recipeType.StrV? && !IsRemovedRecipeType(recipeType.s)
    requires RewriteBody(rewrite, fs, at + 2, RecipeKindOf(recipeType.s)).Some?
    ensures [Field(Str, recipeType), Field(Str, id)] == [fs[at + 1], fs[at]]
    ensures var b := RewriteBody(rewrite, fs, at + 2, RecipeKindOf(recipeType.s)).value;
      Recipe(rewrite, fs, at) == Some(Step(b.end, 0, [fs[at + 1], fs[at]] + b.out))
  {
    assert fs[at + 0].ty == [Str, Str][0] && fs[at + 1].ty == [Str, Str][1];
  }

  /** Replaces the leading recipe count with `newCount`, keeping the recipes written after it. */
  method SetCount(w: PacketWrapper, ghost count: Value, newCount: int, ghost out: seq<Field>)
    modifies w
    requires w.output == [Field(VarInt, count)] + out
    ensures w.output == [Field(VarInt, IntV(newCount))] + out
    ensures w.input == old(w.input) && w.id == old(w.id) && w.cancelled == old(w.cancelled) && w.sent == old(w.sent)
  {
    assert w.output[..0] == [];
    PositionOfAt(w.output, VarInt, 0, 0);
    var counted := w.Set(VarInt, 0, IntV(newCount));
    assert w.output == ([Field(VarInt, count)] + out)[0 := Field(VarInt, IntV(newCount))];
  }

  /** Handles one more recipe after those done so far, keeping the fold of the whole list `whole`; the result
    * tells whether the recipe was removed. */
  method PassNext(w: PacketWrapper, rewrite: Field -> Result<Field>, ghost fs: seq<Field>, ghost whole: Option<Step>,
                  ghost done: Step, ghost pos: nat, ghost left: int, ghost base: seq<Field>)
    returns (r: Result<bool>, ghost done': Step, ghost pos': nat, ghost left': int)
    modifies w
    requires left > 0 && pos <= |fs| && w.input == fs[pos..] && w.output == base + done.out
    requires Folded(RecipeAt(rewrite, fs), whole, done, pos, left)
    ensures r.Failure? ==> whole.None?
    ensures r.Success? ==>
      pos' <= |fs| && w.input == fs[pos'..] && w.output == base + done'.out &&
      done'.deleted == done.deleted + (if r.value then 1 else 0) &&
      left' == left - 1 && Folded(RecipeAt(rewrite, fs), whole, done', pos', left')
    ensures w.id == old(w.id) && w.cancelled == old(w.cancelled) && w.sent == old(w.sent)
  {
    done', pos', left' := done, pos, left - 1;
    r := PassRecipe(w, rewrite, fs, pos);
    assert RecipeAt(rewrite, fs)(pos) == Recipe(rewrite, fs, pos);
    if r.Failure? {
      FoldedFail(RecipeAt(rewrite, fs), whole, done, pos, left);
      return;
    }
    ghost var s := Recipe(rewrite, fs, pos).value;
    done', pos' := Step(0, done.deleted + s.deleted, done.out + s.out), s.end;
    FoldedStep(RecipeAt(rewrite, fs), whole, done, pos, left, s, done', left');
    AppendAssoc(base, done.out, s.out);
  }

  /** Handles `count` recipes from index 1 of `fs`; the result is the number removed. */
  method PassRecipes(w: PacketWrapper, rewrite: Field -> Result<Field>, ghost fs: seq<Field>, count: int)
    returns (r: Result<int>)
    modifies w
    requires 1 <= |fs| && w.input == fs[1..]
    ensures r.Success? <==> RecipeList(rewrite, fs, 1, count).Some?
    ensures r.Success? ==>
      var s := RecipeList(rewrite, fs, 1, count).value;
      r.value == s.deleted && s.end <= |fs| && w.input == fs[s.end..] && w.output == old(w.output) + s.out
    ensures w.id == old(w.id) && w.cancelled == old(w.cancelled) && w.sent == old(w.sent)
  {
    ghost var whole := RecipeList(rewrite, fs, 1, count);
    ghost var base := w.output;
    ghost var pos: nat := 1;
    ghost var done := Step(0, 0, []);
    var deleted := 0;
    var i := 0;
    ghost var left := count;
    ghost var frame := (w.id, w.cancelled, w.sent);
    FoldedStart(RecipeAt(rewrite, fs), 1, count);
    while i < count
      invariant 0 <= i && (count >= 0 ==> i <= count)
      invariant pos <= |fs| && w.input == fs[pos..]
      invariant w.output == base + done.out && deleted == done.deleted
      invariant left == count - i && Folded(RecipeAt(rewrite, fs), whole, done, pos, left)
      invariant (w.id, w.cancelled, w.sent) == frame
      decreases count - i
    {
      var removed;
      removed, done, pos, left := PassNext(w, rewrite, fs, whole, done, pos, left, base);
      if removed.Failure? {
        return Failure(removed.error);
      }
      if removed.value {
        deleted := deleted + 1;
      }
      i := i + 1;
    }
    FoldedDone(RecipeAt(rewrite, fs), whole, done, pos, left);
    r := Success(deleted);
  }

  predicate WellFormedDeclareRecipes(m: BiMap, legacyToJson: string -> string, fs: seq<Field>) {
    HasLayout(fs, [VarInt]) && fs[0].value.IntV? && RecipeList(ClientRewrite(m, legacyToJson), fs, 1, fs[0].value.n).Some?
  }

  /** Declare recipes: the removed recipe types are dropped, every other recipe is written type first with
    * its items rewritten, and the count becomes the number of recipes kept. */
  method DeclareRecipes(w: PacketWrapper, m: BiMap, legacyToJson: string -> string) returns (r: Result<()>)
    modifies w
    requires w.output == []
    ensures r.Success? <==> WellFormedDeclareRecipes(m, legacyToJson, old(w.input))
    ensures r.Success? ==>
      var size := old(w.input)[0].value.n;
      var s := RecipeList(ClientRewrite(m, legacyToJson), old(w.input), 1, size).value;
      w.output == [Field(VarInt, IntV(size - s.deleted))] + s.out &&
      s.end <= |old(w.input)| && w.input == old(w.input)[s.end..]
    ensures w.id == old(w.id) && w.cancelled == old(w.cancelled) && w.sent == old(w.sent)
  {
    ghost var fs := w.input;
    var rewrite := ClientRewrite(m, legacyToJson);
    var counted := w.Passthrough(VarInt);
    if counted.Failure? {
      return Failure(counted.error);
    }
    var size := counted.value;
    if !size.IntV? {
      return Failure("recipe count is not an int");
    }
    assert w.output == [fs[0]] && size == fs[0].value;
    var deleted := PassRecipes(w, rewrite, fs, size.n);
    if deleted.Failure? {
      return Failure(deleted.error);
    }
    SetCount(w, size, size.n - deleted.value, RecipeList(rewrite, fs, 1, size.n).value.out);
    r := Success(());
  }
}
