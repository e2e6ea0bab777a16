/** The item rewriter for data-component items (1.20.5 and later): item ids are mapped in the direction of
  * travel, items nested in components are rewritten the same way, rewritable component payloads are
  * rewritten, and clientbound names have their original text kept in a backup inside the item's custom
  * data so that the serverbound direction can put it back. */
module StructuredItemRewriter {
  import opened Wrappers
  import opened Nbt

  /** The custom-data entry that marks a custom-data compound the rewriter created itself. */
  const MarkerKey: string := "VV|custom_data"

  /** The data component keys the rewriter treats specially; every other component is `Other`. */
  datatype Key = ItemName | CustomName | Lore | WrittenBookContent | CustomData | Other(id: int)

  /** A book page: its raw text and, optionally, its filtered text. */
  datatype Page = Page(raw: Tag, filtered: Option<Tag>)

  datatype Item = Item(identifier: int, amount: int, data: map<Key, Data>)

  /** The value of one component entry, by the Java class of what it holds. */
  datatype Data =
    | Empty                                               // an entry marking the component as removed
    | ItemValue(item: Item)
    | ItemsValue(items: seq<Item>)
    | TextValue(text: Tag)                                // a text component (item name, custom name)
    | TextsValue(texts: seq<Tag>)                         // the lore lines
    | BookValue(pages: seq<Page>)                         // written book content
    | CompoundValue(entries: map<string, Tag>)            // custom data
    | RewritableValue(payload: Tag)                       // a value that knows how to rewrite itself
    | HolderValue(direct: bool, rewritable: bool, payload: Tag)
    | EitherHolderValue(hasHolder: bool, direct: bool, rewritable: bool, payload: Tag)
    | PlainValue(v: int)                                  // anything else

  /** The item id maps of the protocol's mapping data. */
  datatype ItemIds = ItemIds(toNew: int -> int, toOld: int -> int)

  /** What the rewriter gets from its protocol and its base class: the item id maps when the mapping data
    * has them; the component rewriter's `processTag` when the protocol has a component rewriter; the
    * rewrite of rewritable payloads towards the client (`true`) or the server; and `nbtTagName`, the
    * protocol-specific name of a backup entry. */
  datatype Env = Env(ids: Option<ItemIds>, process: Option<Tag -> Tag>, rewrite: (Tag, bool) -> Tag,
                     tagName: string -> string)

  /** `Item.isEmpty`: no item or no amount. */
  predicate IsEmpty(item: Item) {
    item.identifier == 0 || item.amount <= 0
  }

  /** Whether an entry holds items that the entry loop rewrites recursively. */
  predicate HoldsItems(d: Data) {
    d.ItemValue? || d.ItemsValue?
  }

  /** Every item-carrying entry of `r` is the entry of `data` under the same key. */
  ghost predicate KeepsItems(data: map<Key, Data>, r: map<Key, Data>) {
    forall k :: k in r && HoldsItems(r[k]) ==> k in data && r[k] == data[k]
  }

  /** `container.get(key)` for a text component. */
  function TextOf(data: map<Key, Data>, key: Key): Option<Tag> {
    if key in data && data[key].TextValue? then Some(data[key].text) else None
  }

  /** `container.get(CUSTOM_DATA)`. */
  function CustomDataOf(data: map<Key, Data>): Option<map<string, Tag>> {
    if CustomData in data && data[CustomData].CompoundValue? then Some(data[CustomData].entries) else None
  }

  // ---------------------------------------------------------------- backups

  /** `createCustomTag`: the item's custom data, or a new compound holding only the marker. */
  function CustomTagFor(data: map<Key, Data>): (cd: map<string, Tag>)
    ensures CustomDataOf(data).Some? ==> cd == CustomDataOf(data).value
    ensures CustomDataOf(data).None? ==> cd == map[MarkerKey := ByteTag(1)]
  {
    match CustomDataOf(data)
    case Some(cd) => cd
    case None => map[MarkerKey := ByteTag(1)]
  }

  /** `saveTag`: puts the backup under `name` unless something is stored there already. */
  function SaveTag(cd: map<string, Tag>, tag: Tag, name: string): (r: map<string, Tag>)
    ensures name in r && r.Keys == cd.Keys + {name}
    ensures name in cd ==> r == cd
    ensures name !in cd ==> r[name] == tag && forall k :: k in cd ==> r[k] == cd[k]
  {
    if name in cd then cd else cd[name := tag]
  }

  /** The first backup saved under a name is the one that stays. */
  lemma SaveTagKeepsFirst(cd: map<string, Tag>, first: Tag, second: Tag, name: string)
    ensures SaveTag(SaveTag(cd, first, name), second, name) == SaveTag(cd, first, name)
    ensures name !in cd ==> SaveTag(SaveTag(cd, first, name), second, name)[name] == first
  {
  }

  /** `updateComponent`: rewrites the text under `key` in place; when that changed it, the original is
    * saved as a backup in the (possibly new) custom data. */
  function UpdateComponent(process: Tag -> Tag, tagName: string -> string, data: map<Key, Data>, key: Key,
                           backupKey: string): (r: map<Key, Data>)
    requires key == ItemName || key == CustomName
    ensures TextOf(data, key).None? ==> r == data
    ensures TextOf(data, key).Some? && process(TextOf(data, key).value) == TextOf(data, key).value ==> r == data
    ensures TextOf(data, key).Some? ==> TextOf(r, key) == Some(process(TextOf(data, key).value))
    ensures TextOf(data, key).Some? && process(TextOf(data, key).value) != TextOf(data, key).value ==>
      CustomDataOf(r) == Some(SaveTag(CustomTagFor(data), TextOf(data, key).value, tagName(backupKey)))
    ensures data.Keys <= r.Keys <= data.Keys + {CustomData}
    ensures forall k :: k in data && k != key && k != CustomData ==> r[k] == data[k]
    ensures KeepsItems(data, r)
  {
    match TextOf(data, key)
    case None => data
    case Some(name) =>
      var processed := process(name);
      var updated := data[key := TextValue(processed)];
      if processed == name then updated
      else updated[CustomData := CompoundValue(SaveTag(CustomTagFor(data), name, tagName(backupKey)))]
  }

  /** Whether `a` and `b` agree on the entry under `k`, including its absence. */
  predicate SameEntry(a: map<Key, Data>, b: map<Key, Data>, k: Key) {
    (k in a <==> k in b) && (k in a ==> a[k] == b[k])
  }

  /** The two name updates, item name first. */
  function UpdateNames(process: Tag -> Tag, tagName: string -> string, data: map<Key, Data>): (r: map<Key, Data>)
    ensures data.Keys <= r.Keys <= data.Keys + {CustomData}
    ensures forall k :: k in data && k != ItemName && k != CustomName && k != CustomData ==> r[k] == data[k]
    ensures KeepsItems(data, r)
  {
    var named := UpdateComponent(process, tagName, data, ItemName, "item_name");
    UpdateComponent(process, tagName, named, CustomName, "custom_name")
  }

  /** Every lore line and every book page's raw and (when present) filtered text processed. */
  function UpdateBodies(process: Tag -> Tag, data: map<Key, Data>): (r: map<Key, Data>)
    ensures r.Keys == data.Keys
    ensures forall k :: k != Lore && k != WrittenBookContent ==> SameEntry(data, r, k)
    ensures Lore in data && data[Lore].TextsValue? ==>
      r[Lore].TextsValue? && |r[Lore].texts| == |data[Lore].texts| &&
      forall i :: 0 <= i < |data[Lore].texts| ==> r[Lore].texts[i] == process(data[Lore].texts[i])
    ensures KeepsItems(data, r)
  {
    var lore := if Lore in data && data[Lore].TextsValue? then
        data[Lore := TextsValue(seq(|data[Lore].texts|, i requires 0 <= i < |data[Lore].texts| => process(data[Lore].texts[i])))]
      else data;
    if WrittenBookContent in lore && lore[WrittenBookContent].BookValue? then
      var pages := lore[WrittenBookContent].pages;
      lore[WrittenBookContent := BookValue(seq(|pages|, i requires 0 <= i < |pages| =>
        Page(process(pages[i].raw), if pages[i].filtered.Some? then Some(process(pages[i].filtered.value)) else None)))]
    else lore
  }

  /** The text rewrites of the clientbound direction: item name, custom name, every lore line, and every
    * book page's raw and filtered text. */
  function UpdateTexts(process: Tag -> Tag, tagName: string -> string, data: map<Key, Data>): (r: map<Key, Data>)
    ensures data.Keys <= r.Keys <= data.Keys + {CustomData}
    ensures forall k :: k in data && k.Other? ==> r[k] == data[k]
    ensures KeepsItems(data, r)
  {
    UpdateBodies(process, UpdateNames(process, tagName, data))
  }

  /** `removeCustomTag`: drops the custom data once the marker is all it holds. */
  function RemoveCustomTag(data: map<Key, Data>, cd: map<string, Tag>): (r: map<Key, Data>)
    ensures |cd| == 1 && MarkerKey in cd ==> r == data - {CustomData}
    ensures !(|cd| == 1 && MarkerKey in cd) ==> r == data
  {
    if |cd| == 1 && MarkerKey in cd then data - {CustomData} else data
  }

  /** Moves the backup under `backup` (if any) back into `key`. The compound is written back into the item
    * only while it is still attached, as the Java compound is shared with the item until it is removed. */
  function RestoreOne(data: map<Key, Data>, cd: map<string, Tag>, backup: string, key: Key): (r: (map<Key, Data>, map<string, Tag>))
    requires key != CustomData
    ensures backup !in cd ==> r == (data, cd)
    ensures backup in cd ==> r.1 == cd - {backup} && key in r.0 && r.0[key] == TextValue(cd[backup])
    ensures forall k :: k != key && k != CustomData ==> SameEntry(data, r.0, k)
    ensures backup in cd ==> (CustomData in r.0 <==> CustomData in data && !(|r.1| == 1 && MarkerKey in r.1))
    ensures backup in cd && CustomData in r.0 ==> r.0[CustomData] == CompoundValue(r.1)
  {
    if backup !in cd then (data, cd)
    else
      var rest := cd - {backup};
      var attached := if CustomData in data then data[CustomData := CompoundValue(rest)] else data;
      (RemoveCustomTag(attached[key := TextValue(cd[backup])], rest), rest)
  }

  /** The `added_custom_name` branch: the custom name goes, and the custom data too once only the marker
    * is left in it. */
  function DropAddedName(data: map<Key, Data>, rest: map<string, Tag>): (r: map<Key, Data>)
    ensures CustomName !in r
    ensures forall k: Key :: k != CustomName && k != CustomData ==> SameEntry(data, r, k)
    ensures CustomData in r <==> !(|rest| == 1 && MarkerKey in rest)
    ensures CustomData in r ==> r[CustomData] == CompoundValue(rest)
  {
    RemoveCustomTag(data[CustomData := CompoundValue(rest)] - {CustomName}, rest)
  }

  /** The other branch: the custom-name backup, then the item-name backup, each moved back. */
  function RestoreBackups(data: map<Key, Data>, cd: map<string, Tag>, custom: string, item: string): (r: map<Key, Data>)
    ensures forall k: Key :: k != CustomName && k != ItemName && k != CustomData ==> SameEntry(data, r, k)
  {
    var (withName, rest) := RestoreOne(data, cd, custom, CustomName);
    RestoreOne(withName, rest, item, ItemName).0
  }

  /** `restoreTextComponents`: with the `added_custom_name` marker present, removes the marker and the
    * custom name; otherwise moves the custom-name and item-name backups back into their components. */
  function RestoreTextComponents(tagName: string -> string, data: map<Key, Data>): (r: map<Key, Data>)
    ensures CustomDataOf(data).None? ==> r == data
    ensures CustomDataOf(data).Some? && tagName("added_custom_name") in CustomDataOf(data).value ==>
      CustomName !in r
    ensures forall k: Key :: k.Other? || k == Lore || k == WrittenBookContent ==> SameEntry(data, r, k)
  {
    match CustomDataOf(data)
    case None => data
    case Some(cd) =>
      var added := tagName("added_custom_name");
      if added in cd then DropAddedName(data, cd - {added})
      else RestoreBackups(data, cd, tagName("custom_name"), tagName("item_name"))
  }

  // ---------------------------------------------------------------- the item handlers

  /** The id mapping of one direction, when the mapping data has item mappings. */
  function MappedId(env: Env, id: int, clientbound: bool): int {
    if env.ids.None? then id
    else if clientbound then env.ids.value.toNew(id)
    else env.ids.value.toOld(id)
  }

  /** The text rewrites happen only towards the client, and only with a component rewriter. */
  function TextsFor(env: Env, data: map<Key, Data>, clientbound: bool): (r: map<Key, Data>)
    ensures KeepsItems(data, r)
  {
    if clientbound && env.process.Some? then UpdateTexts(env.process.value, env.tagName, data) else data
  }

  /** `handleItemToClient` (`clientbound`) and `handleItemToServer`. */
  function Handle(env: Env, item: Item, clientbound: bool): (r: Item)
    ensures IsEmpty(item) ==> r == item
    ensures !IsEmpty(item) ==> r.identifier == MappedId(env, item.identifier, clientbound) && r.amount == item.amount
    decreases item, 1
  {
    if IsEmpty(item) then item
    else
      var texts := TextsFor(env, item.data, clientbound);
      var rewritten := RewriteEntries(env, texts, clientbound, item);
      var data := if clientbound then rewritten else RestoreTextComponents(env.tagName, rewritten);
      Item(MappedId(env, item.identifier, clientbound), item.amount, data)
  }

  /** The nested items of one entry, rewritten in the same direction. */
  function NestedItems(env: Env, d: Data, clientbound: bool): (r: Data)
    requires HoldsItems(d)
    ensures r.ItemValue? <==> d.ItemValue?
    ensures r.ItemsValue? ==> |r.items| == |d.items|
    decreases d, 0
  {
    match d
    case ItemValue(item) => ItemValue(Handle(env, item, clientbound))
    case ItemsValue(items) => ItemsValue(seq(|items|, i requires 0 <= i < |items| => Handle(env, items[i], clientbound)))
  }

  /** The entry loop's treatment of an entry without items: a rewritable value is rewritten, and so is the
    * rewritable value of a direct holder; everything else is left alone. */
  function RewritePayload(env: Env, d: Data, clientbound: bool): (r: Data)
    requires !HoldsItems(d)
    ensures !HoldsItems(r)
  {
    match d
    case RewritableValue(v) => RewritableValue(env.rewrite(v, clientbound))
    case HolderValue(direct, rewritable, v) =>
      if direct && rewritable then HolderValue(direct, rewritable, env.rewrite(v, clientbound)) else d
    case EitherHolderValue(hasHolder, direct, rewritable, v) =>
      if hasHolder && direct && rewritable then EitherHolderValue(hasHolder, direct, rewritable, env.rewrite(v, clientbound))
      else d
    case _ => d
  }

  /** The entry loop over the container, whose item-carrying entries are still those of `parent`. Empty
    * entries are skipped. */
  function RewriteEntries(env: Env, data: map<Key, Data>, clientbound: bool, parent: Item): (r: map<Key, Data>)
    requires forall k :: k in data && HoldsItems(data[k]) ==> k in parent.data && data[k] == parent.data[k]
    ensures r.Keys == data.Keys
    decreases parent, 0
  {
    map k | k in data ::
      if data[k].Empty? then data[k]
      else if HoldsItems(data[k]) then
        assert data[k] == parent.data[k] && parent.data[k] in parent.data.Values;
        NestedItems(env, data[k], clientbound)
      else RewritePayload(env, data[k], clientbound)
  }

  // ---------------------------------------------------------------- properties

  /** The backup names the rewriter uses: distinct from each other and from the marker. */
  predicate DistinctNames(tagName: string -> string) {
    var item, custom, added := tagName("item_name"), tagName("custom_name"), tagName("added_custom_name");
    item != custom && item != added && custom != added &&
    item != MarkerKey && custom != MarkerKey && added != MarkerKey
  }

  /** What the name updates leave behind in `names` for an item without custom data: either no custom data
    * and both names as they were, or custom data holding the marker and a backup of the original text of
    * exactly the names that changed. */
  predicate BackedUp(tagName: string -> string, data: map<Key, Data>, names: map<Key, Data>) {
    var item, custom := tagName("item_name"), tagName("custom_name");
    CustomData !in data &&
    (CustomData !in names ==> SameEntry(data, names, ItemName) && SameEntry(data, names, CustomName)) &&
    (CustomData in names ==>
       names[CustomData].CompoundValue? &&
       var cd := names[CustomData].entries;
       MarkerKey in cd && cd.Keys <= {MarkerKey, item, custom} && (item in cd || custom in cd) &&
       (item in cd ==> ItemName in data && data[ItemName] == TextValue(cd[item])) &&
       (item !in cd ==> SameEntry(data, names, ItemName)) &&
       (custom in cd ==> CustomName in data && data[CustomName] == TextValue(cd[custom])) &&
       (custom !in cd ==> SameEntry(data, names, CustomName)))
  }

  /** The item-name update alone backs up the item name when it changes. */
  lemma ItemNameBackedUp(process: Tag -> Tag, tagName: string -> string, data: map<Key, Data>)
    requires CustomData !in data && DistinctNames(tagName)
    ensures var named := UpdateComponent(process, tagName, data, ItemName, "item_name");
      BackedUp(tagName, data, named) && SameEntry(data, named, CustomName) &&
      (CustomData in named ==> tagName("custom_name") !in named[CustomData].entries)
  {
  }

  /** The custom-name update after it backs up the custom name when it changes, next to the item name's
    * backup. */
  lemma NamesBackedUp(process: Tag -> Tag, tagName: string -> string, data: map<Key, Data>)
    requires CustomData !in data && DistinctNames(tagName)
    ensures BackedUp(tagName, data, UpdateNames(process, tagName, data))
  {
    ItemNameBackedUp(process, tagName, data);
  }

  /** Restoring from custom data that holds only the marker and backups puts each backed-up name back and
    * leaves no custom data. */
  lemma BackupsRestored(data: map<Key, Data>, cd: map<string, Tag>, custom: string, item: string)
    requires CustomData in data && data[CustomData] == CompoundValue(cd)
    requires custom != item && custom != MarkerKey && item != MarkerKey
    requires MarkerKey in cd && cd.Keys <= {MarkerKey, custom, item} && (custom in cd || item in cd)
    ensures var r := RestoreBackups(data, cd, custom, item);
      CustomData !in r &&
      (custom in cd ==> CustomName in r && r[CustomName] == TextValue(cd[custom])) &&
      (custom !in cd ==> SameEntry(data, r, CustomName)) &&
      (item in cd ==> ItemName in r && r[ItemName] == TextValue(cd[item])) &&
      (item !in cd ==> SameEntry(data, r, ItemName))
  {
    var (withName, rest) := RestoreOne(data, cd, custom, CustomName);
    var (restored, left) := RestoreOne(withName, rest, item, ItemName);
    assert RestoreBackups(data, cd, custom, item) == restored;
    assert rest.Keys <= {MarkerKey, item} && MarkerKey in rest;
    if item in rest {
      assert left == rest - {item};
      OnlyMarker(left);
    } else {
      assert custom in cd && restored == withName;
      OnlyMarker(rest);
    }
  }

  /** A compound whose keys are only the marker holds one entry. */
  lemma OnlyMarker(m: map<string, Tag>)
    requires MarkerKey in m && m.Keys <= {MarkerKey}
    ensures |m| == 1 && MarkerKey in m
  {
    assert m.Keys == {MarkerKey};
    assert |m| == |m.Keys|;
  }

  /** `a` and `b` agree on the names and the custom data. */
  predicate SameNames(a: map<Key, Data>, b: map<Key, Data>) {
    SameEntry(a, b, ItemName) && SameEntry(a, b, CustomName) && SameEntry(a, b, CustomData)
  }

  /** Moving one backup back looks only at the names and the custom data, and changes only those. */
  lemma RestoreOneLocal(a: map<Key, Data>, b: map<Key, Data>, cd: map<string, Tag>, backup: string, key: Key)
    requires key == ItemName || key == CustomName
    requires SameNames(a, b)
    ensures RestoreOne(a, cd, backup, key).1 == RestoreOne(b, cd, backup, key).1
    ensures SameNames(RestoreOne(a, cd, backup, key).0, RestoreOne(b, cd, backup, key).0)
  {
  }

  /** Restoring looks only at the names and the custom data, and changes only those. */
  lemma RestoreLocal(tagName: string -> string, a: map<Key, Data>, b: map<Key, Data>)
    requires SameNames(a, b)
    ensures SameNames(RestoreTextComponents(tagName, a), RestoreTextComponents(tagName, b))
  {
    assert CustomDataOf(a) == CustomDataOf(b);
    if CustomDataOf(a).Some? {
      var cd := CustomDataOf(a).value;
      if tagName("added_custom_name") !in cd {
        var custom, item := tagName("custom_name"), tagName("item_name");
        RestoreOneLocal(a, b, cd, custom, CustomName);
        var (na, rest) := RestoreOne(a, cd, custom, CustomName);
        var nb := RestoreOne(b, cd, custom, CustomName).0;
        RestoreOneLocal(na, nb, rest, item, ItemName);
      }
    }
  }

  /** Restoring what the name updates left behind gives the names back and removes the custom data. */
  lemma NamesRestored(tagName: string -> string, data: map<Key, Data>, names: map<Key, Data>)
    requires DistinctNames(tagName) && BackedUp(tagName, data, names)
    ensures var back := RestoreTextComponents(tagName, names);
      CustomData !in back && SameEntry(data, back, ItemName) && SameEntry(data, back, CustomName)
  {
    if CustomData in names {
      var cd := names[CustomData].entries;
      assert tagName("added_custom_name") !in cd;
      BackupsRestored(names, cd, tagName("custom_name"), tagName("item_name"));
    }
  }

  /** A name changed on the way to the client comes back unchanged on the way to the server, and custom data
    * the rewriter added for the backups is gone again. */
  lemma NamesRoundTrip(process: Tag -> Tag, tagName: string -> string, data: map<Key, Data>)
    requires CustomData !in data && DistinctNames(tagName)
    ensures var back := RestoreTextComponents(tagName, UpdateTexts(process, tagName, data));
      CustomData !in back && SameEntry(data, back, ItemName) && SameEntry(data, back, CustomName)
  {
    var names := UpdateNames(process, tagName, data);
    assert SameNames(names, UpdateTexts(process, tagName, data));
    RestoreLocal(tagName, names, UpdateTexts(process, tagName, data));
    NamesBackedUp(process, tagName, data);
    NamesRestored(tagName, data, names);
  }

  /** An entry the entry loop leaves alone: removed, a text, or a compound. */
  predicate Unrewritten(d: Data) {
    d.Empty? || d.TextValue? || d.CompoundValue?
  }

  /** The names and the custom data, where present, are entries the entry loop leaves alone. */
  predicate PlainNames(data: map<Key, Data>) {
    (ItemName in data ==> Unrewritten(data[ItemName])) &&
    (CustomName in data ==> Unrewritten(data[CustomName])) &&
    (CustomData in data ==> Unrewritten(data[CustomData]))
  }

  /** The entry loop changes neither the names nor the custom data. */
  lemma RewriteKeepsNames(env: Env, data: map<Key, Data>, clientbound: bool, parent: Item)
    requires forall k :: k in data && HoldsItems(data[k]) ==> k in parent.data && data[k] == parent.data[k]
    requires PlainNames(data)
    ensures SameNames(data, RewriteEntries(env, data, clientbound, parent))
    ensures PlainNames(RewriteEntries(env, data, clientbound, parent))
  {
  }

  /** One name update leaves names and custom data that the entry loop leaves alone. */
  lemma UpdateComponentPlain(process: Tag -> Tag, tagName: string -> string, data: map<Key, Data>, key: Key,
                             backupKey: string)
    requires key == ItemName || key == CustomName
    requires PlainNames(data)
    ensures PlainNames(UpdateComponent(process, tagName, data, key, backupKey))
  {
    var r := UpdateComponent(process, tagName, data, key, backupKey);
    if TextOf(data, key).Some? {
      assert r[key].TextValue?;
      assert CustomData in r ==> Unrewritten(r[CustomData]);
    }
  }

  /** The text rewrites leave names and custom data that the entry loop leaves alone. */
  lemma UpdateTextsPlain(process: Tag -> Tag, tagName: string -> string, data: map<Key, Data>)
    requires PlainNames(data)
    ensures PlainNames(UpdateTexts(process, tagName, data))
  {
    var named := UpdateComponent(process, tagName, data, ItemName, "item_name");
    UpdateComponentPlain(process, tagName, data, ItemName, "item_name");
    UpdateComponentPlain(process, tagName, named, CustomName, "custom_name");
    var names := UpdateNames(process, tagName, data);
    assert SameNames(names, UpdateBodies(process, names));
  }

  /** The names survive a whole trip through the item handlers: an item handled towards the client and
    * then back towards the server has its item name and custom name as they were and no custom data,
    * whether or not the protocol has a component rewriter and whatever the id maps do. */
  lemma HandleNamesRoundTrip(env: Env, item: Item)
    requires !IsEmpty(item) && MappedId(env, item.identifier, true) != 0
    requires CustomData !in item.data && PlainNames(item.data) && DistinctNames(env.tagName)
    ensures var back := Handle(env, Handle(env, item, true), false).data;
      CustomData !in back && SameEntry(item.data, back, ItemName) && SameEntry(item.data, back, CustomName)
  {
    var texts := TextsFor(env, item.data, true);
    if env.process.Some? {
      UpdateTextsPlain(env.process.value, env.tagName, item.data);
    }
    var there := Handle(env, item, true);
    RewriteKeepsNames(env, texts, true, item);
    assert there.data == RewriteEntries(env, texts, true, item);
    assert !IsEmpty(there);
    RewriteKeepsNames(env, there.data, false, there);
    var rewritten := RewriteEntries(env, there.data, false, there);
    assert Handle(env, there, false).data == RestoreTextComponents(env.tagName, rewritten);
    assert SameNames(texts, rewritten);
    if env.process.Some? {
      NamesRoundTrip(env.process.value, env.tagName, item.data);
      RestoreLocal(env.tagName, texts, rewritten);
    } else {
      assert CustomDataOf(rewritten).None?;
    }
  }

  /** Entries of other components: an empty entry stays, a nested item is handled in the same direction,
    * every element of a nested item array too, and a rewritable value is rewritten. */
  lemma OtherEntryRewritten(env: Env, item: Item, clientbound: bool, k: Key)
    requires !IsEmpty(item) && k.Other? && k in item.data
    ensures var r := Handle(env, item, clientbound);
      k in r.data &&
      (item.data[k].Empty? ==> r.data[k] == Empty) &&
      (item.data[k].PlainValue? ==> r.data[k] == item.data[k]) &&
      (item.data[k].ItemValue? ==> r.data[k] == ItemValue(Handle(env, item.data[k].item, clientbound))) &&
      (item.data[k].ItemsValue? ==>
         r.data[k].ItemsValue? && |r.data[k].items| == |item.data[k].items| &&
         forall i :: 0 <= i < |item.data[k].items| ==> r.data[k].items[i] == Handle(env, item.data[k].items[i], clientbound)) &&
      (item.data[k].RewritableValue? ==> r.data[k] == RewritableValue(env.rewrite(item.data[k].payload, clientbound)))
  {
    var texts := TextsFor(env, item.data, clientbound);
    assert texts[k] == item.data[k];
    var rewritten := RewriteEntries(env, texts, clientbound, item);
    assert SameEntry(rewritten, Handle(env, item, clientbound).data, k);
    if HoldsItems(item.data[k]) {
      assert rewritten[k] == NestedItems(env, item.data[k], clientbound);
    }
  }

  /** With id maps that are inverse on an item's id, and a new id that is not air, the id survives the way
    * to the client and back. */
  lemma IdentifierRoundTrip(env: Env, item: Item)
    requires !IsEmpty(item) && env.ids.Some?
    requires env.ids.value.toNew(item.identifier) != 0
    requires env.ids.value.toOld(env.ids.value.toNew(item.identifier)) == item.identifier
    ensures Handle(env, Handle(env, item, true), false).identifier == item.identifier
    ensures Handle(env, Handle(env, item, true), false).amount == item.amount
  {
  }

  /** The loop over a nested item array, rewriting each element in place. */
  method RewriteItemArray(env: Env, items: array<Item>, clientbound: bool)
    modifies items
    ensures forall i :: 0 <= i < items.Length ==> items[i] == Handle(env, old(items[i]), clientbound)
    ensures items[..] == NestedItems(env, ItemsValue(old(items[..])), clientbound).items
  {
    for i := 0 to items.Length
      invariant forall j :: 0 <= j < i ==> items[j] == Handle(env, old(items[j]), clientbound)
      invariant forall j :: i <= j < items.Length ==> items[j] == old(items[j])
    {
      items[i] := Handle(env, items[i], clientbound);
    }
  }
}
