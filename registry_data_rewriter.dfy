/** The rewriter of registry data packets: entries registered for a registry are appended to it, the
  * enchantment registry has its effects' attributes and registered effect rewriters applied, and the
  * biome count and the dimension types are handed to the entity tracker. */
module RegistryDataRewriters {
  import opened Wrappers
  import opened Nbt

  /** The default namespace of resource identifiers. */
  const Namespace: string := "minecraft:"

  /** `Key.stripMinecraftNamespace`: an identifier without the default namespace. */
  function StripNamespace(id: string): (r: string)
    ensures Namespace <= id ==> Namespace + r == id
    ensures !(Namespace <= id) ==> r == id
  {
    if Namespace <= id then id[|Namespace|..] else id
  }

  /** Stripping undoes adding the namespace, whatever the identifier. */
  lemma StripNamespaced(id: string)
    ensures StripNamespace(Namespace + id) == id
  {
    assert Namespace <= Namespace + id;
  }

  /** A compound tag's entries. */
  type Compound = map<string, Tag>

  datatype RegistryEntry = RegistryEntry(key: string, tag: Option<Tag>)

  /** The cast `(CompoundTag) entry.tag()` succeeds: the entry has no tag (which is never cast) or a compound. */
  predicate CastsToCompound(entry: RegistryEntry) {
    entry.tag.None? || entry.tag.value.CompoundTag?
  }

  /** Every entry's tag casts to a compound. */
  predicate AllCast(es: seq<RegistryEntry>) {
    forall i :: 0 <= i < |es| ==> CastsToCompound(es[i])
  }

  /** The index of the first entry whose tag does not cast to a compound, or `|es|` when there is none. */
  function FirstUncast(es: seq<RegistryEntry>): (r: nat)
    ensures r <= |es|
    ensures AllCast(es[..r])
    ensures r < |es| ==> !CastsToCompound(es[r])
    ensures r == |es| <==> AllCast(es)
  {
    if |es| == 0 then 0
    else if !CastsToCompound(es[0]) then 0
    else
      var r := 1 + FirstUncast(es[1..]);
      assert forall i :: 1 <= i < r ==> es[..r][i] == es[1..][..r - 1][i - 1];
      r
  }

  /** The attribute mappings of the protocol's mapping data: an identifier's mapped identifier when it has
    * one, and the mapped identifier of attribute id 0, the stand-in for unmapped attributes. */
  datatype AttributeMappings = AttributeMappings(mapped: string -> Option<string>, dummy: string)

  /** What the dimension data of one dimension type is made from: its compound tag or the defaults for its key. */
  datatype DimensionSource = FromTag(tag: Compound) | DefaultsFor(key: string)

  datatype DimensionData = DimensionData(id: int, source: DimensionSource)

  // ---------------------------------------------------------------- tag lookups

  /** `getCompoundTag(key)`. */
  function CompoundAt(c: Compound, key: string): (r: Option<Compound>)
    ensures r.Some? <==> key in c && c[key].CompoundTag?
  {
    if key in c && c[key].CompoundTag? then Some(c[key].entries) else None
  }

  /** `getString(key)`: the text of a string tag. */
  function StringAt(c: Compound, key: string): (r: Option<string>)
    ensures r.Some? <==> key in c && c[key].StringTag?
  {
    if key in c && c[key].StringTag? then Some(c[key].text) else None
  }

  /** A list tag whose elements are all compounds. */
  predicate CompoundList(t: Tag) {
    t.ListTag? && forall i :: 0 <= i < |t.elems| ==> t.elems[i].CompoundTag?
  }

  /** A list of compounds with `f` applied to every element. */
  function MapCompounds(elems: seq<Tag>, f: Compound -> Compound): (r: seq<Tag>)
    requires forall i :: 0 <= i < |elems| ==> elems[i].CompoundTag?
    ensures |r| == |elems|
    ensures forall i :: 0 <= i < |elems| ==> r[i] == CompoundTag(f(elems[i].entries))
  {
    seq(|elems|, i requires 0 <= i < |elems| => CompoundTag(f(elems[i].entries)))
  }

  // ---------------------------------------------------------------- attributes and effects

  /** The identifier an attribute is rewritten to: its mapped identifier, or the stand-in when unmapped. */
  function MappedAttribute(m: AttributeMappings, attribute: string): (r: string)
    ensures m.mapped(StripNamespace(attribute)).Some? ==> r == m.mapped(StripNamespace(attribute)).value
    ensures m.mapped(StripNamespace(attribute)).None? ==> r == m.dummy
  {
    match m.mapped(StripNamespace(attribute))
    case Some(mapped) => mapped
    case None => m.dummy
  }

  /** `updateAttributeField` as written: without attribute mappings, a string `attribute` entry makes it
    * dereference the missing mappings (`None`, a null-pointer exception). */
  function UpdateAttributeFieldAsWritten(attributes: Option<AttributeMappings>, c: Compound): (r: Option<Compound>)
    ensures StringAt(c, "attribute").None? ==> r == Some(c)
    ensures StringAt(c, "attribute").Some? && attributes.None? ==> r.None?
    ensures StringAt(c, "attribute").Some? && attributes.Some? ==>
      r == Some(c["attribute" := StringTag(MappedAttribute(attributes.value, c["attribute"].text))])
  {
    match StringAt(c, "attribute")
    case None => Some(c)
    case Some(attribute) =>
      if attributes.None? then None
      else Some(c["attribute" := StringTag(MappedAttribute(attributes.value, attribute))])
  }

  /** `updateAttributeField` with the guard its other caller applies: a string `attribute` entry is
    * rewritten through the attribute mappings when there are any; everything else stays. */
  function UpdateAttributeField(attributes: Option<AttributeMappings>, c: Compound): (r: Compound)
    ensures r.Keys == c.Keys
    ensures forall k :: k in c && k != "attribute" ==> r[k] == c[k]
    ensures StringAt(c, "attribute").None? || attributes.None? ==> r == c
    ensures StringAt(c, "attribute").Some? && attributes.Some? ==>
      r["attribute"] == StringTag(MappedAttribute(attributes.value, c["attribute"].text))
  {
    match StringAt(c, "attribute")
    case None => c
    case Some(attribute) =>
      if attributes.None? then c else c["attribute" := StringTag(MappedAttribute(attributes.value, attribute))]
  }

  /** The as-written attribute update fails exactly where the guarded one has nothing to map with, and
    * agrees with it everywhere else. */
  lemma AttributeFieldGuarded(attributes: Option<AttributeMappings>, c: Compound)
    ensures UpdateAttributeFieldAsWritten(attributes, c).None? <==> StringAt(c, "attribute").Some? && attributes.None?
    ensures UpdateAttributeFieldAsWritten(attributes, c).Some? ==>
      UpdateAttributeFieldAsWritten(attributes, c).value == UpdateAttributeField(attributes, c)
  {
  }

  /** An effect of type `attribute` reached through `runEffectRewriters` when the protocol has no attribute
    * mappings: the as-written update throws. */
  lemma AttributeEffectWithoutMappings()
    ensures UpdateAttributeFieldAsWritten(None, map["type" := StringTag("minecraft:attribute"),
                                                    "attribute" := StringTag("minecraft:generic.armor")]).None?
  {
  }

  /** `runEffectRewriters`: an effect without a string `type` stays; otherwise its attribute is updated and
    * then the rewriter registered for its type (without namespace) runs on it. */
  function RunEffectRewriters(rewriters: map<string, Compound -> Compound>, attributes: Option<AttributeMappings>,
                              effect: Compound): (r: Compound)
    ensures StringAt(effect, "type").None? ==> r == effect
    ensures StringAt(effect, "type").Some? && StripNamespace(effect["type"].text) !in rewriters ==>
      r == UpdateAttributeField(attributes, effect)
    ensures StringAt(effect, "type").Some? && StripNamespace(effect["type"].text) in rewriters ==>
      r == rewriters[StripNamespace(effect["type"].text)](UpdateAttributeField(attributes, effect))
  {
    match StringAt(effect, "type")
    case None => effect
    case Some(t) =>
      var updated := UpdateAttributeField(attributes, effect);
      var kind := StripNamespace(t);
      if kind in rewriters then rewriters[kind](updated) else updated
  }

  /** `updateNestedEffect`: the rewriters run on the `effect` compound and then on each compound of the
    * `effects` list it holds afterwards. */
  function UpdateNestedEffect(rewriters: map<string, Compound -> Compound>, attributes: Option<AttributeMappings>,
                              c: Compound): (r: Compound)
    ensures CompoundAt(c, "effect").None? ==> r == c
    ensures r.Keys == c.Keys
    ensures forall k :: k in c && k != "effect" ==> r[k] == c[k]
  {
    match CompoundAt(c, "effect")
    case None => c
    case Some(effect) =>
      var run := RunEffectRewriters(rewriters, attributes, effect);
      var inner := if "effects" in run && CompoundList(run["effects"]) then
          run["effects" := ListTag(MapCompounds(run["effects"].elems, e => RunEffectRewriters(rewriters, attributes, e)))]
        else run;
      c["effect" := CompoundTag(inner)]
  }

  /** The loop over an enchantment's effects: compounds and lists of compounds have their nested effects
    * updated; other values stay. */
  function UpdateEffects(rewriters: map<string, Compound -> Compound>, attributes: Option<AttributeMappings>,
                         effects: Compound): (r: Compound)
    ensures r.Keys == effects.Keys
    ensures forall k :: k in effects && !effects[k].CompoundTag? && !CompoundList(effects[k]) ==> r[k] == effects[k]
  {
    map k | k in effects ::
      if effects[k].CompoundTag? then CompoundTag(UpdateNestedEffect(rewriters, attributes, effects[k].entries))
      else if CompoundList(effects[k]) then
        ListTag(MapCompounds(effects[k].elems, e => UpdateNestedEffect(rewriters, attributes, e)))
      else effects[k]
  }

  /** `getNamespacedCompoundTagList(effects, "attributes")`: the list under the namespaced key, else under
    * the plain key. */
  function AttributesKey(effects: Compound): (r: Option<string>)
    ensures r.Some? ==> r.value in effects && CompoundList(effects[r.value])
    ensures r.Some? ==> r.value == Namespace + "attributes" || r.value == "attributes"
    ensures r.None? ==> !(Namespace + "attributes" in effects && CompoundList(effects[Namespace + "attributes"])) &&
                        !("attributes" in effects && CompoundList(effects["attributes"]))
  {
    if Namespace + "attributes" in effects && CompoundList(effects[Namespace + "attributes"]) then Some(Namespace + "attributes")
    else if "attributes" in effects && CompoundList(effects["attributes"]) then Some("attributes")
    else None
  }

  /** `updateAttributesFields`: without attribute mappings nothing changes; otherwise every compound of
    * the attributes list has its attribute updated. */
  function UpdateAttributesFields(attributes: Option<AttributeMappings>, effects: Compound): (r: Compound)
    ensures attributes.None? || AttributesKey(effects).None? ==> r == effects
    ensures r.Keys == effects.Keys
    ensures forall k :: k in effects && Some(k) != AttributesKey(effects) ==> r[k] == effects[k]
  {
    if attributes.None? then effects
    else
      match AttributesKey(effects)
      case None => effects
      case Some(key) => effects[key := ListTag(MapCompounds(effects[key].elems, a => UpdateAttributeField(attributes, a)))]
  }

  /** The body of the `updateEnchantments` loop for one entry: an entry without a tag, or whose tag has no
    * `effects` compound, stays; a tag that is not a compound fails the cast; otherwise its effects are
    * updated, then its attribute fields. */
  function UpdateEnchantment(rewriters: map<string, Compound -> Compound>, attributes: Option<AttributeMappings>,
                             entry: RegistryEntry): (r: Option<RegistryEntry>)
    ensures r.Some? <==> CastsToCompound(entry)
    ensures r.Some? ==> r.value.key == entry.key && r.value.tag.Some? == entry.tag.Some?
    ensures r.Some? && r.value.tag.Some? ==> r.value.tag.value.CompoundTag?
    ensures entry.tag.None? ==> r == Some(entry)
    ensures entry.tag.Some? && entry.tag.value.CompoundTag? && CompoundAt(entry.tag.value.entries, "effects").None? ==> r == Some(entry)
  {
    if entry.tag.None? then Some(entry)
    else if !entry.tag.value.CompoundTag? then None
    else
      var tag := entry.tag.value.entries;
      match CompoundAt(tag, "effects")
      case None => Some(entry)
      case Some(effects) =>
        var updated := UpdateAttributesFields(attributes, UpdateEffects(rewriters, attributes, effects));
        Some(RegistryEntry(entry.key, Some(CompoundTag(tag["effects" := CompoundTag(updated)]))))
  }

  // ---------------------------------------------------------------- dimension types

  /** The dimension data of the entry at index `i`, once its tag has been cast to a compound. */
  function DimensionOf(entry: RegistryEntry, i: int): DimensionData
    requires CastsToCompound(entry)
  {
    DimensionData(i, if entry.tag.Some? then FromTag(entry.tag.value.entries) else DefaultsFor(StripNamespace(entry.key)))
  }

  /** The map `trackDimensionAndBiomes` builds from the first `|es|` entries when every tag casts: each key
    * without namespace to the dimension data of its entry, a later entry replacing an earlier one with the
    * same key. */
  function DimensionMap(es: seq<RegistryEntry>): (m: map<string, DimensionData>)
    requires AllCast(es)
    ensures |es| > 0 ==> StripNamespace(es[|es| - 1].key) in m
  {
    if |es| == 0 then map[]
    else
      AllCastPrefix(es, |es| - 1);
      DimensionMap(es[..|es| - 1])[StripNamespace(es[|es| - 1].key) := DimensionOf(es[|es| - 1], |es| - 1)]
  }

  /** A prefix of entries whose tags all cast casts too. */
  lemma AllCastPrefix(es: seq<RegistryEntry>, n: nat)
    requires AllCast(es) && n <= |es|
    ensures AllCast(es[..n])
  {
    forall i | 0 <= i < n ensures CastsToCompound(es[..n][i]) {
      assert es[..n][i] == es[i];
    }
  }

  /** An entry whose tag casts keeps a run of such entries casting. */
  lemma AllCastSnoc(es: seq<RegistryEntry>, e: RegistryEntry)
    requires AllCast(es) && CastsToCompound(e)
    ensures AllCast(es + [e])
  {
    forall i | 0 <= i < |es| + 1 ensures CastsToCompound((es + [e])[i]) {
      if i < |es| {
        assert (es + [e])[i] == es[i];
      }
    }
  }

  /** Every entry's key without namespace is a dimension. */
  lemma {:induction false} DimensionMapHasKey(es: seq<RegistryEntry>, i: int)
    requires AllCast(es) && 0 <= i < |es|
    ensures StripNamespace(es[i].key) in DimensionMap(es)
  {
    if i < |es| - 1 {
      var init := es[..|es| - 1];
      assert init[i] == es[i];
      AllCastPrefix(es, |es| - 1);
      DimensionMapHasKey(init, i);
    }
  }

  /** Each dimension is described by the LAST entry with its key: the data carries that entry's index, its
    * tag when it has one and the defaults for its key otherwise. */
  lemma {:induction false} DimensionMapLast(es: seq<RegistryEntry>, k: string)
    requires AllCast(es) && k in DimensionMap(es)
    ensures var d := DimensionMap(es)[k];
      0 <= d.id < |es| && StripNamespace(es[d.id].key) == k && d == DimensionOf(es[d.id], d.id) &&
      NoLaterKey(es, k, d.id)
  {
    var init := es[..|es| - 1];
    AllCastPrefix(es, |es| - 1);
    if StripNamespace(es[|es| - 1].key) != k {
      assert k in DimensionMap(init);
      DimensionMapLast(init, k);
      var d := DimensionMap(init)[k];
      assert DimensionMap(es)[k] == d && es[d.id] == init[d.id];
      NoLaterKeyLonger(es, k, d.id);
    }
  }

  /** No entry after index `from` of `es` has key `k`. */
  ghost predicate NoLaterKey(es: seq<RegistryEntry>, k: string, from: nat) {
    forall j :: from < j < |es| ==> StripNamespace(es[j].key) != k
  }

  /** An entry without key `k` after the last one with it keeps that one the last. */
  lemma NoLaterKeyLonger(es: seq<RegistryEntry>, k: string, from: nat)
    requires |es| > 0 && StripNamespace(es[|es| - 1].key) != k && NoLaterKey(es[..|es| - 1], k, from)
    ensures NoLaterKey(es, k, from)
  {
    forall j | from < j < |es| ensures StripNamespace(es[j].key) != k {
      if j < |es| - 1 {
        assert es[j] == es[..|es| - 1][j];
      }
    }
  }

  /** A dimension's key is the key of one of the entries. */
  lemma {:induction false} KeyOfDimension(es: seq<RegistryEntry>, k: string)
    requires AllCast(es) && k in DimensionMap(es)
    ensures exists i :: 0 <= i < |es| && StripNamespace(es[i].key) == k
  {
    DimensionMapLast(es, k);
    var d := DimensionMap(es)[k];
    assert StripNamespace(es[d.id].key) == k;
  }

  /** The dimensions are exactly the entries' keys without namespace. */
  lemma {:induction false} DimensionMapKeys(es: seq<RegistryEntry>)
    requires AllCast(es)
    ensures DimensionMap(es).Keys == set i | 0 <= i < |es| :: StripNamespace(es[i].key)
  {
    var m := DimensionMap(es);
    var keys := set i | 0 <= i < |es| :: StripNamespace(es[i].key);
    forall k | k in m ensures k in keys {
      KeyOfDimension(es, k);
    }
    forall k | k in keys ensures k in m {
      var i :| 0 <= i < |es| && StripNamespace(es[i].key) == k;
      DimensionMapHasKey(es, i);
    }
    assert m.Keys == keys;
  }

  // ---------------------------------------------------------------- the rewriter

  /** The entity tracker's registry state: the number of biomes sent and the dimension types. */
  class RegistryTracker {
    var biomesSent: int
    var dimensions: map<string, DimensionData>

    constructor ()
      ensures biomesSent == 0 && dimensions == map[]
    {
      biomesSent := 0;
      dimensions := map[];
    }
  }

  class RegistryDataRewriter {
    var effectRewriters: map<string, Compound -> Compound>
    var toAdd: map<string, seq<RegistryEntry>>
    /** The protocol's attribute mappings, when its mapping data has them. */
    const attributes: Option<AttributeMappings>

    constructor (attributes: Option<AttributeMappings>)
      ensures effectRewriters == map[] && toAdd == map[] && this.attributes == attributes
    {
      effectRewriters := map[];
      toAdd := map[];
      this.attributes := attributes;
    }

    /** The entries registered for a registry (already without namespace), in registration order. */
    function Additions(key: string): (r: seq<RegistryEntry>)
      reads this
      ensures key !in toAdd ==> r == []
    {
      if key in toAdd then toAdd[key] else []
    }

    /** What `handle` makes of a registry's entries: the enchantment registry updated, and the registered
      * additions appended; nothing when an enchantment entry's tag fails the cast. */
    function Handled(key: string, entries: seq<RegistryEntry>): (r: Option<seq<RegistryEntry>>)
      reads this
      ensures r.None? <==> StripNamespace(key) == "enchantment" && !AllCast(entries)
      ensures r.Some? ==> |r.value| == |entries| + |Additions(StripNamespace(key))|
      ensures r.Some? && StripNamespace(key) != "enchantment" ==> r.value[..|entries|] == entries
      ensures r.Some? ==> forall i :: 0 <= i < |entries| ==>
        Some(r.value[i]) == (if StripNamespace(key) == "enchantment" then UpdateEnchantment(effectRewriters, attributes, entries[i])
                             else Some(entries[i]))
      ensures r.Some? ==> r.value[|entries|..] == Additions(StripNamespace(key))
    {
      var k := StripNamespace(key);
      var rewriters := effectRewriters;
      if k != "enchantment" then Some(entries + Additions(k))
      else if !AllCast(entries) then None
      else
        var updated := seq(|entries|, i requires 0 <= i < |entries| =>
          UpdateEnchantment(rewriters, attributes, entries[i]).value);
        Some(updated + Additions(k))
    }

    /** `addEntries`: the entries are appended to those already registered under the key without
      * namespace. */
    method AddEntries(key: string, entries: seq<RegistryEntry>)
      modifies this
      ensures toAdd == old(toAdd)[StripNamespace(key) := old(Additions(StripNamespace(key))) + entries]
      ensures effectRewriters == old(effectRewriters)
    {
      var k := StripNamespace(key);
      var existing := if k in toAdd then toAdd[k] else [];
      toAdd := toAdd[k := existing + entries];
    }

    /** `addEnchantmentEffectRewriter`: registers (or replaces) the rewriter for an effect type. */
    method AddEnchantmentEffectRewriter(key: string, rewriter: Compound -> Compound)
      modifies this
      ensures effectRewriters == old(effectRewriters)[StripNamespace(key) := rewriter]
      ensures toAdd == old(toAdd)
    {
      effectRewriters := effectRewriters[StripNamespace(key) := rewriter];
    }

    /** `updateEnchantments`: the entries updated in place, one by one. The first entry whose tag is not a
      * compound fails the cast: the entries before it stay updated and it and the later ones unchanged. */
    method UpdateEnchantments(entries: array<RegistryEntry>) returns (r: Result<()>)
      modifies entries
      ensures r.Success? <==> AllCast(old(entries[..]))
      ensures forall i :: 0 <= i < FirstUncast(old(entries[..])) ==>
        Some(entries[i]) == UpdateEnchantment(effectRewriters, attributes, old(entries[i]))
      ensures forall i :: FirstUncast(old(entries[..])) <= i < entries.Length ==> entries[i] == old(entries[i])
    {
      ghost var bad := FirstUncast(entries[..]);
      for i := 0 to entries.Length
        invariant i <= bad
        invariant forall j :: 0 <= j < i ==> Some(entries[j]) == UpdateEnchantment(effectRewriters, attributes, old(entries[j]))
        invariant forall j :: i <= j < entries.Length ==> entries[j] == old(entries[j])
      {
        var updated := UpdateEnchantment(effectRewriters, attributes, entries[i]);
        if updated.None? {
          assert old(entries[..])[i] == entries[i];
          return Failure("ClassCastException");
        }
        assert old(entries[..])[..bad][i] == entries[i];
        entries[i] := updated.value;
      }
      return Success(());
    }

    /** `trackDimensionAndBiomes`: the biome registry's size becomes the biome count, the dimension
      * types become the tracker's dimensions; other registries leave the tracker alone. A dimension type
      * whose tag is not a compound fails the cast before the tracker is touched. */
    method TrackDimensionAndBiomes(tracker: RegistryTracker, key: string, entries: array<RegistryEntry>) returns (r: Result<()>)
      modifies tracker
      ensures r.Success? <==> key != "dimension_type" || AllCast(entries[..])
      ensures key == "worldgen/biome" ==> tracker.biomesSent == entries.Length && tracker.dimensions == old(tracker.dimensions)
      ensures key == "dimension_type" && r.Success? ==>
        tracker.dimensions == DimensionMap(entries[..]) && tracker.biomesSent == old(tracker.biomesSent)
      ensures (key != "worldgen/biome" && key != "dimension_type") || r.Failure? ==>
        tracker.biomesSent == old(tracker.biomesSent) && tracker.dimensions == old(tracker.dimensions)
    {
      if key == "worldgen/biome" {
        tracker.biomesSent := entries.Length;
      } else if key == "dimension_type" {
        var dimensions: map<string, DimensionData> := map[];
        for i := 0 to entries.Length
          invariant AllCast(entries[..i])
          invariant dimensions == DimensionMap(entries[..i])
          invariant tracker.biomesSent == old(tracker.biomesSent) && tracker.dimensions == old(tracker.dimensions)
        {
          if !CastsToCompound(entries[i]) {
            assert entries[..][i] == entries[i];
            return Failure("ClassCastException");
          }
          assert entries[..i + 1] == entries[..i] + [entries[i]];
          AllCastSnoc(entries[..i], entries[i]);
          assert entries[..i + 1][..i] == entries[..i];
          dimensions := dimensions[StripNamespace(entries[i].key) := DimensionOf(entries[i], i)];
        }
        assert entries[..entries.Length] == entries[..];
        tracker.dimensions := dimensions;
      }
      return Success(());
    }

    /** `Arrays.copyOf` to the longer length, and the loop filling the new slots with the additions. */
    static method CopyAppend(entries: array<RegistryEntry>, additions: seq<RegistryEntry>) returns (r: array<RegistryEntry>)
      ensures fresh(r) && r[..] == entries[..] + additions
    {
      var length := entries.Length;
      r := new RegistryEntry[length + |additions|](i => RegistryEntry("", None));
      for i := 0 to length
        invariant forall j :: 0 <= j < i ==> r[j] == entries[j]
      {
        r[i] := entries[i];
      }
      for i := 0 to |additions|
        invariant forall j :: 0 <= j < length ==> r[j] == entries[j]
        invariant forall j :: length <= j < length + i ==> r[j] == additions[j - length]
      {
        r[length + i] := additions[i];
      }
    }

    /** `handle`: the registry's entries, updated and extended, and the tracker told about them. It fails when
      * an enchantment's tag, or a dimension type's tag among the final entries, is not a compound. */
    method Handle(tracker: RegistryTracker, key: string, entries: array<RegistryEntry>) returns (r: Result<array<RegistryEntry>>)
      modifies entries, tracker
      ensures var h := Handled(key, old(entries[..]));
        r.Success? <==> h.Some? && (StripNamespace(key) != "dimension_type" || AllCast(h.value))
      ensures r.Success? ==> Handled(key, old(entries[..])) == Some(r.value[..])
      ensures r.Success? && StripNamespace(key) == "worldgen/biome" ==>
        tracker.biomesSent == r.value.Length && tracker.dimensions == old(tracker.dimensions)
      ensures r.Success? && StripNamespace(key) == "dimension_type" ==>
        AllCast(r.value[..]) && tracker.dimensions == DimensionMap(r.value[..]) && tracker.biomesSent == old(tracker.biomesSent)
      ensures (StripNamespace(key) != "worldgen/biome" && StripNamespace(key) != "dimension_type") || r.Failure? ==>
        tracker.biomesSent == old(tracker.biomesSent) && tracker.dimensions == old(tracker.dimensions)
      ensures StripNamespace(key) != "enchantment" ==> entries[..] == old(entries[..])
      ensures r.Success? && StripNamespace(key) in toAdd ==> fresh(r.value)
      ensures r.Success? && StripNamespace(key) !in toAdd ==> r.value == entries
    {
      var k := StripNamespace(key);
      if k == "enchantment" {
        var updated := UpdateEnchantments(entries);
        if updated.Failure? {
          return Failure(updated.error);
        }
      }
      ghost var h := Handled(key, old(entries[..]));
      assert h.Some?;
      assert entries[..] == h.value[..entries.Length];
      var out: array<RegistryEntry>;
      if k in toAdd {
        out := CopyAppend(entries, toAdd[k]);
        assert h.value == h.value[..entries.Length] + h.value[entries.Length..];
      } else {
        out := entries;
        assert h.value == h.value[..entries.Length];
      }
      assert out[..] == h.value;
      var tracked := TrackDimensionAndBiomes(tracker, k, out);
      if tracked.Failure? {
        return Failure(tracked.error);
      }
      return Success(out);
    }
  }
}
