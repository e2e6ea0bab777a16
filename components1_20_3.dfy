/** Text components in 1.20.3 travel as NBT instead of JSON. This module converts between the two tree
  * forms: JSON objects become compounds, strings string tags, booleans byte tags, arrays list tags, and the
  * entity UUID under `contents` switches between its string and its four-int form. */
module Components1_20_3 {
  import opened Wrappers
  import opened Bytes
  import opened Nbt
  import opened Uuids

  /** A Gson number; the boxed class it holds decides the tag it becomes. A number read from JSON text is
    * lazily parsed and of none of these classes, so it keeps only its text. */
  datatype Number =
    | IntegerNum(i: int)
    | ByteNum(b: int)
    | ShortNum(sh: int)
    | LongNum(l: int)
    | DoubleNum(d: Floating)
    | FloatNum(f: Floating)
    | LazyNum(text: string)

  /** A Gson element. Java's `null` and `JsonNull` are both `JNull`; an object is its member map. */
  datatype Json =
    | JNull
    | JString(s: string)
    | JBool(b: bool)
    | JNumber(num: Number)
    | JArray(elems: seq<Json>)
    | JObject(members: map<string, Json>)

  /** The keys whose number tags read back as JSON booleans. */
  const BooleanKeys: set<string> := {"interpret", "bold", "italic", "underlined", "strikethrough", "obfuscated"}

  function IsBooleanKey(key: Option<string>): bool {
    key.Some? && key.value in BooleanKeys
  }

  /** The UUID a `contents` object's `id` member names, when it is a string in canonical UUID form. (The
    * string of a JSON boolean or number never has that form.) */
  function UuidOfId(id: Json): (r: Option<seq<int>>)
    ensures r.Some? ==> id.JString? && r == ParseUuid(id.s)
  {
    if id.JString? then ParseUuid(id.s) else None
  }

  /** A tree the conversion to NBT gets through: no `null` inside an array or an object. The compound
    * and list tags cannot hold one, so any nested null makes the conversion fail. */
  predicate Convertible(j: Json) {
    match j
    case JArray(es) => forall i :: 0 <= i < |es| ==> !es[i].JNull? && Convertible(es[i])
    case JObject(m) => forall k :: k in m ==> !m[k].JNull? && Convertible(m[k])
    case _ => true
  }

  function NumberToTag(n: Number): Tag {
    match n
    case IntegerNum(i) => IntTag(i)
    case ByteNum(b) => ByteTag(b)
    case ShortNum(sh) => ShortTag(sh)
    case LongNum(l) => LongTag(l)
    case DoubleNum(d) => DoubleTag(d)
    case FloatNum(f) => FloatTag(f)
    case LazyNum(text) => StringTag(text)
  }

  /** The compound entries at the front of `tags`, one copy of `listTag` for each. */
  function CompoundCopies(tags: seq<Tag>, listTag: Tag): (r: seq<Tag>)
    ensures |r| <= |tags|
    ensures forall i :: 0 <= i < |r| ==> r[i] == listTag
  {
    if |tags| == 0 then []
    else (if tags[0].CompoundTag? then [listTag] else []) + CompoundCopies(tags[1..], listTag)
  }

  /** The first element whose tag class differs from the first element's, if any. */
  function FirstMismatch(tags: seq<Tag>, from: nat): (r: nat)
    requires 0 < |tags| && from <= |tags|
    ensures from <= r <= |tags|
    ensures forall i :: from <= i < r ==> KindOf(tags[i]) == KindOf(tags[0])
    ensures r < |tags| ==> KindOf(tags[r]) != KindOf(tags[0])
    decreases |tags| - from
  {
    if from == |tags| then from
    else if KindOf(tags[from]) != KindOf(tags[0]) then from
    else FirstMismatch(tags, from + 1)
  }

  /** `convertJsonArray` on the converted elements. When they all have one tag class, they form the list.
    * Otherwise the list is one copy of the elements before the first odd one out for each compound
    * element, and the other elements are dropped. */
  function ArrayToTag(tags: seq<Tag>): (r: Tag)
    ensures r.ListTag?
    ensures (forall i :: 0 <= i < |tags| ==> KindOf(tags[i]) == KindOf(tags[0])) ==> r == ListTag(tags)
  {
    if |tags| == 0 then ListTag([])
    else
      var m := FirstMismatch(tags, 1);
      if m == |tags| then ListTag(tags)
      else ListTag(CompoundCopies(tags, ListTag(tags[..m])))
  }

  /** `convertToTag` on a non-null element. */
  function ToTag(j: Json): (r: Tag)
    requires !j.JNull? && Convertible(j)
    ensures r.CompoundTag? <==> j.JObject?
    ensures !r.IntArrayTag?
    decreases j, 1
  {
    match j
    case JString(s) => StringTag(s)
    case JBool(b) => ByteTag(if b then 1 else 0)
    case JNumber(n) => NumberToTag(n)
    case JArray(es) => ArrayToTag(seq(|es|, i requires 0 <= i < |es| => ToTag(es[i])))
    case JObject(m) => CompoundTag(ObjectToTag(j, {}))
  }

  /** The compound entries of an object's members other than those in `skip`, one per member. */
  function ObjectToTag(j: Json, skip: set<string>): (r: map<string, Tag>)
    requires j.JObject? && Convertible(j)
    ensures r.Keys == j.members.Keys - skip
    ensures forall k :: k in r ==> r[k] == ObjectEntryToTag(k, j.members[k])
    decreases j, 0
  {
    map k | k in j.members.Keys - skip :: ObjectEntryToTag(k, j.members[k])
  }

  /** `convertObjectEntry`: the tag stored under `key`. A `contents` object whose `id` is a UUID string
    * is converted without it, and the id is put back as the four-int array. */
  function ObjectEntryToTag(key: string, v: Json): (r: Tag)
    requires !v.JNull? && Convertible(v)
    decreases v, 2
  {
    if key == "contents" && v.JObject? && "id" in v.members && UuidOfId(v.members["id"]).Some? then
      CompoundTag(ObjectToTag(v, {"id"})["id" := IntArrayTag(UuidOfId(v.members["id"]).value)])
    else ToTag(v)
  }

  /** `jsonComponentToTag`: null for null, the converted tag, or the `"<error>"` string tag when the
    * conversion fails. */
  function JsonComponentToTag(j: Json): (r: Option<Tag>)
    ensures r.None? <==> j.JNull?
    ensures !j.JNull? && !Convertible(j) ==> r == Some(StringTag("<error>"))
    ensures !j.JNull? && Convertible(j) ==> r == Some(ToTag(j))
  {
    if j.JNull? then None
    else if Convertible(j) then Some(ToTag(j))
    else Some(StringTag("<error>"))
  }

  /** The Gson number a number tag's boxed value is. */
  function TagNumber(t: Tag): Number
    requires t.IsNumber()
  {
    match t
    case ByteTag(v) => ByteNum(v)
    case ShortTag(v) => ShortNum(v)
    case IntTag(v) => IntegerNum(v)
    case LongTag(v) => LongNum(v)
    case FloatTag(f) => FloatNum(f)
    case DoubleTag(f) => DoubleNum(f)
  }

  /** An empty key is not a valid component key, so its entry is added under `"text"` instead. */
  function Rekey(m: map<string, Json>): (r: map<string, Json>)
    ensures "" !in r
    ensures "" in m ==> "text" in r && r["text"] == m[""]
    ensures forall k :: k in m && k != "" && k != "text" ==> k in r && r[k] == m[k]
  {
    if "" in m then (m - {""})["text" := m[""]] else m
  }

  /** `convertToJson` of a tag found under `key` (`None` at the top and inside lists). */
  function ToJson(key: Option<string>, t: Tag): (r: Json)
    ensures !r.JNull?
    ensures r.JObject? <==> t.CompoundTag?
    ensures r.JObject? ==> "" !in r.members
    decreases t, 1
  {
    match t
    case CompoundTag(e) => JObject(Rekey(CompoundToJson(t, {})))
    case ListTag(es) => JArray(seq(|es|, i requires 0 <= i < |es| => ToJson(None, es[i])))
    case StringTag(s) => JString(s)
    case ByteArrayTag(bs) => JArray(seq(|bs|, i requires 0 <= i < |bs| => JNumber(ByteNum(bs[i]))))
    case IntArrayTag(ns) => JArray(seq(|ns|, i requires 0 <= i < |ns| => JNumber(IntegerNum(ns[i]))))
    case LongArrayTag(ls) => JArray(seq(|ls|, i requires 0 <= i < |ls| => JNumber(LongNum(ls[i]))))
    case _ => if IsBooleanKey(key) then JBool(t.AsBoolean()) else JNumber(TagNumber(t))
  }

  /** The object members of a compound's entries other than those in `skip`, before empty keys are renamed. */
  function CompoundToJson(t: Tag, skip: set<string>): (r: map<string, Json>)
    requires t.CompoundTag?
    ensures r.Keys == t.entries.Keys - skip
    ensures forall k :: k in r ==> r[k] == EntryToJson(k, t.entries[k])
    decreases t, 0
  {
    map k | k in t.entries.Keys - skip :: EntryToJson(k, t.entries[k])
  }

  /** `convertCompoundTagEntry`: the element for `key`. A `contents` compound whose `id` is an int array is
    * converted without it, and the id is put back as its UUID string. */
  function EntryToJson(key: string, t: Tag): (r: Json)
    ensures !r.JNull?
    ensures r.JObject? <==> t.CompoundTag?
    decreases t, 2
  {
    if key == "contents" && t.CompoundTag? && "id" in t.entries && t.entries["id"].IntArrayTag? then
      JObject(Rekey(CompoundToJson(t, {"id"}))["id" := JString(UuidIntsToString(t.entries["id"].intArray))])
    else ToJson(Some(key), t)
  }

  /** `tagComponentToJson`. Every tag class is handled, so the `"<error>"` fallback is never taken. */
  function TagComponentToJson(t: Option<Tag>): (r: Json)
    ensures r.JNull? <==> t.None?
  {
    match t
    case None => JNull
    case Some(tag) => ToJson(None, tag)
  }

  // ---------------------------------------------------------------- properties of the conversion

  /** The tag class an element converts to. */
  function KindOfJson(j: Json): TagKind {
    match j
    case JString(_) => StringKind
    case JBool(_) => ByteKind
    case JNumber(n) => KindOf(NumberToTag(n))
    case JArray(_) => ListKind
    case _ => CompoundKind
  }

  lemma KindOfToTag(j: Json)
    requires !j.JNull? && Convertible(j)
    ensures KindOf(ToTag(j)) == KindOfJson(j)
  {
  }

  /** No element or object entry converts to an int array: those only appear for UUIDs, inside `contents`. */
  lemma EntryNotIntArray(key: string, v: Json)
    requires !v.JNull? && Convertible(v)
    ensures !ObjectEntryToTag(key, v).IntArrayTag?
  {
    if !(key == "contents" && v.JObject? && "id" in v.members && UuidOfId(v.members["id"]).Some?) {
      assert ObjectEntryToTag(key, v) == ToTag(v);
      match v
      case JNumber(n) =>
      case JArray(es) =>
      case _ =>
    }
  }

  /** Strings, booleans and objects convert as the component format prescribes, keeping every key. */
  lemma ToTagShapes(j: Json)
    requires !j.JNull? && Convertible(j)
    ensures j.JString? ==> ToTag(j) == StringTag(j.s)
    ensures j.JBool? ==> ToTag(j) == ByteTag(if j.b then 1 else 0)
    ensures j.JObject? ==> ToTag(j).CompoundTag? && ToTag(j).entries.Keys == j.members.Keys
    ensures j.JArray? ==> ToTag(j).ListTag?
  {
  }

  /** Under `contents`, a UUID-string id becomes its int array, and any other id is converted as usual. */
  lemma ContentsIdToTag(v: Json)
    requires v.JObject? && "id" in v.members && Convertible(v)
    ensures var t := ObjectEntryToTag("contents", v);
      t.CompoundTag? && "id" in t.entries &&
      (UuidOfId(v.members["id"]).Some? ==> t.entries["id"] == IntArrayTag(ParseUuid(v.members["id"].s).value)) &&
      (UuidOfId(v.members["id"]).None? ==> t.entries["id"] == ObjectEntryToTag("id", v.members["id"]))
  {
  }

  /** Going back, a four-int id under `contents` becomes the UUID string that parses to the same ints, and
    * an id array of any other length becomes the all-zero UUID. */
  lemma ContentsIdToJson(e: map<string, Tag>)
    requires "id" in e && e["id"].IntArrayTag?
    ensures var j := EntryToJson("contents", CompoundTag(e));
      j.JObject? && "id" in j.members && j.members["id"] == JString(UuidIntsToString(e["id"].intArray)) &&
      (|e["id"].intArray| != 4 ==> j.members["id"] == JString(ZeroUuid)) &&
      (|e["id"].intArray| == 4 && (forall i :: 0 <= i < 4 ==> IsInt32(e["id"].intArray[i])) ==>
         ParseUuid(j.members["id"].s) == Some(e["id"].intArray))
  {
    if |e["id"].intArray| == 4 && forall i :: 0 <= i < 4 ==> IsInt32(e["id"].intArray[i]) {
      UuidRoundTrip(e["id"].intArray);
    }
  }

  /** A number tag under one of the style keys reads back as a JSON boolean; under any other key, as a number. */
  lemma NumberTagToJson(key: Option<string>, t: Tag)
    requires t.IsNumber()
    ensures IsBooleanKey(key) ==> ToJson(key, t) == JBool(t.AsBoolean())
    ensures !IsBooleanKey(key) ==> ToJson(key, t).JNumber?
  {
  }

  /** A compound's empty key comes back as `"text"`, and no JSON object has an empty key. */
  lemma EmptyKeyToText(e: map<string, Tag>)
    requires "" in e
    ensures var j := ToJson(None, CompoundTag(e));
      j.JObject? && "" !in j.members && "text" in j.members && j.members["text"] == EntryToJson("", e[""])
  {
  }

  /** The elements that survive the trip to NBT and back unchanged: no nulls, booleans only under the
    * style keys and numbers only elsewhere, no lazily parsed numbers, arrays of one tag class, no empty
    * keys, and UUID ids under `contents` written in lower case. */
  predicate Preserved(key: Option<string>, j: Json)
    decreases j, 0
  {
    match j
    case JNull => false
    case JString(_) => true
    case JBool(_) => IsBooleanKey(key)
    case JNumber(n) => !n.LazyNum? && !IsBooleanKey(key)
    case JArray(es) =>
      (forall i :: 0 <= i < |es| ==> KindOfJson(es[i]) == KindOfJson(es[0])) &&
      (forall i :: 0 <= i < |es| ==> Preserved(None, es[i]))
    case JObject(m) => "" !in m && forall k :: k in m ==> EntryPreserved(k, m[k])
  }

  predicate EntryPreserved(key: string, v: Json)
    decreases v, 1
  {
    if key == "contents" && v.JObject? && "id" in v.members && UuidOfId(v.members["id"]).Some? then
      Lower(v.members["id"].s) == v.members["id"].s && "" !in v.members &&
      forall k :: k in v.members && k != "id" ==> EntryPreserved(k, v.members[k])
    else Preserved(Some(key), v)
  }

  /** Converting a preserved element to NBT and back gives the element again. */
  lemma {:induction false} RoundTrip(key: Option<string>, j: Json)
    requires Preserved(key, j)
    ensures !j.JNull? && Convertible(j) && ToJson(key, ToTag(j)) == j
    decreases j, 2
  {
    match j
    case JString(_) =>
    case JBool(_) =>
    case JNumber(n) =>
    case JArray(es) => RoundTripArray(key, j);
    case JObject(m) => RoundTripObject(key, j);
  }

  lemma {:induction false} RoundTripArray(key: Option<string>, j: Json)
    requires j.JArray? && Preserved(key, j)
    ensures Convertible(j) && ToJson(key, ToTag(j)) == j
    decreases j, 1
  {
    var es := j.elems;
    forall i | 0 <= i < |es|
      ensures !es[i].JNull? && Convertible(es[i]) && ToJson(None, ToTag(es[i])) == es[i]
    {
      RoundTrip(None, es[i]);
    }
    var tags := seq(|es|, i requires 0 <= i < |es| => ToTag(es[i]));
    forall i | 0 <= i < |es|
      ensures KindOf(tags[i]) == KindOf(tags[0])
    {
      KindOfToTag(es[i]);
      KindOfToTag(es[0]);
    }
    assert ToTag(j) == ListTag(tags);
    var back := seq(|tags|, i requires 0 <= i < |tags| => ToJson(None, tags[i]));
    assert back == es;
  }

  lemma {:induction false} RoundTripObject(key: Option<string>, j: Json)
    requires j.JObject? && Preserved(key, j)
    ensures Convertible(j) && ToJson(key, ToTag(j)) == j
    decreases j, 1
  {
    var m := j.members;
    forall k | k in m
      ensures !m[k].JNull? && Convertible(m[k]) && EntryToJson(k, ObjectEntryToTag(k, m[k])) == m[k]
    {
      EntryRoundTrip(k, m[k]);
    }
    var t := CompoundTag(ObjectToTag(j, {}));
    assert ToTag(j) == t;
    var back := CompoundToJson(t, {});
    MapsEqual(back, m);
    assert Rekey(back) == back;
  }

  lemma MapsEqual(a: map<string, Json>, b: map<string, Json>)
    requires a.Keys == b.Keys && forall k :: k in a ==> a[k] == b[k]
    ensures a == b
  {
  }

  lemma {:induction false} EntryRoundTrip(key: string, v: Json)
    requires EntryPreserved(key, v)
    ensures !v.JNull? && Convertible(v) && EntryToJson(key, ObjectEntryToTag(key, v)) == v
    decreases v, 3
  {
    if key == "contents" && v.JObject? && "id" in v.members && UuidOfId(v.members["id"]).Some? {
      ContentsRoundTrip(v);
    } else {
      RoundTrip(Some(key), v);
      assert ObjectEntryToTag(key, v) == ToTag(v);
      if key == "contents" && v.JObject? && "id" in v.members {
        EntryNotIntArray("id", v.members["id"]);
        assert ToTag(v).entries["id"] == ObjectEntryToTag("id", v.members["id"]);
      }
    }
  }

  /** The `contents` case: the UUID id leaves as an int array and comes back as the same string. */
  lemma {:induction false} ContentsRoundTrip(v: Json)
    requires v.JObject? && "id" in v.members && UuidOfId(v.members["id"]).Some?
    requires EntryPreserved("contents", v)
    ensures Convertible(v) && EntryToJson("contents", ObjectEntryToTag("contents", v)) == v
    decreases v, 2
  {
    var vm := v.members;
    forall k | k in vm && k != "id"
      ensures !vm[k].JNull? && Convertible(vm[k]) && EntryToJson(k, ObjectEntryToTag(k, vm[k])) == vm[k]
    {
      EntryRoundTrip(k, vm[k]);
    }
    var ints := UuidOfId(vm["id"]).value;
    var idString := JString(UuidIntsToString(ints));
    assert vm["id"] == idString by {
      assert Lower(vm["id"].s) == vm["id"].s;
      UuidStringOfParse(vm["id"].s);
    }
    var t := CompoundTag(ObjectToTag(v, {"id"})["id" := IntArrayTag(ints)]);
    assert ObjectEntryToTag("contents", v) == t;
    ContentsBack(v, ints, t);
  }

  /** The way back for `contents`: the entries other than `id` come back by themselves and `id` comes back
    * from its int array as the string it was. */
  lemma ContentsBack(v: Json, ints: seq<int>, t: Tag)
    requires v.JObject? && Convertible(v) && "id" in v.members && "" !in v.members
    requires t == CompoundTag(ObjectToTag(v, {"id"})["id" := IntArrayTag(ints)])
    requires v.members["id"] == JString(UuidIntsToString(ints))
    requires forall k :: k in v.members && k != "id" ==> EntryToJson(k, ObjectEntryToTag(k, v.members[k])) == v.members[k]
    ensures EntryToJson("contents", t) == v
  {
    var back := CompoundToJson(t, {"id"});
    assert back.Keys == v.members.Keys - {"id"};
    assert Rekey(back) == back;
    MapsEqual(back["id" := JString(UuidIntsToString(ints))], v.members);
  }

  /** At the top: every preserved component comes back from the packet's NBT form as it was. */
  lemma ComponentRoundTrip(j: Json)
    requires Preserved(None, j)
    ensures TagComponentToJson(JsonComponentToTag(j)) == j
  {
    RoundTrip(None, j);
  }
}
