/** The wire form of a data component predicate: a VAR_INT component id followed by an NBT tag, and the
  * array of predicates with its length prefix and its bound of 64 entries. The NBT codec is a parameter
  * of the model, given to round-trip. */
module DataComponentPredicates {
  import opened Wrappers
  import opened Bytes
  import opened Nbt

  datatype DataComponentPredicate = DataComponentPredicate(id: int, tag: Tag)

  /** The largest number of predicates the array type accepts. */
  const MaxPredicates: int := 64

  predicate Writable(p: DataComponentPredicate) {
    IsInt32(p.id)
  }

  /** `write`: the id as a VAR_INT, then the tag. */
  function Write(tags: Codec<Tag>, p: DataComponentPredicate): (r: seq<byte>)
    requires Writable(p)
    ensures DecodeVarInt(r) == Some((p.id, tags.encode(p.tag)))
  {
    VarIntRoundTrip(p.id, tags.encode(p.tag));
    EncodeVarInt(p.id) + tags.encode(p.tag)
  }

  /** `read`: a VAR_INT id, then a tag; a failure of either is a failure of the whole. */
  function Read(tags: Codec<Tag>, bs: seq<byte>): (r: Option<(DataComponentPredicate, seq<byte>)>)
    ensures r.Some? ==> Writable(r.value.0)
    ensures r.Some? ==> DecodeVarInt(bs).Some? && DecodeVarInt(bs).value.0 == r.value.0.id
    ensures DecodeVarInt(bs).None? ==> r.None?
  {
    match DecodeVarInt(bs)
    case None => None
    case Some((id, rest)) =>
      match tags.decode(rest)
      case None => None
      case Some((tag, rest')) => Some((DataComponentPredicate(id, tag), rest'))
  }

  /** Reading what was written gives the predicate back and leaves what follows untouched. */
  lemma RoundTrip(tags: Codec<Tag>, p: DataComponentPredicate, rest: seq<byte>)
    requires RoundTrips(tags) && Writable(p)
    ensures Read(tags, Write(tags, p) + rest) == Some((p, rest))
  {
    var e := EncodeVarInt(p.id);
    assert Write(tags, p) + rest == e + (tags.encode(p.tag) + rest);
    VarIntRoundTrip(p.id, tags.encode(p.tag) + rest);
  }

  /** The elements of a predicate array, one after the other. */
  function WriteAll(tags: Codec<Tag>, ps: seq<DataComponentPredicate>): seq<byte>
    requires forall i :: 0 <= i < |ps| ==> Writable(ps[i])
  {
    if |ps| == 0 then [] else Write(tags, ps[0]) + WriteAll(tags, ps[1..])
  }

  /** `ARRAY_TYPE.write`: the element count as a VAR_INT, then the elements. */
  function WriteArray(tags: Codec<Tag>, ps: seq<DataComponentPredicate>): (r: seq<byte>)
    requires |ps| < TWO_31 && forall i :: 0 <= i < |ps| ==> Writable(ps[i])
    ensures DecodeVarInt(r) == Some((|ps|, WriteAll(tags, ps)))
  {
    VarIntRoundTrip(|ps|, WriteAll(tags, ps));
    EncodeVarInt(|ps|) + WriteAll(tags, ps)
  }

  /** `count` elements read one after the other. */
  function ReadAll(tags: Codec<Tag>, bs: seq<byte>, count: nat): (r: Option<(seq<DataComponentPredicate>, seq<byte>)>)
    ensures r.Some? ==> |r.value.0| == count
    decreases count
  {
    if count == 0 then Some(([], bs))
    else
      match Read(tags, bs)
      case None => None
      case Some((p, rest)) =>
        match ReadAll(tags, rest, count - 1)
        case None => None
        case Some((ps, rest')) => Some(([p] + ps, rest'))
  }

  /** `ARRAY_TYPE.read`: a VAR_INT count, refused when negative or above the bound, then that many
    * elements. */
  function ReadArray(tags: Codec<Tag>, bs: seq<byte>): (r: Option<(seq<DataComponentPredicate>, seq<byte>)>)
    ensures r.Some? ==> |r.value.0| <= MaxPredicates
    ensures r.Some? ==> DecodeVarInt(bs).Some? && DecodeVarInt(bs).value.0 == |r.value.0|
  {
    match DecodeVarInt(bs)
    case None => None
    case Some((count, rest)) =>
      if count < 0 || count > MaxPredicates then None
      else ReadAll(tags, rest, count)
  }

  lemma {:induction false} ReadAllWriteAll(tags: Codec<Tag>, ps: seq<DataComponentPredicate>, rest: seq<byte>)
    requires RoundTrips(tags) && forall i :: 0 <= i < |ps| ==> Writable(ps[i])
    ensures ReadAll(tags, WriteAll(tags, ps) + rest, |ps|) == Some((ps, rest))
  {
    if |ps| > 0 {
      var tail := WriteAll(tags, ps[1..]) + rest;
      var bs := WriteAll(tags, ps) + rest;
      assert bs == Write(tags, ps[0]) + tail;
      RoundTrip(tags, ps[0], tail);
      assert Read(tags, bs) == Some((ps[0], tail));
      ReadAllWriteAll(tags, ps[1..], rest);
      assert ReadAll(tags, bs, |ps|) == Some(([ps[0]] + ps[1..], rest));
      assert [ps[0]] + ps[1..] == ps;
    } else {
      assert WriteAll(tags, ps) + rest == rest;
    }
  }

  /** An array of at most 64 predicates reads back as written. */
  lemma ArrayRoundTrip(tags: Codec<Tag>, ps: seq<DataComponentPredicate>, rest: seq<byte>)
    requires RoundTrips(tags) && |ps| <= MaxPredicates && forall i :: 0 <= i < |ps| ==> Writable(ps[i])
    ensures ReadArray(tags, WriteArray(tags, ps) + rest) == Some((ps, rest))
  {
    var tail := WriteAll(tags, ps) + rest;
    assert WriteArray(tags, ps) + rest == EncodeVarInt(|ps|) + tail;
    VarIntRoundTrip(|ps|, tail);
    ReadAllWriteAll(tags, ps, rest);
  }

  /** An array of more than 64 predicates is written, but refused when read back. */
  lemma ArrayOverBound(tags: Codec<Tag>, ps: seq<DataComponentPredicate>, rest: seq<byte>)
    requires MaxPredicates < |ps| < TWO_31 && forall i :: 0 <= i < |ps| ==> Writable(ps[i])
    ensures ReadArray(tags, WriteArray(tags, ps) + rest) == None
  {
    var tail := WriteAll(tags, ps) + rest;
    assert WriteArray(tags, ps) + rest == EncodeVarInt(|ps|) + tail;
    VarIntRoundTrip(|ps|, tail);
  }
}
