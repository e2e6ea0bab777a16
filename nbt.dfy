/** Named binary tags (NBT), the tree values carried by items, registries and text components.
  * A compound is a map: Java compares compound tags by their key/value maps, so order is not part of a compound's value. */
module Nbt {
  import opened Wrappers
  import opened Bytes

  /** A Java `float` or `double`, kept opaque; `truncated` is what Java's narrowing `(int)` cast gives for it. */
  datatype Floating = Floating(bits: int, truncated: int)

  datatype Tag =
    | ByteTag(byteValue: int)
    | ShortTag(shortValue: int)
    | IntTag(intValue: int)
    | LongTag(longValue: int)
    | FloatTag(floatValue: Floating)
    | DoubleTag(doubleValue: Floating)
    | StringTag(text: string)
    | ByteArrayTag(byteArray: seq<int>)
    | IntArrayTag(intArray: seq<int>)
    | LongArrayTag(longArray: seq<int>)
    | ListTag(elems: seq<Tag>)
    | CompoundTag(entries: map<string, Tag>)
  {
    predicate IsNumber() {
      ByteTag? || ShortTag? || IntTag? || LongTag? || FloatTag? || DoubleTag?
    }

    /** `NumberTag.asBoolean`: the value narrowed to a Java `byte` is non-zero. */
    function AsBoolean(): (b: bool)
      requires IsNumber()
      ensures ByteTag? && IsInt8(byteValue) ==> (b <==> byteValue != 0)
    {
      match this
      case ByteTag(v) => ToInt8(v) != 0
      case ShortTag(v) => ToInt8(v) != 0
      case IntTag(v) => ToInt8(v) != 0
      case LongTag(v) => ToInt8(v) != 0
      case FloatTag(f) => ToInt8(f.truncated) != 0
      case DoubleTag(f) => ToInt8(f.truncated) != 0
    }
  }

  /** The Java class of a tag, as compared by `ListTag`'s element-type check. */
  datatype TagKind = ByteKind | ShortKind | IntKind | LongKind | FloatKind | DoubleKind | StringKind
                   | ByteArrayKind | IntArrayKind | LongArrayKind | ListKind | CompoundKind

  function KindOf(t: Tag): TagKind {
    match t
    case ByteTag(_) => ByteKind
    case ShortTag(_) => ShortKind
    case IntTag(_) => IntKind
    case LongTag(_) => LongKind
    case FloatTag(_) => FloatKind
    case DoubleTag(_) => DoubleKind
    case StringTag(_) => StringKind
    case ByteArrayTag(_) => ByteArrayKind
    case IntArrayTag(_) => IntArrayKind
    case LongArrayTag(_) => LongArrayKind
    case ListTag(_) => ListKind
    case CompoundTag(_) => CompoundKind
  }

  /** `compound.get(key)` when `t` is a compound holding `key`. */
  function Child(t: Tag, key: string): Option<Tag> {
    if t.CompoundTag? && key in t.entries then Some(t.entries[key]) else None
  }
}
