/** Values carried by the pre-1.20 packets: the legacy item stack and the 1.13 chunk column as far as the
  * 1.13.1 translation touches it. */
module LegacyTypes {
  import opened Wrappers
  import opened Nbt

  /** An item stack: identifier, count, damage/data value and an optional compound tag (its root entries). */
  datatype Item = Item(identifier: int, amount: int, data: int, tag: Option<map<string, Tag>>)

  /** A chunk section: its block-state palette, and the rest of its content, which the model does not interpret. */
  datatype Section = Section(palette: seq<int>, body: int)

  /** A chunk column: coordinates and up to sixteen sections, `None` standing for an absent section. */
  datatype Column = Column(x: int, z: int, sections: seq<Option<Section>>)
}
