/** Item id mapping data as the 1.14 and 1.16 translations use it: a bidirectional map from the old
  * version's item ids to the new version's, looked up forward when translating towards the client and
  * backward towards the server, with 1 standing in for any id the map does not cover. */
module ItemMappings {
  /** A bidirectional map: `inverse` is `forward` read backwards, so `forward` is injective. */
  datatype BiMap = BiMap(forward: map<int, int>, inverse: map<int, int>) {
    ghost predicate Valid() {
      (forall k :: k in forward ==> forward[k] in inverse && inverse[forward[k]] == k) &&
      (forall v :: v in inverse ==> inverse[v] in forward && forward[inverse[v]] == v)
    }
  }

  /** `getNewItemId`: the mapped id, or 1 when the old id has no mapping. */
  function NewItemId(m: BiMap, id: int): (r: int)
    ensures id in m.forward ==> r == m.forward[id]
    ensures id !in m.forward ==> r == 1
  {
    if id in m.forward then m.forward[id] else 1
  }

  /** `getOldItemId`: the id the inverse map gives, or 1 when it has none. */
  function OldItemId(m: BiMap, id: int): (r: int)
    ensures id in m.inverse ==> r == m.inverse[id]
    ensures id !in m.inverse ==> r == 1
  {
    if id in m.inverse then m.inverse[id] else 1
  }

  /** Every mapped id comes back from the round trip to the client; an unmapped one comes back as whatever
    * the new id 1 maps back to. */
  lemma OldAfterNew(m: BiMap, id: int)
    requires m.Valid()
    ensures id in m.forward ==> OldItemId(m, NewItemId(m, id)) == id
    ensures id !in m.forward ==> OldItemId(m, NewItemId(m, id)) == OldItemId(m, 1)
  {
  }

  /** Every id the server side produces from a mapped new id maps forward to that new id again. */
  lemma NewAfterOld(m: BiMap, id: int)
    requires m.Valid()
    ensures id in m.inverse ==> NewItemId(m, OldItemId(m, id)) == id
  {
  }

  /** Two mapped old ids never meet on the same new id. */
  lemma NewItemIdInjective(m: BiMap, a: int, b: int)
    requires m.Valid() && a in m.forward && b in m.forward
    ensures NewItemId(m, a) == NewItemId(m, b) ==> a == b
  {
    if NewItemId(m, a) == NewItemId(m, b) {
      assert m.inverse[m.forward[a]] == a && m.inverse[m.forward[b]] == b;
    }
  }
}
