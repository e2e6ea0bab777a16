/** The per-connection object store the protocols' `init` methods fill: one object per class, each put
  * replacing the previous object of its class. Objects are represented by their class name and a serial
  * number that tells a newly created object from an older one. */
module Connections {
  datatype Stored = Stored(cls: string, serial: nat)

  class UserConnection {
    var storage: map<string, Stored>
    /** How many objects have been created for this connection so far. */
    var created: nat

    constructor ()
      ensures storage == map[] && created == 0
    {
      storage := map[];
      created := 0;
    }

    /** `has(cls)`. */
    predicate Has(cls: string)
      reads this
    {
      cls in storage
    }

    /** `put(new cls(this))`: stores a newly created object of class `cls`, replacing any older one. */
    method PutNew(cls: string)
      modifies this
      ensures storage == old(storage)[cls := Stored(cls, old(created))]
      ensures created == old(created) + 1
    {
      storage := storage[cls := Stored(cls, created)];
      created := created + 1;
    }
  }
}
