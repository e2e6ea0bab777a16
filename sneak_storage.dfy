/** The per-connection memory of whether the player is sneaking. */
module Sneaking {
  class SneakStorage {
    var sneaking: bool

    /** A new storage is not sneaking. */
    constructor ()
      ensures !sneaking
    {
      sneaking := false;
    }

    /** `sneaking()`. */
    function Sneaking(): (r: bool)
      reads this
      ensures r == sneaking
    {
      sneaking
    }

    /** `setSneaking`: stores `value` and reports whether it differs from what was stored before. */
    method SetSneaking(value: bool) returns (changed: bool)
      modifies this
      ensures sneaking == value
      ensures changed <==> old(sneaking) != value
    {
      var previous := sneaking;
      sneaking := value;
      changed := previous != value;
    }
  }

  /** Setting the same value twice in a row: the second call reports no change. */
  method SetTwice(s: SneakStorage, value: bool) returns (first: bool, second: bool)
    modifies s
    ensures s.Sneaking() == value
    ensures first <==> old(s.sneaking) != value
    ensures !second
  {
    first := s.SetSneaking(value);
    second := s.SetSneaking(value);
  }
}
