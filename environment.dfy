/** The dimension a connection is in, as the protocol numbers it before 1.16 and names it after. */
module Environments {
  import Bytes
  import opened Wrappers

  datatype Environment = Normal | Nether | End | Custom
  {
    /** The protocol id carried by each environment; `Custom` carries the largest 32-bit int. */
    function Id(): (r: int)
      ensures Bytes.IsInt32(r)
      ensures this != Custom ==> -1 <= r <= 1
    {
      match this
      case Normal => 0
      case Nether => -1
      case End => 1
      case Custom => Bytes.TWO_31 - 1
    }
  }

  /** Lookup by protocol id. Every id other than 0 and 1, not just -1, lands on `Nether`. */
  function ById(id: int): (r: Environment)
    ensures r != Custom
    ensures id == 0 <==> r == Normal
    ensures id == 1 <==> r == End
    ensures id != 0 && id != 1 <==> r == Nether
  {
    if id == 0 then Normal
    else if id == 1 then End
    else Nether
  }

  /** Lookup by dimension key; any key other than the three vanilla ones is `Custom`. */
  function ByName(name: string): (r: Environment)
    ensures name == "minecraft:the_nether" <==> r == Nether
    ensures name == "minecraft:overworld" <==> r == Normal
    ensures name == "minecraft:the_end" <==> r == End
  {
    if name == "minecraft:the_nether" then Nether
    else if name == "minecraft:overworld" then Normal
    else if name == "minecraft:the_end" then End
    else Custom
  }

  /** The id lookup inverts `Id` on the three vanilla environments and only there. */
  lemma ByIdInvertsId(e: Environment)
    ensures ById(e.Id()) == e <==> e != Custom
    ensures e == Custom ==> ById(e.Id()) == Nether
  {
  }

  /** `ClientWorld`: the per-connection record of the environment the client is in, unset until a
    * join-game or respawn packet names one. */
  class ClientWorld {
    var environment: Option<Environment>

    constructor ()
      ensures environment == None
    {
      environment := None;
    }

    /** `setEnvironment(int)`: stores the environment the id looks up to. */
    method SetEnvironment(id: int)
      modifies this
      ensures environment == Some(ById(id))
    {
      environment := Some(ById(id));
    }
  }
}
