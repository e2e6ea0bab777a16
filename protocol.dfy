/** A protocol translation step: two tables from (state, packet id) to the registered id pair and
  * optional remapper, the dispatch that applies them to a packet, and a per-class object store. */
module Protocols {
  import opened Wrappers
  import opened Packets

  datatype State = Handshake | Status | Login | Play

  datatype Direction = Outgoing | Incoming

  /** The lookup key of both tables. */
  datatype PacketKey = PacketKey(state: State, packetId: int)

  /** `Packet.equals`: two keys are equal when both the packet id and the state agree. */
  function SameKey(a: PacketKey, b: PacketKey): (r: bool)
    ensures r <==> a == b
  {
    a.packetId == b.packetId && a.state == b.state
  }

  /** A remapper: the chain of field steps and handlers a registration carries, run over the wrapper's state.
    * A `Failure` is an exception thrown by one of its steps. */
  datatype Remapper = Remapper(run: Envelope -> Result<Envelope>)

  /** The remapper whose only step cancels the packet. */
  function CancellingRemapper(): (r: Remapper)
    ensures forall e :: r.run(e).Success? && r.run(e).value.cancelled
    ensures forall e :: var after := r.run(e).value;
      after.id == e.id && after.input == e.input && after.output == e.output && after.sent == e.sent
  {
    Remapper((e: Envelope) => Success(e.(cancelled := true)))
  }

  datatype ProtocolPacket = ProtocolPacket(state: State, oldId: int, newId: int, remapper: Option<Remapper>)

  /** How `transform` ends: normally, by throwing the cancel signal (a new instance in debug mode, the shared
    * cached instance otherwise), or by an exception from the remapper. */
  datatype Outcome = Forwarded | CancelSignal(newInstance: bool) | Thrown(error: string)

  class Protocol<O> {
    var incoming: map<PacketKey, ProtocolPacket>
    var outgoing: map<PacketKey, ProtocolPacket>
    /** Objects stored by their class. */
    var storedObjects: map<string, O>
    /** Keys reported as "already registered", in the order the warnings were logged. */
    var warnings: seq<PacketKey>
    /** The class of a stored object. */
    const classOf: O -> string

    constructor(classOf: O -> string)
      ensures incoming == map[] && outgoing == map[] && storedObjects == map[] && warnings == []
      ensures this.classOf == classOf
    {
      incoming := map[];
      outgoing := map[];
      storedObjects := map[];
      warnings := [];
      this.classOf := classOf;
    }

    /** Registers an incoming (serverbound) translation under `(state, newPacketId)`; a key already present
      * is replaced, with a warning unless `override` is set. The shorter overloads pass no remapper and no override. */
    method RegisterIncoming(state: State, oldPacketId: int, newPacketId: int, remapper: Option<Remapper>, override: bool)
      modifies this
      ensures incoming == old(incoming)[PacketKey(state, newPacketId) := ProtocolPacket(state, oldPacketId, newPacketId, remapper)]
      ensures warnings == old(warnings) + (if !override && PacketKey(state, newPacketId) in old(incoming) then [PacketKey(state, newPacketId)] else [])
      ensures outgoing == old(outgoing) && storedObjects == old(storedObjects)
    {
      var packet := PacketKey(state, newPacketId);
      if !override && packet in incoming {
        warnings := warnings + [packet];
      }
      incoming := incoming[packet := ProtocolPacket(state, oldPacketId, newPacketId, remapper)];
    }

    /** Registers an outgoing (clientbound) translation under `(state, oldPacketId)`, with the same replace-and-warn rule. */
    method RegisterOutgoing(state: State, oldPacketId: int, newPacketId: int, remapper: Option<Remapper>, override: bool)
      modifies this
      ensures outgoing == old(outgoing)[PacketKey(state, oldPacketId) := ProtocolPacket(state, oldPacketId, newPacketId, remapper)]
      ensures warnings == old(warnings) + (if !override && PacketKey(state, oldPacketId) in old(outgoing) then [PacketKey(state, oldPacketId)] else [])
      ensures incoming == old(incoming) && storedObjects == old(storedObjects)
    {
      var packet := PacketKey(state, oldPacketId);
      if !override && packet in outgoing {
        warnings := warnings + [packet];
      }
      outgoing := outgoing[packet := ProtocolPacket(state, oldPacketId, newPacketId, remapper)];
    }

    method CancelIncoming(state: State, oldPacketId: int, newPacketId: int)
      modifies this
      ensures incoming == old(incoming)[PacketKey(state, newPacketId) := ProtocolPacket(state, oldPacketId, newPacketId, Some(CancellingRemapper()))]
      ensures warnings == old(warnings) + (if PacketKey(state, newPacketId) in old(incoming) then [PacketKey(state, newPacketId)] else [])
      ensures outgoing == old(outgoing) && storedObjects == old(storedObjects)
    {
      RegisterIncoming(state, oldPacketId, newPacketId, Some(CancellingRemapper()), false);
    }

    /** `cancelIncoming(state, newPacketID)`: the old id is recorded as -1. */
    method CancelIncomingNew(state: State, newPacketId: int)
      modifies this
      ensures incoming == old(incoming)[PacketKey(state, newPacketId) := ProtocolPacket(state, -1, newPacketId, Some(CancellingRemapper()))]
      ensures warnings == old(warnings) + (if PacketKey(state, newPacketId) in old(incoming) then [PacketKey(state, newPacketId)] else [])
      ensures outgoing == old(outgoing) && storedObjects == old(storedObjects)
    {
      CancelIncoming(state, -1, newPacketId);
    }

    method CancelOutgoing(state: State, oldPacketId: int, newPacketId: int)
      modifies this
      ensures outgoing == old(outgoing)[PacketKey(state, oldPacketId) := ProtocolPacket(state, oldPacketId, newPacketId, Some(CancellingRemapper()))]
      ensures warnings == old(warnings) + (if PacketKey(state, oldPacketId) in old(outgoing) then [PacketKey(state, oldPacketId)] else [])
      ensures incoming == old(incoming) && storedObjects == old(storedObjects)
    {
      RegisterOutgoing(state, oldPacketId, newPacketId, Some(CancellingRemapper()), false);
    }

    /** `cancelOutgoing(state, oldPacketID)`: the new id is recorded as -1. */
    method CancelOutgoingOld(state: State, oldPacketId: int)
      modifies this
      ensures outgoing == old(outgoing)[PacketKey(state, oldPacketId) := ProtocolPacket(state, oldPacketId, -1, Some(CancellingRemapper()))]
      ensures warnings == old(warnings) + (if PacketKey(state, oldPacketId) in old(outgoing) then [PacketKey(state, oldPacketId)] else [])
      ensures incoming == old(incoming) && storedObjects == old(storedObjects)
    {
      CancelOutgoing(state, oldPacketId, -1);
    }

    function Table(direction: Direction): map<PacketKey, ProtocolPacket>
      reads this
    {
      if direction == Outgoing then outgoing else incoming
    }

    /** Applies the registration for `(state, wrapper id)` in `direction`: an unregistered packet is left
      * untouched; otherwise the id becomes the registered new id (outgoing) or old id (incoming), the
      * remapper (if any) runs, and a packet it leaves cancelled ends in the cancel signal. */
    method Transform(direction: Direction, state: State, wrapper: PacketWrapper, debug: bool) returns (outcome: Outcome)
      modifies wrapper
      ensures PacketKey(state, old(wrapper.id)) !in Table(direction) ==>
                outcome == Forwarded && wrapper.State() == old(wrapper.State())
      ensures PacketKey(state, old(wrapper.id)) in Table(direction) ==>
                var entry := Table(direction)[PacketKey(state, old(wrapper.id))];
                var renamed := old(wrapper.State()).(id := if direction == Outgoing then entry.newId else entry.oldId);
                match entry.remapper
                case None => outcome == Forwarded && wrapper.State() == renamed
                case Some(remapper) =>
                  match remapper.run(renamed)
                  case Failure(error) => outcome == Thrown(error) && wrapper.State() == renamed
                  case Success(after) =>
                    wrapper.State() == after && outcome == (if after.cancelled then CancelSignal(debug) else Forwarded)
    {
      var table := Table(direction);
      var statePacket := PacketKey(state, wrapper.id);
      if statePacket !in table {
        return Forwarded;
      }
      var protocolPacket := table[statePacket];
      var newId := if direction == Outgoing then protocolPacket.newId else protocolPacket.oldId;
      wrapper.SetId(newId);
      outcome := Forwarded;
      if protocolPacket.remapper.Some? {
        var result := protocolPacket.remapper.value.run(wrapper.State());
        if result.Failure? {
          return Thrown(result.error);
        }
        wrapper.Load(result.value);
        if wrapper.cancelled {
          outcome := CancelSignal(debug);
        }
      }
    }

    /** The object last stored for class `cls`, if any. */
    function Get(cls: string): (r: Option<O>)
      reads this
      ensures r.Some? <==> cls in storedObjects
      ensures r.Some? ==> r.value == storedObjects[cls]
    {
      if cls in storedObjects then Some(storedObjects[cls]) else None
    }

    /** Stores `obj` under its class, replacing any object of the same class. */
    method Put(obj: O)
      modifies this
      ensures storedObjects == old(storedObjects)[classOf(obj) := obj]
      ensures Get(classOf(obj)) == Some(obj)
      ensures forall c :: c != classOf(obj) ==> Get(c) == old(Get(c))
      ensures incoming == old(incoming) && outgoing == old(outgoing) && warnings == old(warnings)
    {
      storedObjects := storedObjects[classOf(obj) := obj];
    }
  }
}
