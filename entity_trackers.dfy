/** The per-connection entity trackers: which entity id the client knows under which type. */
module EntityTrackers {
  import opened Wrappers
  import Entity1_13Types

  /** The 1.14.1 tracker. Its entity types come from the 1.14 type table, which is not part of this
    * model, so the tracker is generic in the type and is told which value stands for the player. */
  class EntityTracker1_14_1<T(==)> {
    var clientEntityTypes: map<int, T>
    var clientEntityId: int
    const player: T

    constructor (player: T)
      ensures clientEntityTypes == map[] && clientEntityId == 0 && this.player == player
    {
      clientEntityTypes := map[];
      clientEntityId := 0;
      this.player := player;
    }

    /** `removeEntity`: forgets `entityId`; an untracked id leaves the map as it was. */
    method RemoveEntity(entityId: int)
      modifies this
      ensures clientEntityTypes == old(clientEntityTypes) - {entityId}
      ensures entityId !in old(clientEntityTypes) ==> clientEntityTypes == old(clientEntityTypes)
      ensures !Has(entityId)
      ensures clientEntityId == old(clientEntityId)
    {
      clientEntityTypes := clientEntityTypes - {entityId};
    }

    /** `addEntity`: records `entityType` under `entityId`, replacing any earlier type for it. */
    method AddEntity(entityId: int, entityType: T)
      modifies this
      ensures clientEntityTypes == old(clientEntityTypes)[entityId := entityType]
      ensures Get(entityId) == Some(entityType)
      ensures clientEntityId == old(clientEntityId)
    {
      clientEntityTypes := clientEntityTypes[entityId := entityType];
    }

    /** `has`. */
    predicate Has(entityId: int)
      reads this
      ensures Has(entityId) <==> Get(entityId).Some?
    {
      entityId in clientEntityTypes
    }

    /** `get`: the recorded type, absent for an id never added or since removed. */
    function Get(entityId: int): (r: Option<T>)
      reads this
      ensures r.Some? <==> entityId in clientEntityTypes
      ensures r.Some? ==> clientEntityTypes[entityId] == r.value
    {
      if entityId in clientEntityTypes then Some(clientEntityTypes[entityId]) else None
    }

    /** `onExternalJoinGame`: the joining id becomes the client's own entity, tracked as the player. */
    method OnExternalJoinGame(playerEntityId: int)
      modifies this
      ensures clientEntityId == playerEntityId
      ensures clientEntityTypes == old(clientEntityTypes)[playerEntityId := player]
      ensures Get(playerEntityId) == Some(player)
    {
      clientEntityId := playerEntityId;
      clientEntityTypes := clientEntityTypes[playerEntityId := player];
    }
  }

  /** The 1.13 tracker, over the 1.13 entity types; it has no client entity id. */
  class EntityTracker1_13 {
    var clientEntityTypes: map<int, Entity1_13Types.EntityType>

    constructor ()
      ensures clientEntityTypes == map[]
    {
      clientEntityTypes := map[];
    }

    /** `removeEntity`: only the entry of `entityId` goes; an untracked id is a no-op. */
    method RemoveEntity(entityId: int)
      modifies this
      ensures clientEntityTypes == old(clientEntityTypes) - {entityId}
      ensures !Has(entityId)
      ensures forall id :: id != entityId ==> Get(id) == old(Get(id))
    {
      clientEntityTypes := clientEntityTypes - {entityId};
    }

    /** `addEntity`: records `entityType` under `entityId`, replacing any earlier type for it. */
    method AddEntity(entityId: int, entityType: Entity1_13Types.EntityType)
      modifies this
      ensures clientEntityTypes == old(clientEntityTypes)[entityId := entityType]
      ensures Get(entityId) == Some(entityType)
      ensures forall id :: id != entityId ==> Get(id) == old(Get(id))
    {
      clientEntityTypes := clientEntityTypes[entityId := entityType];
    }

    /** `has`. */
    predicate Has(entityId: int)
      reads this
      ensures Has(entityId) <==> Get(entityId).Some?
    {
      entityId in clientEntityTypes
    }

    /** `get`. */
    function Get(entityId: int): (r: Option<Entity1_13Types.EntityType>)
      reads this
      ensures r.Some? <==> entityId in clientEntityTypes
      ensures r.Some? ==> clientEntityTypes[entityId] == r.value
    {
      if entityId in clientEntityTypes then Some(clientEntityTypes[entityId]) else None
    }

    /** `onExternalJoinGame`: the joining id is tracked as the player. */
    method OnExternalJoinGame(playerEntityId: int)
      modifies this
      ensures clientEntityTypes == old(clientEntityTypes)[playerEntityId := Entity1_13Types.EntityType.Player]
      ensures Get(playerEntityId) == Some(Entity1_13Types.EntityType.Player)
    {
      clientEntityTypes := clientEntityTypes[playerEntityId := Entity1_13Types.EntityType.Player];
    }
  }

  /** One tracker event, as a value, for stating what a sequence of calls leaves behind. */
  datatype Event = Added(id: int, entityType: Entity1_13Types.EntityType) | Removed(id: int)

  /** What `has(id)` answers after `events` applied to an empty tracker. */
  function Replay(events: seq<Event>): (m: map<int, Entity1_13Types.EntityType>)
  {
    if events == [] then map[]
    else
      var m := Replay(events[..|events| - 1]);
      match events[|events| - 1]
      case Added(id, t) => m[id := t]
      case Removed(id) => m - {id}
  }

  /** `has(id)` holds after a history iff some event added `id` and no later event removed it. */
  lemma {:induction false} TrackedIffAddedNotRemoved(events: seq<Event>, id: int)
    ensures id in Replay(events) <==>
      exists i :: 0 <= i < |events| && events[i].Added? && events[i].id == id &&
        forall j :: i < j < |events| ==> events[j] != Removed(id)
  {
    if events != [] {
      var init := events[..|events| - 1];
      TrackedIffAddedNotRemoved(init, id);
      var last := events[|events| - 1];
      if id in Replay(events) {
        if last.Added? && last.id == id {
          assert events[|events| - 1].Added?;
        } else {
          var i :| 0 <= i < |init| && init[i].Added? && init[i].id == id &&
            forall j :: i < j < |init| ==> init[j] != Removed(id);
          assert events[i] == init[i];
        }
      } else {
        forall i | 0 <= i < |events| && events[i].Added? && events[i].id == id
          ensures exists j :: i < j < |events| && events[j] == Removed(id)
        {
          if i < |events| - 1 {
            assert init[i] == events[i];
            if last != Removed(id) {
              var j :| i < j < |init| && init[j] == Removed(id);
              assert events[j] == init[j];
            }
          }
        }
      }
    }
  }

  /** Applying `events` to a tracker one call at a time leaves exactly the replayed map. */
  method Apply(tracker: EntityTracker1_13, events: seq<Event>)
    modifies tracker
    requires tracker.clientEntityTypes == map[]
    ensures tracker.clientEntityTypes == Replay(events)
  {
    var k := 0;
    while k < |events|
      invariant 0 <= k <= |events|
      invariant tracker.clientEntityTypes == Replay(events[..k])
    {
      assert events[..k + 1][..k] == events[..k];
      match events[k] {
        case Added(id, t) => tracker.AddEntity(id, t);
        case Removed(id) => tracker.RemoveEntity(id);
      }
      k := k + 1;
    }
    assert events[..k] == events;
  }
}
