/**
 * `PlayerService`: the older player registry over an id-keyed store
 * (`PlayerStateService`). It applies the same record rules as `Player`, adds
 * `resolveEncounter`, and has no `modifySkill`. The store starts empty; its
 * human-readable log messages are not modelled.
 */
module PlayerServices {
  import opened Wrappers
  import opened Players
  import opened Locations

  class PlayerService {
    /** The store's records, in store order (`getAll()`). */
    var players: seq<PlayerState>
    const maxActions: int

    /** The store is keyed by id. */
    ghost predicate Valid()
      reads this
    {
      UniqueIds(players)
    }

    constructor (maxActions: int := DefaultMaxActions)
      ensures Valid() && players == [] && this.maxActions == maxActions
    {
      players := [];
      this.maxActions := maxActions;
    }

    /** `ps.forEach((p) => stateSvc.update(p))`. */
    method UpdateEach(ps: seq<PlayerState>)
      requires Valid()
      modifies this
      ensures Valid() && players == UpsertAll(old(players), ps)
    {
      var k := 0;
      while k < |ps|
        invariant 0 <= k <= |ps|
        invariant players == UpsertAll(old(players), ps[..k])
        invariant Valid()
      {
        assert ps[..k + 1][..k] == ps[..k];
        players := Upsert(players, ps[k]);
        k := k + 1;
      }
      assert ps[..|ps|] == ps;
    }

    /** `initialize(initialPlayers)`: store copies sorted by turnOrder with no actions taken. */
    method Initialize(initialPlayers: seq<PlayerState>)
      requires Valid()
      modifies this
      ensures Valid() && players == UpsertAll(old(players), Prepared(initialPlayers))
    {
      var sorted := ClearActions(SortByTurnOrder(initialPlayers));
      UpdateEach(sorted);
    }

    /** `canTakeAction(playerId, actionType)`. */
    predicate CanTakeAction(playerId: string, actionType: string)
      reads this
      ensures CanTakeAction(playerId, actionType) <==>
        && GetById(players, playerId).Some?
        && |GetById(players, playerId).value.actionsTaken| < maxActions
        && actionType !in GetById(players, playerId).value.actionsTaken
    {
      CanTakeIn(players, playerId, actionType, maxActions)
    }

    /** `recordAction(playerId, actionType)`: push an unseen type; no cap is enforced here. */
    method RecordAction(playerId: string, actionType: string)
      requires Valid()
      modifies this
      ensures Valid() && players == RecordIn(old(players), playerId, actionType)
    {
      var player := GetById(players, playerId);
      if player.None? {
        return;
      }
      if actionType !in player.value.actionsTaken {
        players := Upsert(players, WithAction(player.value, actionType));
      }
    }

    /** `resetActions()`: every stored record gets an empty action list, one update at a time. */
    method ResetActions()
      requires Valid()
      modifies this
      ensures Valid() && players == ClearActions(old(players))
    {
      var all := players;
      var k := 0;
      while k < |all|
        invariant 0 <= k <= |all|
        invariant players == ClearActions(all[..k]) + all[k..]
      {
        ResetStep(all, k);
        players := Upsert(players, all[k].(actionsTaken := []));
        k := k + 1;
      }
      assert players == ClearActions(all) by {
        assert all[..|all|] == all && all[|all|..] == [];
      }
      ClearActionsKeepsIds(all);
    }

    /** `move(playerId, locationId)`: only when "move" may be taken; relocates and records it. */
    method Move(playerId: string, locationId: string) returns (ok: bool)
      requires Valid()
      modifies this
      ensures Valid()
      ensures ok == MoveIn(old(players), playerId, locationId, maxActions).ok
      ensures players == MoveIn(old(players), playerId, locationId, maxActions).store
    {
      var player := GetById(players, playerId);
      if !CanTakeAction(playerId, "move") || player.None? {
        return false;
      }
      players := Upsert(players, player.value.(locationId := locationId));
      RecordAction(playerId, "move");
      ok := true;
    }

    /** `healHealth(playerId, amount)`. */
    method HealHealth(playerId: string, amount: int) returns (ok: bool)
      requires Valid()
      modifies this
      ensures Valid()
      ensures ok == HealIn(old(players), playerId, HealthTrack, amount).ok
      ensures players == HealIn(old(players), playerId, HealthTrack, amount).store
    {
      var player := GetById(players, playerId);
      if player.None? || amount <= 0 || player.value.isDefeated {
        return false;
      }
      players := Upsert(players, Heal(player.value, HealthTrack, amount));
      ok := true;
    }

    /** `loseHealth(playerId, amount)`: at 0 health the player is defeated by injury. */
    method LoseHealth(playerId: string, amount: int) returns (ok: bool)
      requires Valid()
      modifies this
      ensures Valid()
      ensures ok == LoseIn(old(players), playerId, HealthTrack, amount).ok
      ensures players == LoseIn(old(players), playerId, HealthTrack, amount).store
    {
      var player := GetById(players, playerId);
      if player.None? || amount <= 0 || player.value.isDefeated {
        return false;
      }
      var updated := Lose(player.value, HealthTrack, amount);
      players := Upsert(players, updated);
      ok := true;
    }

    /** `healSanity(playerId, amount)`. */
    method HealSanity(playerId: string, amount: int) returns (ok: bool)
      requires Valid()
      modifies this
      ensures Valid()
      ensures ok == HealIn(old(players), playerId, SanityTrack, amount).ok
      ensures players == HealIn(old(players), playerId, SanityTrack, amount).store
    {
      var player := GetById(players, playerId);
      if player.None? || amount <= 0 || player.value.isDefeated {
        return false;
      }
      players := Upsert(players, Heal(player.value, SanityTrack, amount));
      ok := true;
    }

    /** `loseSanity(playerId, amount)`: at 0 sanity the player is defeated by sanity. */
    method LoseSanity(playerId: string, amount: int) returns (ok: bool)
      requires Valid()
      modifies this
      ensures Valid()
      ensures ok == LoseIn(old(players), playerId, SanityTrack, amount).ok
      ensures players == LoseIn(old(players), playerId, SanityTrack, amount).store
    {
      var player := GetById(players, playerId);
      if player.None? || amount <= 0 || player.value.isDefeated {
        return false;
      }
      var updated := Lose(player.value, SanityTrack, amount);
      players := Upsert(players, updated);
      ok := true;
    }

    /** `resolveEncounter(playerId)`: the type of the player's location, or a fixed message for an unknown player. */
    function ResolveEncounter(playerId: string): (r: string)
      reads this
      ensures GetById(players, playerId).None? ==> r == PlayerNotFound
      ensures GetById(players, playerId).Some? ==>
        r == TypeName(ClassifyLocation(GetById(players, playerId).value.locationId))
      ensures r == PlayerNotFound <==> GetById(players, playerId).None?
    {
      match GetById(players, playerId)
      case None => PlayerNotFound
      case Some(p) =>
        var t := ClassifyLocation(p.locationId);
        NotFoundIsNoTypeName(t);
        TypeName(t)
    }

    /** `restore(players)`: update the store with a copy of each record. */
    method Restore(ps: seq<PlayerState>)
      requires Valid()
      modifies this
      ensures Valid() && players == UpsertAll(old(players), ps)
    {
      UpdateEach(ps);
    }

    /** `getAll()`: the store's records. */
    function GetAll(): (r: seq<PlayerState>)
      reads this
      ensures Valid() ==> UniqueIds(r)
      ensures forall p :: p in r ==> GetPlayer(p.id).Some?
    {
      players
    }

    /** `getById(id)`. */
    function GetPlayer(id: string): (r: Option<PlayerState>)
      reads this
      ensures r.Some? <==> exists k :: 0 <= k < |players| && players[k].id == id
      ensures r.Some? ==> r.value.id == id && r.value in players
    {
      GetById(players, id)
    }
  }
}
