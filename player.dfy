/**
 * `Player`: the player registry over an id-keyed store (`IPlayerState`, whose
 * `update` replaces the record with the same id or appends it). The store
 * starts empty, as the in-memory store does; the structured logger is
 * modelled as the sequence of keys it received.
 */
module PlayerDomain {
  import opened Wrappers
  import opened Cards
  import opened Players

  class Player {
    /** The store's records, in store order (`getAll()`). */
    var players: seq<PlayerState>
    const maxActions: int
    /** The keys written to the logger, oldest first. */
    ghost var log: seq<string>

    /** The store is keyed by id. */
    ghost predicate Valid()
      reads this
    {
      UniqueIds(players)
    }

    constructor (maxActions: int := DefaultMaxActions)
      ensures Valid() && players == [] && this.maxActions == maxActions && log == []
    {
      players := [];
      this.maxActions := maxActions;
      log := [];
    }

    /** `ps.forEach((p) => stateSvc.update(p))`. */
    method UpdateEach(ps: seq<PlayerState>)
      requires Valid()
      modifies this
      ensures Valid() && players == UpsertAll(old(players), ps) && log == old(log)
    {
      var k := 0;
      while k < |ps|
        invariant 0 <= k <= |ps|
        invariant players == UpsertAll(old(players), ps[..k])
        invariant Valid() && log == old(log)
      {
        assert ps[..k + 1][..k] == ps[..k];
        players := Upsert(players, ps[k]);
        k := k + 1;
      }
      assert ps[..|ps|] == ps;
    }

    /** `initialize(initialPlayers)`: store copies sorted by turnOrder with no actions taken. */
    method Initialize(initialPlayers: seq<PlayerState>)
      requires Valid()
      modifies this
      ensures Valid() && players == UpsertAll(old(players), Prepared(initialPlayers))
      ensures log == old(log) + ["player.all.initialize"]
    {
      var sorted := ClearActions(SortByTurnOrder(initialPlayers));
      UpdateEach(sorted);
      log := log + ["player.all.initialize"];
    }

    /** `modifySkill(playerId, skill, value)`. */
    method ModifySkillOf(playerId: string, skill: Skill, value: int) returns (ok: bool)
      requires Valid()
      modifies this
      ensures Valid()
      ensures ok == ModifySkillIn(old(players), playerId, skill, value).ok
      ensures players == ModifySkillIn(old(players), playerId, skill, value).store
      ensures log == old(log) + (if ok then ["player.modifySkill"] else [])
    {
      var player := GetById(players, playerId);
      if player.None? {
        return false;
      }
      players := Upsert(players, ModifySkill(player.value, skill, value));
      log := log + ["player.modifySkill"];
      ok := true;
    }

    /** `canTakeAction(playerId, actionType)`. */
    predicate CanTakeAction(playerId: string, actionType: string)
      reads this
      ensures CanTakeAction(playerId, actionType) <==>
        && GetById(players, playerId).Some?
        && |GetById(players, playerId).value.actionsTaken| < maxActions
        && actionType !in GetById(players, playerId).value.actionsTaken
    {
      CanTakeIn(players, playerId, actionType, maxActions)
    }

    /** `recordAction(playerId, actionType)`: push an unseen type; no cap is enforced here. */
    method RecordAction(playerId: string, actionType: string)
      requires Valid()
      modifies this
      ensures Valid() && players == RecordIn(old(players), playerId, actionType)
      ensures log == old(log) + (if players != old(players) then ["player.action.record"] else [])
    {
      var player := GetById(players, playerId);
      if player.None? {
        return;
      }
      if actionType !in player.value.actionsTaken {
        players := Upsert(players, WithAction(player.value, actionType));
        assert GetById(players, playerId) != GetById(old(players), playerId);
        log := log + ["player.action.record"];
      }
    }

    /** `resetActions()`: every stored record gets an empty action list, one update at a time. */
    method ResetActions()
      requires Valid()
      modifies this
      ensures Valid() && players == ClearActions(old(players))
      ensures log == old(log) + ["player.all.resetActions"]
    {
      var all := players;
      var k := 0;
      while k < |all|
        invariant 0 <= k <= |all|
        invariant players == ClearActions(all[..k]) + all[k..]
        invariant log == old(log)
      {
        ResetStep(all, k);
        players := Upsert(players, all[k].(actionsTaken := []));
        k := k + 1;
      }
      assert players == ClearActions(all) by {
        assert all[..|all|] == all && all[|all|..] == [];
      }
      ClearActionsKeepsIds(all);
      log := log + ["player.all.resetActions"];
    }

    /** `move(playerId, locationId)`: only when "move" may be taken; relocates and records it. */
    method Move(playerId: string, locationId: string) returns (ok: bool)
      requires Valid()
      modifies this
      ensures Valid()
      ensures ok == MoveIn(old(players), playerId, locationId, maxActions).ok
      ensures players == MoveIn(old(players), playerId, locationId, maxActions).store
      ensures log == old(log) + (if ok then ["player.action.record", "player.move"] else [])
    {
      var player := GetById(players, playerId);
      if !CanTakeAction(playerId, "move") || player.None? {
        return false;
      }
      players := Upsert(players, player.value.(locationId := locationId));
      RecordAction(playerId, "move");
      log := log + ["player.move"];
      ok := true;
    }

    /** `healHealth(playerId, amount)`. */
    method HealHealth(playerId: string, amount: int) returns (ok: bool)
      requires Valid()
      modifies this
      ensures Valid()
      ensures ok == HealIn(old(players), playerId, HealthTrack, amount).ok
      ensures players == HealIn(old(players), playerId, HealthTrack, amount).store
      ensures log == old(log) + (if ok then ["player.healHealth"] else [])
    {
      var player := GetById(players, playerId);
      if player.None? || amount <= 0 || player.value.isDefeated {
        return false;
      }
      players := Upsert(players, Heal(player.value, HealthTrack, amount));
      log := log + ["player.healHealth"];
      ok := true;
    }

    /** `loseHealth(playerId, amount)`: at 0 health the player is defeated by injury. */
    method LoseHealth(playerId: string, amount: int) returns (ok: bool)
      requires Valid()
      modifies this
      ensures Valid()
      ensures ok == LoseIn(old(players), playerId, HealthTrack, amount).ok
      ensures players == LoseIn(old(players), playerId, HealthTrack, amount).store
      ensures log == old(log) + (if !ok then []
        else if GetById(players, playerId).value.health == 0 then ["player.loseHealth", "player.loseHealth.death"]
        else ["player.loseHealth"])
    {
      var player := GetById(players, playerId);
      if player.None? || amount <= 0 || player.value.isDefeated {
        return false;
      }
      var updated := Lose(player.value, HealthTrack, amount);
      log := log + ["player.loseHealth"];
      if updated.health == 0 {
        log := log + ["player.loseHealth.death"];
      }
      players := Upsert(players, updated);
      ok := true;
    }

    /** `healSanity(playerId, amount)`. */
    method HealSanity(playerId: string, amount: int) returns (ok: bool)
      requires Valid()
      modifies this
      ensures Valid()
      ensures ok == HealIn(old(players), playerId, SanityTrack, amount).ok
      ensures players == HealIn(old(players), playerId, SanityTrack, amount).store
      ensures log == old(log) + (if ok then ["player.healSanity"] else [])
    {
      var player := GetById(players, playerId);
      if player.None? || amount <= 0 || player.value.isDefeated {
        return false;
      }
      players := Upsert(players, Heal(player.value, SanityTrack, amount));
      log := log + ["player.healSanity"];
      ok := true;
    }

    /** `loseSanity(playerId, amount)`: at 0 sanity the player is defeated by sanity. */
    method LoseSanity(playerId: string, amount: int) returns (ok: bool)
      requires Valid()
      modifies this
      ensures Valid()
      ensures ok == LoseIn(old(players), playerId, SanityTrack, amount).ok
      ensures players == LoseIn(old(players), playerId, SanityTrack, amount).store
      ensures log == old(log) + (if !ok then []
        else if GetById(players, playerId).value.sanity == 0 then ["player.loseSanity", "player.loseSanity.death"]
        else ["player.loseSanity"])
    {
      var player := GetById(players, playerId);
      if player.None? || amount <= 0 || player.value.isDefeated {
        return false;
      }
      var updated := Lose(player.value, SanityTrack, amount);
      log := log + ["player.loseSanity"];
      if updated.sanity == 0 {
        log := log + ["player.loseSanity.death"];
      }
      players := Upsert(players, updated);
      ok := true;
    }

    /** `getState()`: the store's records. */
    function GetState(): (r: seq<PlayerState>)
      reads this
      ensures Valid() ==> UniqueIds(r)
      ensures forall p :: p in r ==> GetPlayer(p.id).Some?
    {
      players
    }

    /** `setState(players)`: update the store with a copy of each record. */
    method SetState(ps: seq<PlayerState>)
      requires Valid()
      modifies this
      ensures Valid() && players == UpsertAll(old(players), ps)
      ensures log == old(log) + ["player.all.restore"]
    {
      UpdateEach(ps);
      log := log + ["player.all.restore"];
    }

    /** `getById(id)`. */
    function GetPlayer(id: string): (r: Option<PlayerState>)
      reads this
      ensures r.Some? <==> exists k :: 0 <= k < |players| && players[k].id == id
      ensures r.Some? ==> r.value.id == id && r.value in players
    {
      GetById(players, id)
    }
  }
}
