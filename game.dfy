/**
 * `Game`: the application-layer facade. It owns the turn and delegates to
 * the player, market, clue and gate services and to the per-kind decks.
 * Its own `players` list is created empty and never assigned again, so the
 * turn steps that index it find nothing: `nextInvestigator` does nothing,
 * and passing the lead at the end of Mythos throws. Its human-readable log
 * is not modelled.
 */
module Games {
  import opened Wrappers
  import opened Cards
  import opened Seqs
  import opened Piles
  import opened Players
  import opened Locations
  import opened Turns
  import opened Decks
  import opened AllDecksRegistry
  import opened PlayerServices
  import opened MarketServices
  import opened ClueServices
  import opened Gates

  class Game {
    const decks: AllDecks
    const player: PlayerService
    const market: MarketService
    const clue: ClueService
    const gate: Gate
    var turn: Turn
    /** `this.players`: the empty list it is created with. */
    const players: seq<PlayerState>
    var openGates: seq<string>

    ghost predicate Valid()
      reads this, player, decks
    {
      player.Valid() && decks.Valid()
    }

    /**
     * The lead (and current investigator) is the first of the players the
     * player service already holds, by turn order, or "" if it holds none; it
     * is read before the service's actions are reset and `initialPlayers` are
     * stored. Then the market is replenished.
     */
    constructor (decks: AllDecks, initialPlayers: seq<PlayerState>,
                 player: PlayerService, market: MarketService, clue: ClueService, gate: Gate)
      requires player.Valid() && decks.Valid()
      modifies player, market, market.deck
      ensures Valid()
      ensures this.decks == decks && this.player == player && this.market == market
      ensures this.clue == clue && this.gate == gate
      ensures players == [] && openGates == []
      ensures var sorted := SortByTurnOrder(old(player.players));
        var lead := if |sorted| > 0 then sorted[0].id else "";
        turn == InitialTurn.(leadInvestigatorId := lead, currentInvestigatorId := lead)
      ensures player.players == UpsertAll(ClearActions(old(player.players)), Prepared(initialPlayers))
      ensures market.ReplenishedFrom(old(market.ids), old(market.deck.Contents()))
    {
      this.decks := decks;
      this.player := player;
      this.market := market;
      this.clue := clue;
      this.gate := gate;
      players := [];
      openGates := [];
      var sorted := SortByTurnOrder(player.players);
      var lead := if |sorted| > 0 then sorted[0].id else "";
      turn := InitialTurn.(leadInvestigatorId := lead, currentInvestigatorId := lead);
      new;
      SetUp(player, market, initialPlayers);
    }

    /** The constructor's calls on its services: reset actions, store the players, fill the market. */
    static method SetUp(player: PlayerService, market: MarketService, initialPlayers: seq<PlayerState>)
      requires player.Valid()
      modifies player, market, market.deck
      ensures player.Valid()
      ensures player.players == UpsertAll(ClearActions(old(player.players)), Prepared(initialPlayers))
      ensures market.ReplenishedFrom(old(market.ids), old(market.deck.Contents()))
    {
      player.ResetActions();
      player.Initialize(initialPlayers);
      market.Replenish();
    }

    // ------------------------------------------------------------ clues and gates

    /** `drawClue()`: `clue.draw()`. */
    method DrawClue() returns (r: Option<string>)
      modifies clue, clue.deck
      ensures r.None? <==> old(clue.deck.drawPile) == [] && old(clue.deck.discardPile) == []
      ensures r.None? ==> clue.ids == old(clue.ids) && clue.deck.Contents() == old(clue.deck.Contents())
      ensures r.Some? ==> clue.ids == old(clue.ids) + [r.value]
      ensures r.Some? ==> exists c: Card ::
        && c.id == r.value
        && multiset(clue.deck.drawPile + clue.deck.discardPile) + multiset{c}
           == multiset(old(clue.deck.drawPile) + old(clue.deck.discardPile))
      ensures clue.deck.removedFromGame == old(clue.deck.removedFromGame)
    {
      r := clue.Draw();
    }

    /** `discardClue(clueId)`: `clue.discard(clueId)`. */
    method DiscardClue(clueId: string) returns (ok: bool)
      modifies clue
      ensures ok <==> clueId in old(clue.ids)
      ensures ok ==> clue.ids == RemoveAt(old(clue.ids), IndexOf(old(clue.ids), clueId))
      ensures !ok ==> clue.ids == old(clue.ids)
    {
      ok := clue.Discard(clueId);
    }

    /** `getCluesState()`: `clue.getAll()`. */
    function GetCluesState(): (r: seq<Card>)
      reads this, clue
      ensures |r| <= |clue.ids|
      ensures Known(clue.ids, clue.clueDb) ==>
        |r| == |clue.ids| && forall i :: 0 <= i < |clue.ids| ==> r[i] == clue.clueDb[clue.ids[i]]
    {
      clue.GetAll()
    }

    /** `drawGate()`: `gate.draw()`. */
    method DrawGate() returns (r: Option<string>)
      modifies gate, gate.deck
      ensures r.None? <==> old(gate.deck.drawPile) == [] && old(gate.deck.discardPile) == []
      ensures r.None? ==> gate.ids == old(gate.ids) && gate.deck.Contents() == old(gate.deck.Contents())
      ensures r.Some? ==> gate.ids == old(gate.ids) + [r.value]
      ensures r.Some? ==> exists c: Card ::
        && c.id == r.value
        && multiset(gate.deck.drawPile + gate.deck.discardPile) + multiset{c}
           == multiset(old(gate.deck.drawPile) + old(gate.deck.discardPile))
      ensures gate.deck.removedFromGame == old(gate.deck.removedFromGame)
    {
      r := gate.Draw();
    }

    /** `closeGate(gateId)`: `gate.discard(gateId)`, which needs a listed id that resolves. */
    method CloseGate(gateId: string) returns (ok: bool)
      modifies gate, gate.deck
      ensures ok <==> gateId in old(gate.ids) && gateId in gate.gateDb
      ensures ok ==> gate.ids == RemoveAt(old(gate.ids), IndexOf(old(gate.ids), gateId))
      ensures ok ==> gate.deck.Contents() == old(gate.deck.Contents()).(discardPile := old(gate.deck.discardPile) + [gate.gateDb[gateId]])
      ensures !ok ==> gate.ids == old(gate.ids) && gate.deck.Contents() == old(gate.deck.Contents())
    {
      ok := gate.Discard(gateId);
    }

    // ------------------------------------------------------------ decks

    /** `drawCard(type)`: that kind's deck draws; the other decks are untouched. */
    method DrawCard(kind: CardType) returns (c: Option<Card>)
      requires decks.Valid() && kind in decks.decks
      modifies decks.decks[kind]
      ensures forall k :: k in decks.decks && k != kind ==> decks.decks[k].Contents() == old(decks.decks[k].Contents())
      ensures var d := decks.decks[kind];
        && (c.None? <==> old(d.drawPile) == [] && old(d.discardPile) == [])
        && (c.None? ==> d.Contents() == old(d.Contents()))
        && (old(d.drawPile) != [] ==>
             && c == Some(old(d.drawPile)[|old(d.drawPile)| - 1]) && d.drawPile == old(d.drawPile)[..|old(d.drawPile)| - 1]
             && d.discardPile == old(d.discardPile))
        && (old(d.drawPile) == [] && old(d.discardPile) != [] ==> d.discardPile == [])
        && (c.Some? ==>
             multiset(d.drawPile + d.discardPile) + multiset{c.value} == multiset(old(d.drawPile) + old(d.discardPile)))
        && d.removedFromGame == old(d.removedFromGame)
    {
      c := decks.Draw(kind);
    }

    /** `discardCard(type, card)`: onto that kind's discard pile. */
    method DiscardCard(kind: CardType, card: Card)
      requires decks.Valid() && kind in decks.decks
      modifies decks.decks[kind]
      ensures forall k :: k in decks.decks && k != kind ==> decks.decks[k].Contents() == old(decks.decks[k].Contents())
      ensures decks.decks[kind].Contents() == old(decks.decks[kind].Contents()).(discardPile := old(decks.decks[kind].discardPile) + [card])
    {
      decks.Discard(kind, card);
    }

    /** `shuffleDeck(type)`: that kind's draw pile is permuted. */
    method ShuffleDeck(kind: CardType)
      requires decks.Valid() && kind in decks.decks
      modifies decks.decks[kind]
      ensures forall k :: k in decks.decks && k != kind ==> decks.decks[k].Contents() == old(decks.decks[k].Contents())
      ensures multiset(decks.decks[kind].drawPile) == multiset(old(decks.decks[kind].drawPile))
      ensures decks.decks[kind].discardPile == old(decks.decks[kind].discardPile)
      ensures decks.decks[kind].removedFromGame == old(decks.decks[kind].removedFromGame)
    {
      decks.Shuffle(kind);
    }

    // ------------------------------------------------------------ market

    /** `getMarketState()`: `market.getAll()`. */
    function GetMarketState(): (r: seq<Card>)
      reads this, market
      ensures |r| <= |market.ids|
      ensures Known(market.ids, market.assetDb) ==>
        |r| == |market.ids| && forall i :: 0 <= i < |market.ids| ==> r[i] == market.assetDb[market.ids[i]]
    {
      market.GetAll()
    }

    /** `replenishMarket()`: `market.replenish()`. */
    method ReplenishMarket()
      modifies market, market.deck
      ensures market.ReplenishedFrom(old(market.ids), old(market.deck.Contents()))
    {
      market.Replenish();
    }

    /** `buyFromMarket(cardId)`: `market.buy(cardId)`. */
    method BuyFromMarket(cardId: string) returns (r: Option<Card>)
      modifies market, market.deck
      ensures cardId !in old(market.ids) ==>
        r == None && market.ids == old(market.ids) && market.deck.Contents() == old(market.deck.Contents())
      ensures cardId in old(market.ids) && cardId !in market.assetDb ==>
        && r == None && market.deck.Contents() == old(market.deck.Contents())
        && market.ids == RemoveAt(old(market.ids), IndexOf(old(market.ids), cardId))
      ensures cardId in old(market.ids) && cardId in market.assetDb ==>
        && r == Some(market.assetDb[cardId])
        && market.ReplenishedFrom(RemoveAt(old(market.ids), IndexOf(old(market.ids), cardId)), old(market.deck.Contents()))
    {
      r := market.Buy(cardId);
    }

    // ------------------------------------------------------------ players

    /**
     * `getPlayerState(playerId)`: None exactly for a player the service does
     * not know. `resolveCards` always returns an array, which is truthy, so
     * the TypeScript code's second null check never fires. The lookups need the asset
     * and condition decks.
     */
    function GetPlayerState(playerId: string): (r: Option<PlayerCards>)
      requires AssetCard in decks.decks && ConditionCard in decks.decks
      reads this, player, decks
      ensures r.None? <==> player.GetPlayer(playerId).None?
      ensures r.Some? ==> r.value.player == player.GetPlayer(playerId).value
      ensures r.Some? ==> r.value.assets == ResolveKnown(r.value.player.assetIds, decks.decks[AssetCard].cardDb)
      ensures r.Some? ==> r.value.conditions == ResolveKnown(r.value.player.conditionIds, decks.decks[ConditionCard].cardDb)
    {
      match player.GetPlayer(playerId)
      case None => None
      case Some(p) =>
        var assets := ResolveKnown(p.assetIds, decks.decks[AssetCard].cardDb);
        var conditions := ResolveKnown(p.conditionIds, decks.decks[ConditionCard].cardDb);
        Some(PlayerCards(p, assets, conditions))
    }

    /** `canTakeAction(playerId, action)`: `player.canTakeAction`. */
    predicate CanTakeAction(playerId: string, action: string)
      reads this, player
      ensures CanTakeAction(playerId, action) <==>
        && GetById(player.players, playerId).Some?
        && |GetById(player.players, playerId).value.actionsTaken| < player.maxActions
        && action !in GetById(player.players, playerId).value.actionsTaken
    {
      player.CanTakeAction(playerId, action)
    }

    /** `recordAction(playerId, action)`: `player.recordAction`. */
    method RecordAction(playerId: string, action: string)
      requires Valid()
      modifies player
      ensures Valid() && player.players == RecordIn(old(player.players), playerId, action)
    {
      player.RecordAction(playerId, action);
    }

    /** `resetActions()`: `player.resetActions()`. */
    method ResetActions()
      requires Valid()
      modifies player
      ensures Valid() && player.players == ClearActions(old(player.players))
    {
      player.ResetActions();
    }

    /** `resolveEncounter(playerId)`: `player.resolveEncounter`. */
    function ResolveEncounter(playerId: string): (r: string)
      reads this, player
      ensures GetById(player.players, playerId).Some? ==>
        r == TypeName(ClassifyLocation(GetById(player.players, playerId).value.locationId))
      ensures r == PlayerNotFound <==> GetById(player.players, playerId).None?
    {
      player.ResolveEncounter(playerId)
    }

    /** `movePlayer(playerId, location)`: `player.move`. */
    method MovePlayer(playerId: string, location: string) returns (ok: bool)
      requires Valid()
      modifies player
      ensures Valid()
      ensures ok == MoveIn(old(player.players), playerId, location, player.maxActions).ok
      ensures player.players == MoveIn(old(player.players), playerId, location, player.maxActions).store
    {
      ok := player.Move(playerId, location);
    }

    /** `healHealth(playerId, amount)`: `player.healHealth`. */
    method HealHealth(playerId: string, amount: int) returns (ok: bool)
      requires Valid()
      modifies player
      ensures Valid()
      ensures ok == HealIn(old(player.players), playerId, HealthTrack, amount).ok
      ensures player.players == HealIn(old(player.players), playerId, HealthTrack, amount).store
    {
      ok := player.HealHealth(playerId, amount);
    }

    /** `loseHealth(playerId, amount)`: `player.loseHealth`. */
    method LoseHealth(playerId: string, amount: int) returns (ok: bool)
      requires Valid()
      modifies player
      ensures Valid()
      ensures ok == LoseIn(old(player.players), playerId, HealthTrack, amount).ok
      ensures player.players == LoseIn(old(player.players), playerId, HealthTrack, amount).store
    {
      ok := player.LoseHealth(playerId, amount);
    }

    /** `healSanity(playerId, amount)`: `player.healSanity`. */
    method HealSanity(playerId: string, amount: int) returns (ok: bool)
      requires Valid()
      modifies player
      ensures Valid()
      ensures ok == HealIn(old(player.players), playerId, SanityTrack, amount).ok
      ensures player.players == HealIn(old(player.players), playerId, SanityTrack, amount).store
    {
      ok := player.HealSanity(playerId, amount);
    }

    /** `loseSanity(playerId, amount)`: `player.loseSanity`. */
    method LoseSanity(playerId: string, amount: int) returns (ok: bool)
      requires Valid()
      modifies player
      ensures Valid()
      ensures ok == LoseIn(old(player.players), playerId, SanityTrack, amount).ok
      ensures player.players == LoseIn(old(player.players), playerId, SanityTrack, amount).store
    {
      ok := player.LoseSanity(playerId, amount);
    }

    // ------------------------------------------------------------ turn

    /** `getEncounterType(locationId)`. */
    function GetEncounterType(locationId: string): (r: string)
      ensures r == "city" <==> StartsWith(locationId, "city")
      ensures r == "otherWorld" <==> !StartsWith(locationId, "city") && StartsWith(locationId, "other")
      ensures r == "expedition" <==> locationId == "expedition"
      ensures r == "mysticRuins" <==> locationId == "mysticRuins"
      ensures r == "generic" <==>
        !StartsWith(locationId, "city") && !StartsWith(locationId, "other")
        && locationId != "expedition" && locationId != "mysticRuins"
    {
      EncounterTypeOf(locationId)
    }

    /**
     * `nextPhase()`. Action and Encounter step as in `GameService`, with
     * Action also resetting the player service's actions. In Mythos the
     * phase becomes Action and the round grows before the lead is passed;
     * passing it indexes `players`, and when that list is empty (always,
     * here) the TypeScript code throws there. Then `ok` is false, and neither the
     * hand-over of the turn nor the reset takes place.
     */
    method NextPhase() returns (ok: bool)
      requires Valid()
      modifies this, player
      ensures Valid()
      ensures ok <==> (old(turn).phase != Mythos || |players| > 0)
      ensures ok ==> turn == CycleNextPhase(old(turn), players)
      ensures !ok ==> turn == old(turn).(phase := Action, round := old(turn).round + 1)
      ensures player.players == (if old(turn).phase == Encounter || !ok then old(player.players) else ClearActions(old(player.players)))
      ensures openGates == old(openGates)
    {
      match turn.phase {
        case Action =>
          turn := turn.(phase := Encounter);
          turn := turn.(currentInvestigatorId := turn.leadInvestigatorId);
          ResetActions();
          ok := true;
        case Encounter =>
          turn := turn.(phase := Mythos);
          turn := turn.(currentInvestigatorId := turn.leadInvestigatorId);
          ok := true;
        case Mythos =>
          turn := turn.(phase := Action);
          turn := turn.(round := turn.round + 1);
          var passed := PassLeadInvestigator();
          if !passed {
            return false;
          }
          turn := turn.(currentInvestigatorId := turn.leadInvestigatorId);
          ResetActions();
          ok := true;
      }
    }

    /** `nextInvestigator()`: does nothing unless the current investigator is in `players`. */
    method NextInvestigator()
      modifies this
      ensures FindPlayer(players, old(turn).currentInvestigatorId) == -1 ==> turn == old(turn)
      ensures FindPlayer(players, old(turn).currentInvestigatorId) != -1 ==>
        turn == old(turn).(currentInvestigatorId := NextPlayerId(players, old(turn).currentInvestigatorId))
      ensures players == [] ==> turn == old(turn)
      ensures openGates == old(openGates)
    {
      var index := FindPlayer(players, turn.currentInvestigatorId);
      if index == -1 {
        return;
      }
      var next := NextPlayerId(players, turn.currentInvestigatorId);
      turn := turn.(currentInvestigatorId := next);
    }

    /**
     * `passLeadInvestigator()`: the lead moves to the next player in
     * `players`. On an empty list the TypeScript code reads `players[NaN].id` and
     * throws; that is `ok == false`, with the turn unchanged.
     */
    method PassLeadInvestigator() returns (ok: bool)
      modifies this
      ensures ok <==> |players| > 0
      ensures ok ==> turn == old(turn).(leadInvestigatorId := NextPlayerId(players, old(turn).leadInvestigatorId))
      ensures !ok ==> turn == old(turn)
      ensures openGates == old(openGates)
    {
      if |players| == 0 {
        return false;
      }
      var next := NextPlayerId(players, turn.leadInvestigatorId);
      turn := turn.(leadInvestigatorId := next);
      ok := true;
    }
  }
}
