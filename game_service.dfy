/**
 * `GameService`: the older all-in-one game object. It keeps its own copy of
 * the players, the market as asset cards, the open gates (by location) and
 * the clues (by id), and the turn, which it advances through the cycle
 * Action, Encounter, Mythos, Action. Cards come from an `AllDecksManager`.
 * The human-readable log is not modelled.
 */
module GameServices {
  import opened Wrappers
  import opened Cards
  import opened Seqs
  import opened Piles
  import opened Players
  import opened Locations
  import opened Turns
  import opened DeckManagers
  import opened AllDeckManagers

  /** `MAX_ACTIONS_PER_PLAYER`. */
  const MaxActionsPerPlayer: int := 2
  /** `MAX_MARKET_CARDS`. */
  const MaxMarketCards: int := 4

  /** The fields of a `GameService` other than its decks, as one value. */
  datatype ServiceView = ServiceView(
    turn: Turn,
    market: seq<Card>,
    players: seq<PlayerState>,
    openGates: seq<string>,
    clues: seq<string>)

  class GameService {
    const decks: AllDecksManager
    var turn: Turn
    var market: seq<Card>
    var players: seq<PlayerState>
    var openGates: seq<string>
    var clues: seq<string>

    /** The managers are distinct and the market never holds more than `MAX_MARKET_CARDS`. */
    ghost predicate Valid()
      reads this, decks
    {
      decks.Valid() && |market| <= MaxMarketCards
    }

    function View(): ServiceView
      reads this
    {
      ServiceView(turn, market, players, openGates, clues)
    }

    /**
     * After `replenishMarket` from the market `before` and the asset piles
     * `deckBefore`: the cards drawn were appended in order, and each left the
     * asset deck. Drawing stopped when the market was full or the asset deck
     * was empty, and a market that was already full was left alone.
     */
    ghost predicate MarketReplenishedFrom(before: seq<Card>, deckBefore: Piles)
      reads this, decks, decks.asset
    {
      var deck := decks.asset;
      && (exists drawn: seq<Card> ::
            && market == before + drawn
            && multiset(deck.drawPile + deck.discardPile) + multiset(drawn)
               == multiset(deckBefore.drawPile + deckBefore.discardPile))
      && deck.removedFromGame == deckBefore.removedFromGame
      && (|market| >= MaxMarketCards || (deck.drawPile == [] && deck.discardPile == []))
      && (|before| < MaxMarketCards ==> |market| <= MaxMarketCards)
      && (|before| >= MaxMarketCards ==> market == before && deck.Contents() == deckBefore)
    }

    /**
     * The players are sorted by turn order with no actions taken (the
     * caller's array is sorted in place, which is not modelled), the first of
     * them leads and acts, and the market is filled from the asset deck.
     */
    constructor (decks: AllDecksManager, players: seq<PlayerState>)
      requires decks.Valid()
      modifies decks.asset
      ensures Valid() && this.decks == decks
      ensures this.players == Prepared(players)
      ensures var lead := if |players| > 0 then this.players[0].id else "";
        turn == InitialTurn.(leadInvestigatorId := lead, currentInvestigatorId := lead)
      ensures openGates == [] && clues == []
      ensures MarketReplenishedFrom([], old(decks.asset.Contents()))
    {
      this.decks := decks;
      var sorted := ClearActions(SortByTurnOrder(players));
      this.players := sorted;
      var lead := if |sorted| > 0 then sorted[0].id else "";
      turn := InitialTurn.(leadInvestigatorId := lead, currentInvestigatorId := lead);
      market := [];
      openGates := [];
      clues := [];
      new;
      ReplenishMarket();
    }

    /** `drawClue()`, with the drawn clue card (or None for an empty deck) given as `drawn`. */
    method DrawClue(drawn: Option<Card>) returns (r: Option<string>)
      modifies this
      ensures drawn.None? ==> r.None? && View() == old(View())
      ensures drawn.Some? ==> r == Some(drawn.value.id) && View() == old(View()).(clues := old(clues) + [drawn.value.id])
    {
      if drawn.None? {
        return None;
      }
      clues := clues + [drawn.value.id];
      r := Some(drawn.value.id);
    }

    /** `discardClue(clueId)`: removes the first occurrence; false with no change when absent. */
    method DiscardClue(clueId: string) returns (ok: bool)
      modifies this
      ensures ok <==> clueId in old(clues)
      ensures ok ==> View() == old(View()).(clues := RemoveAt(old(clues), IndexOf(old(clues), clueId)))
      ensures !ok ==> View() == old(View())
    {
      var index := IndexOf(clues, clueId);
      if index == -1 {
        return false;
      }
      clues := RemoveAt(clues, index);
      ok := true;
    }

    /**
     * `drawGate()`, with the drawn gate card given as `drawn`. The gate's
     * location, not its id, is what `openGates` records.
     */
    method DrawGate(drawn: Option<Card>) returns (r: Option<Card>)
      requires drawn.Some? ==> drawn.value.location.Some?
      modifies this
      ensures r == drawn
      ensures drawn.None? ==> View() == old(View())
      ensures drawn.Some? ==> View() == old(View()).(openGates := old(openGates) + [drawn.value.location.value])
    {
      if drawn.None? {
        return None;
      }
      openGates := openGates + [drawn.value.location.value];
      r := drawn;
    }

    /** `closeGate(locationName)`: removes the first occurrence; false with no change when absent. */
    method CloseGate(locationName: string) returns (ok: bool)
      modifies this
      ensures ok <==> locationName in old(openGates)
      ensures ok ==> View() == old(View()).(openGates := RemoveAt(old(openGates), IndexOf(old(openGates), locationName)))
      ensures !ok ==> View() == old(View())
    {
      var index := IndexOf(openGates, locationName);
      if index == -1 {
        return false;
      }
      openGates := RemoveAt(openGates, index);
      ok := true;
    }

    /**
     * `getPlayerState(playerId)`: None only for an unknown player; otherwise
     * the first record with that id, its assets and its conditions resolved
     * in the asset and condition databases, unknown ids dropped.
     */
    function GetPlayerState(playerId: string): (r: Option<PlayerCards>)
      reads this, decks
      ensures r.Some? <==> exists k :: 0 <= k < |players| && players[k].id == playerId
      ensures r.Some? ==> r.value.player == players[FindPlayer(players, playerId)]
      ensures r.Some? ==> r.value.assets == ResolveKnown(r.value.player.assetIds, decks.asset.cardDb)
      ensures r.Some? ==> r.value.conditions == ResolveKnown(r.value.player.conditionIds, decks.condition.cardDb)
    {
      match GetById(players, playerId)
      case None => None
      case Some(p) =>
        Some(PlayerCards(p, ResolveKnown(p.assetIds, decks.asset.cardDb), ResolveKnown(p.conditionIds, decks.condition.cardDb)))
    }

    /** `replenishMarket()`: draw assets until the market holds `MAX_MARKET_CARDS` or the asset deck is empty. */
    method ReplenishMarket()
      requires Valid()
      modifies this, decks.asset
      ensures Valid()
      ensures View() == old(View()).(market := market)
      ensures MarketReplenishedFrom(old(market), old(decks.asset.Contents()))
    {
      var deck := decks.asset;
      ghost var drawn: seq<Card> := [];
      while |market| < MaxMarketCards
        invariant View() == old(View()).(market := market)
        invariant market == old(market) + drawn
        invariant multiset(deck.drawPile + deck.discardPile) + multiset(drawn)
          == multiset(old(deck.drawPile) + old(deck.discardPile))
        invariant deck.removedFromGame == old(deck.removedFromGame)
        invariant |old(market)| < MaxMarketCards ==> |market| <= MaxMarketCards
        invariant |old(market)| >= MaxMarketCards ==> drawn == [] && deck.Contents() == old(deck.Contents())
        invariant |market| <= MaxMarketCards
        decreases MaxMarketCards - |market|
      {
        var card := DrawAsset();
        if card.None? {
          break;
        }
        market := market + [card.value];
        drawn := drawn + [card.value];
      }
      assert market == old(market) + drawn;
    }

    /** `this.decks.draw("asset")`, stated for the asset manager alone. */
    method DrawAsset() returns (c: Option<Card>)
      requires decks.Valid()
      modifies decks.asset
      ensures var d := decks.asset;
        && (c.None? <==> old(d.drawPile) == [] && old(d.discardPile) == [])
        && (c.None? ==> d.Contents() == old(d.Contents()))
        && (old(d.drawPile) != [] ==>
             && c == Some(old(d.drawPile)[|old(d.drawPile)| - 1]) && d.drawPile == old(d.drawPile)[..|old(d.drawPile)| - 1]
             && d.discardPile == old(d.discardPile))
        && (old(d.drawPile) == [] && old(d.discardPile) != [] ==> d.discardPile == [])
        && (c.Some? ==>
             multiset(d.drawPile + d.discardPile) + multiset{c.value} == multiset(old(d.drawPile) + old(d.discardPile)))
        && d.removedFromGame == old(d.removedFromGame)
    {
      assert decks.Manager(AssetCard) == decks.asset;
      c := decks.Draw(AssetCard);
    }

    /**
     * `buyFromMarket(cardId)`: None with no change when no market card has
     * that id. Otherwise the first such card is removed and returned, and the
     * market is replenished.
     */
    method BuyFromMarket(cardId: string) returns (r: Option<Card>)
      requires Valid()
      modifies this, decks.asset
      ensures Valid()
      ensures var i := FirstMatch(old(market), "id", cardId);
        && (r.None? <==> i == -1)
        && (r.None? ==> View() == old(View()) && decks.asset.Contents() == old(decks.asset.Contents()))
        && (r.Some? ==>
             && r.value == old(market)[i] && r.value.id == cardId
             && View() == old(View()).(market := market)
             && MarketReplenishedFrom(RemoveAt(old(market), i), old(decks.asset.Contents())))
    {
      var index := FirstMatch(market, "id", cardId);
      if index == -1 {
        return None;
      }
      var card := market[index];
      market := RemoveAt(market, index);
      ReplenishMarket();
      r := Some(card);
    }

    /** `canTakeAction(playerId, actionType)`: the first record with that id has budget left and has not taken that type. */
    predicate CanTakeAction(playerId: string, actionType: string)
      reads this
      ensures CanTakeAction(playerId, actionType) <==>
        && GetById(players, playerId).Some?
        && |GetById(players, playerId).value.actionsTaken| < MaxActionsPerPlayer
        && actionType !in GetById(players, playerId).value.actionsTaken
    {
      match GetById(players, playerId)
      case None => false
      case Some(p) => CanTake(p, actionType, MaxActionsPerPlayer)
    }

    /** `recordAction(playerId, actionType)`: the first record with that id gains the type unless it has it. */
    method RecordAction(playerId: string, actionType: string)
      modifies this
      ensures var i := FindPlayer(old(players), playerId);
        && (i == -1 ==> View() == old(View()))
        && (i != -1 ==> View() == old(View()).(players := old(players)[i := WithAction(old(players)[i], actionType)]))
    {
      var index := FindPlayer(players, playerId);
      if index == -1 {
        return;
      }
      if actionType !in players[index].actionsTaken {
        players := players[index := players[index].(actionsTaken := players[index].actionsTaken + [actionType])];
      }
    }

    /** `resetActions()`: every player's actions are emptied, one record at a time. */
    method ResetActions()
      modifies this
      ensures View() == old(View()).(players := ClearActions(old(players)))
    {
      var k := 0;
      while k < |players|
        invariant 0 <= k <= |players| == |old(players)|
        invariant View() == old(View()).(players := players)
        invariant forall j :: 0 <= j < k ==> players[j] == old(players)[j].(actionsTaken := [])
        invariant forall j :: k <= j < |players| ==> players[j] == old(players)[j]
      {
        players := players[k := players[k].(actionsTaken := [])];
        k := k + 1;
      }
    }

    /** `resolveEncounter(playerId)`: the type of the player's location, or the not-found message. */
    function ResolveEncounter(playerId: string): (r: string)
      reads this
      ensures r == PlayerNotFound <==> GetById(players, playerId).None?
      ensures GetById(players, playerId).Some? ==> r == EncounterTypeName(GetById(players, playerId).value.locationId)
    {
      match GetById(players, playerId)
      case None => PlayerNotFound
      case Some(p) =>
        NotFoundIsNoTypeName(ClassifyLocation(p.locationId));
        EncounterTypeOf(p.locationId)
    }

    /**
     * `nextPhase()`: the turn takes its next step in the cycle. Entering
     * Encounter and entering Action also clear every player's actions; the
     * Mythos step passes the lead on, which needs a player.
     */
    method NextPhase()
      requires turn.phase == Mythos ==> |players| > 0
      modifies this
      ensures turn == CycleNextPhase(old(turn), old(players))
      ensures players == (if old(turn).phase == Encounter then old(players) else ClearActions(old(players)))
      ensures market == old(market) && openGates == old(openGates) && clues == old(clues)
    {
      match turn.phase {
        case Action =>
          turn := turn.(phase := Encounter);
          turn := turn.(currentInvestigatorId := turn.leadInvestigatorId);
          ResetActions();
        case Encounter =>
          turn := turn.(phase := Mythos);
          turn := turn.(currentInvestigatorId := turn.leadInvestigatorId);
        case Mythos =>
          turn := turn.(phase := Action);
          turn := turn.(round := turn.round + 1);
          PassLeadInvestigator();
          turn := turn.(currentInvestigatorId := turn.leadInvestigatorId);
          ResetActions();
      }
    }

    /** `nextInvestigator()`: no change when the current investigator is not listed; otherwise the next player acts. */
    method NextInvestigator()
      modifies this
      ensures FindPlayer(old(players), old(turn).currentInvestigatorId) == -1 ==> View() == old(View())
      ensures FindPlayer(old(players), old(turn).currentInvestigatorId) != -1 ==>
        View() == old(View()).(turn := old(turn).(currentInvestigatorId := NextPlayerId(old(players), old(turn).currentInvestigatorId)))
    {
      var index := FindPlayer(players, turn.currentInvestigatorId);
      if index == -1 {
        return;
      }
      var next := NextPlayerId(players, turn.currentInvestigatorId);
      turn := turn.(currentInvestigatorId := next);
    }

    /** `passLeadInvestigator()`: the lead moves to the next player, or to the first if the lead is not listed. */
    method PassLeadInvestigator()
      requires |players| > 0
      modifies this
      ensures View() == old(View()).(turn := old(turn).(leadInvestigatorId := NextPlayerId(old(players), old(turn).leadInvestigatorId)))
    {
      var next := NextPlayerId(players, turn.leadInvestigatorId);
      turn := turn.(leadInvestigatorId := next);
    }
  }
}
