/**
 * `Encounter`: the encounter protocol. At most one encounter is pending;
 * `start` draws an encounter card for a location type and records it,
 * `resolve` picks the success or failure effect tree of the pending card.
 * The pending slot is held by a state service (here the `pending` field),
 * encounter cards are looked up in `encounterDb`, and the structured log
 * keys are kept as a ghost sequence.
 */
module Encounters {
  import opened Wrappers
  import opened Cards
  import opened Seqs
  import opened Piles
  import opened Decks

  const StartKey: string := "encounter.start"
  const GetEncounterKey: string := "encounter.getEncounter"
  const ResolveKey: string := "encounter.resolve"

  /** `{playerId, encounterId}`: the record the state service holds. */
  datatype EncounterState = EncounterState(playerId: string, encounterId: string)

  /**
   * The state service's slot. `Unset` is `null`. A stored record may lack
   * its fields: `setState(null)` stores `{...null}`, which is `{}`, and an
   * empty object is truthy, so it counts as pending.
   */
  datatype Slot = Unset | Stored(playerId: Option<string>, encounterId: Option<string>)

  /** `{...s}`: the spread copy `setState` stores. */
  function Spread(s: Option<EncounterState>): (r: Slot)
    ensures r.Stored?
    ensures s.Some? ==> r == Stored(Some(s.value.playerId), Some(s.value.encounterId))
    ensures s.None? ==> r.playerId.None? && r.encounterId.None?
  {
    match s
    case None => Stored(None, None)
    case Some(e) => Stored(Some(e.playerId), Some(e.encounterId))
  }

  /** `getEncounterById(pending.encounterId)`; a missing id finds nothing. */
  function CardOf(db: map<string, Card>, slot: Slot): (r: Option<Card>)
    requires slot.Stored?
    ensures r.Some? <==> slot.encounterId.Some? && slot.encounterId.value in db
    ensures r.Some? ==> r.value == db[slot.encounterId.value]
  {
    match slot.encounterId
    case None => None
    case Some(id) => Lookup(db, id)
  }

  /** `success ? card.successEffects : card.failureEffects`, with `undefined` as None. */
  function EffectFor(c: Card, success: bool): (r: Option<EncounterEffect>)
    ensures success ==> r == c.successEffects
    ensures !success ==> r == c.failureEffects
  {
    if success then c.successEffects else c.failureEffects
  }

  class Encounter {
    var pending: Slot
    const encounterDb: map<string, Card>
    /** The encounter deck `start` draws from. */
    const deck: Deck
    ghost var log: seq<string>

    constructor (deck: Deck, encounterDb: map<string, Card>)
      ensures this.deck == deck && this.encounterDb == encounterDb
      ensures pending == Unset && log == []
    {
      this.deck := deck;
      this.encounterDb := encounterDb;
      pending := Unset;
      log := [];
    }

    /**
     * `start(playerId, locationType)`. The deck gives up its first card of
     * that location type before the pending check, so a start refused
     * because an encounter is already pending still removes that card.
     * Otherwise the card becomes the pending encounter of `playerId`.
     */
    method Start(playerId: string, locationType: string) returns (r: Option<Card>)
      modifies this, deck
      ensures var i := FirstMatch(old(deck.drawPile), "locationType", locationType);
        && deck.drawPile == (if i == -1 then old(deck.drawPile) else RemoveAt(old(deck.drawPile), i))
        && (r.Some? <==> i != -1 && old(pending).Unset?)
        && (r.Some? ==> r.value == old(deck.drawPile)[i])
      ensures deck.discardPile == old(deck.discardPile) && deck.removedFromGame == old(deck.removedFromGame)
      ensures r.Some? ==> Matches(r.value, "locationType", locationType)
      ensures r.Some? ==> pending == Stored(Some(playerId), Some(r.value.id)) && log == old(log) + [StartKey]
      ensures r.None? ==> pending == old(pending) && log == old(log)
    {
      ghost var i := FirstMatch(deck.drawPile, "locationType", locationType);
      var card := deck.DrawByField("locationType", locationType);
      if card.Some? {
        ghost var j :| 0 <= j < |old(deck.drawPile)| && card.value == old(deck.drawPile)[j]
          && Matches(card.value, "locationType", locationType)
          && (forall m :: 0 <= m < j ==> !Matches(old(deck.drawPile)[m], "locationType", locationType))
          && deck.drawPile == RemoveAt(old(deck.drawPile), j);
        assert j == i;
      }
      if card.None? || pending.Stored? {
        return None;
      }
      pending := Stored(Some(playerId), Some(card.value.id));
      log := log + [StartKey];
      r := card;
    }

    /** `getState()`: the pending record, or `Unset` when nothing is pending. */
    function GetState(): (r: Slot)
      reads this
      ensures r.Unset? <==> pending.Unset?
      ensures r.Stored? ==> r.playerId == pending.playerId && r.encounterId == pending.encounterId
    {
      if pending.Unset? then Unset else Stored(pending.playerId, pending.encounterId)
    }

    /** `setState(s)`: store a copy of `s`; `null` stores `{}`, which is pending. */
    method SetState(s: Option<EncounterState>)
      modifies this
      ensures pending == Spread(s) && GetState().Stored?
      ensures s.Some? ==> GetState() == Stored(Some(s.value.playerId), Some(s.value.encounterId))
      ensures log == old(log)
    {
      pending := Spread(s);
    }

    /** `getEncounter()`: the pending card, if any and if it resolves; pending is left as it is. */
    method GetEncounter() returns (r: Option<Card>)
      modifies this
      ensures pending == old(pending)
      ensures r.Some? <==> pending.Stored? && pending.encounterId.Some? && pending.encounterId.value in encounterDb
      ensures r.Some? ==> r.value == encounterDb[pending.encounterId.value] && log == old(log) + [GetEncounterKey]
      ensures r.None? ==> log == old(log)
    {
      if pending.Unset? {
        return None;
      }
      var card := CardOf(encounterDb, pending);
      if card.None? {
        return None;
      }
      log := log + [GetEncounterKey];
      r := card;
    }

    /**
     * `resolve(success)`: the success or failure effect tree of the pending
     * card. Nothing is cleared, so a repeated call answers the same.
     */
    method Resolve(success: bool) returns (r: Option<EncounterEffect>)
      modifies this
      ensures pending == old(pending)
      ensures (pending.Unset? || CardOf(encounterDb, pending).None?) ==> r.None? && log == old(log)
      ensures pending.Stored? && CardOf(encounterDb, pending).Some? ==>
        r == EffectFor(CardOf(encounterDb, pending).value, success) && log == old(log) + [ResolveKey]
    {
      if pending.Unset? {
        return None;
      }
      var card := CardOf(encounterDb, pending);
      if card.None? {
        return None;
      }
      log := log + [ResolveKey];
      r := EffectFor(card.value, success);
    }
  }
}
