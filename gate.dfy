/** `Gate`: the ordered list of open gate ids, fed from the gate deck. */
module Gates {
  import opened Wrappers
  import opened Cards
  import opened Seqs
  import opened Piles
  import opened Decks

  const DrawKey: string := "gate.draw"
  const DiscardKey: string := "gate.discard"

  class Gate {
    /** `getGateIds`/`setGateIds`. */
    var ids: seq<string>
    /** `getGateById`. */
    const gateDb: map<string, Card>
    const deck: Deck
    /** The keys written to the logger, oldest first. */
    ghost var log: seq<string>

    constructor (deck: Deck, ids: seq<string>, gateDb: map<string, Card>)
      ensures this.deck == deck && this.ids == ids && this.gateDb == gateDb && log == []
    {
      this.deck, this.ids, this.gateDb := deck, ids, gateDb;
      log := [];
    }

    /**
     * `draw()`: take a card from the deck and append its id. An exhausted deck
     * gives None with no change and no log entry.
     */
    method Draw() returns (r: Option<string>)
      modifies this, deck
      ensures r.None? <==> old(deck.drawPile) == [] && old(deck.discardPile) == []
      ensures r.None? ==> ids == old(ids) && log == old(log) && deck.Contents() == old(deck.Contents())
      ensures r.Some? ==> ids == old(ids) + [r.value] && log == old(log) + [DrawKey]
      ensures r.Some? ==> exists c: Card ::
        && c.id == r.value
        && multiset(deck.drawPile + deck.discardPile) + multiset{c} == multiset(old(deck.drawPile) + old(deck.discardPile))
      ensures deck.removedFromGame == old(deck.removedFromGame)
    {
      var gate := deck.Draw();
      if gate.None? {
        return None;
      }
      ids := ids + [gate.value.id];
      log := log + [DrawKey];
      r := Some(gate.value.id);
    }

    /**
     * `discard(id)`: succeeds only for a listed id that resolves; then the first
     * occurrence is removed and the card goes onto the deck's discard pile.
     */
    method Discard(id: string) returns (ok: bool)
      modifies this, deck
      ensures ok <==> id in old(ids) && id in gateDb
      ensures !ok ==> ids == old(ids) && log == old(log) && deck.Contents() == old(deck.Contents())
      ensures ok ==>
        && ids == RemoveAt(old(ids), IndexOf(old(ids), id))
        && log == old(log) + [DiscardKey]
        && deck.Contents() == old(deck.Contents()).(discardPile := old(deck.discardPile) + [gateDb[id]])
    {
      var idx := IndexOf(ids, id);
      if idx == -1 {
        return false;
      }
      var gate := Lookup(gateDb, id);
      if gate.None? {
        return false;
      }
      ids := RemoveAt(ids, idx);
      deck.Discard(gate.value);
      log := log + [DiscardKey];
      ok := true;
    }

    /** `getState()`: the gate cards in id order, unknown ids dropped. */
    function GetState(): (r: seq<Card>)
      reads this
      ensures |r| <= |ids|
      ensures forall i :: 0 <= i < |ids| && ids[i] in gateDb ==> gateDb[ids[i]] in r
      ensures forall c :: c in r ==> exists i :: 0 <= i < |ids| && ids[i] in gateDb && gateDb[ids[i]] == c
      ensures Known(ids, gateDb) ==> |r| == |ids| && forall i :: 0 <= i < |ids| ==> r[i] == gateDb[ids[i]]
    {
      ResolveKnown(ids, gateDb)
    }

    /** `setState(ids)`: the list becomes a copy of `newIds`. */
    method SetState(newIds: seq<string>)
      modifies this
      ensures ids == newIds && log == old(log)
    {
      ids := newIds;
    }
  }
}
