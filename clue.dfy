/** `Clue`: the ordered list of clue ids on the board, fed from the clue deck. */
module Clues {
  import opened Wrappers
  import opened Cards
  import opened Seqs
  import opened Piles
  import opened Decks

  const DrawKey: string := "clue.draw"
  const DiscardKey: string := "clue.discard"

  class Clue {
    /** `getClueIds`/`setClueIds`. */
    var ids: seq<string>
    /** `getClueById`. */
    const clueDb: map<string, Card>
    const deck: Deck
    /** The keys written to the logger, oldest first. */
    ghost var log: seq<string>

    constructor (deck: Deck, ids: seq<string>, clueDb: map<string, Card>)
      ensures this.deck == deck && this.ids == ids && this.clueDb == clueDb && log == []
    {
      this.deck, this.ids, this.clueDb := deck, ids, clueDb;
      log := [];
    }

    /**
     * `draw()`: take a card from the deck and append its id. An exhausted deck
     * gives None with no change and no log entry.
     */
    method Draw() returns (r: Option<string>)
      modifies this, deck
      ensures r.None? <==> old(deck.drawPile) == [] && old(deck.discardPile) == []
      ensures r.None? ==> ids == old(ids) && log == old(log) && deck.Contents() == old(deck.Contents())
      ensures r.Some? ==> ids == old(ids) + [r.value] && log == old(log) + [DrawKey]
      ensures r.Some? ==> exists c: Card ::
        && c.id == r.value
        && multiset(deck.drawPile + deck.discardPile) + multiset{c} == multiset(old(deck.drawPile) + old(deck.discardPile))
      ensures deck.removedFromGame == old(deck.removedFromGame)
    {
      var clue := deck.Draw();
      if clue.None? {
        return None;
      }
      ids := ids + [clue.value.id];
      log := log + [DrawKey];
      r := Some(clue.value.id);
    }

    /**
     * `discard(id)`: succeeds only for a listed id that resolves; then the first
     * occurrence is removed and the card goes onto the deck's discard pile.
     */
    method Discard(id: string) returns (ok: bool)
      modifies this, deck
      ensures ok <==> id in old(ids) && id in clueDb
      ensures !ok ==> ids == old(ids) && log == old(log) && deck.Contents() == old(deck.Contents())
      ensures ok ==>
        && ids == RemoveAt(old(ids), IndexOf(old(ids), id))
        && log == old(log) + [DiscardKey]
        && deck.Contents() == old(deck.Contents()).(discardPile := old(deck.discardPile) + [clueDb[id]])
    {
      var idx := IndexOf(ids, id);
      var clue := Lookup(clueDb, id);
      if idx == -1 || clue.None? {
        return false;
      }
      ids := RemoveAt(ids, idx);
      deck.Discard(clue.value);
      log := log + [DiscardKey];
      ok := true;
    }

    /** `getState()`: the clue cards in id order, unknown ids dropped. */
    function GetState(): (r: seq<Card>)
      reads this
      ensures |r| <= |ids|
      ensures forall i :: 0 <= i < |ids| && ids[i] in clueDb ==> clueDb[ids[i]] in r
      ensures forall c :: c in r ==> exists i :: 0 <= i < |ids| && ids[i] in clueDb && clueDb[ids[i]] == c
      ensures Known(ids, clueDb) ==> |r| == |ids| && forall i :: 0 <= i < |ids| ==> r[i] == clueDb[ids[i]]
    {
      ResolveKnown(ids, clueDb)
    }

    /** `setState(ids)`: the list becomes a copy of `newIds`. */
    method SetState(newIds: seq<string>)
      modifies this
      ensures ids == newIds && log == old(log)
    {
      ids := newIds;
    }
  }
}
