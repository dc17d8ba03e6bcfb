/**
 * `ClueService`: the older clue list over a `DeckManager`. Unlike `Clue`, its
 * `discard` neither checks that the id resolves nor returns the card to the
 * deck. Its human-readable log messages are not modelled.
 */
module ClueServices {
  import opened Wrappers
  import opened Cards
  import opened Seqs
  import opened Piles
  import opened DeckManagers

  class ClueService {
    var ids: seq<string>
    const clueDb: map<string, Card>
    const deck: DeckManager

    constructor (deck: DeckManager, ids: seq<string>, clueDb: map<string, Card>)
      ensures this.deck == deck && this.ids == ids && this.clueDb == clueDb
    {
      this.deck, this.ids, this.clueDb := deck, ids, clueDb;
    }

    /** `draw()`: append the id of a drawn card; None with no change on an exhausted deck. */
    method Draw() returns (r: Option<string>)
      modifies this, deck
      ensures r.None? <==> old(deck.drawPile) == [] && old(deck.discardPile) == []
      ensures r.None? ==> ids == old(ids) && deck.Contents() == old(deck.Contents())
      ensures r.Some? ==> ids == old(ids) + [r.value]
      ensures r.Some? ==> exists c: Card ::
        && c.id == r.value
        && multiset(deck.drawPile + deck.discardPile) + multiset{c} == multiset(old(deck.drawPile) + old(deck.discardPile))
      ensures deck.removedFromGame == old(deck.removedFromGame)
    {
      var clue := deck.Draw();
      if clue.None? {
        return None;
      }
      ids := ids + [clue.value.id];
      r := Some(clue.value.id);
    }

    /** `discard(id)`: remove the first occurrence of a listed id; the deck is not touched. */
    method Discard(id: string) returns (ok: bool)
      modifies this
      ensures ok <==> id in old(ids)
      ensures !ok ==> ids == old(ids)
      ensures ok ==> ids == RemoveAt(old(ids), IndexOf(old(ids), id))
    {
      var idx := IndexOf(ids, id);
      if idx == -1 {
        return false;
      }
      ids := RemoveAt(ids, idx);
      ok := true;
    }

    /** `getAll()`: the clue cards in id order, unknown ids dropped. */
    function GetAll(): (r: seq<Card>)
      reads this
      ensures |r| <= |ids|
      ensures forall i :: 0 <= i < |ids| && ids[i] in clueDb ==> clueDb[ids[i]] in r
      ensures forall c :: c in r ==> exists i :: 0 <= i < |ids| && ids[i] in clueDb && clueDb[ids[i]] == c
      ensures Known(ids, clueDb) ==> |r| == |ids| && forall i :: 0 <= i < |ids| ==> r[i] == clueDb[ids[i]]
    {
      ResolveKnown(ids, clueDb)
    }

    /** `restore(ids)`: the list becomes a copy of `newIds`. */
    method Restore(newIds: seq<string>)
      modifies this
      ensures ids == newIds
    {
      ids := newIds;
    }
  }
}
