/**
 * `MarketService`: the older asset shop over a `DeckManager`. It behaves like
 * `Market`; its human-readable log messages are not modelled.
 */
module MarketServices {
  import opened Wrappers
  import opened Cards
  import opened Seqs
  import opened Piles
  import opened DeckManagers

  /** `DEFAULT_MAX_MARKET_CARDS`. */
  const DefaultMaxMarketCards: int := 4

  class MarketService {
    var ids: seq<string>
    const assetDb: map<string, Card>
    const deck: DeckManager
    const maxSize: int

    constructor (deck: DeckManager, ids: seq<string>, assetDb: map<string, Card>, maxSize: int := DefaultMaxMarketCards)
      ensures this.deck == deck && this.ids == ids && this.assetDb == assetDb && this.maxSize == maxSize
    {
      this.deck, this.ids, this.assetDb, this.maxSize := deck, ids, assetDb, maxSize;
    }

    /**
     * The outcome of `replenish` started from display `before` and deck
     * `deckBefore`: `before` followed by the ids of the cards taken from the
     * deck, stopping at `maxSize` or when the deck is exhausted, and not
     * drawing at all when `before` is already full.
     */
    ghost predicate ReplenishedFrom(before: seq<string>, deckBefore: Piles)
      reads this, deck
    {
      && (exists drawn: seq<Card> ::
            && ids == before + Ids(drawn)
            && multiset(deck.drawPile + deck.discardPile) + multiset(drawn)
               == multiset(deckBefore.drawPile + deckBefore.discardPile))
      && deck.removedFromGame == deckBefore.removedFromGame
      && (|ids| >= maxSize || (deck.drawPile == [] && deck.discardPile == []))
      && (|before| < maxSize ==> |ids| <= maxSize)
      && (|before| >= maxSize ==> ids == before && deck.Contents() == deckBefore)
    }

    /** One `deck.draw()` of the replenish loop, stated by what it leaves in the deck. */
    method TakeOne() returns (c: Option<Card>)
      modifies deck
      ensures deck.removedFromGame == old(deck.removedFromGame)
      ensures c.None? ==> deck.drawPile == [] && deck.discardPile == [] && deck.Contents() == old(deck.Contents())
      ensures c.Some? ==>
        multiset(deck.drawPile + deck.discardPile) + multiset{c.value} == multiset(old(deck.drawPile) + old(deck.discardPile))
    {
      c := deck.Draw();
    }

    /** `replenish()`: draw until the display is full or the deck is empty. */
    method Replenish()
      modifies this, deck
      ensures ReplenishedFrom(old(ids), old(deck.Contents()))
    {
      var next := ids;
      ghost var drawn: seq<Card> := [];
      while |next| < maxSize
        invariant next == old(ids) + Ids(drawn)
        invariant ids == old(ids)
        invariant multiset(deck.drawPile + deck.discardPile) + multiset(drawn)
          == multiset(old(deck.drawPile) + old(deck.discardPile))
        invariant deck.removedFromGame == old(deck.removedFromGame)
        invariant |old(ids)| < maxSize ==> |next| <= maxSize
        invariant |old(ids)| >= maxSize ==> drawn == [] && deck.Contents() == old(deck.Contents())
        decreases maxSize - |next|
      {
        var card := TakeOne();
        if card.None? {
          break;
        }
        IdsAppend(drawn, card.value);
        assert multiset(drawn + [card.value]) == multiset(drawn) + multiset{card.value};
        next := next + [card.value.id];
        drawn := drawn + [card.value];
      }
      ids := next;
      assert ids == old(ids) + Ids(drawn);
    }

    /**
     * `buy(cardId)`: an absent id gives None with no change; a present one has
     * its first occurrence removed, and only an id that resolves to an asset
     * triggers a replenish and is returned.
     */
    method Buy(cardId: string) returns (r: Option<Card>)
      modifies this, deck
      ensures cardId !in old(ids) ==> r == None && ids == old(ids) && deck.Contents() == old(deck.Contents())
      ensures cardId in old(ids) && cardId !in assetDb ==>
        && r == None && deck.Contents() == old(deck.Contents())
        && ids == RemoveAt(old(ids), IndexOf(old(ids), cardId))
      ensures cardId in old(ids) && cardId in assetDb ==>
        && r == Some(assetDb[cardId])
        && ReplenishedFrom(RemoveAt(old(ids), IndexOf(old(ids), cardId)), old(deck.Contents()))
    {
      var index := IndexOf(ids, cardId);
      if index == -1 {
        return None;
      }
      ids := RemoveAt(ids, index);
      r := Lookup(assetDb, cardId);
      if r.Some? {
        Replenish();
      }
    }

    /** `discard(asset)`: forwarded to the deck; the display is unchanged. */
    method Discard(asset: Card)
      modifies deck
      ensures ids == old(ids)
      ensures deck.Contents() == old(deck.Contents()).(discardPile := old(deck.discardPile) + [asset])
    {
      deck.Discard(asset);
    }

    /** `getAll()`: the displayed assets in id order, unknown ids dropped. */
    function GetAll(): (r: seq<Card>)
      reads this
      ensures |r| <= |ids|
      ensures forall i :: 0 <= i < |ids| && ids[i] in assetDb ==> assetDb[ids[i]] in r
      ensures forall c :: c in r ==> exists i :: 0 <= i < |ids| && ids[i] in assetDb && assetDb[ids[i]] == c
      ensures Known(ids, assetDb) ==> |r| == |ids| && forall i :: 0 <= i < |ids| ==> r[i] == assetDb[ids[i]]
    {
      ResolveKnown(ids, assetDb)
    }
  }
}
