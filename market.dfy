/**
 * `Market`: the asset shop. The ids on display form an ordered list that is
 * backfilled from the asset deck up to `maxSize`; the structured logger is
 * modelled as the sequence of keys it received.
 */
module Markets {
  import opened Wrappers
  import opened Cards
  import opened Seqs
  import opened Piles
  import opened Decks

  /** `DEFAULT_MAX_MARKET_CARDS`. */
  const DefaultMaxMarketCards: int := 4

  const ReplenishKey: string := "market.asset.replenish"
  const BuyKey: string := "market.asset.buy"
  const DiscardKey: string := "market.asset.discard"

  /** One replenish log key per drawn card. */
  function ReplenishLog(drawn: seq<Card>): (r: seq<string>)
    ensures |r| == |drawn| && forall i :: 0 <= i < |r| ==> r[i] == ReplenishKey
  {
    seq(|drawn|, i requires 0 <= i < |drawn| => ReplenishKey)
  }

  /** One more card drawn logs one more key. */
  lemma ReplenishLogAppend(drawn: seq<Card>, c: Card)
    ensures ReplenishLog(drawn + [c]) == ReplenishLog(drawn) + [ReplenishKey]
  {
  }

  /** `names.join(", ")`. */
  function JoinNames(cards: seq<Card>): string
  {
    if cards == [] then ""
    else if |cards| == 1 then cards[0].name
    else cards[0].name + ", " + JoinNames(cards[1..])
  }

  /** The message `setState` logs: the restored names, or that none were found. */
  function RestoreMessage(assets: seq<Card>): string
  {
    if |assets| > 0 then "Восстановлен маркет: " + JoinNames(assets)
    else "Маркет восстановлен, но карты не найдены"
  }

  class Market {
    /** The ids on display (`getMarketIds`/`setMarketIds`). */
    var ids: seq<string>
    /** `getAssetById`. */
    const assetDb: map<string, Card>
    const deck: Deck
    const maxSize: int
    /** The keys written to the logger, oldest first. */
    ghost var log: seq<string>

    constructor (deck: Deck, ids: seq<string>, assetDb: map<string, Card>, maxSize: int := DefaultMaxMarketCards)
      ensures this.deck == deck && this.ids == ids && this.assetDb == assetDb && this.maxSize == maxSize
      ensures log == []
    {
      this.deck, this.ids, this.assetDb, this.maxSize := deck, ids, assetDb, maxSize;
      log := [];
    }

    /**
     * The outcome of `replenish` started from display `before`, log `logBefore`
     * and deck `deckBefore`: the display is `before` followed by the ids of the
     * cards taken from the deck, one log key per card; drawing stops at
     * `maxSize` or when the deck is exhausted, and does not start at all when
     * `before` is already full.
     */
    ghost predicate ReplenishedFrom(before: seq<string>, logBefore: seq<string>, deckBefore: Piles)
      reads this, deck
    {
      && (exists drawn: seq<Card> ::
            && ids == before + Ids(drawn)
            && log == logBefore + ReplenishLog(drawn)
            && multiset(deck.drawPile + deck.discardPile) + multiset(drawn)
               == multiset(deckBefore.drawPile + deckBefore.discardPile))
      && deck.removedFromGame == deckBefore.removedFromGame
      && (|ids| >= maxSize || (deck.drawPile == [] && deck.discardPile == []))
      && (|before| < maxSize ==> |ids| <= maxSize)
      && (|before| >= maxSize ==> ids == before && log == logBefore && deck.Contents() == deckBefore)
    }

    /** One `deck.draw()` of the replenish loop, stated by what it leaves in the deck. */
    method TakeOne() returns (c: Option<Card>)
      modifies deck
      ensures deck.removedFromGame == old(deck.removedFromGame)
      ensures c.None? ==> deck.drawPile == [] && deck.discardPile == [] && deck.Contents() == old(deck.Contents())
      ensures c.Some? ==>
        multiset(deck.drawPile + deck.discardPile) + multiset{c.value} == multiset(old(deck.drawPile) + old(deck.discardPile))
    {
      c := deck.Draw();
    }

    /** `replenish()`: draw from the deck until the display is full or the deck is empty. */
    method Replenish()
      modifies this, deck
      ensures ReplenishedFrom(old(ids), old(log), old(deck.Contents()))
    {
      var next := ids;
      ghost var drawn: seq<Card> := [];
      while |next| < maxSize
        invariant next == old(ids) + Ids(drawn)
        invariant log == old(log) + ReplenishLog(drawn)
        invariant ids == old(ids)
        invariant multiset(deck.drawPile + deck.discardPile) + multiset(drawn)
          == multiset(old(deck.drawPile) + old(deck.discardPile))
        invariant deck.removedFromGame == old(deck.removedFromGame)
        invariant |old(ids)| < maxSize ==> |next| <= maxSize
        invariant |old(ids)| >= maxSize ==> drawn == [] && deck.Contents() == old(deck.Contents())
        decreases maxSize - |next|
      {
        var card := TakeOne();
        if card.None? {
          break;
        }
        IdsAppend(drawn, card.value);
        assert multiset(drawn + [card.value]) == multiset(drawn) + multiset{card.value};
        ReplenishLogAppend(drawn, card.value);
        next := next + [card.value.id];
        log := log + [ReplenishKey];
        drawn := drawn + [card.value];
      }
      ids := next;
      assert ids == old(ids) + Ids(drawn);
    }

    /**
     * `buy(cardId)`: an id not on display gives None and changes nothing.
     * Otherwise its first occurrence is removed; if the id resolves to an
     * asset, the purchase is logged, the display is replenished and the asset
     * returned, else None is returned without backfill.
     */
    method Buy(cardId: string) returns (r: Option<Card>)
      modifies this, deck
      ensures cardId !in old(ids) ==>
        r == None && ids == old(ids) && log == old(log) && deck.Contents() == old(deck.Contents())
      ensures cardId in old(ids) && cardId !in assetDb ==>
        && r == None && log == old(log) && deck.Contents() == old(deck.Contents())
        && ids == RemoveAt(old(ids), IndexOf(old(ids), cardId))
      ensures cardId in old(ids) && cardId in assetDb ==>
        && r == Some(assetDb[cardId])
        && ReplenishedFrom(RemoveAt(old(ids), IndexOf(old(ids), cardId)), old(log) + [BuyKey], old(deck.Contents()))
    {
      var index := IndexOf(ids, cardId);
      if index == -1 {
        return None;
      }
      ids := RemoveAt(ids, index);
      r := Lookup(assetDb, cardId);
      if r.Some? {
        log := log + [BuyKey];
        Replenish();
      }
    }

    /** `discard(asset)`: onto the deck's discard pile; the display is unchanged. */
    method Discard(asset: Card)
      modifies this, deck
      ensures ids == old(ids) && log == old(log) + [DiscardKey]
      ensures deck.Contents() == old(deck.Contents()).(discardPile := old(deck.discardPile) + [asset])
    {
      deck.Discard(asset);
      log := log + [DiscardKey];
    }

    /** `getState()`: the displayed assets in id order, unknown ids dropped. */
    function GetState(): (r: seq<Card>)
      reads this
      ensures |r| <= |ids|
      ensures forall i :: 0 <= i < |ids| && ids[i] in assetDb ==> assetDb[ids[i]] in r
      ensures forall c :: c in r ==> exists i :: 0 <= i < |ids| && ids[i] in assetDb && assetDb[ids[i]] == c
      ensures Known(ids, assetDb) ==> |r| == |ids| && forall i :: 0 <= i < |ids| ==> r[i] == assetDb[ids[i]]
    {
      ResolveKnown(ids, assetDb)
    }

    /** `setState(ids)`: store the ids, log the restore message, then replenish. */
    method SetState(newIds: seq<string>)
      modifies this, deck
      ensures ReplenishedFrom(newIds, old(log) + [RestoreMessage(ResolveKnown(newIds, assetDb))], old(deck.Contents()))
    {
      ids := newIds;
      log := log + [RestoreMessage(ResolveKnown(newIds, assetDb))];
      Replenish();
    }
  }
}
