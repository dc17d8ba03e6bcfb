/**
 * `AllDecks`: a registry mapping each card kind to its own `Deck` and
 * delegating to it. Its restore builds every new deck before assigning the
 * registry, so a failing key leaves the previous decks in place.
 */
module AllDecksRegistry {
  import opened Wrappers
  import opened Cards
  import opened Piles
  import opened Decks

  class AllDecks {
    var decks: map<CardType, Deck>

    /** Distinct kinds are backed by distinct deck objects. */
    ghost predicate Valid()
      reads this
    {
      forall k1, k2 :: k1 in decks && k2 in decks && k1 != k2 ==> decks[k1] != decks[k2]
    }

    /** One fresh deck per key of `params`, initialized with that key's cards and database. */
    constructor (params: map<CardType, DeckParams>)
      ensures Valid() && decks.Keys == params.Keys
      ensures forall k :: k in decks ==>
        && fresh(decks[k])
        && decks[k].cardDb == params[k].db
        && multiset(decks[k].drawPile) == multiset(params[k].deck)
        && decks[k].discardPile == [] && decks[k].removedFromGame == []
    {
      var built: map<CardType, Deck> := map[];
      var todo := params.Keys;
      while todo != {}
        invariant todo <= params.Keys
        invariant built.Keys == params.Keys - todo
        invariant forall k1, k2 :: k1 in built && k2 in built && k1 != k2 ==> built[k1] != built[k2]
        invariant forall k :: k in built ==>
          && fresh(built[k])
          && built[k].cardDb == params[k].db
          && multiset(built[k].drawPile) == multiset(params[k].deck)
          && built[k].discardPile == [] && built[k].removedFromGame == []
        decreases todo
      {
        var k :| k in todo;
        var mgr := new Deck(params[k].db);
        mgr.Initialize(params[k].deck);
        built := built[k := mgr];
        todo := todo - {k};
      }
      decks := built;
    }

    /** `draw(type)`: the deck of `kind` draws; every other deck is untouched. */
    method Draw(kind: CardType) returns (c: Option<Card>)
      requires Valid() && kind in decks
      modifies decks[kind]
      ensures forall k :: k in decks && k != kind ==> decks[k].Contents() == old(decks[k].Contents())
      ensures var d := decks[kind];
        && (c.None? <==> old(d.drawPile) == [] && old(d.discardPile) == [])
        && (c.None? ==> d.Contents() == old(d.Contents()))
        && (old(d.drawPile) != [] ==>
             && c == Some(old(d.drawPile)[|old(d.drawPile)| - 1]) && d.drawPile == old(d.drawPile)[..|old(d.drawPile)| - 1]
             && d.discardPile == old(d.discardPile))
        && (old(d.drawPile) == [] && old(d.discardPile) != [] ==> d.discardPile == [])
        && (c.Some? ==>
             multiset(d.drawPile + d.discardPile) + multiset{c.value} == multiset(old(d.drawPile) + old(d.discardPile)))
        && d.removedFromGame == old(d.removedFromGame)
    {
      c := decks[kind].Draw();
    }

    /** `discard(type, card)`: the card goes onto the discard pile of `kind` only. */
    method Discard(kind: CardType, card: Card)
      requires Valid() && kind in decks
      modifies decks[kind]
      ensures forall k :: k in decks && k != kind ==> decks[k].Contents() == old(decks[k].Contents())
      ensures decks[kind].Contents() == old(decks[kind].Contents()).(discardPile := old(decks[kind].discardPile) + [card])
    {
      decks[kind].Discard(card);
    }

    /** `shuffle(type)`: the draw pile of `kind` is permuted; every other deck is untouched. */
    method Shuffle(kind: CardType)
      requires Valid() && kind in decks
      modifies decks[kind]
      ensures forall k :: k in decks && k != kind ==> decks[k].Contents() == old(decks[k].Contents())
      ensures multiset(decks[kind].drawPile) == multiset(old(decks[kind].drawPile))
      ensures decks[kind].discardPile == old(decks[kind].discardPile)
      ensures decks[kind].removedFromGame == old(decks[kind].removedFromGame)
    {
      decks[kind].ShuffleDrawPile();
    }

    /** `getCardById(type, id)`: a lookup in the database of `kind`, whatever pile the card is in. */
    function GetCardById(kind: CardType, id: string): (r: Option<Card>)
      requires kind in decks
      reads this
      ensures r.Some? <==> id in decks[kind].cardDb
      ensures r.Some? ==> r.value == decks[kind].cardDb[id]
    {
      decks[kind].GetCardById(id)
    }

    /** `getState()`: every kind mapped to that deck's id snapshot. */
    function GetState(): (r: map<CardType, DeckSnapshot>)
      reads this, decks.Values
      ensures r.Keys == decks.Keys
      ensures forall k :: k in decks ==> r[k] == SnapshotOf(decks[k].Contents())
    {
      map k | k in decks :: decks[k].GetState()
    }

    /** `getManager(type)`. */
    function GetManager(kind: CardType): (r: Deck)
      requires kind in decks
      reads this
      ensures r == decks[kind]
      ensures Valid() ==> forall k :: k in decks && k != kind ==> decks[k] != r
    {
      decks[kind]
    }

    /** `new Deck(db)` followed by `restoreFromState(snapshot)`: one deck of the restore, built aside. */
    static method BuildDeck(snapshot: DeckSnapshot, db: map<string, Card>) returns (d: Deck, r: Result<(), string>)
      ensures fresh(d) && d.cardDb == db
      ensures r.Success? <==> AllKnown(snapshot, db)
      ensures r.Success? ==> RestorePiles(snapshot, db) == Success(d.Contents())
      ensures r.Failure? ==> r.error !in db
    {
      d := new Deck(db);
      r := d.RestoreFromState(snapshot);
    }

    /**
     * The loop of `restoreFromState`: one fresh restored deck per key of
     * `dbs`, or the error of the first key whose snapshot does not resolve.
     */
    static method BuildAll(state: map<CardType, DeckSnapshot>, dbs: map<CardType, map<string, Card>>)
      returns (built: map<CardType, Deck>, r: Result<(), string>)
      requires dbs.Keys <= state.Keys
      ensures r.Success? <==> forall k :: k in dbs ==> AllKnown(state[k], dbs[k])
      ensures r.Failure? ==> exists k :: k in dbs && !AllKnown(state[k], dbs[k]) && r.error !in dbs[k]
      ensures r.Success? ==> built.Keys == dbs.Keys
      ensures r.Success? ==> forall k1, k2 :: k1 in built && k2 in built && k1 != k2 ==> built[k1] != built[k2]
      ensures r.Success? ==> forall k :: k in built ==>
        && fresh(built[k])
        && built[k].cardDb == dbs[k]
        && RestorePiles(state[k], dbs[k]) == Success(built[k].Contents())
    {
      built := map[];
      var todo := dbs.Keys;
      while todo != {}
        invariant todo <= dbs.Keys
        invariant built.Keys == dbs.Keys - todo
        invariant forall k1, k2 :: k1 in built && k2 in built && k1 != k2 ==> built[k1] != built[k2]
        invariant forall k :: k in built ==>
          && fresh(built[k])
          && built[k].cardDb == dbs[k]
          && AllKnown(state[k], dbs[k])
          && RestorePiles(state[k], dbs[k]) == Success(built[k].Contents())
        decreases todo
      {
        var k :| k in todo;
        var d, restored := BuildDeck(state[k], dbs[k]);
        if restored.Failure? {
          return built, Failure(restored.error);
        }
        built := built[k := d];
        todo := todo - {k};
      }
      r := Success(());
    }

    /**
     * `restoreFromState(state, dbs)`: build and restore one fresh deck per key of
     * `dbs`, and only then replace the registry. If any key throws, the
     * registry keeps its previous decks, whose piles are untouched.
     */
    method RestoreFromState(state: map<CardType, DeckSnapshot>, dbs: map<CardType, map<string, Card>>)
      returns (r: Result<(), string>)
      requires Valid()
      requires dbs.Keys <= state.Keys
      modifies this
      ensures Valid()
      ensures r.Success? <==> forall k :: k in dbs ==> AllKnown(state[k], dbs[k])
      ensures r.Failure? ==> decks == old(decks)
      ensures r.Failure? ==> exists k :: k in dbs && !AllKnown(state[k], dbs[k]) && r.error !in dbs[k]
      ensures r.Success? ==> decks.Keys == dbs.Keys
      ensures r.Success? ==> forall k :: k in decks ==>
        && fresh(decks[k])
        && decks[k].cardDb == dbs[k]
        && RestorePiles(state[k], dbs[k]) == Success(decks[k].Contents())
      ensures r.Success? ==> forall k :: k in dbs && WellKeyed(dbs[k]) ==> GetState()[k] == state[k]
    {
      var built;
      built, r := BuildAll(state, dbs);
      if r.Failure? {
        return;
      }
      decks := built;
      forall k | k in dbs && WellKeyed(dbs[k])
        ensures GetState()[k] == state[k]
      {
        RestoreThenSnapshot(state[k], dbs[k]);
      }
    }
  }
}
