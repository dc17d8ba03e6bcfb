/**
 * `DeckManager<T>`: the older duplicate of `Deck<T>` with the same piles and
 * the same operations, except that it declares no `getCardById` and no
 * `drawByField`.
 */
module DeckManagers {
  import opened Wrappers
  import opened Cards
  import opened Seqs
  import opened Piles

  class DeckManager {
    var drawPile: seq<Card>
    var discardPile: seq<Card>
    var removedFromGame: seq<Card>
    /** The card database this deck resolves ids through; never reassigned. */
    const cardDb: map<string, Card>

    constructor (cardDb: map<string, Card>)
      ensures this.cardDb == cardDb
      ensures drawPile == [] && discardPile == [] && removedFromGame == []
    {
      this.cardDb := cardDb;
      drawPile, discardPile, removedFromGame := [], [], [];
    }

    /** The three piles as one value. */
    function Contents(): Piles
      reads this
    {
      Piles(drawPile, discardPile, removedFromGame)
    }

    /** `initialize(cards)`: the draw pile becomes a permutation of `cards`; the other piles are emptied. */
    method Initialize(cards: seq<Card>)
      modifies this
      ensures multiset(drawPile) == multiset(cards)
      ensures discardPile == [] && removedFromGame == []
    {
      var shuffled := Shuffle(cards);
      drawPile, discardPile, removedFromGame := shuffled, [], [];
    }

    /**
     * `restoreFromState(state)`: rebuild the piles from ids. An id missing from
     * the database throws (the error carries the id) before anything is assigned.
     */
    method RestoreFromState(state: DeckSnapshot) returns (r: Result<(), string>)
      modifies this
      ensures r.Success? <==> AllKnown(state, cardDb)
      ensures r.Success? ==> RestorePiles(state, cardDb) == Success(Contents())
      ensures r.Success? && WellKeyed(cardDb) ==> GetState() == state
      ensures r.Failure? ==> RestorePiles(state, cardDb) == Failure(r.error) && r.error !in cardDb
      ensures r.Failure? ==> Contents() == old(Contents())
    {
      match RestorePiles(state, cardDb)
      case Failure(e) =>
        r := Failure(e);
      case Success(p) =>
        drawPile, discardPile, removedFromGame := p.drawPile, p.discardPile, p.removedFromGame;
        if WellKeyed(cardDb) {
          RestoreThenSnapshot(state, cardDb);
        }
        r := Success(());
    }

    /** `getState()`: the three piles as ids. */
    function GetState(): (r: DeckSnapshot)
      reads this
      ensures |r.drawPile| == |drawPile| && |r.discardPile| == |discardPile| && |r.removedFromGame| == |removedFromGame|
      ensures forall i :: 0 <= i < |drawPile| ==> r.drawPile[i] == drawPile[i].id
      ensures forall i :: 0 <= i < |discardPile| ==> r.discardPile[i] == discardPile[i].id
      ensures forall i :: 0 <= i < |removedFromGame| ==> r.removedFromGame[i] == removedFromGame[i].id
      ensures FromDb(drawPile, cardDb) && FromDb(discardPile, cardDb) && FromDb(removedFromGame, cardDb) ==>
        RestorePiles(r, cardDb) == Success(Contents())
    {
      SnapshotRestores(Contents(), cardDb);
      SnapshotOf(Contents())
    }

    /**
     * `draw()`: pop the top of the draw pile; if the draw pile is empty, first
     * move the whole discard pile into it in some shuffled order; if both are
     * empty, return None and change nothing. The removed pile is never touched.
     */
    method Draw() returns (c: Option<Card>)
      modifies this
      ensures removedFromGame == old(removedFromGame)
      ensures old(drawPile) != [] ==>
        && c == Some(old(drawPile)[|old(drawPile)| - 1])
        && drawPile == old(drawPile)[..|old(drawPile)| - 1]
        && discardPile == old(discardPile)
      ensures old(drawPile) == [] && old(discardPile) != [] ==>
        && c.Some? && discardPile == []
        && multiset(drawPile) + multiset{c.value} == multiset(old(discardPile))
      ensures old(drawPile) == [] && old(discardPile) == [] ==>
        c == None && drawPile == [] && discardPile == []
      ensures c.Some? ==>
        multiset(drawPile + discardPile) + multiset{c.value} == multiset(old(drawPile) + old(discardPile))
      ensures c.None? <==> old(drawPile) == [] && old(discardPile) == []
    {
      if |drawPile| == 0 {
        if |discardPile| == 0 {
          return None;
        }
        drawPile := Shuffle(discardPile);
        discardPile := [];
      }
      var top := drawPile[|drawPile| - 1];
      assert drawPile == drawPile[..|drawPile| - 1] + [top];
      drawPile := drawPile[..|drawPile| - 1];
      c := Some(top);
    }

    /** `shuffleDrawPile()`: the draw pile is replaced by a permutation of itself. */
    method ShuffleDrawPile()
      modifies this
      ensures multiset(drawPile) == multiset(old(drawPile))
      ensures discardPile == old(discardPile) && removedFromGame == old(removedFromGame)
    {
      drawPile := Shuffle(drawPile);
    }

    /** `discard(card)`: push onto the discard pile. */
    method Discard(card: Card)
      modifies this
      ensures discardPile == old(discardPile) + [card]
      ensures drawPile == old(drawPile) && removedFromGame == old(removedFromGame)
    {
      discardPile := discardPile + [card];
    }

    /** `removeFromGame(card)`: push onto the removed pile. */
    method RemoveFromGame(card: Card)
      modifies this
      ensures removedFromGame == old(removedFromGame) + [card]
      ensures drawPile == old(drawPile) && discardPile == old(discardPile)
    {
      removedFromGame := removedFromGame + [card];
    }

    /**
     * `drawByType(type)`: remove and return the first draw-pile card whose `type`
     * is `cardType`, keeping the others in order; None and no change when none
     * matches. Never reshuffles and never touches the other piles.
     */
    method DrawByType(cardType: string) returns (c: Option<Card>)
      modifies this
      ensures discardPile == old(discardPile) && removedFromGame == old(removedFromGame)
      ensures c.None? <==> forall j :: 0 <= j < |old(drawPile)| ==> KindName(old(drawPile)[j].kind) != cardType
      ensures c.None? ==> drawPile == old(drawPile)
      ensures c.Some? ==> exists i ::
        && 0 <= i < |old(drawPile)|
        && c.value == old(drawPile)[i]
        && KindName(c.value.kind) == cardType
        && (forall j :: 0 <= j < i ==> KindName(old(drawPile)[j].kind) != cardType)
        && drawPile == RemoveAt(old(drawPile), i)
    {
      var index := FirstMatch(drawPile, "type", cardType);
      if index == -1 {
        return None;
      }
      c := Some(drawPile[index]);
      drawPile := RemoveAt(drawPile, index);
    }

    /**
     * `peek(count = 1)` is `drawPile.slice(-count)`: for count >= 1 the top `count`
     * cards (or all of them), and, since `-0` is `0`, the whole pile for count 0.
     */
    function Peek(count: int := 1): (r: seq<Card>)
      reads this
      ensures 1 <= count ==> r == drawPile[|drawPile| - (if count < |drawPile| then count else |drawPile|)..]
      ensures count == 0 ==> r == drawPile
      ensures count < 0 ==> r == drawPile[(if -count < |drawPile| then -count else |drawPile|)..]
    {
      SliceFrom(drawPile, -count)
    }

    /** `returnToTop(card)`: push onto the draw pile. */
    method ReturnToTop(card: Card)
      modifies this
      ensures drawPile == old(drawPile) + [card]
      ensures discardPile == old(discardPile) && removedFromGame == old(removedFromGame)
    {
      drawPile := drawPile + [card];
    }

    /** `returnToBottom(card)`: unshift onto the draw pile. */
    method ReturnToBottom(card: Card)
      modifies this
      ensures drawPile == [card] + old(drawPile)
      ensures discardPile == old(discardPile) && removedFromGame == old(removedFromGame)
    {
      drawPile := [card] + drawPile;
    }
  }
}
