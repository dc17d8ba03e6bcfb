/**
 * The value-level logic shared by `Deck` and its older duplicate `DeckManager`:
 * the persisted id snapshot, strict restore of ids through a card database,
 * targeted search by field, and the shuffle.
 */
module Piles {
  import opened Wrappers
  import opened Cards
  import opened Seqs
  import opened Helpers

  /** `DeckManagerState`: the three piles as id sequences. */
  datatype DeckSnapshot = DeckSnapshot(drawPile: seq<string>, discardPile: seq<string>, removedFromGame: seq<string>)

  /** The three piles as card sequences (the top of a pile is its last element). */
  datatype Piles = Piles(drawPile: seq<Card>, discardPile: seq<Card>, removedFromGame: seq<Card>)

  /** A deck with all three piles empty, as the constructor leaves it. */
  const NoCards: Piles := Piles([], [], [])

  /** One entry of a registry's constructor params: the initial cards and the card database. */
  datatype DeckParams = DeckParams(deck: seq<Card>, db: map<string, Card>)

  /** `cards.map((card) => card.id)`. */
  function Ids(cards: seq<Card>): (r: seq<string>)
    ensures |r| == |cards| && forall i :: 0 <= i < |cards| ==> r[i] == cards[i].id
  {
    seq(|cards|, i requires 0 <= i < |cards| => cards[i].id)
  }

  /** Appending a card appends its id. */
  lemma IdsAppend(cards: seq<Card>, c: Card)
    ensures Ids(cards + [c]) == Ids(cards) + [c.id]
  {
  }

  /** `getState()` of a deck holding `p`. */
  function SnapshotOf(p: Piles): DeckSnapshot
  {
    DeckSnapshot(Ids(p.drawPile), Ids(p.discardPile), Ids(p.removedFromGame))
  }

  /** Every id of `ids` is in the card database. */
  predicate Known(ids: seq<string>, db: map<string, Card>)
  {
    forall i :: 0 <= i < |ids| ==> ids[i] in db
  }

  predicate AllKnown(s: DeckSnapshot, db: map<string, Card>)
  {
    Known(s.drawPile, db) && Known(s.discardPile, db) && Known(s.removedFromGame, db)
  }

  /**
   * `resolveCards(ids, (id) => db.get(id))`: the cards of the known ids, in id
   * order, with unknown ids dropped.
   */
  function ResolveKnown(ids: seq<string>, db: map<string, Card>): (r: seq<Card>)
    ensures |r| <= |ids|
    ensures forall i :: 0 <= i < |ids| && ids[i] in db ==> db[ids[i]] in r
    ensures forall c :: c in r ==> exists i :: 0 <= i < |ids| && ids[i] in db && db[ids[i]] == c
    ensures Known(ids, db) ==> |r| == |ids| && forall i :: 0 <= i < |ids| ==> r[i] == db[ids[i]]
  {
    ResolveCards(ids, id => Lookup(db, id))
  }

  /**
   * `ids.map(get)` where `get` throws `Card not found: <id>` for an id missing
   * from the database; the error carries that id, the first missing one.
   */
  function ResolveIds(ids: seq<string>, db: map<string, Card>): (r: Result<seq<Card>, string>)
    ensures r.Success? <==> Known(ids, db)
    ensures r.Success? ==> |r.value| == |ids| && forall i :: 0 <= i < |ids| ==> r.value[i] == db[ids[i]]
    ensures r.Failure? ==>
      r.error !in db && 0 <= IndexOf(ids, r.error) && forall i :: 0 <= i < IndexOf(ids, r.error) ==> ids[i] in db
  {
    if ids == [] then Success([])
    else if ids[0] !in db then Failure(ids[0])
    else
      var rest := ResolveIds(ids[1..], db);
      assert forall i :: 1 <= i < |ids| ==> ids[i] == ids[1..][i - 1];
      match rest
      case Failure(e) =>
        assert IndexOf(ids, e) == IndexOf(ids[1..], e) + 1;
        Failure(e)
      case Success(cards) => Success([db[ids[0]]] + cards)
  }

  /**
   * The body of `restoreFromState`: the object literal resolves the draw pile,
   * then the discard pile, then the removed pile, so the first throw wins.
   */
  function RestorePiles(s: DeckSnapshot, db: map<string, Card>): (r: Result<Piles, string>)
    ensures r.Success? <==> AllKnown(s, db)
    ensures r.Failure? ==> r.error !in db
    ensures r.Failure? && !Known(s.drawPile, db) ==> r.error in s.drawPile
    ensures r.Failure? && Known(s.drawPile, db) && !Known(s.discardPile, db) ==> r.error in s.discardPile
    ensures r.Failure? && Known(s.drawPile, db) && Known(s.discardPile, db) ==> r.error in s.removedFromGame
    ensures r.Success? ==>
      && |r.value.drawPile| == |s.drawPile| && (forall i :: 0 <= i < |s.drawPile| ==> r.value.drawPile[i] == db[s.drawPile[i]])
      && |r.value.discardPile| == |s.discardPile| && (forall i :: 0 <= i < |s.discardPile| ==> r.value.discardPile[i] == db[s.discardPile[i]])
      && |r.value.removedFromGame| == |s.removedFromGame| && (forall i :: 0 <= i < |s.removedFromGame| ==> r.value.removedFromGame[i] == db[s.removedFromGame[i]])
  {
    match ResolveIds(s.drawPile, db)
    case Failure(e) => Failure(e)
    case Success(draw) =>
      match ResolveIds(s.discardPile, db)
      case Failure(e) => Failure(e)
      case Success(discard) =>
        match ResolveIds(s.removedFromGame, db)
        case Failure(e) => Failure(e)
        case Success(removed) => Success(Piles(draw, discard, removed))
  }

  /** Restoring a snapshot whose ids all resolve, then reading the state back, gives the snapshot. */
  lemma RestoreThenSnapshot(s: DeckSnapshot, db: map<string, Card>)
    requires WellKeyed(db) && AllKnown(s, db)
    ensures RestorePiles(s, db).Success? && SnapshotOf(RestorePiles(s, db).value) == s
  {
    var p := RestorePiles(s, db).value;
    assert Ids(p.drawPile) == s.drawPile;
    assert Ids(p.discardPile) == s.discardPile;
    assert Ids(p.removedFromGame) == s.removedFromGame;
  }

  /** Every card of `cards` is the database entry for its own id. */
  ghost predicate FromDb(cards: seq<Card>, db: map<string, Card>)
  {
    forall i :: 0 <= i < |cards| ==> cards[i].id in db && db[cards[i].id] == cards[i]
  }

  /** `SnapshotThenRestore` for any piles, under its condition. */
  lemma SnapshotRestores(p: Piles, db: map<string, Card>)
    ensures FromDb(p.drawPile, db) && FromDb(p.discardPile, db) && FromDb(p.removedFromGame, db) ==>
      RestorePiles(SnapshotOf(p), db) == Success(p)
  {
    if FromDb(p.drawPile, db) && FromDb(p.discardPile, db) && FromDb(p.removedFromGame, db) {
      SnapshotThenRestore(p, db);
    }
  }

  /** Snapshotting piles of database cards and restoring the snapshot gives the same piles back. */
  lemma SnapshotThenRestore(p: Piles, db: map<string, Card>)
    requires FromDb(p.drawPile, db) && FromDb(p.discardPile, db) && FromDb(p.removedFromGame, db)
    ensures RestorePiles(SnapshotOf(p), db) == Success(p)
  {
    var s := SnapshotOf(p);
    assert AllKnown(s, db);
    var q := RestorePiles(s, db).value;
    assert q.drawPile == p.drawPile;
    assert q.discardPile == p.discardPile;
    assert q.removedFromGame == p.removedFromGame;
  }

  /** Whether `c[field] === value`. */
  predicate Matches(c: Card, field: string, value: string)
  {
    Field(c, field) == Some(value)
  }

  /** `pile.findIndex((c) => c[field] === value)`. */
  function FirstMatch(pile: seq<Card>, field: string, value: string): (i: int)
    ensures -1 <= i < |pile|
    ensures i == -1 <==> forall j :: 0 <= j < |pile| ==> !Matches(pile[j], field, value)
    ensures 0 <= i ==> Matches(pile[i], field, value) && forall j :: 0 <= j < i ==> !Matches(pile[j], field, value)
  {
    FirstIndex(pile, (c: Card) => Matches(c, field, value))
  }

  /**
   * `shuffle(cards)`: some permutation of `cards`. The TypeScript code sorts with a
   * random comparator; which permutation comes out is not modelled.
   */
  method Shuffle(cards: seq<Card>) returns (r: seq<Card>)
    ensures multiset(r) == multiset(cards)
  {
    r :| multiset(r) == multiset(cards);
  }
}
