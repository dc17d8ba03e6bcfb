/**
 * `AllDecksManager`: the older registry with exactly three `DeckManager`s
 * (asset, spell, condition). Its restore swaps in three fresh empty managers
 * first and then restores them one after another, so a failure part-way
 * leaves the earlier managers restored and the later ones empty.
 */
module AllDeckManagers {
  import opened Wrappers
  import opened Cards
  import opened Piles
  import opened DeckManagers

  /** The `{asset, spell, condition}` shape of a snapshot or of the databases. */
  datatype Triple<T> = Triple(asset: T, spell: T, condition: T)

  /** The kinds this registry manages; any other key is ignored or has no manager. */
  predicate IsManaged(kind: CardType)
  {
    kind == AssetCard || kind == SpellCard || kind == ConditionCard
  }

  class AllDecksManager {
    var asset: DeckManager
    var spell: DeckManager
    var condition: DeckManager

    /** The three managers are distinct objects. */
    ghost predicate Valid()
      reads this
    {
      asset != spell && asset != condition && spell != condition
    }

    /** `this.decks[type]`. */
    function Manager(kind: CardType): DeckManager
      requires IsManaged(kind)
      reads this
    {
      match kind
      case AssetCard => asset
      case SpellCard => spell
      case ConditionCard => condition
    }

    /**
     * Builds the asset, spell and condition managers from their params and
     * initializes each; other keys of `params` (gate, clue, ...) are ignored.
     */
    constructor (params: map<CardType, DeckParams>)
      requires AssetCard in params && SpellCard in params && ConditionCard in params
      ensures Valid() && fresh(asset) && fresh(spell) && fresh(condition)
      ensures forall kind :: IsManaged(kind) ==>
        && Manager(kind).cardDb == params[kind].db
        && multiset(Manager(kind).drawPile) == multiset(params[kind].deck)
        && Manager(kind).discardPile == [] && Manager(kind).removedFromGame == []
    {
      var a := new DeckManager(params[AssetCard].db);
      var s := new DeckManager(params[SpellCard].db);
      var c := new DeckManager(params[ConditionCard].db);
      a.Initialize(params[AssetCard].deck);
      s.Initialize(params[SpellCard].deck);
      c.Initialize(params[ConditionCard].deck);
      asset, spell, condition := a, s, c;
    }

    /** `draw(type)`: delegated to that kind's manager; the other two are untouched. */
    method Draw(kind: CardType) returns (c: Option<Card>)
      requires Valid() && IsManaged(kind)
      modifies Manager(kind)
      ensures forall k :: IsManaged(k) && k != kind ==> Manager(k).Contents() == old(Manager(k).Contents())
      ensures var d := Manager(kind);
        && (c.None? <==> old(d.drawPile) == [] && old(d.discardPile) == [])
        && (c.None? ==> d.Contents() == old(d.Contents()))
        && (old(d.drawPile) != [] ==>
             && c == Some(old(d.drawPile)[|old(d.drawPile)| - 1]) && d.drawPile == old(d.drawPile)[..|old(d.drawPile)| - 1]
             && d.discardPile == old(d.discardPile))
        && (old(d.drawPile) == [] && old(d.discardPile) != [] ==> d.discardPile == [])
        && (c.Some? ==>
             multiset(d.drawPile + d.discardPile) + multiset{c.value} == multiset(old(d.drawPile) + old(d.discardPile)))
        && d.removedFromGame == old(d.removedFromGame)
    {
      c := Manager(kind).Draw();
    }

    /** `discard(type, card)`: onto that kind's discard pile only. */
    method Discard(kind: CardType, card: Card)
      requires Valid() && IsManaged(kind)
      modifies Manager(kind)
      ensures forall k :: IsManaged(k) && k != kind ==> Manager(k).Contents() == old(Manager(k).Contents())
      ensures Manager(kind).Contents() == old(Manager(kind).Contents()).(discardPile := old(Manager(kind).discardPile) + [card])
    {
      Manager(kind).Discard(card);
    }

    /** `shuffle(type)`: that kind's draw pile is permuted; the other two are untouched. */
    method Shuffle(kind: CardType)
      requires Valid() && IsManaged(kind)
      modifies Manager(kind)
      ensures forall k :: IsManaged(k) && k != kind ==> Manager(k).Contents() == old(Manager(k).Contents())
      ensures multiset(Manager(kind).drawPile) == multiset(old(Manager(kind).drawPile))
      ensures Manager(kind).discardPile == old(Manager(kind).discardPile)
      ensures Manager(kind).removedFromGame == old(Manager(kind).removedFromGame)
    {
      Manager(kind).ShuffleDrawPile();
    }

    /** `getState()`: exactly the three id snapshots. */
    function GetState(): (r: Triple<DeckSnapshot>)
      reads this, asset, spell, condition
      ensures forall kind :: IsManaged(kind) ==> Pick(r, kind) == SnapshotOf(Manager(kind).Contents())
    {
      Triple(asset.GetState(), spell.GetState(), condition.GetState())
    }

    /** `getCardById(type, id)`: a lookup in that kind's card database. */
    function GetCardById(kind: CardType, id: string): (r: Option<Card>)
      requires IsManaged(kind)
      reads this
      ensures r.Some? <==> id in Manager(kind).cardDb
      ensures r.Some? ==> r.value == Manager(kind).cardDb[id]
    {
      Lookup(Manager(kind).cardDb, id)
    }

    /**
     * `restoreFromState(state, dbs)`: three fresh empty managers replace the old
     * ones, then asset, spell and condition are restored in that order; the
     * first missing id throws and the remaining managers stay empty.
     */
    method RestoreFromState(state: Triple<DeckSnapshot>, dbs: Triple<map<string, Card>>)
      returns (r: Result<(), string>)
      modifies this
      ensures Valid() && fresh(asset) && fresh(spell) && fresh(condition)
      ensures asset.cardDb == dbs.asset && spell.cardDb == dbs.spell && condition.cardDb == dbs.condition
      ensures r.Success? <==>
        AllKnown(state.asset, dbs.asset) && AllKnown(state.spell, dbs.spell) && AllKnown(state.condition, dbs.condition)
      // asset
      ensures AllKnown(state.asset, dbs.asset) ==> RestorePiles(state.asset, dbs.asset) == Success(asset.Contents())
      ensures !AllKnown(state.asset, dbs.asset) ==> asset.Contents() == NoCards && r.error !in dbs.asset
      // spell, only reached when asset succeeded
      ensures AllKnown(state.asset, dbs.asset) && AllKnown(state.spell, dbs.spell) ==>
        RestorePiles(state.spell, dbs.spell) == Success(spell.Contents())
      ensures !(AllKnown(state.asset, dbs.asset) && AllKnown(state.spell, dbs.spell)) ==> spell.Contents() == NoCards
      ensures AllKnown(state.asset, dbs.asset) && !AllKnown(state.spell, dbs.spell) ==> r.error !in dbs.spell
      // condition, only reached when asset and spell succeeded
      ensures r.Success? ==> RestorePiles(state.condition, dbs.condition) == Success(condition.Contents())
      ensures r.Failure? ==> condition.Contents() == NoCards
      ensures AllKnown(state.asset, dbs.asset) && AllKnown(state.spell, dbs.spell) && !AllKnown(state.condition, dbs.condition) ==>
        r.error !in dbs.condition
      ensures r.Success? && WellKeyed(dbs.asset) && WellKeyed(dbs.spell) && WellKeyed(dbs.condition) ==>
        GetState() == state
    {
      var a := new DeckManager(dbs.asset);
      var s := new DeckManager(dbs.spell);
      var c := new DeckManager(dbs.condition);
      asset, spell, condition := a, s, c;
      var restored := a.RestoreFromState(state.asset);
      if restored.Failure? {
        return Failure(restored.error);
      }
      restored := s.RestoreFromState(state.spell);
      if restored.Failure? {
        return Failure(restored.error);
      }
      restored := c.RestoreFromState(state.condition);
      if restored.Failure? {
        return Failure(restored.error);
      }
      r := Success(());
    }
  }

  /** The component of a triple for a managed kind. */
  function Pick<T>(t: Triple<T>, kind: CardType): T
    requires IsManaged(kind)
  {
    match kind
    case AssetCard => t.asset
    case SpellCard => t.spell
    case ConditionCard => t.condition
  }
}
