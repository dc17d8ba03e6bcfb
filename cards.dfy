/**
 * Card reference data: the card kinds, the common card fields the engine
 * reads, and the encounter effect trees an encounter card carries.
 */
module Cards {
  import opened Wrappers

  /** The keys of the card map: one deck per kind. */
  datatype CardType = AssetCard | SpellCard | ConditionCard | GateCard | ClueCard | EncounterCard

  /** The five skills of an investigator. */
  datatype Skill = Lore | Influence | Observation | Strength | Will

  /** One leaf of an encounter effect tree (declared only; never executed by the core). */
  datatype Effect =
    | TakeAssetFromReserve(assetTag: string)
    | TakeRandomAsset
    | PlaceClue(count: int)
    | ImproveSkill(skill: Skill, amount: int)
    | TakeSpell
    | TakeArtifact
    | MoveToAdjacentLocation
    | LoseHealth(amount: int)
    | LoseSanity(amount: int)
    | HealHealth(amount: int)
    | HealSanity(amount: int)
    | AddCondition(conditionType: string)

  datatype EffectMode = OneOf | AnyOf

  /** `{type: "oneOf" | "anyOf", effects}`. */
  datatype EncounterEffect = EncounterEffect(mode: EffectMode, effects: seq<Effect>)

  /**
   * Immutable card data. Fields that only some kinds carry are optional:
   * `location`/`color` (gates, clues), `locationType` and the two effect trees
   * (encounters).
   */
  datatype Card = Card(
    id: string,
    name: string,
    kind: CardType,
    location: Option<string>,
    color: Option<string>,
    locationType: Option<string>,
    successEffects: Option<EncounterEffect>,
    failureEffects: Option<EncounterEffect>)

  /** The string value of the `type` field. */
  function KindName(k: CardType): string
  {
    match k
    case AssetCard => "asset"
    case SpellCard => "spell"
    case ConditionCard => "condition"
    case GateCard => "gate"
    case ClueCard => "clue"
    case EncounterCard => "encounter"
  }

  /** `card[field]` for the string-valued fields; None where the card has no such field. */
  function Field(c: Card, field: string): Option<string>
  {
    if field == "id" then Some(c.id)
    else if field == "name" then Some(c.name)
    else if field == "type" then Some(KindName(c.kind))
    else if field == "location" then c.location
    else if field == "color" then c.color
    else if field == "locationType" then c.locationType
    else None
  }

  /** `cardDb.get(id)`. */
  function Lookup(db: map<string, Card>, id: string): Option<Card>
  {
    if id in db then Some(db[id]) else None
  }

  /** A card database whose every entry is stored under its own id. */
  ghost predicate WellKeyed(db: map<string, Card>)
  {
    forall id :: id in db ==> db[id].id == id
  }
}
