/**
 * Location-type classification: the same prefix-before-exact if-chain that
 * `PlayerService.resolveEncounter`, `GameService.getEncounterType` and
 * `Game.getEncounterType` each spell out.
 */
module Locations {

  datatype EncounterType = City | OtherWorld | Expedition | MysticRuins | Generic

  /** The string each classifier returns. */
  function TypeName(t: EncounterType): string
  {
    match t
    case City => "city"
    case OtherWorld => "otherWorld"
    case Expedition => "expedition"
    case MysticRuins => "mysticRuins"
    case Generic => "generic"
  }

  /** `s.startsWith(prefix)`. */
  predicate StartsWith(s: string, prefix: string)
  {
    |prefix| <= |s| && s[..|prefix|] == prefix
  }

  /**
   * Prefix "city" wins, then prefix "other"; only then the exact names
   * "expedition" and "mysticRuins"; anything else is generic.
   */
  function ClassifyLocation(loc: string): (r: EncounterType)
    ensures r == City <==> StartsWith(loc, "city")
    ensures r == OtherWorld <==> !StartsWith(loc, "city") && StartsWith(loc, "other")
    ensures r == Expedition <==> loc == "expedition"
    ensures r == MysticRuins <==> loc == "mysticRuins"
    ensures r == Generic <==>
      !StartsWith(loc, "city") && !StartsWith(loc, "other") && loc != "expedition" && loc != "mysticRuins"
  {
    assert !StartsWith("expedition", "city") && !StartsWith("expedition", "other") by {
      assert "expedition"[0] != "city"[0] && "expedition"[0] != "other"[0];
    }
    assert !StartsWith("mysticRuins", "city") && !StartsWith("mysticRuins", "other") by {
      assert "mysticRuins"[0] != "city"[0] && "mysticRuins"[0] != "other"[0];
    }
    if StartsWith(loc, "city") then City
    else if StartsWith(loc, "other") then OtherWorld
    else if loc == "expedition" then Expedition
    else if loc == "mysticRuins" then MysticRuins
    else Generic
  }

  /** Distinct types have distinct names, so the returned string identifies the class. */
  lemma TypeNameInjective(a: EncounterType, b: EncounterType)
    ensures TypeName(a) == TypeName(b) <==> a == b
  {
    if a != b {
      assert TypeName(a)[0] != TypeName(b)[0] || |TypeName(a)| != |TypeName(b)|;
    }
  }

  /** `getEncounterType(locationId)`: the class as the string the game uses. */
  function EncounterTypeName(loc: string): (r: string)
    ensures r == "city" <==> StartsWith(loc, "city")
    ensures r == "otherWorld" <==> !StartsWith(loc, "city") && StartsWith(loc, "other")
    ensures r == "expedition" <==> loc == "expedition"
    ensures r == "mysticRuins" <==> loc == "mysticRuins"
    ensures r == "generic" <==>
      !StartsWith(loc, "city") && !StartsWith(loc, "other") && loc != "expedition" && loc != "mysticRuins"
  {
    var t := ClassifyLocation(loc);
    TypeNameInjective(t, City);
    TypeNameInjective(t, OtherWorld);
    TypeNameInjective(t, Expedition);
    TypeNameInjective(t, MysticRuins);
    TypeNameInjective(t, Generic);
    TypeName(t)
  }

  /**
   * `getEncounterType(locationId)` of `GameService` and `Game`: the same
   * prefix-before-exact if-chain, returning the names directly. It agrees
   * with the classification.
   */
  function EncounterTypeOf(loc: string): (r: string)
    ensures r == EncounterTypeName(loc)
  {
    if StartsWith(loc, "city") then "city"
    else if StartsWith(loc, "other") then "otherWorld"
    else if loc == "expedition" then "expedition"
    else if loc == "mysticRuins" then "mysticRuins"
    else "generic"
  }

  /** The answer of `resolveEncounter` for an unknown player ("player not found"). */
  const PlayerNotFound: string := "Игрок не найден"

  /** The not-found answer is not the name of any encounter type. */
  lemma NotFoundIsNoTypeName(t: EncounterType)
    ensures TypeName(t) != PlayerNotFound
  {
    assert TypeName(t)[0] != PlayerNotFound[0];
  }
}
