/**
 * The player record, the rules that change one record (action budget, health
 * and sanity tracks, skill modifiers), the player store with its
 * upsert-by-id `update`, and the sort by turn order. `Player` and
 * `PlayerService` apply these rules to their store.
 */
module Players {
  import opened Wrappers
  import opened Cards
  import opened Seqs
  import opened Helpers

  /** `DEFAULT_MAX_ACTIONS`. */
  const DefaultMaxActions: int := 2

  datatype DeathReason = Injury | Sanity

  /** `SkillSet`: one number per skill. */
  datatype SkillSet = SkillSet(lore: int, influence: int, observation: int, strength: int, will: int)

  /** `skills[skill]`. */
  function SkillOf(s: SkillSet, skill: Skill): int
  {
    match skill
    case Lore => s.lore
    case Influence => s.influence
    case Observation => s.observation
    case Strength => s.strength
    case Will => s.will
  }

  /** `skills[skill] = v`. */
  function WithSkill(s: SkillSet, skill: Skill, v: int): (r: SkillSet)
    ensures SkillOf(r, skill) == v
    ensures forall other :: other != skill ==> SkillOf(r, other) == SkillOf(s, other)
  {
    match skill
    case Lore => s.(lore := v)
    case Influence => s.(influence := v)
    case Observation => s.(observation := v)
    case Strength => s.(strength := v)
    case Will => s.(will := v)
  }

  /** A player record with the fields the player classes read and write. */
  datatype PlayerState = PlayerState(
    id: string,
    userId: string,
    investigatorId: string,
    isOnline: bool,
    turnOrder: int,
    health: int,
    maxHealth: int,
    sanity: int,
    maxSanity: int,
    locationId: string,
    assetIds: seq<string>,
    conditionIds: seq<string>,
    actionsTaken: seq<string>,
    clueCount: int,
    focusCount: int,
    resourceCount: int,
    isDefeated: bool,
    isEliminated: bool,
    deathReason: Option<DeathReason>,
    skillSet: SkillSet,
    skillModifiers: SkillSet)

  /** `{...player, assets, conditions}`: a player with its asset and condition cards resolved. */
  datatype PlayerCards = PlayerCards(player: PlayerState, assets: seq<Card>, conditions: seq<Card>)

  // ---------------------------------------------------------------- actions

  /** No action type occurs twice. */
  predicate NoDup(s: seq<string>)
  {
    forall i, j :: 0 <= i < j < |s| ==> s[i] != s[j]
  }

  /** `canTakeAction` for a known player: budget left and the type not used yet. */
  predicate CanTake(p: PlayerState, actionType: string, maxActions: int)
  {
    |p.actionsTaken| < maxActions && actionType !in p.actionsTaken
  }

  /** `recordAction` for a known player: push the type unless it is already there. */
  function WithAction(p: PlayerState, actionType: string): (r: PlayerState)
    ensures r == p.(actionsTaken := r.actionsTaken)
    ensures actionType in r.actionsTaken
    ensures forall a :: a in r.actionsTaken <==> a in p.actionsTaken || a == actionType
    ensures p.actionsTaken <= r.actionsTaken && |r.actionsTaken| <= |p.actionsTaken| + 1
    ensures NoDup(p.actionsTaken) ==> NoDup(r.actionsTaken)
  {
    if actionType in p.actionsTaken then p
    else p.(actionsTaken := p.actionsTaken + [actionType])
  }

  /** Every action attempted in order, each recorded only when `CanTake` allows it. */
  function TakeGuarded(p: PlayerState, attempts: seq<string>, maxActions: int): PlayerState
    decreases |attempts|
  {
    if attempts == [] then p
    else
      var next := if CanTake(p, attempts[0], maxActions) then WithAction(p, attempts[0]) else p;
      TakeGuarded(next, attempts[1..], maxActions)
  }

  /**
   * The action budget: starting from a reset record, any sequence of attempts
   * that are each checked with `canTakeAction` before `recordAction` leaves
   * at most `maxActions` distinct types, and never records one twice.
   */
  lemma {:induction false} TakeGuardedKeepsBudget(p: PlayerState, attempts: seq<string>, maxActions: int)
    requires NoDup(p.actionsTaken)
    ensures var r := TakeGuarded(p, attempts, maxActions);
      && NoDup(r.actionsTaken)
      && |r.actionsTaken| <= (if |p.actionsTaken| < maxActions then maxActions else |p.actionsTaken|)
      && r == p.(actionsTaken := r.actionsTaken)
    decreases |attempts|
  {
    if attempts != [] {
      var next := if CanTake(p, attempts[0], maxActions) then WithAction(p, attempts[0]) else p;
      TakeGuardedKeepsBudget(next, attempts[1..], maxActions);
    }
  }

  // ---------------------------------------------------------------- health and sanity

  /** The two tracks that heal and lose share. */
  datatype Track = HealthTrack | SanityTrack

  function Level(p: PlayerState, t: Track): int
  {
    match t
    case HealthTrack => p.health
    case SanityTrack => p.sanity
  }

  function MaxLevel(p: PlayerState, t: Track): int
  {
    match t
    case HealthTrack => p.maxHealth
    case SanityTrack => p.maxSanity
  }

  function WithLevel(p: PlayerState, t: Track, v: int): (r: PlayerState)
    ensures Level(r, t) == v && MaxLevel(r, t) == MaxLevel(p, t)
    ensures r == p.(health := r.health, sanity := r.sanity)
    ensures forall u :: u != t ==> Level(r, u) == Level(p, u)
  {
    match t
    case HealthTrack => p.(health := v)
    case SanityTrack => p.(sanity := v)
  }

  /** The death reason recorded when a track reaches 0: "injury" or "sanity". */
  function ReasonFor(t: Track): DeathReason
  {
    match t
    case HealthTrack => Injury
    case SanityTrack => Sanity
  }

  /** The heal and lose operations refuse a non-positive amount and a defeated player. */
  predicate Refuses(p: PlayerState, amount: int)
  {
    amount <= 0 || p.isDefeated
  }

  /** `healHealth` / `healSanity` on an accepted record: add `amount`, capped at the maximum. */
  function Heal(p: PlayerState, t: Track, amount: int): (r: PlayerState)
    ensures r == WithLevel(p, t, Level(r, t))
    ensures Level(r, t) <= MaxLevel(p, t)
    ensures Level(r, t) == Level(p, t) + amount || Level(r, t) == MaxLevel(p, t)
    ensures Level(r, t) <= Level(p, t) + amount
    ensures Level(p, t) <= MaxLevel(p, t) && 0 <= amount ==> Level(p, t) <= Level(r, t)
  {
    var raised := Level(p, t) + amount;
    WithLevel(p, t, if raised < MaxLevel(p, t) then raised else MaxLevel(p, t))
  }

  /**
   * `loseHealth` / `loseSanity` on an accepted record: subtract `amount`,
   * floored at 0; reaching 0 defeats the player with the track's reason.
   */
  function Lose(p: PlayerState, t: Track, amount: int): (r: PlayerState)
    ensures 0 <= Level(r, t)
    ensures Level(r, t) == Level(p, t) - amount || Level(r, t) == 0
    ensures Level(p, t) - amount <= Level(r, t)
    ensures 0 <= amount && 0 <= Level(p, t) ==> Level(r, t) <= Level(p, t)
    ensures Level(r, t) != 0 ==> r == WithLevel(p, t, Level(r, t))
    ensures Level(r, t) == 0 ==>
      r == WithLevel(p, t, 0).(isDefeated := true, deathReason := Some(ReasonFor(t)))
  {
    var lowered := Level(p, t) - amount;
    var q := WithLevel(p, t, if lowered > 0 then lowered else 0);
    if Level(q, t) == 0 then q.(isDefeated := true, deathReason := Some(ReasonFor(t))) else q
  }

  /** Once a loss brings a track to 0, every later heal or loss is refused. */
  lemma DefeatIsFinal(p: PlayerState, t: Track, amount: int, later: int)
    requires Level(Lose(p, t, amount), t) == 0
    ensures Refuses(Lose(p, t, amount), later)
  {
  }

  // ---------------------------------------------------------------- skills

  /** `modifySkill` on a known record: the modifier becomes clamp(old + delta, -2, 2). */
  function ModifySkill(p: PlayerState, skill: Skill, delta: int): (r: PlayerState)
    ensures r == p.(skillModifiers := r.skillModifiers)
    ensures -2 <= SkillOf(r.skillModifiers, skill) <= 2
    ensures -2 <= SkillOf(p.skillModifiers, skill) + delta <= 2 ==>
      SkillOf(r.skillModifiers, skill) == SkillOf(p.skillModifiers, skill) + delta
    ensures SkillOf(p.skillModifiers, skill) + delta < -2 ==> SkillOf(r.skillModifiers, skill) == -2
    ensures 2 < SkillOf(p.skillModifiers, skill) + delta ==> SkillOf(r.skillModifiers, skill) == 2
    ensures forall other :: other != skill ==> SkillOf(r.skillModifiers, other) == SkillOf(p.skillModifiers, other)
  {
    var v := ClampValue(SkillOf(p.skillModifiers, skill) + delta, -2, 2);
    p.(skillModifiers := WithSkill(p.skillModifiers, skill, v))
  }

  // ---------------------------------------------------------------- the store

  /** No two records share an id. */
  predicate UniqueIds(store: seq<PlayerState>)
  {
    forall i, j :: 0 <= i < j < |store| ==> store[i].id != store[j].id
  }

  /** `store.findIndex((x) => x.id === id)`. */
  function FindPlayer(store: seq<PlayerState>, id: string): (i: int)
    ensures -1 <= i < |store|
    ensures i == -1 <==> forall k :: 0 <= k < |store| ==> store[k].id != id
    ensures 0 <= i ==> store[i].id == id && forall k :: 0 <= k < i ==> store[k].id != id
  {
    FirstIndex(store, (q: PlayerState) => q.id == id)
  }

  /** `getById(id)`. */
  function GetById(store: seq<PlayerState>, id: string): (r: Option<PlayerState>)
    ensures r.Some? <==> exists k :: 0 <= k < |store| && store[k].id == id
    ensures r.Some? ==> r.value.id == id && r.value in store
  {
    var i := FindPlayer(store, id);
    if i == -1 then None else Some(store[i])
  }

  /** In a store with unique ids, the record at `k` is the one found by its id. */
  lemma FindUnique(store: seq<PlayerState>, k: int)
    requires UniqueIds(store) && 0 <= k < |store|
    ensures FindPlayer(store, store[k].id) == k
  {
  }

  /**
   * Two stores that agree on which positions hold `id` (the longer one having
   * no further match) find `id` at the same index.
   */
  lemma FindAgrees(a: seq<PlayerState>, b: seq<PlayerState>, id: string)
    requires |a| <= |b|
    requires forall k :: 0 <= k < |a| ==> (a[k].id == id <==> b[k].id == id)
    requires forall k :: |a| <= k < |b| ==> b[k].id != id
    ensures FindPlayer(b, id) == FindPlayer(a, id)
  {
    var i, j := FindPlayer(a, id), FindPlayer(b, id);
    if i == -1 {
      assert forall k :: 0 <= k < |b| ==> b[k].id != id;
    } else {
      assert b[i].id == id;
      assert j <= i;
      assert a[j].id == id;
    }
  }

  /** `update(p)`: replace the record with `p`'s id in place, or append `p`. */
  function Upsert(store: seq<PlayerState>, p: PlayerState): (r: seq<PlayerState>)
    ensures GetById(r, p.id) == Some(p)
    ensures forall id :: id != p.id ==> GetById(r, id) == GetById(store, id)
    ensures UniqueIds(store) ==> UniqueIds(r)
    ensures GetById(store, p.id).Some? ==> |r| == |store|
    ensures GetById(store, p.id).None? ==> r == store + [p]
  {
    var i := FindPlayer(store, p.id);
    if i == -1 then
      var r := store + [p];
      assert FindPlayer(r, p.id) == |store| by {
        assert r[|store|].id == p.id;
      }
      assert forall id :: id != p.id ==> FindPlayer(r, id) == FindPlayer(store, id) by {
        forall id | id != p.id {
          FindAgrees(store, r, id);
        }
      }
      r
    else
      var r := store[i := p];
      FindAgrees(store, r, p.id);
      assert forall id :: id != p.id ==> FindPlayer(r, id) == FindPlayer(store, id) by {
        forall id | id != p.id {
          FindAgrees(store, r, id);
        }
      }
      assert UniqueIds(store) ==> UniqueIds(r) by {
        if UniqueIds(store) {
          assert forall k :: 0 <= k < |store| && k != i ==> store[k].id != p.id;
        }
      }
      r
  }

  /** Storing the same record twice is storing it once. */
  lemma UpsertIdempotent(store: seq<PlayerState>, p: PlayerState)
    ensures Upsert(Upsert(store, p), p) == Upsert(store, p)
  {
    var once := Upsert(store, p);
    var i := FindPlayer(once, p.id);
    assert 0 <= i && once[i] == p;
    assert once[i := p] == once;
  }

  /** `players.forEach((p) => update(p))`. */
  function UpsertAll(store: seq<PlayerState>, ps: seq<PlayerState>): (r: seq<PlayerState>)
    ensures UniqueIds(store) ==> UniqueIds(r)
    decreases |ps|
  {
    if ps == [] then store
    else Upsert(UpsertAll(store, ps[..|ps| - 1]), ps[|ps| - 1])
  }

  /** Updating a store with a record whose id it does not hold appends the record. */
  lemma UpsertFresh(store: seq<PlayerState>, p: PlayerState)
    requires forall k :: 0 <= k < |store| ==> store[k].id != p.id
    ensures Upsert(store, p) == store + [p]
  {
    assert GetById(store, p.id).None?;
  }

  /** A list with distinct ids split before its last record: the front has distinct ids, none of them the last one's. */
  lemma UniqueInit(ps: seq<PlayerState>, init: seq<PlayerState>, last: PlayerState)
    requires UniqueIds(ps) && ps == init + [last]
    ensures UniqueIds(init)
    ensures forall k :: 0 <= k < |init| ==> init[k].id != last.id
  {
    assert forall k :: 0 <= k < |init| ==> init[k] == ps[k];
    assert ps[|init|] == last;
    forall k | 0 <= k < |init|
      ensures init[k].id != last.id
    {
      assert ps[k].id != ps[|init|].id;
    }
  }

  /** Updating an empty store with records of distinct ids stores exactly those records, in order. */
  lemma {:induction false} UpsertAllIntoEmpty(ps: seq<PlayerState>)
    requires UniqueIds(ps)
    ensures UpsertAll([], ps) == ps
    decreases |ps|
  {
    if ps != [] {
      var init, last := ps[..|ps| - 1], ps[|ps| - 1];
      assert init + [last] == ps;
      UniqueInit(ps, init, last);
      UpsertAllIntoEmpty(init);
      UpsertFresh(init, last);
    }
  }

  /** `p.actionsTaken = []` for every record. */
  function ClearActions(ps: seq<PlayerState>): (r: seq<PlayerState>)
    ensures |r| == |ps|
    ensures forall i :: 0 <= i < |ps| ==> r[i] == ps[i].(actionsTaken := [])
  {
    seq(|ps|, i requires 0 <= i < |ps| => ps[i].(actionsTaken := []))
  }

  /** Clearing actions keeps every id, so it keeps the ids distinct. */
  lemma ClearActionsKeepsIds(ps: seq<PlayerState>)
    ensures forall id :: GetById(ClearActions(ps), id).Some? <==> GetById(ps, id).Some?
    ensures UniqueIds(ps) ==> UniqueIds(ClearActions(ps))
  {
    var r := ClearActions(ps);
    forall id
      ensures GetById(r, id).Some? <==> GetById(ps, id).Some?
    {
      if GetById(ps, id).Some? {
        var k :| 0 <= k < |ps| && ps[k].id == id;
        assert r[k].id == id;
      }
      if GetById(r, id).Some? {
        var k :| 0 <= k < |r| && r[k].id == id;
        assert ps[k].id == id;
      }
    }
  }

  /** The records of `ClearActions(all[..k]) + all[k..]` carry the ids of `all`. */
  lemma PartlyClearedIds(all: seq<PlayerState>, k: int)
    requires 0 <= k <= |all|
    ensures var s := ClearActions(all[..k]) + all[k..];
      |s| == |all| && forall i :: 0 <= i < |all| ==> s[i].id == all[i].id
  {
    var s := ClearActions(all[..k]) + all[k..];
    forall i | 0 <= i < |all|
      ensures s[i].id == all[i].id
    {
      if i < k {
        assert s[i] == all[..k][i].(actionsTaken := []);
      } else {
        assert s[i] == all[k..][i - k];
      }
    }
  }

  /** In a store with distinct ids, `update` of a record whose id sits at `k` replaces position `k`. */
  lemma UpsertAt(s: seq<PlayerState>, k: int, c: PlayerState)
    requires UniqueIds(s) && 0 <= k < |s| && c.id == s[k].id
    ensures Upsert(s, c) == s[k := c]
  {
    FindUnique(s, k);
  }

  /** Clearing position `k` of the partly cleared list extends the cleared prefix by one. */
  lemma ClearOneMore(all: seq<PlayerState>, k: int)
    requires 0 <= k < |all|
    ensures (ClearActions(all[..k]) + all[k..])[k := all[k].(actionsTaken := [])]
      == ClearActions(all[..k + 1]) + all[k + 1..]
  {
    var c := all[k].(actionsTaken := []);
    var s := ClearActions(all[..k]) + all[k..];
    var t := ClearActions(all[..k + 1]) + all[k + 1..];
    assert ClearActions(all[..k + 1]) == ClearActions(all[..k]) + [c];
    assert all[k..] == [all[k]] + all[k + 1..];
    assert s == ClearActions(all[..k]) + [all[k]] + all[k + 1..];
    assert t == ClearActions(all[..k]) + [c] + all[k + 1..];
  }

  /**
   * One step of `resetActions`: with distinct ids, updating the record at `k`
   * with its cleared copy replaces it in place.
   */
  lemma ResetStep(all: seq<PlayerState>, k: int)
    requires UniqueIds(all) && 0 <= k < |all|
    ensures Upsert(ClearActions(all[..k]) + all[k..], all[k].(actionsTaken := []))
      == ClearActions(all[..k + 1]) + all[k + 1..]
  {
    var s := ClearActions(all[..k]) + all[k..];
    PartlyClearedIds(all, k);
    assert UniqueIds(s);
    UpsertAt(s, k, all[k].(actionsTaken := []));
    ClearOneMore(all, k);
  }

  // ---------------------------------------------------------------- turn order

  predicate SortedByTurnOrder(ps: seq<PlayerState>)
  {
    forall i, j :: 0 <= i < j < |ps| ==> ps[i].turnOrder <= ps[j].turnOrder
  }

  /** Insert `x` into a sorted list, before the first record that does not precede it. */
  function InsertByTurnOrder(x: PlayerState, s: seq<PlayerState>): (r: seq<PlayerState>)
    requires SortedByTurnOrder(s)
    ensures SortedByTurnOrder(r)
    ensures multiset(r) == multiset(s) + multiset{x}
  {
    if s == [] then [x]
    else if x.turnOrder <= s[0].turnOrder then [x] + s
    else
      var rest := InsertByTurnOrder(x, s[1..]);
      HeadPrecedes(s[0], x, s[1..], rest);
      assert s == [s[0]] + s[1..];
      [s[0]] + rest
  }

  /**
   * The inductive step of the insertion: a head that precedes `x` and the
   * whole tail also precedes every record of the tail with `x` inserted.
   */
  lemma HeadPrecedes(head: PlayerState, x: PlayerState, tail: seq<PlayerState>, rest: seq<PlayerState>)
    requires head.turnOrder < x.turnOrder
    requires SortedByTurnOrder([head] + tail)
    requires SortedByTurnOrder(rest) && multiset(rest) == multiset(tail) + multiset{x}
    ensures SortedByTurnOrder([head] + rest)
  {
    forall k | 0 <= k < |rest|
      ensures head.turnOrder <= rest[k].turnOrder
    {
      assert rest[k] in multiset(rest);
      if rest[k] != x {
        assert rest[k] in multiset(tail);
        var m :| 0 <= m < |tail| && tail[m] == rest[k];
        assert ([head] + tail)[0] == head && ([head] + tail)[m + 1] == tail[m];
      }
    }
    assert forall i :: 0 < i < |[head] + rest| ==> ([head] + rest)[i] == rest[i - 1];
  }

  /** `slice().sort((a, b) => a.turnOrder - b.turnOrder)`: the same records, ascending by turnOrder. */
  function SortByTurnOrder(ps: seq<PlayerState>): (r: seq<PlayerState>)
    ensures SortedByTurnOrder(r)
    ensures multiset(r) == multiset(ps)
  {
    if ps == [] then []
    else
      var rest := SortByTurnOrder(ps[1..]);
      assert ps == [ps[0]] + ps[1..];
      InsertByTurnOrder(ps[0], rest)
  }

  /** A store with distinct ids holds each record at most once. */
  lemma {:induction false} UniqueIdsCountsOne(s: seq<PlayerState>, x: PlayerState)
    requires UniqueIds(s)
    ensures multiset(s)[x] <= 1
    decreases |s|
  {
    if s != [] {
      assert s == [s[0]] + s[1..];
      assert UniqueIds(s[1..]);
      UniqueIdsCountsOne(s[1..], x);
      if s[0] == x {
        assert x !in s[1..];
      }
    }
  }

  /** A permutation of a store with distinct ids has distinct ids. */
  lemma PermutationKeepsUniqueIds(a: seq<PlayerState>, b: seq<PlayerState>)
    requires multiset(a) == multiset(b) && UniqueIds(b)
    ensures UniqueIds(a)
  {
    forall i, j | 0 <= i < j < |a|
      ensures a[i].id != a[j].id
    {
      if a[i] == a[j] {
        assert a == a[..j] + [a[j]] + a[j + 1..];
        assert a[i] in a[..j];
        assert multiset(a)[a[j]] >= 2;
        UniqueIdsCountsOne(b, a[j]);
      } else {
        assert a[i] in multiset(b) && a[j] in multiset(b);
        var k1 :| 0 <= k1 < |b| && b[k1] == a[i];
        var k2 :| 0 <= k2 < |b| && b[k2] == a[j];
        assert k1 != k2;
      }
    }
  }

  /** The records `initialize` stores: sorted by turnOrder, with no actions taken. */
  function Prepared(initial: seq<PlayerState>): seq<PlayerState>
  {
    ClearActions(SortByTurnOrder(initial))
  }

  /**
   * `initialize` into an empty store, with distinct ids, stores every given
   * player exactly once, ascending by turnOrder, with an empty action list.
   */
  lemma InitializeIntoEmpty(initial: seq<PlayerState>)
    requires UniqueIds(initial)
    ensures var r := UpsertAll([], Prepared(initial));
      && |r| == |initial|
      && SortedByTurnOrder(r)
      && (forall i :: 0 <= i < |r| ==> r[i].actionsTaken == [])
      && multiset(r) == multiset(ClearActions(initial))
  {
    var sorted := SortByTurnOrder(initial);
    PermutationKeepsUniqueIds(sorted, initial);
    ClearActionsKeepsIds(sorted);
    UpsertAllIntoEmpty(ClearActions(sorted));
    assert |sorted| == |initial| by {
      assert |multiset(sorted)| == |multiset(initial)|;
    }
    ClearActionsKeepsSorted(sorted);
    SortCommutesWithClear(initial);
  }

  /** Clearing actions keeps every turnOrder, so it keeps a list sorted. */
  lemma ClearActionsKeepsSorted(ps: seq<PlayerState>)
    requires SortedByTurnOrder(ps)
    ensures SortedByTurnOrder(ClearActions(ps))
  {
  }

  /** Clearing the actions of a list with a head record clears the head and then the rest. */
  lemma ClearCons(x: PlayerState, s: seq<PlayerState>)
    ensures ClearActions([x] + s) == [x.(actionsTaken := [])] + ClearActions(s)
  {
    var l, r := ClearActions([x] + s), [x.(actionsTaken := [])] + ClearActions(s);
    assert |l| == |r|;
    forall i | 0 <= i < |l|
      ensures l[i] == r[i]
    {
      if i > 0 {
        assert ([x] + s)[i] == s[i - 1];
      }
    }
  }

  /** Inserting and then clearing actions is clearing and then inserting. */
  lemma {:induction false} InsertCommutesWithClear(x: PlayerState, s: seq<PlayerState>)
    requires SortedByTurnOrder(s)
    ensures SortedByTurnOrder(ClearActions(s))
    ensures ClearActions(InsertByTurnOrder(x, s)) == InsertByTurnOrder(x.(actionsTaken := []), ClearActions(s))
    decreases |s|
  {
    ClearActionsKeepsSorted(s);
    var cx := x.(actionsTaken := []);
    if s == [] {
      assert ClearActions([x]) == [cx];
    } else if x.turnOrder <= s[0].turnOrder {
      ClearCons(x, s);
    } else {
      var tail := s[1..];
      assert s == [s[0]] + tail;
      assert SortedByTurnOrder(tail);
      InsertCommutesWithClear(x, tail);
      ClearCons(s[0], tail);
      var cs := ClearActions(s);
      assert cs[1..] == ClearActions(tail);
      var rest := InsertByTurnOrder(x, tail);
      assert InsertByTurnOrder(x, s) == [s[0]] + rest;
      ClearCons(s[0], rest);
      assert InsertByTurnOrder(cx, cs) == [cs[0]] + InsertByTurnOrder(cx, cs[1..]);
    }
  }

  /** Sorting and then clearing actions is clearing and then sorting. */
  lemma {:induction false} SortCommutesWithClear(ps: seq<PlayerState>)
    ensures ClearActions(SortByTurnOrder(ps)) == SortByTurnOrder(ClearActions(ps))
    decreases |ps|
  {
    if ps != [] {
      var tail := ps[1..];
      assert ps == [ps[0]] + tail;
      SortCommutesWithClear(tail);
      InsertCommutesWithClear(ps[0], SortByTurnOrder(tail));
      ClearCons(ps[0], tail);
      var cs := ClearActions(ps);
      assert cs[1..] == ClearActions(tail);
      assert SortByTurnOrder(cs) == InsertByTurnOrder(cs[0], SortByTurnOrder(cs[1..]));
    }
  }

  // ---------------------------------------------------------------- store transitions

  /** The result of a store operation that answers true or false. */
  datatype Outcome = Outcome(ok: bool, store: seq<PlayerState>)

  /** `canTakeAction(playerId, actionType)`: false for an unknown player. */
  predicate CanTakeIn(store: seq<PlayerState>, id: string, actionType: string, maxActions: int)
  {
    GetById(store, id).Some? && CanTake(GetById(store, id).value, actionType, maxActions)
  }

  /** `recordAction(playerId, actionType)`: a no-op for an unknown player or a type already taken. */
  function RecordIn(store: seq<PlayerState>, id: string, actionType: string): (r: seq<PlayerState>)
    ensures forall other :: other != id ==> GetById(r, other) == GetById(store, other)
    ensures GetById(store, id).None? ==> r == store
    ensures GetById(store, id).Some? ==> GetById(r, id) == Some(WithAction(GetById(store, id).value, actionType))
    ensures UniqueIds(store) ==> UniqueIds(r)
  {
    match GetById(store, id)
    case None => store
    case Some(p) => if actionType in p.actionsTaken then store else Upsert(store, WithAction(p, actionType))
  }

  /** `move(playerId, locationId)`: allowed only when "move" may be taken; then relocate and record it. */
  function MoveIn(store: seq<PlayerState>, id: string, locationId: string, maxActions: int): (r: Outcome)
    ensures r.ok <==> CanTakeIn(store, id, "move", maxActions)
    ensures !r.ok ==> r.store == store
    ensures r.ok ==> GetById(r.store, id) == Some(WithAction(GetById(store, id).value.(locationId := locationId), "move"))
    ensures forall other :: other != id ==> GetById(r.store, other) == GetById(store, other)
    ensures UniqueIds(store) ==> UniqueIds(r.store)
  {
    if !CanTakeIn(store, id, "move", maxActions) then Outcome(false, store)
    else
      var p := GetById(store, id).value;
      Outcome(true, Upsert(store, WithAction(p.(locationId := locationId), "move")))
  }

  /** Heal on one track: refused for an unknown player, a non-positive amount or a defeated player. */
  function HealIn(store: seq<PlayerState>, id: string, t: Track, amount: int): (r: Outcome)
    ensures r.ok <==> GetById(store, id).Some? && !Refuses(GetById(store, id).value, amount)
    ensures !r.ok ==> r.store == store
    ensures r.ok ==> GetById(r.store, id) == Some(Heal(GetById(store, id).value, t, amount))
    ensures forall other :: other != id ==> GetById(r.store, other) == GetById(store, other)
    ensures UniqueIds(store) ==> UniqueIds(r.store)
  {
    match GetById(store, id)
    case None => Outcome(false, store)
    case Some(p) => if Refuses(p, amount) then Outcome(false, store) else Outcome(true, Upsert(store, Heal(p, t, amount)))
  }

  /** Loss on one track: refused like a heal; otherwise floored at 0, which defeats the player. */
  function LoseIn(store: seq<PlayerState>, id: string, t: Track, amount: int): (r: Outcome)
    ensures r.ok <==> GetById(store, id).Some? && !Refuses(GetById(store, id).value, amount)
    ensures !r.ok ==> r.store == store
    ensures r.ok ==> GetById(r.store, id) == Some(Lose(GetById(store, id).value, t, amount))
    ensures forall other :: other != id ==> GetById(r.store, other) == GetById(store, other)
    ensures UniqueIds(store) ==> UniqueIds(r.store)
  {
    match GetById(store, id)
    case None => Outcome(false, store)
    case Some(p) => if Refuses(p, amount) then Outcome(false, store) else Outcome(true, Upsert(store, Lose(p, t, amount)))
  }

  /** `modifySkill(playerId, skill, value)`: false for an unknown player. */
  function ModifySkillIn(store: seq<PlayerState>, id: string, skill: Skill, delta: int): (r: Outcome)
    ensures r.ok <==> GetById(store, id).Some?
    ensures !r.ok ==> r.store == store
    ensures r.ok ==> GetById(r.store, id) == Some(ModifySkill(GetById(store, id).value, skill, delta))
    ensures forall other :: other != id ==> GetById(r.store, other) == GetById(store, other)
    ensures UniqueIds(store) ==> UniqueIds(r.store)
  {
    match GetById(store, id)
    case None => Outcome(false, store)
    case Some(p) => Outcome(true, Upsert(store, ModifySkill(p, skill, delta)))
  }
}
