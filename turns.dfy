/**
 * The turn record, the cyclic "next player" rule, and the phase step of the
 * two turn machines that are pure functions of the turn: `GameFlow`'s, whose
 * Mythos phase never leaves Mythos, and the cycle Action, Encounter, Mythos,
 * Action shared by `GameService` and `Game`.
 */
module Turns {
  import opened Players

  datatype Phase = Action | Encounter | Mythos

  /** `Turn`: the round, the phase, the lead investigator and the investigator to act. */
  datatype Turn = Turn(round: int, phase: Phase, leadInvestigatorId: string, currentInvestigatorId: string)

  /** The turn a `GameService` or `Game` starts from, before it chooses the lead. */
  const InitialTurn: Turn := Turn(1, Action, "", "")

  /**
   * `players[(idx + 1) % players.length].id`, with `idx` the `findIndex` of `id`:
   * the player after `id` in list order, wrapping around, and the first player
   * when `id` is not in the list. As `-1 <= idx < players.length`, the
   * remainder is `idx + 1` or, past the end, 0. On an empty list the TypeScript code
   * reads `players[NaN].id` and throws, hence the precondition.
   */
  function NextPlayerId(players: seq<PlayerState>, id: string): (r: string)
    requires |players| > 0
    ensures FindPlayer(players, id) == -1 ==> r == players[0].id
    ensures FindPlayer(players, id) == |players| - 1 ==> r == players[0].id
    ensures 0 <= FindPlayer(players, id) < |players| - 1 ==> r == players[FindPlayer(players, id) + 1].id
  {
    var idx := FindPlayer(players, id);
    if idx + 1 < |players| then players[idx + 1].id else players[0].id
  }

  /** `k` successive applications of `f`, starting from `x`. */
  function Iterate(f: string -> string, x: string, k: nat): string
    decreases k
  {
    if k == 0 then x else Iterate(f, f(x), k - 1)
  }

  /** `a + b` applications are `a` applications followed by `b` more. */
  lemma {:induction false} IterateSplit(f: string -> string, x: string, a: nat, b: nat)
    ensures Iterate(f, x, a + b) == Iterate(f, Iterate(f, x, a), b)
    decreases a
  {
    if a > 0 {
      IterateSplit(f, f(x), a - 1, b);
    }
  }

  /** One `NextPlayerId` step, as a function value. */
  function Step(players: seq<PlayerState>): (f: string -> string)
    requires |players| > 0
    ensures forall id :: f(id) == NextPlayerId(players, id)
  {
    id => NextPlayerId(players, id)
  }

  /** The id reached from `id` by `k` successive `NextPlayerId` steps. */
  function Rotate(players: seq<PlayerState>, id: string, k: nat): string
    requires |players| > 0
  {
    Iterate(Step(players), id, k)
  }

  /** `a + b` steps are `a` steps followed by `b` steps. */
  lemma RotateSplit(players: seq<PlayerState>, id: string, a: nat, b: nat)
    requires |players| > 0
    ensures Rotate(players, id, a + b) == Rotate(players, Rotate(players, id, a), b)
  {
    IterateSplit(Step(players), id, a, b);
  }

  /** With distinct ids, `k` steps from the `i`-th player that stay inside the list reach the `(i + k)`-th. */
  lemma {:induction false} RotateForward(players: seq<PlayerState>, i: nat, k: nat)
    requires UniqueIds(players) && i + k < |players|
    ensures Rotate(players, players[i].id, k) == players[i + k].id
    decreases k
  {
    if k > 0 {
      FindUnique(players, i);
      assert NextPlayerId(players, players[i].id) == players[i + 1].id;
      RotateForward(players, i + 1, k - 1);
    }
  }

  /** With distinct ids, the steps from the `i`-th player past the last one wrap around to the first. */
  lemma RotateWraps(players: seq<PlayerState>, i: nat)
    requires UniqueIds(players) && i < |players|
    ensures Rotate(players, players[i].id, |players| - i) == players[0].id
  {
    var n := |players|;
    RotateSplit(players, players[i].id, n - 1 - i, 1);
    RotateForward(players, i, n - 1 - i);
    var last := players[n - 1].id;
    FindUnique(players, n - 1);
    assert NextPlayerId(players, last) == players[0].id;
    assert Rotate(players, last, 1) == Rotate(players, players[0].id, 0);
  }

  /** With distinct ids, as many steps as there are players come back to where they started. */
  lemma {:induction false} RotationReturns(players: seq<PlayerState>, i: nat)
    requires UniqueIds(players) && i < |players|
    ensures Rotate(players, players[i].id, |players|) == players[i].id
  {
    var n := |players|;
    var a: nat := n - i;
    RotateSplit(players, players[i].id, a, i);
    RotateWraps(players, i);
    RotateForward(players, 0, i);
    calc {
      Rotate(players, players[i].id, n);
      { assert n == a + i; }
      Rotate(players, players[i].id, a + i);
      Rotate(players, Rotate(players, players[i].id, a), i);
      Rotate(players, players[0].id, i);
    }
  }

  /** From an id that is not in the list the first step goes to the first player, and the walk then goes through the list in order. */
  lemma RotationFromAbsent(players: seq<PlayerState>, id: string, k: nat)
    requires UniqueIds(players) && k < |players|
    requires forall m :: 0 <= m < |players| ==> players[m].id != id
    ensures Rotate(players, id, k + 1) == players[k].id
  {
    RotateForward(players, 0, k);
  }

  // ---------------------------------------------------------------- GameFlow

  /**
   * `GameFlow.nextPhase` on the turn. Action and Encounter advance the phase
   * and hand the turn to the lead. Mythos advances the round and passes the
   * lead (and the turn) to the next player, but never sets a phase, so it
   * stays Mythos. Only the Mythos step needs a non-empty player list.
   */
  function FlowNextPhase(t: Turn, players: seq<PlayerState>): (r: Turn)
    requires t.phase == Mythos ==> |players| > 0
    ensures r.currentInvestigatorId == r.leadInvestigatorId
    ensures t.phase == Action ==> r.phase == Encounter && r.round == t.round && r.leadInvestigatorId == t.leadInvestigatorId
    ensures t.phase == Encounter ==> r.phase == Mythos && r.round == t.round && r.leadInvestigatorId == t.leadInvestigatorId
    ensures t.phase == Mythos ==>
      r.phase == Mythos && r.round == t.round + 1 && r.leadInvestigatorId == NextPlayerId(players, t.leadInvestigatorId)
  {
    match t.phase
    case Action => t.(phase := Encounter, currentInvestigatorId := t.leadInvestigatorId)
    case Encounter => t.(phase := Mythos, currentInvestigatorId := t.leadInvestigatorId)
    case Mythos =>
      var nextLead := NextPlayerId(players, t.leadInvestigatorId);
      t.(round := t.round + 1, leadInvestigatorId := nextLead, currentInvestigatorId := nextLead)
  }

  /** `k` successive `GameFlow.nextPhase` calls. */
  function FlowSteps(t: Turn, players: seq<PlayerState>, k: nat): Turn
    requires |players| > 0
    decreases k
  {
    if k == 0 then t else FlowSteps(FlowNextPhase(t, players), players, k - 1)
  }

  /**
   * Once `GameFlow` reaches Mythos it stays there: every later `nextPhase`
   * adds one round and moves the lead one player on.
   */
  lemma {:induction false} FlowStaysInMythos(t: Turn, players: seq<PlayerState>, k: nat)
    requires |players| > 0 && t.phase == Mythos
    ensures var r := FlowSteps(t, players, k);
      && r.phase == Mythos
      && r.round == t.round + k
      && r.leadInvestigatorId == Rotate(players, t.leadInvestigatorId, k)
      && (k > 0 ==> r.currentInvestigatorId == r.leadInvestigatorId)
    decreases k
  {
    if k > 0 {
      FlowStaysInMythos(FlowNextPhase(t, players), players, k - 1);
    }
  }

  /** From Action, two `GameFlow.nextPhase` calls reach Mythos, and no later call ever returns to Action. */
  lemma FlowNeverReturnsToAction(t: Turn, players: seq<PlayerState>, k: nat)
    requires |players| > 0 && t.phase == Action
    ensures FlowSteps(t, players, 2).phase == Mythos
    ensures k > 0 ==> FlowSteps(t, players, k).phase != Action
  {
    var m := FlowSteps(t, players, 2);
    if k >= 2 {
      assert FlowSteps(t, players, k) == FlowSteps(m, players, k - 2) by {
        FlowStepsSplit(t, players, 2, k - 2);
      }
      FlowStaysInMythos(m, players, k - 2);
    }
  }

  /** `a + b` steps are `a` steps followed by `b` steps. */
  lemma {:induction false} FlowStepsSplit(t: Turn, players: seq<PlayerState>, a: nat, b: nat)
    requires |players| > 0
    ensures FlowSteps(t, players, a + b) == FlowSteps(FlowSteps(t, players, a), players, b)
    decreases a
  {
    if a > 0 {
      FlowStepsSplit(FlowNextPhase(t, players), players, a - 1, b);
    }
  }

  // ---------------------------------------------------------------- GameService and Game

  /** The phase that follows `p` in the cycle Action, Encounter, Mythos. */
  function NextInCycle(p: Phase): Phase
  {
    match p
    case Action => Encounter
    case Encounter => Mythos
    case Mythos => Action
  }

  /**
   * `GameService.nextPhase` on the turn (and `Game.nextPhase` when its lead
   * rotation succeeds). Every step hands the turn to the lead. Mythos goes back to
   * Action, adds one round and passes the lead to the next player cyclically.
   */
  function CycleNextPhase(t: Turn, players: seq<PlayerState>): (r: Turn)
    requires t.phase == Mythos ==> |players| > 0
    ensures r.phase == NextInCycle(t.phase)
    ensures r.currentInvestigatorId == r.leadInvestigatorId
    ensures t.phase != Mythos ==> r.round == t.round && r.leadInvestigatorId == t.leadInvestigatorId
    ensures t.phase == Mythos ==>
      r.round == t.round + 1 && r.leadInvestigatorId == NextPlayerId(players, t.leadInvestigatorId)
  {
    match t.phase
    case Action => t.(phase := Encounter, currentInvestigatorId := t.leadInvestigatorId)
    case Encounter => t.(phase := Mythos, currentInvestigatorId := t.leadInvestigatorId)
    case Mythos =>
      var nextLead := NextPlayerId(players, t.leadInvestigatorId);
      Turn(t.round + 1, Action, nextLead, nextLead)
  }

  /** `k` successive `GameService.nextPhase` calls. */
  function CycleSteps(t: Turn, players: seq<PlayerState>, k: nat): Turn
    requires |players| > 0
    decreases k
  {
    if k == 0 then t else CycleSteps(CycleNextPhase(t, players), players, k - 1)
  }

  /**
   * Every three `GameService.nextPhase` calls from Action are one round:
   * after `3k` calls the phase is Action again, the round has grown by `k`
   * and the lead has moved `k` players on.
   */
  lemma {:induction false} CycleRounds(t: Turn, players: seq<PlayerState>, k: nat)
    requires |players| > 0 && t.phase == Action
    ensures var r := CycleSteps(t, players, 3 * k);
      && r.phase == Action
      && r.round == t.round + k
      && r.leadInvestigatorId == Rotate(players, t.leadInvestigatorId, k)
      && (k > 0 ==> r.currentInvestigatorId == r.leadInvestigatorId)
    decreases k
  {
    if k > 0 {
      var t1 := CycleNextPhase(t, players);
      var t2 := CycleNextPhase(t1, players);
      var t3 := CycleNextPhase(t2, players);
      assert CycleSteps(t, players, 3 * k) == CycleSteps(t1, players, 3 * k - 1);
      assert CycleSteps(t1, players, 3 * k - 1) == CycleSteps(t2, players, 3 * k - 2);
      assert CycleSteps(t2, players, 3 * k - 2) == CycleSteps(t3, players, 3 * (k - 1));
      CycleRounds(t3, players, k - 1);
    }
  }

  /** With distinct ids, one round per player brings the lead back to the player who started as lead. */
  lemma LeadReturnsAfterEveryoneLed(t: Turn, players: seq<PlayerState>, i: nat)
    requires UniqueIds(players) && i < |players|
    requires t.phase == Action && t.leadInvestigatorId == players[i].id
    ensures CycleSteps(t, players, 3 * |players|).leadInvestigatorId == t.leadInvestigatorId
    ensures CycleSteps(t, players, 3 * |players|).round == t.round + |players|
  {
    CycleRounds(t, players, |players|);
    RotationReturns(players, i);
  }
}
