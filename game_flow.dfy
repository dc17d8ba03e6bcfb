/**
 * `GameFlow`: the turn machine of the application layer. It reads and writes
 * the turn through a state service (here the `turn` field) and never
 * changes the player list it reads. Its structured log keys are kept as a
 * ghost sequence.
 */
module GameFlows {
  import opened Players
  import opened Turns

  const PhaseEncounterKey: string := "gameflow.phase.set.encounter"
  const PhaseMythosKey: string := "gameflow.phase.set.mythos"
  const RoundIncrementKey: string := "gameflow.round.increment"
  const NextInvestigatorKey: string := "gameFlow.nextInvestigator"
  const PassLeadKey: string := "gameFlow.passLeadInvestigator"

  /** The key `nextPhase` logs when it leaves `p`. */
  function PhaseKey(p: Phase): string
  {
    match p
    case Action => PhaseEncounterKey
    case Encounter => PhaseMythosKey
    case Mythos => RoundIncrementKey
  }

  class GameFlow {
    /** The turn held by the state service. */
    var turn: Turn
    /** The state service's players, in turn order. */
    const players: seq<PlayerState>
    ghost var log: seq<string>

    constructor (turn: Turn, players: seq<PlayerState>)
      ensures this.turn == turn && this.players == players && log == []
    {
      this.turn := turn;
      this.players := players;
      log := [];
    }

    /**
     * `nextPhase()`, one setter at a time as in the TypeScript code. The Mythos branch
     * indexes the player list, so it needs a player.
     */
    method NextPhase() returns (ok: bool)
      requires turn.phase == Mythos ==> |players| > 0
      modifies this
      ensures ok
      ensures turn == FlowNextPhase(old(turn), players)
      ensures log == old(log) + [PhaseKey(old(turn).phase)]
    {
      var t := turn;
      match t.phase {
        case Action =>
          turn := turn.(phase := Encounter);
          turn := turn.(currentInvestigatorId := t.leadInvestigatorId);
          log := log + [PhaseEncounterKey];
        case Encounter =>
          turn := turn.(phase := Mythos);
          turn := turn.(currentInvestigatorId := t.leadInvestigatorId);
          log := log + [PhaseMythosKey];
        case Mythos =>
          var newRound := t.round + 1;
          turn := turn.(round := newRound);
          var nextLead := NextPlayerId(players, t.leadInvestigatorId);
          turn := turn.(leadInvestigatorId := nextLead);
          turn := turn.(currentInvestigatorId := nextLead);
          log := log + [RoundIncrementKey];
      }
      ok := true;
    }

    /**
     * `nextInvestigator()`: the turn passes to the player after the current
     * one, cyclically; an unknown current investigator passes it to the first
     * player. An empty player list makes the TypeScript code throw.
     */
    method NextInvestigator() returns (ok: bool)
      requires |players| > 0
      modifies this
      ensures ok
      ensures turn == old(turn).(currentInvestigatorId := NextPlayerId(players, old(turn).currentInvestigatorId))
      ensures log == old(log) + [NextInvestigatorKey]
    {
      var t := turn;
      var next := NextPlayerId(players, t.currentInvestigatorId);
      turn := turn.(currentInvestigatorId := next);
      log := log + [NextInvestigatorKey];
      ok := true;
    }

    /** `passLeadInvestigator(playerId)`: only a listed player can become lead; the current investigator is kept. */
    method PassLeadInvestigator(playerId: string) returns (ok: bool)
      modifies this
      ensures ok <==> exists k :: 0 <= k < |players| && players[k].id == playerId
      ensures ok ==> turn == old(turn).(leadInvestigatorId := playerId) && log == old(log) + [PassLeadKey]
      ensures !ok ==> turn == old(turn) && log == old(log)
    {
      var player := GetById(players, playerId);
      if player.None? {
        return false;
      }
      turn := turn.(leadInvestigatorId := playerId);
      log := log + [PassLeadKey];
      ok := true;
    }

    /** `getTurn()`. */
    function GetTurn(): (r: Turn)
      reads this
      ensures r.phase == turn.phase && r.round == turn.round
      ensures r.leadInvestigatorId == turn.leadInvestigatorId && r.currentInvestigatorId == turn.currentInvestigatorId
    {
      turn
    }

    /** `setTurn(turn)`: the four setters, after which `getTurn` returns `t`. */
    method SetTurn(t: Turn) returns (ok: bool)
      modifies this
      ensures ok && GetTurn() == t
      ensures log == old(log)
    {
      turn := turn.(phase := t.phase);
      turn := turn.(round := t.round);
      turn := turn.(leadInvestigatorId := t.leadInvestigatorId);
      turn := turn.(currentInvestigatorId := t.currentInvestigatorId);
      ok := true;
    }
  }
}
