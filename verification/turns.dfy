/** Repeated turns: the session after several calls of `NextTurn`, and the same
    walk over a scene alone. */
module Turns {
  import opened Common
  import opened Sessions

  /** The session after `k` calls of `NextTurn`. */
  function AdvanceTurns(s: GameSession, k: nat): GameSession
  {
    if k == 0 then s else NextTurn(AdvanceTurns(s, k - 1)).session
  }

  /** An action scene with distinct, non-empty participant ids, whose turn is the
      first participant's. */
  predicate RoundStart(sc: Scene) {
    && sc.sceneType == Action
    && |sc.activeCharacters| > 0
    && Distinct(sc.activeCharacters)
    && (forall i :: 0 <= i < |sc.activeCharacters| ==> sc.activeCharacters[i] != "")
    && sc.currentTurn == Some(sc.activeCharacters[0])
  }

  predicate AtFirstTurn(s: GameSession) {
    s.currentScene.Some? && RoundStart(s.currentScene.value)
  }

  /** A scene after `k` turns. */
  function Rotate(sc: Scene, k: nat): (r: Scene)
    requires |sc.activeCharacters| > 0
    ensures r.activeCharacters == sc.activeCharacters && r.sceneType == sc.sceneType
  {
    if k == 0 then sc else TurnAfter(Rotate(sc, k - 1))
  }

  lemma NextTurnMovesScene(s: GameSession)
    requires s.currentScene.Some? && s.currentScene.value.sceneType == Action
    requires |s.currentScene.value.activeCharacters| > 0
    ensures NextTurn(s).session.currentScene == Some(TurnAfter(s.currentScene.value))
  {
  }

  lemma RotateStep(sc: Scene, k: nat)
    requires |sc.activeCharacters| > 0
    ensures Rotate(sc, k + 1) == TurnAfter(Rotate(sc, k))
  {
  }

  /** One more turn of a scene whose `k - 1`-th rotation is known. */
  lemma RotateFrom(sc: Scene, k: nat, before: Scene, after: Scene)
    requires |sc.activeCharacters| > 0 && k > 0
    requires Rotate(sc, k - 1) == before && |before.activeCharacters| > 0 && TurnAfter(before) == after
    ensures Rotate(sc, k) == after
  {
    RotateStep(sc, k - 1);
  }

  /** Within a round the turn passes from the `j`-th participant to the next; from
      the last one it returns to the first and the round advances. */
  lemma TurnAfterAt(sc: Scene, j: nat)
    requires RoundStart(sc) && j < |sc.activeCharacters|
    ensures var ps := sc.activeCharacters;
            TurnAfter(sc.(currentTurn := Some(ps[j]))) ==
              if j + 1 == |ps| then sc.(roundNumber := sc.roundNumber + 1)
              else sc.(currentTurn := Some(ps[j + 1]))
  {
    TurnAfterFrom(sc.(currentTurn := Some(sc.activeCharacters[j])), j);
  }
}
