/** Properties of the turn order over many calls of `NextTurn`: with distinct
    participants, turns follow the participant list and a full pass returns to
    the first participant one round later. */
module TurnOrder {
  import opened Common
  import opened Sessions
  import opened Turns

  /** `AdvanceTurns` moves the scene of an action session exactly as `Rotate` does. */
  lemma {:induction false} AdvanceTurnsRotates(s: GameSession, k: nat)
    requires s.currentScene.Some? && s.currentScene.value.sceneType == Action
    requires |s.currentScene.value.activeCharacters| > 0
    ensures AdvanceTurns(s, k).currentScene == Some(Rotate(s.currentScene.value, k))
  {
    if k > 0 {
      AdvanceTurnsRotates(s, k - 1);
      NextTurnMovesScene(AdvanceTurns(s, k - 1));
    }
  }

  /** After `k < n` turns the `k`-th participant acts in the same round. */
  lemma {:induction false} TurnsFollowOrder(sc: Scene, k: nat)
    requires RoundStart(sc) && k < |sc.activeCharacters|
    ensures Rotate(sc, k) == sc.(currentTurn := Some(sc.activeCharacters[k]))
  {
    if k > 0 {
      TurnsFollowOrder(sc, k - 1);
      FollowStep(sc, k);
    }
  }

  /** The inductive step of `TurnsFollowOrder`. */
  lemma FollowStep(sc: Scene, k: nat)
    requires RoundStart(sc) && 0 < k < |sc.activeCharacters|
    requires Rotate(sc, k - 1) == sc.(currentTurn := Some(sc.activeCharacters[k - 1]))
    ensures Rotate(sc, k) == sc.(currentTurn := Some(sc.activeCharacters[k]))
  {
    var ps := sc.activeCharacters;
    TurnAfterAt(sc, k - 1);
    RotateFrom(sc, k, sc.(currentTurn := Some(ps[k - 1])), sc.(currentTurn := Some(ps[k])));
  }

  /** `n` turns of an `n`-participant scene starting at the first participant come
      back to it one round later. */
  lemma {:induction false} RotateFullRound(sc: Scene)
    requires RoundStart(sc)
    ensures Rotate(sc, |sc.activeCharacters|) == sc.(roundNumber := sc.roundNumber + 1)
  {
    var n := |sc.activeCharacters|;
    TurnsFollowOrder(sc, n - 1);
    RotateStep(sc, n - 1);
    TurnAfterAt(sc, n - 1);
  }

  /** `n` calls of `NextTurn` on an `n`-player action scene return the turn to the
      first participant and add exactly one round. */
  lemma {:induction false} FullRoundReturnsToFirst(s: GameSession)
    requires AtFirstTurn(s)
    ensures var sc := s.currentScene.value;
            AdvanceTurns(s, |sc.activeCharacters|).currentScene ==
              Some(sc.(roundNumber := sc.roundNumber + 1))
  {
    var sc := s.currentScene.value;
    RotateFullRound(sc);
    AdvanceTurnsRotates(s, |sc.activeCharacters|);
  }

  /** Opening an action scene over every player of a valid session, in join order,
      gives the first player the turn in round 1; a full pass of `NextTurn` then
      comes back to that player in round 2. */
  lemma ActionSceneStartsRound(s: GameSession, description: string)
    requires Valid(s) && |s.joinOrder| > 0
    requires forall i :: 0 <= i < |s.joinOrder| ==> s.joinOrder[i] != ""
    ensures AtFirstTurn(StartScene(s, Action, description, s.joinOrder))
    ensures var s' := StartScene(s, Action, description, s.joinOrder);
            AdvanceTurns(s', |s.joinOrder|).currentScene ==
              Some(NewScene(Action, description, s.joinOrder).(roundNumber := 2))
  {
    FullRoundReturnsToFirst(StartScene(s, Action, description, s.joinOrder));
  }
}
