/** A game session: the players and their characters in join order, the
    current scene with its action-scene turn order, the shared Hope and Fear
    pools, and the append-only event and story logs. Each operation maps the old
    session to the new one and reports what the source returns. */
module Sessions {
  import opened Common
  import opened Mechanics
  import opened Characters

  type PlayerId = string
  type SessionId = string

  /** A session holds at most this many characters. */
  const MaxPlayers := 6
  /** The description of the scene a session opens with. */
  const OpeningSceneDescription := "Начало приключения"

  datatype SessionState = Waiting | Active | Paused | Completed

  datatype SceneType = Exploration | Social | Action | Rest

  datatype Scene = Scene(
    sceneType: SceneType, description: string, activeCharacters: seq<PlayerId>,
    roundNumber: int, currentTurn: Option<PlayerId>, sceneHope: int, sceneFear: int)

  datatype HealReport = HealReport(oldHp: int, newHp: int, healing: int)

  /** What an event records; the constructor is the event's type tag and the fields
      are what its description mentions. */
  datatype EventBody =
    | PlayerJoined(name: string)
    | PlayerLeft(name: string)
    | SessionStarted
    | SceneStarted(description: string)
    | SceneEnded(description: string)
    | TurnStarted(name: string)
    | DiceRolled(name: string, traitName: string, roll: ActionReport)
    | DamageDealt(name: string, source: string, damage: DamageReport)
    | CharacterDying(name: string)
    | Healed(name: string, source: string, healing: HealReport)
    | Story(text: string)
    | HopeSpent(amount: int)
    | FearSpent(amount: int)

  datatype GameEvent = GameEvent(characterId: Option<PlayerId>, body: EventBody)

  datatype GameSession = GameSession(
    sessionId: SessionId, gmId: string, sessionName: string,
    state: SessionState,
    createdAt: int, startedAt: Option<int>, completedAt: Option<int>,
    characters: map<PlayerId, Character>,
    joinOrder: seq<PlayerId>,
    currentScene: Option<Scene>,
    globalHope: int, globalFear: int,
    events: seq<GameEvent>,
    storyLog: seq<string>)

  /** The result of an operation: the session after it and what it returns. */
  datatype Step<T> = Step(session: GameSession, out: T)

  /** A reply that is either a value or the "character not found" error. */
  datatype Reply<T> = Found(value: T) | CharacterNotFound

  predicate Distinct<T(==)>(xs: seq<T>) {
    forall i, j :: 0 <= i < j < |xs| ==> xs[i] != xs[j]
  }

  /** The current turn, when set, belongs to a participant; only action scenes
      count rounds (from 1) and carry a turn. */
  predicate SceneValid(sc: Scene) {
    && (sc.currentTurn.Some? ==> sc.currentTurn.value in sc.activeCharacters)
    && (sc.sceneType == Action ==> sc.roundNumber >= 1)
    && (sc.sceneType != Action ==> sc.roundNumber == 0 && sc.currentTurn.None?)
  }

  /** The session invariant: the join order lists every player exactly once, there
      are at most six players, both pools are non-negative and the scene is valid. */
  predicate Valid(s: GameSession) {
    && Distinct(s.joinOrder)
    && (forall p :: p in s.characters ==> p in s.joinOrder)
    && (forall i :: 0 <= i < |s.joinOrder| ==> s.joinOrder[i] in s.characters)
    && |s.joinOrder| <= MaxPlayers
    && s.globalHope >= 0 && s.globalFear >= 0
    && (s.currentScene.Some? ==> SceneValid(s.currentScene.value))
  }

  lemma {:induction false} DistinctCount<T>(xs: seq<T>)
    requires Distinct(xs)
    ensures |set x | x in xs| == |xs|
  {
    if |xs| > 0 {
      var rest := xs[1..];
      assert Distinct(rest) by {
        forall i, j | 0 <= i < j < |rest| ensures rest[i] != rest[j] {
          assert rest[i] == xs[i + 1] && rest[j] == xs[j + 1];
        }
      }
      DistinctCount(rest);
      assert (set x | x in xs) == (set x | x in rest) + {xs[0]};
      assert xs[0] !in (set x | x in rest) by {
        forall i | 0 <= i < |rest| ensures rest[i] != xs[0] {
          assert rest[i] == xs[i + 1];
        }
      }
    }
  }

  /** Under the invariant the number of players is the length of the join order. */
  lemma PlayerCount(s: GameSession)
    ensures Valid(s) ==> |s.characters| == |s.joinOrder|
  {
    if Valid(s) {
      DistinctCount(s.joinOrder);
      assert s.characters.Keys == set x | x in s.joinOrder;
    }
  }

  /** A fresh session: waiting, empty, with both pools at zero; an empty name
      becomes "Сессия" and the first eight characters of the id. */
  function NewSession(sessionId: SessionId, gmId: string, sessionName: string, now: int): (s: GameSession)
    ensures Valid(s) && s.state == Waiting && s.characters == map[] && s.joinOrder == []
    ensures s.currentScene == None && s.globalHope == 0 && s.globalFear == 0
    ensures s.events == [] && s.storyLog == [] && s.createdAt == now
    ensures sessionName != "" ==> s.sessionName == sessionName
    ensures sessionName == "" ==>
      && |s.sessionName| == |"Сессия "| + Min(8, |sessionId|)
      && s.sessionName[..|"Сессия "|] == "Сессия "
      && s.sessionName[|"Сессия "|..] <= sessionId
  {
    var name := if sessionName != "" then sessionName else "Сессия " + sessionId[..Min(8, |sessionId|)];
    GameSession(sessionId, gmId, name, Waiting, now, None, None, map[], [], None, 0, 0, [], [])
  }

  /** Records one event: the log grows by exactly that event at its end, earlier
      events stay as they were, and nothing else in the session changes. */
  function Log(s: GameSession, characterId: Option<PlayerId>, body: EventBody): (s': GameSession)
    ensures |s'.events| == |s.events| + 1 && s'.events[..|s.events|] == s.events
    ensures s'.events[|s.events|] == GameEvent(characterId, body)
    ensures s' == s.(events := s'.events)
  {
    s.(events := s.events + [GameEvent(characterId, body)])
  }

  // ---------------------------------------------------------------------------
  // Players

  function AddPlayer(s: GameSession, playerId: PlayerId, c: Character): (r: Step<bool>)
    ensures r.out <==> |s.characters| < MaxPlayers && playerId !in s.characters
    ensures !r.out ==> r.session == s
    ensures r.out ==> r.session == s.(characters := s.characters[playerId := c],
                                      joinOrder := s.joinOrder + [playerId],
                                      events := s.events + [GameEvent(None, PlayerJoined(c.name))])
    ensures Valid(s) ==> Valid(r.session) && |r.session.characters| <= MaxPlayers
  {
    PlayerCount(s);
    if |s.characters| >= MaxPlayers then Step(s, false)
    else if playerId in s.characters then Step(s, false)
    else
      var s' := Log(s.(characters := s.characters[playerId := c], joinOrder := s.joinOrder + [playerId]),
                    None, PlayerJoined(c.name));
      AddKeepsValid(s, playerId, c);
      Step(s', true)
  }

  lemma AddKeepsValid(s: GameSession, playerId: PlayerId, c: Character)
    ensures Valid(s) && |s.characters| < MaxPlayers && playerId !in s.characters ==>
      Valid(Log(s.(characters := s.characters[playerId := c], joinOrder := s.joinOrder + [playerId]),
                None, PlayerJoined(c.name)))
  {
    PlayerCount(s);
  }

  /** The join order without one player. */
  function Without(xs: seq<PlayerId>, p: PlayerId): (r: seq<PlayerId>)
    ensures forall x :: x in r <==> x in xs && x != p
    ensures forall i :: 0 <= i < |r| ==> r[i] in xs && r[i] != p
    ensures |r| <= |xs|
  {
    if |xs| == 0 then []
    else if xs[0] == p then Without(xs[1..], p)
    else [xs[0]] + Without(xs[1..], p)
  }

  lemma {:induction false} WithoutKeepsDistinct(xs: seq<PlayerId>, p: PlayerId)
    ensures Distinct(xs) ==> Distinct(Without(xs, p))
  {
    if |xs| > 0 && Distinct(xs) {
      var rest := xs[1..];
      assert Distinct(rest) by {
        forall i, j | 0 <= i < j < |rest| ensures rest[i] != rest[j] {
          assert rest[i] == xs[i + 1] && rest[j] == xs[j + 1];
        }
      }
      assert xs[0] !in rest by {
        forall i | 0 <= i < |rest| ensures rest[i] != xs[0] {
          assert rest[i] == xs[i + 1];
        }
      }
      WithoutKeepsDistinct(rest, p);
    }
  }

  function RemovePlayer(s: GameSession, playerId: PlayerId): (r: Step<bool>)
    ensures r.out <==> playerId in s.characters
    ensures !r.out ==> r.session == s
    ensures r.out ==>
      && r.session.characters == s.characters - {playerId}
      && r.session.joinOrder == Without(s.joinOrder, playerId)
      && r.session.events == s.events + [GameEvent(None, PlayerLeft(s.characters[playerId].name))]
      && r.session == s.(characters := r.session.characters, joinOrder := r.session.joinOrder,
                         events := r.session.events)
    ensures Valid(s) ==> Valid(r.session)
  {
    if playerId !in s.characters then Step(s, false)
    else
      var name := s.characters[playerId].name;
      WithoutKeepsDistinct(s.joinOrder, playerId);
      Step(Log(s.(characters := s.characters - {playerId}, joinOrder := Without(s.joinOrder, playerId)),
               None, PlayerLeft(name)), true)
  }

  // ---------------------------------------------------------------------------
  // Scenes

  /** A new scene: an action scene starts at round 1 with the first participant's
      turn; any other scene has round 0 and no turn. */
  function NewScene(sceneType: SceneType, description: string, ids: seq<PlayerId>): (sc: Scene)
    ensures SceneValid(sc)
    ensures sc.sceneType == sceneType && sc.description == description && sc.activeCharacters == ids
    ensures sc.sceneType == Action ==> sc.roundNumber == 1
    ensures sc.sceneType == Action && |ids| > 0 ==> sc.currentTurn == Some(ids[0])
    ensures sc.sceneType != Action || |ids| == 0 ==> sc.currentTurn == None
    ensures sc.sceneType != Action ==> sc.roundNumber == 0
    ensures sc.sceneHope == 0 && sc.sceneFear == 0
  {
    Scene(sceneType, description, ids,
          if sceneType == Action then 1 else 0,
          if sceneType == Action && |ids| > 0 then Some(ids[0]) else None,
          0, 0)
  }

  /** Replaces any current scene wholesale and logs the change. */
  function StartScene(s: GameSession, sceneType: SceneType, description: string, ids: seq<PlayerId>): (s': GameSession)
    ensures s' == s.(currentScene := Some(NewScene(sceneType, description, ids)),
                     events := s.events + [GameEvent(None, SceneStarted(description))])
    ensures Valid(s) ==> Valid(s')
  {
    Log(s.(currentScene := Some(NewScene(sceneType, description, ids))), None, SceneStarted(description))
  }

  function EndScene(s: GameSession): (s': GameSession)
    ensures s.currentScene.None? ==> s' == s
    ensures s.currentScene.Some? ==>
      s' == s.(currentScene := None,
               events := s.events + [GameEvent(None, SceneEnded(s.currentScene.value.description))])
    ensures Valid(s) ==> Valid(s')
  {
    match s.currentScene
    case None => s
    case Some(sc) => Log(s.(currentScene := None), None, SceneEnded(sc.description))
  }

  /** Moves a waiting session with at least one player to active, opening an
      exploration scene over every player in join order. */
  function StartSession(s: GameSession, now: int): (r: Step<bool>)
    ensures r.out <==> s.state == Waiting && |s.characters| > 0
    ensures !r.out ==> r.session == s
    ensures r.out ==>
      && r.session == s.(state := Active, startedAt := Some(now),
                         currentScene := r.session.currentScene, events := r.session.events)
      && r.session.currentScene == Some(Scene(Exploration, OpeningSceneDescription, s.joinOrder, 0, None, 0, 0))
      && r.session.events == s.events + [GameEvent(None, SceneStarted(OpeningSceneDescription)),
                                         GameEvent(None, SessionStarted)]
    ensures Valid(s) ==> Valid(r.session)
  {
    if s.state != Waiting then Step(s, false)
    else if |s.characters| == 0 then Step(s, false)
    else
      var s1 := s.(state := Active, startedAt := Some(now));
      var s2 := StartScene(s1, Exploration, OpeningSceneDescription, s.joinOrder);
      Step(Log(s2, None, SessionStarted), true)
  }

  /** The first position of `x` in `xs` at or after `i`. */
  function IndexFrom(xs: seq<PlayerId>, x: PlayerId, i: nat): (r: Option<nat>)
    requires i <= |xs|
    ensures r.Some? ==> i <= r.value < |xs| && xs[r.value] == x
    ensures r.Some? ==> forall k :: i <= k < r.value ==> xs[k] != x
    ensures r.None? ==> forall k :: i <= k < |xs| ==> xs[k] != x
    decreases |xs| - i
  {
    if i == |xs| then None
    else if xs[i] == x then Some(i)
    else IndexFrom(xs, x, i + 1)
  }

  /** The first position of `x` in `xs`, as Python's `list.index`; `None` stands
      for the `ValueError` it raises on a missing element. */
  function IndexOf(xs: seq<PlayerId>, x: PlayerId): (r: Option<nat>)
    ensures r.Some? <==> x in xs
    ensures r.Some? ==> r.value < |xs| && xs[r.value] == x
    ensures r.Some? ==> forall k :: 0 <= k < r.value ==> xs[k] != x
  {
    IndexFrom(xs, x, 0)
  }

  lemma {:induction false} IndexFromDistinct(xs: seq<PlayerId>, i: nat, j: nat)
    requires Distinct(xs) && i <= j < |xs|
    ensures IndexFrom(xs, xs[j], i) == Some(j)
    decreases j - i
  {
    if i < j {
      assert xs[i] != xs[j];
      IndexFromDistinct(xs, i + 1, j);
    }
  }

  /** In a list without repeats every element is found at its own position. */
  lemma IndexOfDistinct(xs: seq<PlayerId>, j: nat)
    requires Distinct(xs) && j < |xs|
    ensures IndexOf(xs, xs[j]) == Some(j)
  {
    IndexFromDistinct(xs, 0, j);
  }

  /** The index the turn order advances from: that of the stored turn, or 0 when the
      turn is unset, empty, or no longer a participant. */
  function TurnIndex(sc: Scene): (i: nat)
    ensures |sc.activeCharacters| > 0 ==> i < |sc.activeCharacters|
    ensures var ps := sc.activeCharacters;
            sc.currentTurn.Some? && sc.currentTurn.value != "" && sc.currentTurn.value in ps ==>
              i < |ps| && ps[i] == sc.currentTurn.value && forall k :: 0 <= k < i ==> ps[k] != sc.currentTurn.value
    ensures !(sc.currentTurn.Some? && sc.currentTurn.value != "" && sc.currentTurn.value in sc.activeCharacters) ==> i == 0
  {
    if sc.currentTurn.Some? && sc.currentTurn.value != "" then
      match IndexOf(sc.activeCharacters, sc.currentTurn.value)
      case Some(i) => i
      case None => 0
    else 0
  }

  datatype TurnOutcome =
    | NoTurn
    | TurnTo(playerId: PlayerId)
    /** The next participant has no character: the source raises `KeyError` after
        the scene has already advanced, and logs nothing. */
    | TurnToMissing(playerId: PlayerId)

  /** The index after `i` in a cycle of `n`. */
  function NextIndex(i: nat, n: nat): (r: nat)
    requires i < n
    ensures r < n
  {
    if i + 1 == n then 0 else i + 1
  }

  /** The successor index is the source's `(i + 1) % n`. */
  lemma NextIndexIsMod(i: nat, n: nat)
    requires i < n
    ensures NextIndex(i, n) == (i + 1) % n
  {
  }

  /** The scene after one turn: the participant after the current one acts, and
      wrapping back to the first participant opens a new round. */
  function TurnAfter(sc: Scene): (sc': Scene)
    requires |sc.activeCharacters| > 0
  {
    var ps := sc.activeCharacters;
    var k := NextIndex(TurnIndex(sc), |ps|);
    sc.(roundNumber := if k == 0 then sc.roundNumber + 1 else sc.roundNumber, currentTurn := Some(ps[k]))
  }

  /** One turn in the source's own terms: the turn moves to position
      `(i + 1) % n` after the stored turn's position `i`, and the round advances
      exactly when that position is 0. Nothing else in the scene changes. */
  lemma TurnAfterStep(sc: Scene)
    requires |sc.activeCharacters| > 0
    ensures var ps := sc.activeCharacters;
            var k := (TurnIndex(sc) + 1) % |ps|;
            var sc' := TurnAfter(sc);
            && sc'.currentTurn == Some(ps[k])
            && sc'.roundNumber == (if k == 0 then sc.roundNumber + 1 else sc.roundNumber)
            && sc' == sc.(currentTurn := sc'.currentTurn, roundNumber := sc'.roundNumber)
  {
    NextIndexIsMod(TurnIndex(sc), |sc.activeCharacters|);
  }

  /** Advances the turn of an action scene. The next participant's character is
      looked up only after the scene has moved on, so a participant without one
      leaves the scene advanced and no event logged. */
  function NextTurn(s: GameSession): (r: Step<TurnOutcome>)
    ensures (s.currentScene.None? || s.currentScene.value.sceneType != Action
             || |s.currentScene.value.activeCharacters| == 0) ==> r == Step(s, NoTurn)
    ensures s.currentScene.Some? && s.currentScene.value.sceneType == Action
            && |s.currentScene.value.activeCharacters| > 0 ==>
      var sc' := TurnAfter(s.currentScene.value);
      var next := sc'.currentTurn.value;
      && r.session.currentScene == Some(sc')
      && (next in s.characters ==>
            r.out == TurnTo(next) &&
            r.session == s.(currentScene := Some(sc'),
                            events := s.events + [GameEvent(Some(next), TurnStarted(s.characters[next].name))]))
      && (next !in s.characters ==>
            r.out == TurnToMissing(next) && r.session == s.(currentScene := Some(sc')))
    ensures Valid(s) ==> Valid(r.session)
  {
    if s.currentScene.None? || s.currentScene.value.sceneType != Action then Step(s, NoTurn)
    else if |s.currentScene.value.activeCharacters| == 0 then Step(s, NoTurn)
    else
      var sc' := TurnAfter(s.currentScene.value);
      var next := sc'.currentTurn.value;
      var s' := s.(currentScene := Some(sc'));
      if next in s.characters then
        Step(Log(s', Some(next), TurnStarted(s.characters[next].name)), TurnTo(next))
      else Step(s', TurnToMissing(next))
  }

  /** From the `j`-th of distinct, non-empty participant ids the turn passes to the
      next one, opening a new round on wrap. */
  lemma {:induction false} TurnAfterFrom(sc: Scene, j: nat)
    requires j < |sc.activeCharacters| && Distinct(sc.activeCharacters)
    requires sc.activeCharacters[j] != "" && sc.currentTurn == Some(sc.activeCharacters[j])
    ensures var ps := sc.activeCharacters;
            TurnAfter(sc) ==
              if j + 1 == |ps| then sc.(roundNumber := sc.roundNumber + 1, currentTurn := Some(ps[0]))
              else sc.(currentTurn := Some(ps[j + 1]))
  {
    IndexOfDistinct(sc.activeCharacters, j);
  }

  // ---------------------------------------------------------------------------
  // Rolls, damage and healing

  /** A roll by a known player: the character may gain Hope, the shared Hope pool
      grows on a Hope result, the Fear pool on a Fear result, and one roll event is
      logged. An unknown player changes nothing. */
  function MakeCharacterRoll(s: GameSession, playerId: PlayerId, traitName: string, difficulty: int,
                             advantage: bool, disadvantage: bool, dice: Dice): (r: Step<Reply<ActionReport>>)
    requires FairDice(dice)
    ensures playerId !in s.characters ==> r == Step(s, CharacterNotFound)
    ensures playerId in s.characters ==>
      var c := s.characters[playerId];
      var rolled := MakeActionRoll(c, traitName, difficulty, advantage, disadvantage, dice);
      var result := rolled.report.roll.resultType;
      && r.out == Found(rolled.report)
      && r.session.characters == s.characters[playerId := rolled.character]
      && r.session.globalHope == s.globalHope + (if result == SuccessWithHope then 1 else 0)
      && r.session.globalFear == s.globalFear + (if result == SuccessWithFear then 1 else 0)
      && r.session.events == s.events + [GameEvent(Some(playerId), DiceRolled(c.name, traitName, rolled.report))]
      && r.session == s.(characters := r.session.characters, globalHope := r.session.globalHope,
                         globalFear := r.session.globalFear, events := r.session.events)
    ensures Valid(s) ==> Valid(r.session)
  {
    if playerId !in s.characters then Step(s, CharacterNotFound)
    else
      var c := s.characters[playerId];
      var rolled := MakeActionRoll(c, traitName, difficulty, advantage, disadvantage, dice);
      var result := rolled.report.roll.resultType;
      var s1 := s.(characters := s.characters[playerId := rolled.character]);
      var s2 := if result == SuccessWithHope then s1.(globalHope := s1.globalHope + 1)
                else if result == SuccessWithFear then s1.(globalFear := s1.globalFear + 1)
                else s1;
      Step(Log(s2, Some(playerId), DiceRolled(c.name, traitName, rolled.report)), Found(rolled.report))
  }

  /** Exactly one pool grows by one unless the roll is critical, and then neither. */
  lemma RollMovesOnePool(s: GameSession, playerId: PlayerId, traitName: string, difficulty: int,
                         advantage: bool, disadvantage: bool, dice: Dice)
    requires FairDice(dice) && playerId in s.characters
    ensures var r := MakeCharacterRoll(s, playerId, traitName, difficulty, advantage, disadvantage, dice);
            (r.session.globalHope - s.globalHope) + (r.session.globalFear - s.globalFear)
              == (if dice.hope == dice.fear then 0 else 1)
            && (dice.hope > dice.fear <==> r.session.globalHope == s.globalHope + 1)
            && (dice.fear > dice.hope <==> r.session.globalFear == s.globalFear + 1)
            && |r.session.events| == |s.events| + 1
  {
  }

  /** Damage to a known player: one damage event, and a second "dying" event exactly
      when the character drops from above zero to zero. */
  function DealDamage(s: GameSession, playerId: PlayerId, damage: int, source: string): (r: Step<Reply<DamageReport>>)
    ensures playerId !in s.characters ==> r == Step(s, CharacterNotFound)
    ensures playerId in s.characters ==>
      var c := s.characters[playerId];
      var hit := TakeDamage(c, damage);
      && r.out == Found(hit.report)
      && r.session.characters == s.characters[playerId := hit.character]
      && r.session.events == s.events + [GameEvent(Some(playerId), DamageDealt(c.name, source, hit.report))]
                                      + (if hit.report.isDying
                                         then [GameEvent(Some(playerId), CharacterDying(c.name))] else [])
      && r.session == s.(characters := r.session.characters, events := r.session.events)
    ensures Valid(s) ==> Valid(r.session)
  {
    if playerId !in s.characters then Step(s, CharacterNotFound)
    else
      var c := s.characters[playerId];
      var hit := TakeDamage(c, damage);
      var s1 := Log(s.(characters := s.characters[playerId := hit.character]),
                    Some(playerId), DamageDealt(c.name, source, hit.report));
      var s2 := if hit.report.isDying then Log(s1, Some(playerId), CharacterDying(c.name)) else s1;
      Step(s2, Found(hit.report))
  }

  function HealCharacter(s: GameSession, playerId: PlayerId, amount: int, source: string): (r: Step<Reply<HealReport>>)
    ensures playerId !in s.characters ==> r == Step(s, CharacterNotFound)
    ensures playerId in s.characters ==>
      var c := s.characters[playerId];
      && r.out.Found?
      && r.out.value.oldHp == c.currentHp
      && r.out.value.newHp == Heal(c, amount).currentHp <= c.hitPoints
      && r.out.value.healing == r.out.value.newHp - r.out.value.oldHp <= amount
      && r.session.characters == s.characters[playerId := Heal(c, amount)]
      && r.session.events == s.events + [GameEvent(Some(playerId), Healed(c.name, source, r.out.value))]
      && r.session == s.(characters := r.session.characters, events := r.session.events)
    ensures Valid(s) ==> Valid(r.session)
  {
    if playerId !in s.characters then Step(s, CharacterNotFound)
    else
      var c := s.characters[playerId];
      var c' := Heal(c, amount);
      var report := HealReport(c.currentHp, c'.currentHp, c'.currentHp - c.currentHp);
      Step(Log(s.(characters := s.characters[playerId := c']), Some(playerId), Healed(c.name, source, report)),
           Found(report))
  }

  function AddStoryEvent(s: GameSession, text: string, characterId: Option<PlayerId>): (s': GameSession)
    ensures s' == s.(storyLog := s.storyLog + [text],
                     events := s.events + [GameEvent(characterId, Story(text))])
    ensures Valid(s) ==> Valid(s')
  {
    Log(s.(storyLog := s.storyLog + [text]), characterId, Story(text))
  }

  // ---------------------------------------------------------------------------
  // Shared pools

  function SpendHope(s: GameSession, amount: int): (r: Step<bool>)
    ensures r.out <==> s.globalHope >= amount
    ensures r.out ==> r.session == s.(globalHope := s.globalHope - amount,
                                      events := s.events + [GameEvent(None, HopeSpent(amount))])
    ensures !r.out ==> r.session == s
    ensures r.session.globalHope >= 0 || r.session == s
    ensures Valid(s) ==> Valid(r.session)
  {
    if s.globalHope >= amount then Step(Log(s.(globalHope := s.globalHope - amount), None, HopeSpent(amount)), true)
    else Step(s, false)
  }

  function SpendFear(s: GameSession, amount: int): (r: Step<bool>)
    ensures r.out <==> s.globalFear >= amount
    ensures r.out ==> r.session == s.(globalFear := s.globalFear - amount,
                                      events := s.events + [GameEvent(None, FearSpent(amount))])
    ensures !r.out ==> r.session == s
    ensures r.session.globalFear >= 0 || r.session == s
    ensures Valid(s) ==> Valid(r.session)
  {
    if s.globalFear >= amount then Step(Log(s.(globalFear := s.globalFear - amount), None, FearSpent(amount)), true)
    else Step(s, false)
  }

  // ---------------------------------------------------------------------------
  // The event log

  /** `s'` keeps every event of `s` in place and appends at most `k` more. */
  predicate Appends(s: GameSession, s': GameSession, k: nat) {
    |s.events| <= |s'.events| <= |s.events| + k && s'.events[..|s.events|] == s.events
  }

  /** The event log is append-only: no session operation rewrites or drops an
      earlier event. Each appends at most one event, except that starting a session
      appends two. This lemma covers players and the session start; the ones below
      cover scenes, characters and pools. */
  lemma EventLogAppendOnly(s: GameSession, playerId: PlayerId, c: Character, now: int)
    ensures Appends(s, AddPlayer(s, playerId, c).session, 1)
    ensures Appends(s, RemovePlayer(s, playerId).session, 1)
    ensures Appends(s, StartSession(s, now).session, 2)
  {
  }

  /** Opening or closing a scene and passing the turn append at most one event. */
  lemma SceneEventsAppendOnly(s: GameSession, sceneType: SceneType, description: string, ids: seq<PlayerId>)
    ensures Appends(s, StartScene(s, sceneType, description, ids), 1)
    ensures Appends(s, EndScene(s), 1)
    ensures Appends(s, NextTurn(s).session, 1)
  {
  }

  /** Damage appends at most two events (the second when the character is dying);
      healing, a story entry and spending from either pool append at most one. */
  lemma CharacterEventsAppendOnly(s: GameSession, playerId: PlayerId, amount: int, source: string,
                                  text: string, characterId: Option<PlayerId>)
    ensures Appends(s, DealDamage(s, playerId, amount, source).session, 2)
    ensures Appends(s, HealCharacter(s, playerId, amount, source).session, 1)
    ensures Appends(s, AddStoryEvent(s, text, characterId), 1)
    ensures Appends(s, SpendHope(s, amount).session, 1)
    ensures Appends(s, SpendFear(s, amount).session, 1)
  {
  }

  /** A roll, too, only appends, and exactly one event when the player is known. */
  lemma RollAppendsOnly(s: GameSession, playerId: PlayerId, traitName: string, difficulty: int,
                        advantage: bool, disadvantage: bool, dice: Dice)
    requires FairDice(dice)
    ensures Appends(s, MakeCharacterRoll(s, playerId, traitName, difficulty, advantage, disadvantage, dice).session, 1)
  {
  }

  /** Spending a sequence of Fear amounts one after another. */
  function SpendFearAll(s: GameSession, amounts: seq<int>): GameSession
    decreases |amounts|
  {
    if |amounts| == 0 then s else SpendFearAll(SpendFear(s, amounts[0]).session, amounts[1..])
  }

  /** Whatever is spent, the Fear pool never goes negative, never grows on
      non-negative amounts, and only spend events are appended. */
  lemma {:induction false} SpendFearAllKeepsPool(s: GameSession, amounts: seq<int>)
    requires s.globalFear >= 0
    ensures SpendFearAll(s, amounts).globalFear >= 0
    ensures (forall i :: 0 <= i < |amounts| ==> amounts[i] >= 0) ==> SpendFearAll(s, amounts).globalFear <= s.globalFear
    ensures SpendFearAll(s, amounts).globalHope == s.globalHope
    ensures |s.events| <= |SpendFearAll(s, amounts).events| <= |s.events| + |amounts|
    ensures SpendFearAll(s, amounts).events[..|s.events|] == s.events
    decreases |amounts|
  {
    if |amounts| > 0 {
      var s1 := SpendFear(s, amounts[0]).session;
      SpendFearAllKeepsPool(s1, amounts[1..]);
      assert forall i :: 0 <= i < |amounts[1..]| ==> amounts[1..][i] == amounts[i + 1];
      assert s1.events[..|s.events|] == s.events;
    }
  }
}
