/** The bookkeeping around the AI game master: the context handed to the model,
    the request message list, the per-session conversation history, the game
    effects extracted from a narrator reply, and applying those effects to the
    session. The HTTP call is left out: the narrator's reply (or its absence,
    when the call fails) and the regular-expression captures found in it are
    parameters. */
module GameMaster {
  import opened Common
  import opened Mechanics
  import opened Characters
  import opened Sessions
  import opened Manager

  /** At most this many messages of history are kept per session. */
  const MaxHistory := 20
  /** At most this many of them accompany a request. */
  const AttachedHistory := 6
  const RecentEventCount := 5
  const StoryEntryCount := 3
  const DefaultStory := "Начало приключения"
  const DefaultPlayerName := "Игрок"
  const UnknownClassLabel := "Неизвестно"
  /** The source named for damage the narrator deals. */
  const NarratorDamageSource := "игровое событие"
  const SessionNotFoundText := "Ошибка: сессия не найдена"

  datatype Role = SystemRole | UserRole | AssistantRole

  datatype Message = Message(role: Role, content: string)

  type History = map<SessionId, seq<Message>>

  // ---------------------------------------------------------------------------
  // Context

  datatype CharacterSummary = CharacterSummary(
    name: string, className: string, currentHp: int, hitPoints: int, isCurrentPlayer: bool)

  /** What the narrator is told. Recent events are kept as events: their rendered
      descriptions are display text. */
  datatype GMContext = GMContext(
    sessionId: SessionId, currentScene: string, activeCharacters: seq<CharacterSummary>,
    recentEvents: seq<GameEvent>, storySummary: string,
    globalHope: int, globalFear: int, playerAction: string)

  function SceneLabel(t: SceneType): string {
    match t
    case Exploration => "Исследование"
    case Social => "Социальное взаимодействие"
    case Action => "Боевая сцена"
    case Rest => "Отдых"
  }

  /** "Label: description" for the current scene, the exploration label alone
      when there is none. */
  function SceneText(scene: Option<Scene>): (r: string)
    ensures scene.None? ==> r == SceneLabel(Exploration)
    ensures scene.Some? ==> r == SceneLabel(scene.value.sceneType) + ": " + scene.value.description
  {
    match scene
    case None => SceneLabel(Exploration)
    case Some(sc) => SceneLabel(sc.sceneType) + ": " + sc.description
  }

  /** The scene line names the scene: two scenes give the same line exactly when
      they have the same type and description (the four labels begin with different
      letters), and no scene gives the line used when there is none. */
  lemma SceneTextDeterminesScene(a: Scene, b: Scene)
    ensures SceneText(Some(a)) == SceneText(Some(b)) <==> a.sceneType == b.sceneType && a.description == b.description
    ensures SceneText(Some(a)) != SceneText(None)
  {
    var ta, tb := SceneText(Some(a)), SceneText(Some(b));
    if ta == tb {
      assert ta[0] == SceneLabel(a.sceneType)[0] && tb[0] == SceneLabel(b.sceneType)[0];
      var n := |SceneLabel(a.sceneType)| + 2;
      assert ta[n..] == a.description && tb[n..] == b.description;
    }
    assert ta[0] == SceneLabel(a.sceneType)[0];
    assert |SceneText(None)| < |ta| || ta[0] != SceneText(None)[0];
  }

  function ClassLabel(c: Character): string {
    match c.characterClass
    case Some(id) => ClassInfo(id).nameRu
    case None => UnknownClassLabel
  }

  function Summary(c: Character, isCurrent: bool): CharacterSummary {
    CharacterSummary(c.name, ClassLabel(c), c.currentHp, c.hitPoints, isCurrent)
  }

  function Summaries(order: seq<PlayerId>, characters: map<PlayerId, Character>, playerId: PlayerId): (r: seq<CharacterSummary>)
    requires forall i :: 0 <= i < |order| ==> order[i] in characters
    ensures |r| == |order|
    ensures forall i :: 0 <= i < |order| ==> r[i] == Summary(characters[order[i]], order[i] == playerId)
  {
    if |order| == 0 then []
    else [Summary(characters[order[0]], order[0] == playerId)] + Summaries(order[1..], characters, playerId)
  }

  /** The narrator's context for `playerId` acting with `action`: one summary per
      player in join order, the last five events, the last three story entries
      joined by spaces, and the action prefixed by the actor's name. */
  function BuildContext(s: GameSession, playerId: PlayerId, action: string): (ctx: GMContext)
    requires Valid(s)
    ensures ctx.sessionId == s.sessionId && ctx.globalHope == s.globalHope && ctx.globalFear == s.globalFear
    ensures ctx.currentScene == SceneText(s.currentScene)
    ensures |ctx.activeCharacters| == |s.joinOrder|
    ensures forall i :: 0 <= i < |s.joinOrder| ==>
              && ctx.activeCharacters[i].name == s.characters[s.joinOrder[i]].name
              && ctx.activeCharacters[i].currentHp == s.characters[s.joinOrder[i]].currentHp
              && ctx.activeCharacters[i].hitPoints == s.characters[s.joinOrder[i]].hitPoints
              && (ctx.activeCharacters[i].isCurrentPlayer <==> s.joinOrder[i] == playerId)
    ensures |ctx.recentEvents| == Min(RecentEventCount, |s.events|)
    ensures s.events == s.events[..|s.events| - |ctx.recentEvents|] + ctx.recentEvents
    ensures |s.storyLog| == 0 ==> ctx.storySummary == DefaultStory
    ensures |s.storyLog| > 0 ==> ctx.storySummary == Join(Last(s.storyLog, StoryEntryCount), " ")
    ensures playerId in s.characters ==> ctx.playerAction == s.characters[playerId].name + ": " + action
    ensures playerId !in s.characters ==> ctx.playerAction == DefaultPlayerName + ": " + action
  {
    var actor := if playerId in s.characters then s.characters[playerId].name else DefaultPlayerName;
    GMContext(
      s.sessionId, SceneText(s.currentScene), Summaries(s.joinOrder, s.characters, playerId),
      Last(s.events, RecentEventCount),
      if |s.storyLog| > 0 then Join(Last(s.storyLog, StoryEntryCount), " ") else DefaultStory,
      s.globalHope, s.globalFear, actor + ": " + action)
  }

  /** The acting player is marked in exactly one summary when they have a
      character, and in none otherwise. */
  lemma CurrentPlayerMarkedOnce(s: GameSession, playerId: PlayerId, action: string)
    requires Valid(s)
    ensures var cs := BuildContext(s, playerId, action).activeCharacters;
            && (playerId in s.characters <==> exists i :: 0 <= i < |cs| && cs[i].isCurrentPlayer)
            && (forall i, j :: 0 <= i < |cs| && 0 <= j < |cs| && cs[i].isCurrentPlayer && cs[j].isCurrentPlayer ==> i == j)
  {
    var cs := BuildContext(s, playerId, action).activeCharacters;
    if playerId in s.characters {
      var i :| 0 <= i < |s.joinOrder| && s.joinOrder[i] == playerId;
      assert cs[i].isCurrentPlayer;
    }
  }

  // ---------------------------------------------------------------------------
  // Request messages and history

  /** The messages sent for one action: the system prompt, the rendered context,
      at most the last six history messages of the session, then the action. The
      prompt and the rendered context are display text and come in as parameters. */
  function RequestMessages(history: History, sessionId: SessionId, systemPrompt: string,
                           contextText: string, playerAction: string): (r: seq<Message>)
    ensures var past := if sessionId in history then history[sessionId] else [];
            && |r| == 3 + Min(AttachedHistory, |past|)
            && r[0] == Message(SystemRole, systemPrompt)
            && r[1] == Message(UserRole, contextText)
            && r[|r| - 1] == Message(UserRole, playerAction)
            && past == past[..|past| - (|r| - 3)] + r[2..|r| - 1]
  {
    var attached := if sessionId in history then Last(history[sessionId], AttachedHistory) else [];
    [Message(SystemRole, systemPrompt), Message(UserRole, contextText)] + attached + [Message(UserRole, playerAction)]
  }

  /** Appends the action and the reply to the session's history and keeps only the
      last twenty messages. */
  function UpdateConversationHistory(history: History, sessionId: SessionId, action: string, response: string): (r: History)
    ensures sessionId in r && r.Keys == history.Keys + {sessionId}
    ensures forall id :: id in history && id != sessionId ==> r[id] == history[id]
    ensures var grown := (if sessionId in history then history[sessionId] else [])
                         + [Message(UserRole, action), Message(AssistantRole, response)];
            && |r[sessionId]| == Min(MaxHistory, |grown|)
            && grown == grown[..|grown| - |r[sessionId]|] + r[sessionId]
    ensures |r[sessionId]| <= MaxHistory
    ensures |r[sessionId]| >= 2 && r[sessionId][|r[sessionId]| - 2..] == [Message(UserRole, action), Message(AssistantRole, response)]
  {
    var past := if sessionId in history then history[sessionId] else [];
    var grown := past + [Message(UserRole, action), Message(AssistantRole, response)];
    history[sessionId := if |grown| > MaxHistory then Last(grown, MaxHistory) else grown]
  }

  function ClearSessionHistory(history: History, sessionId: SessionId): (r: History)
    ensures sessionId !in r
    ensures forall id :: id in r <==> id in history && id != sessionId
    ensures forall id :: id in r ==> r[id] == history[id]
  {
    history - {sessionId}
  }

  /** After the history of a session is cleared, its next request carries no past
      messages at all, while the requests of other sessions are unaffected. */
  lemma ClearThenRequest(history: History, sessionId: SessionId, other: SessionId, systemPrompt: string,
                         contextText: string, playerAction: string)
    ensures RequestMessages(ClearSessionHistory(history, sessionId), sessionId, systemPrompt, contextText, playerAction)
            == [Message(SystemRole, systemPrompt), Message(UserRole, contextText), Message(UserRole, playerAction)]
    ensures other != sessionId ==>
            RequestMessages(ClearSessionHistory(history, sessionId), other, systemPrompt, contextText, playerAction)
            == RequestMessages(history, other, systemPrompt, contextText, playerAction)
  {
  }

  // ---------------------------------------------------------------------------
  // Effects

  datatype Effect =
    | RequestRoll(traitName: string, difficulty: int)
    | SpendFearEffect(amount: int)
    | DamageEffect(amount: int)

  /** The captures of the narrator's reply, each list in match order and the
      patterns of one kind concatenated in the order they are tried. */
  datatype Matches = Matches(rolls: seq<(string, string)>, fears: seq<string>, damages: seq<string>)

  /** Every number capture is a non-empty run of decimal digits. */
  predicate WellFormed(m: Matches) {
    && (forall i :: 0 <= i < |m.rolls| ==> IsDigits(m.rolls[i].1))
    && (forall i :: 0 <= i < |m.fears| ==> IsDigits(m.fears[i]))
    && (forall i :: 0 <= i < |m.damages| ==> IsDigits(m.damages[i]))
  }

  function RollEffects(rolls: seq<(string, string)>): (r: seq<Effect>)
    requires forall i :: 0 <= i < |rolls| ==> IsDigits(rolls[i].1)
    ensures |r| == |rolls|
    ensures forall i :: 0 <= i < |rolls| ==> r[i] == RequestRoll(Lower(rolls[i].0), DecimalValue(rolls[i].1))
  {
    if |rolls| == 0 then [] else [RequestRoll(Lower(rolls[0].0), DecimalValue(rolls[0].1))] + RollEffects(rolls[1..])
  }

  /** The integers a list of digit captures denote. */
  function Values(xs: seq<string>): (r: seq<nat>)
    requires forall i :: 0 <= i < |xs| ==> IsDigits(xs[i])
    ensures |r| == |xs|
    ensures forall i :: 0 <= i < |xs| ==> r[i] == DecimalValue(xs[i])
  {
    if |xs| == 0 then [] else [DecimalValue(xs[0])] + Values(xs[1..])
  }

  /** One spend per amount that the pool, as it is before any spend, could pay;
      larger amounts are dropped, not reduced. */
  function Payable(amounts: seq<int>, pool: int): (r: seq<Effect>)
    ensures |r| <= |amounts|
    ensures forall i :: 0 <= i < |r| ==> r[i].SpendFearEffect? && r[i].amount <= pool
    ensures forall i :: 0 <= i < |r| ==> r[i].amount in amounts
    ensures (forall i :: 0 <= i < |amounts| ==> amounts[i] <= pool) ==>
              r == seq(|amounts|, i requires 0 <= i < |amounts| => SpendFearEffect(amounts[i]))
    ensures (forall i :: 0 <= i < |amounts| ==> amounts[i] > pool) ==> r == []
  {
    if |amounts| == 0 then []
    else
      var rest := Payable(amounts[1..], pool);
      if amounts[0] <= pool then [SpendFearEffect(amounts[0])] + rest else rest
  }

  /** Each amount is judged against the same pool, so the filter distributes over
      any split of the matches. */
  lemma {:induction false} PayableSplit(a: seq<int>, b: seq<int>, pool: int)
    ensures Payable(a + b, pool) == Payable(a, pool) + Payable(b, pool)
  {
    if |a| > 0 {
      PayableSplit(a[1..], b, pool);
      assert (a + b)[1..] == a[1..] + b;
    } else {
      assert a + b == b;
    }
  }

  function DamageEffects(damages: seq<string>): (r: seq<Effect>)
    requires forall i :: 0 <= i < |damages| ==> IsDigits(damages[i])
    ensures |r| == |damages|
    ensures forall i :: 0 <= i < |damages| ==> r[i] == DamageEffect(DecimalValue(damages[i]))
  {
    if |damages| == 0 then [] else [DamageEffect(DecimalValue(damages[0]))] + DamageEffects(damages[1..])
  }

  /** All roll requests first, then the payable Fear spends, then the damage, each
      in match order. The session is only read. */
  function ParseGameEffects(m: Matches, s: GameSession): (r: seq<Effect>)
    requires WellFormed(m)
    ensures var nr := |m.rolls|;
            var nf := |Payable(Values(m.fears), s.globalFear)|;
            && |r| == nr + nf + |m.damages|
            && (forall i :: 0 <= i < nr ==> r[i] == RequestRoll(Lower(m.rolls[i].0), DecimalValue(m.rolls[i].1)))
            && r[nr..nr + nf] == Payable(Values(m.fears), s.globalFear)
            && (forall i :: nr <= i < nr + nf ==> r[i].SpendFearEffect? && r[i].amount <= s.globalFear)
            && (forall i :: 0 <= i < |m.damages| ==> r[nr + nf + i] == DamageEffect(DecimalValue(m.damages[i])))
  {
    RollEffects(m.rolls) + Payable(Values(m.fears), s.globalFear) + DamageEffects(m.damages)
  }

  /** One effect on the session: a spend goes through the session's own check and
      may fail silently, damage lands on the acting player, and a roll request
      changes nothing. */
  function ApplyGameEffect(s: GameSession, e: Effect, playerId: PlayerId): (r: GameSession)
    ensures e.RequestRoll? ==> r == s
    ensures e.SpendFearEffect? ==>
      (s.globalFear >= e.amount ==> r.globalFear == s.globalFear - e.amount && |r.events| == |s.events| + 1)
      && (s.globalFear < e.amount ==> r == s)
    ensures e.DamageEffect? ==>
      (playerId !in s.characters ==> r == s)
      && (playerId in s.characters ==>
            r.characters == s.characters[playerId := TakeDamage(s.characters[playerId], e.amount).character]
            && r.globalFear == s.globalFear)
    ensures r.globalHope == s.globalHope && r.joinOrder == s.joinOrder && r.state == s.state
    ensures Valid(s) ==> Valid(r)
  {
    match e
    case RequestRoll(_, _) => s
    case SpendFearEffect(amount) => SpendFear(s, amount).session
    case DamageEffect(amount) => DealDamage(s, playerId, amount, NarratorDamageSource).session
  }

  function ApplyEffects(s: GameSession, effects: seq<Effect>, playerId: PlayerId): GameSession
    decreases |effects|
  {
    if |effects| == 0 then s else ApplyEffects(ApplyGameEffect(s, effects[0], playerId), effects[1..], playerId)
  }

  /** Applying effects keeps the session invariant, never touches the Hope pool,
      the players or the state, and only appends events. */
  lemma {:induction false} ApplyEffectsKeepsSession(s: GameSession, effects: seq<Effect>, playerId: PlayerId)
    ensures var r := ApplyEffects(s, effects, playerId);
            && (Valid(s) ==> Valid(r))
            && r.globalHope == s.globalHope && r.joinOrder == s.joinOrder && r.state == s.state
            && |s.events| <= |r.events| && r.events[..|s.events|] == s.events
    decreases |effects|
  {
    if |effects| > 0 {
      var s1 := ApplyGameEffect(s, effects[0], playerId);
      ApplyEffectsKeepsSession(s1, effects[1..], playerId);
      assert |s.events| <= |s1.events| && s1.events[..|s.events|] == s.events;
    }
  }

  /** Two spends that each fit the pool both pass the filter, yet the second one
      fails when applied: the filter does not account for earlier spends. */
  lemma SecondSpendFailsSilently(s: GameSession, playerId: PlayerId)
    requires s.globalFear == 3
    ensures var effects := ParseGameEffects(Matches([], ["2", "2"], []), s);
            && effects == [SpendFearEffect(2), SpendFearEffect(2)]
            && ApplyEffects(s, effects, playerId).globalFear == 1
  {
    TwoSpendsPass(s);
    TwoSpendsApply(s, playerId);
  }

  lemma TwoSpendsPass(s: GameSession)
    requires s.globalFear == 3
    ensures ParseGameEffects(Matches([], ["2", "2"], []), s) == [SpendFearEffect(2), SpendFearEffect(2)]
  {
    assert DecimalValue("2") == 2;
    assert Values(["2", "2"]) == [2, 2];
    assert Payable([2], 3) == [SpendFearEffect(2)];
    assert Payable([2, 2], 3) == [SpendFearEffect(2)] + Payable([2], 3);
  }

  lemma TwoSpendsApply(s: GameSession, playerId: PlayerId)
    requires s.globalFear == 3
    ensures ApplyEffects(s, [SpendFearEffect(2), SpendFearEffect(2)], playerId).globalFear == 1
  {
    var effects := [SpendFearEffect(2), SpendFearEffect(2)];
    var s1 := ApplyGameEffect(s, effects[0], playerId);
    assert s1.globalFear == 1;
    var s2 := ApplyGameEffect(s1, effects[1], playerId);
    assert s2 == s1;
    assert effects[1..][1..] == [];
    assert ApplyEffects(s1, effects[1..], playerId) == ApplyEffects(s2, [], playerId);
  }

  // ---------------------------------------------------------------------------
  // Processing an action

  /** What handling an action returns: on success the reply, its effects and the
      pools and scene text at the time; on failure the error (whose text and the
      random fallback line are left out). */
  datatype GmResult =
    | GmSuccess(response: string, effects: seq<Effect>, hope: int, fear: int, scene: string)
    | GmFailure

  /** Handles one action. `reply` is the narrator's answer, `None` when the call
      raised; then nothing is parsed and the history is left alone. */
  function ProcessPlayerAction(history: History, s: GameSession, playerId: PlayerId, action: string,
                               reply: Option<string>, m: Matches): (r: (History, GmResult))
    requires Valid(s) && WellFormed(m)
    ensures reply.None? ==> r == (history, GmFailure)
    ensures reply.Some? ==>
      && r.1 == GmSuccess(reply.value, ParseGameEffects(m, s), s.globalHope, s.globalFear, SceneText(s.currentScene))
      && r.0 == UpdateConversationHistory(history, s.sessionId, action, reply.value)
  {
    var ctx := BuildContext(s, playerId, action);
    match reply
    case None => (history, GmFailure)
    case Some(response) =>
      var effects := ParseGameEffects(m, s);
      (UpdateConversationHistory(history, s.sessionId, action, response),
       GmSuccess(response, effects, s.globalHope, s.globalFear, ctx.currentScene))
  }

  datatype GmReply = SessionNotFound | Processed(result: GmResult)

  /** Looks the session up, handles the action and, on success, applies every
      effect to the session in order. */
  function ProcessGmAction(m: Manager, history: History, sessionId: SessionId, playerId: PlayerId,
                           action: string, reply: Option<string>, matches: Matches): (r: (Manager, History, GmReply))
    requires sessionId in m.sessions ==> Valid(m.sessions[sessionId])
    requires WellFormed(matches)
    ensures sessionId !in m.sessions ==> r == (m, history, SessionNotFound)
    ensures sessionId in m.sessions ==>
      var s := m.sessions[sessionId];
      var handled := ProcessPlayerAction(history, s, playerId, action, reply, matches);
      && r.1 == handled.0 && r.2 == Processed(handled.1)
      && (handled.1.GmFailure? ==> r.0 == m)
      && (handled.1.GmSuccess? ==>
            r.0 == Manager(m.sessions[sessionId := ApplyEffects(s, handled.1.effects, playerId)]))
      && (reply.None? ==> r.0 == m && r.1 == history)
  {
    match GetSession(m, sessionId)
    case None => (m, history, SessionNotFound)
    case Some(s) =>
      var handled := ProcessPlayerAction(history, s, playerId, action, reply, matches);
      match handled.1
      case GmFailure => (m, handled.0, Processed(handled.1))
      case GmSuccess(_, effects, _, _, _) =>
        (Manager(m.sessions[sessionId := ApplyEffects(s, effects, playerId)]), handled.0, Processed(handled.1))
  }

  // ---------------------------------------------------------------------------
  // Scenes

  /** The text value of each scene type. */
  function SceneKey(t: SceneType): string {
    match t
    case Exploration => "exploration"
    case Social => "social"
    case Action => "action"
    case Rest => "rest"
  }

  /** The scene type named by a request; anything unrecognised is exploration. */
  function SceneTypeOf(text: string): (t: SceneType)
    ensures t == Action <==> text == "action"
    ensures t == Social <==> text == "social"
    ensures t == Rest <==> text == "rest"
    ensures t == Exploration <==> text != "action" && text != "social" && text != "rest"
  {
    if text == "action" then Action
    else if text == "social" then Social
    else if text == "rest" then Rest
    else Exploration
  }

  lemma SceneKeyRoundTrip(t: SceneType)
    ensures SceneTypeOf(SceneKey(t)) == t
  {
    assert "exploration"[0] == 'e' && "social"[0] == 's' && "action"[0] == 'a' && "rest"[0] == 'r';
  }

  /** Opens a scene of the requested type over every player of the session. The
      description would come from the narrator and is a parameter. */
  function StartNewScene(m: Manager, sessionId: SessionId, sceneType: string, description: string): (r: (Manager, string))
    ensures sessionId !in m.sessions ==> r == (m, SessionNotFoundText)
    ensures sessionId in m.sessions ==>
      var s := m.sessions[sessionId];
      && r.1 == description
      && r.0 == Manager(m.sessions[sessionId := StartScene(s, SceneTypeOf(sceneType), description, s.joinOrder)])
      && r.0.sessions[sessionId].currentScene.value.activeCharacters == s.joinOrder
      && r.0.sessions[sessionId].currentScene.value.sceneType == SceneTypeOf(sceneType)
      && (Valid(s) ==> Valid(r.0.sessions[sessionId]))
  {
    match GetSession(m, sessionId)
    case None => (m, SessionNotFoundText)
    case Some(s) =>
      (Manager(m.sessions[sessionId := StartScene(s, SceneTypeOf(sceneType), description, s.joinOrder)]), description)
  }
}
