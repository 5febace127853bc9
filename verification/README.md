# Daggerheart session engine in Dafny

This project models the rules and session engine of a Telegram bot that runs games of the
Daggerheart tabletop RPG. It also models the pure bookkeeping around the bot's AI game master.

- **`Mechanics`** (`mechanics.dfy`) covers the dice and damage rules:
  - the Hope/Fear duality roll: two d12s plus an optional d6 modifier under advantage or disadvantage;
  - the four outcome classes and the trait check;
  - damage scaling by outcome and threshold damage, where incoming damage becomes a loss of 0 to 3 hit points;
  - trait validation and lookup;
  - the static class and ancestry tables.
- **`Characters`** (`characters.dfy`) covers the player character:
  - the validated setters for class, ancestry and traits;
  - Hope, damage, healing, equipment and domain cards, and the action roll;
  - the field-level record that `to_json`/`from_json` write and read;
  - the starting-character factory with its starting kits and basic domain cards.
- **`Sessions`** (`sessions.dfy`) covers one game session:
  - players in join order, at most six;
  - the waiting-to-active start, and scenes with the action-scene turn order and round counter;
  - the shared Hope and Fear pools;
  - rolls, damage and healing through the session;
  - the append-only event and story logs.
- **`Turns`** and **`TurnOrder`** (`turns.dfy`, `turnorder.dfy`) state what many calls of `next_turn` do.
- **`Manager`** (`manager.dfy`) models the session registry: create, get, join, list and clean up.
- **`GameMaster`** (`gamemaster.dfy`) models the AI game master's bookkeeping:
  - the context handed to the narrator and the request message list;
  - the bounded per-session conversation history;
  - the game effects read from a narrator reply: roll requests, Fear spends and damage;
  - applying those effects to the session, and opening a new scene.
- **`Common`** (`common.dfy`) holds small helpers:
  - `Option`, `Result`;
  - Python's `xs[-n:]`, `" ".join`, `str.lower()`, and `int()` on digit strings.

Every operation is a pure function from the old state to the new one and returns what the
source returns. Operations on a session return `Step(session, out)`. A method that mutates a
character returns the new character together with its report.

Randomness, the clock and the network come in as parameters:

- die values are a `Dice(hope, fear, d6)` argument, and the contracts hold for any fair dice;
- new session ids and the current time are arguments, with time in whole seconds;
- the narrator's reply is an `Option<string>`, where `None` stands for a failed call;
- the regular-expression captures found in the reply are a `Matches` argument.

Other representation choices:

- The session's character dictionary is a map plus the sequence of its keys in insertion order. This is the order `start_session` and `_build_context` see.
- An event is a `GameEvent(characterId, body)`. The constructor of `body` is the event type, and its fields are the values the event's description mentions.

## Model

| member | source | states |
|---|---|---|
| Common.Last | deepseek/gm_api.py:179-182 | `xs[-n:]` has min(n, len) elements and is exactly the tail of `xs`, element by element |
| Common.Lower | game/mechanics.py:58-59 | `str.lower()` keeps the length and lower-cases each character |
| Common.LowerOfLower | game/mechanics.py:332-339 | lower-casing yields a string without capitals and is idempotent, so a key lower-cased twice is the same key |
| Common.DecimalValue | deepseek/gm_api.py:278 | `int()` of a digit run is below 10^len; a single digit is its own value |
| Common.DecimalRoundTrip | deepseek/gm_api.py:278 | parsing the decimal numeral of any natural number gives that number back |
| Mechanics.Classify | game/mechanics.py:37-45 | critical iff the dice are equal, Hope iff hope > fear, Fear iff fear > hope; the Failure branch is unreachable |
| Mechanics.NewDiceRoll | game/mechanics.py:25-35 | the total is always hope + fear + modifier and the class is derived from the dice alone |
| Mechanics.RollDuality | game/mechanics.py:206-223 | both dice in 1..12; modifier in 1..6 under advantage, in -6..-1 under disadvantage alone, 0 otherwise (advantage wins when both are set); total in -4..30; never Failure |
| Mechanics.MakeTraitRoll | game/mechanics.py:226-243 | the check succeeds iff roll total + trait value >= difficulty |
| Mechanics.TraitRollThreshold | game/mechanics.py:226-243 | for any fair dice the check is a threshold: the reached total passes and one more fails, a pass stays a pass at lower difficulties, and difficulties beyond the reachable totals always pass or always fail |
| Mechanics.OutcomeIndependentOfSuccess | game/mechanics.py:239-243 | concrete rolls show a Fear result that passes, a Fear result that fails, a Hope result that fails and a critical that fails |
| Mechanics.CalculateDamage | game/mechanics.py:246-264 | base b gives 2b on a critical, b+2 with Hope, b with Fear, 0 on a failure |
| Mechanics.DamageRanksOutcomes | game/mechanics.py:246-264 | for any 2d6 base, critical >= Hope > Fear > Failure in damage |
| Mechanics.HitsLost | game/mechanics.py:279-287 | the loss is at most 3 and, for a non-negative threshold, counts how many of t, 2t, 3t the damage reaches; 0 iff below all three, 3 iff at least 3t |
| Mechanics.ApplyDamage | game/mechanics.py:267-289 | new hp = max(0, hp - loss): never negative and never above the old hp |
| Mechanics.HitsLostMonotone | game/mechanics.py:279-287 | more damage never loses fewer hit points, for any threshold |
| Mechanics.ApplyDamageExamples | game/mechanics.py:279-289 | threshold 2, hp 6: damage 1, 2, 4, 6 leave 6, 5, 4, 3 hp; heavy damage stops at 0 |
| Mechanics.TraitByName | game/mechanics.py:58-59 | a name denotes a trait iff its lower case is that trait's key |
| Mechanics.GetTraitValue | game/mechanics.py:58-59 | case-insensitive trait lookup; 0 for any other name |
| Mechanics.TraitKeyRoundTrip | game/mechanics.py:58-59 | every capitalisation of a trait key finds that trait, in every trait record |
| Mechanics.ValidateTraits | game/mechanics.py:342-349 | true iff the six traits sum to exactly 3, with no per-trait range check |
| Mechanics.ValidateTraitsExamples | game/mechanics.py:342-349 | a legal spread passes, six ones fail, and an out-of-range spread summing to 3 passes |
| Mechanics.Clamp | game/character.py:139 | the result lies in [-3, 3] and equals the input when the input already does |
| Mechanics.ClassByKey | game/mechanics.py:78-151 | the class table holds an entry under a key iff the key is that class's id |
| Mechanics.AncestryByKey | game/mechanics.py:166-199 | the ancestry table holds an entry under a key iff the key is that ancestry's id |
| Mechanics.GetClassById | game/mechanics.py:332-334 | finds a class iff the lower-cased id is its key; None otherwise |
| Mechanics.GetAncestryById | game/mechanics.py:337-339 | finds an ancestry iff the lower-cased id is its key; None otherwise |
| Mechanics.ClassEntryWellFormed | game/mechanics.py:78-151 | each class's English name lower-cases to its key; its threshold and base hit points are positive |
| Mechanics.AncestryEntryWellFormed | game/mechanics.py:166-199 | each ancestry's name lower-cases to its key and no trait gets two bonuses |
| Mechanics.ClassByOwnName | game/mechanics.py:332-334 | every class is found under its display name and under its key |
| Mechanics.AncestryByOwnName | game/mechanics.py:337-339 | every ancestry is found under its display name and under its key |
| Characters.NewCharacter | game/character.py:43-86 | a fresh character has no class or ancestry, zero traits, 6 of 6 hp, evasion 10, threshold 1, level 1, 2 of 5 Hope, no equipment, cards, inventory or conditions, and is alive and healthy |
| Characters.SetClass | game/character.py:88-96 | succeeds iff the id names a class; on failure nothing changes; on success the class's hit points, evasion and threshold are copied, current hp is reset to full, and nothing else changes |
| Characters.ApplyBonusesEffect | game/character.py:132-140 | with distinct bonus traits, each bonus trait becomes clamp(old + bonus) and every other trait is untouched |
| Characters.SetAncestry | game/character.py:98-106 | succeeds iff the id names an ancestry; on failure nothing changes; on success each bonus trait is re-clamped, the rest of the character is unchanged |
| Characters.OrcStrengthIsClamped | game/character.py:132-140 | an orc with strength 2 ends at 3, not 4, and other traits keep their values |
| Characters.SetTraits | game/character.py:108-120 | succeeds iff the sum is 3; on success all six traits are replaced at once, on failure none is |
| Characters.GainHope | game/character.py:150-152 | hope becomes min(max, hope + n); nothing else changes; a healthy character stays healthy |
| Characters.SpendHope | game/character.py:154-159 | succeeds iff hope >= n and then subtracts exactly n; on failure nothing changes |
| Characters.TakeDamage | game/character.py:161-182 | hp becomes the threshold result; at most 3 is dealt; blocked = damage - dealt when dealt < damage else 0; unconscious iff hp 0, dying iff hp drops from above 0 to 0; alive flag and all else unchanged |
| Characters.Heal | game/character.py:184-186 | hp becomes min(max hp, hp + n): never above max, never more than n gained, only hp changes |
| Characters.AddEquipment | game/character.py:142-144 | appends exactly the item at the end and keeps the rest |
| Characters.AddDomainCard | game/character.py:146-148 | appends exactly the card at the end and keeps the rest |
| Characters.AddingKeepsHealthAndRecord | game/character.py:142-148 | adding gear or a card keeps a healthy character healthy, and saving the result gives the saved record of the original with the item appended |
| Characters.MakeActionRoll | game/character.py:196-218 | the reported total is dice total + trait value and success iff it reaches the difficulty; Hope rises by 1 (clamped) exactly on a Hope result, otherwise the character is unchanged |
| Characters.ToRecord | game/character.py:249-272 | the record names the class and ancestry by their lower-cased names exactly when they are set |
| Characters.FromRecord | game/character.py:274-321 | a non-empty stored id is looked up case-insensitively and an unknown one is dropped; traits, hp, progress, equipment and cards are taken from the record |
| Characters.RecordRoundTrip | game/character.py:249-321 | loading a saved character gives back the same character |
| Characters.RecordRoundTripFromRecord | game/character.py:249-321 | saving a loaded record that names table keys gives back the same record |
| Characters.UnknownClassIdIsDropped | game/character.py:282-283 | any stored class id that names no class, in any capitalisation, loads as "no class" and saves as none |
| Characters.StartingEquipment | game/character.py:324-349 | every class key has a two-item kit and any other key has none |
| Characters.BasicDomainCards | game/character.py:352-389 | every card listed under a domain key belongs to that domain |
| Characters.FirstCards | game/character.py:421-428 | at most one card per domain, each the first basic card of its own domain, and every listed domain with basic cards contributes its first card |
| Characters.FirstCardsSplit | game/character.py:421-428 | the cards come in domain order: the cards of two concatenated domain lists are the first list's cards followed by the second's |
| Characters.CreateStartingCharacter | game/character.py:391-430 | fails on an unknown class, then an unknown ancestry, then a trait sum other than 3, and succeeds otherwise; the traits are exactly the distribution, the class sets the stats, the kit is that class's two items, at most two domain cards, and the character is healthy |
| Characters.CreateStartingCharacterAsWritten | game/character.py:391-430 | the same error order, traits, class stats, domain cards and health as the corrected factory, except that the kit is looked up by the id exactly as given |
| Characters.CapitalisedClassLosesEquipment | game/character.py:416-419 | "Guardian" is accepted as a class yet gets no kit as written, and two items in the corrected factory |
| Characters.StartingGuardianExample | game/character.py:403-430 | a guardian dwarf keeps the given strength 2, not the dwarf bonus, has 6 hp and draws only Blade's first card |
| Sessions.NewSession | game/game_session.py:56-86 | a new session is waiting, empty, with both pools at 0 and satisfies the invariant; an empty name becomes "Сессия " plus at most eight leading characters of the id |
| Sessions.Log | game/game_session.py:319-330 | logging keeps every earlier event in place, adds exactly the given event at the end and changes nothing else |
| Sessions.AddPlayer | game/game_session.py:88-98 | succeeds iff fewer than 6 players and the id is new; adds exactly that player at the end of the join order with one event; never more than 6 players; keeps the invariant |
| Sessions.RemovePlayer | game/game_session.py:100-108 | succeeds iff the id is present; removes exactly that key from the map and the join order with one event; keeps the invariant |
| Sessions.NewScene | game/game_session.py:41-50 | an action scene starts at round 1 with the first participant's turn; other scenes have round 0 and no turn; the turn is always a participant |
| Sessions.StartScene | game/game_session.py:127-140 | replaces any previous scene wholesale, logs one event and keeps the invariant |
| Sessions.EndScene | game/game_session.py:142-147 | drops the scene with one event; a session without a scene is unchanged |
| Sessions.StartSession | game/game_session.py:110-125 | succeeds iff waiting with at least one player; then active with an exploration scene over all players in join order, round 0, no turn, and two events |
| Sessions.IndexOf | game/game_session.py:159-163 | `list.index`: an index is found iff the id is in the list, and it is the first position holding the id |
| Sessions.IndexOfDistinct | game/game_session.py:159-163 | in a list without repeats each element is found at its own index |
| Sessions.TurnIndex | game/game_session.py:157-163 | the first position of the stored turn when it is set, non-empty and a participant, and 0 otherwise; always a valid index when there are participants |
| Sessions.NextIndex | game/game_session.py:166 | the next index stays below the participant count |
| Sessions.NextIndexIsMod | game/game_session.py:166 | the next index is exactly (i + 1) % n |
| Sessions.NextTurn | game/game_session.py:149-173 | no-op without an action scene with participants; otherwise the scene advances one turn, and a turn event is logged iff the next participant has a character; keeps the invariant |
| Sessions.TurnAfterStep | game/game_session.py:157-170 | one turn moves to the participant at (index + 1) mod n, adds a round exactly when that wraps to 0, and changes nothing else in the scene |
| Sessions.TurnAfterFrom | game/game_session.py:158-170 | from the j-th distinct participant the turn passes to the (j+1)-th in the same round, or from the last back to the first with the round + 1 |
| Sessions.MakeCharacterRoll | game/game_session.py:175-198 | an unknown player changes nothing; otherwise a Hope result adds 1 to Hope only, a Fear result 1 to Fear only, a critical neither; exactly one event |
| Sessions.RollMovesOnePool | game/game_session.py:185-188 | the pools grow by 1 in total unless the dice are equal, Hope iff hope > fear, Fear iff fear > hope |
| Sessions.DealDamage | game/game_session.py:200-220 | an unknown player changes nothing; otherwise one damage event, plus a dying event iff the character drops to 0 from above |
| Sessions.HealCharacter | game/game_session.py:222-243 | an unknown player changes nothing; otherwise healing = new - old <= amount and new <= max hp, with one event |
| Sessions.AddStoryEvent | game/game_session.py:245-248 | appends the text to the story log and one story event |
| Sessions.SpendHope | game/game_session.py:250-256 | succeeds iff the pool covers the amount, then subtracts exactly that with one event; otherwise nothing changes |
| Sessions.SpendFear | game/game_session.py:258-264 | succeeds iff the pool covers the amount, then subtracts exactly that with one event; otherwise nothing changes |
| Sessions.EventLogAppendOnly | game/game_session.py:88-125 | adding or removing a player keeps every earlier event in place and appends at most one; starting a session at most two |
| Sessions.SceneEventsAppendOnly | game/game_session.py:127-173 | starting or ending a scene and passing the turn keep every earlier event in place and append at most one |
| Sessions.RollAppendsOnly | game/game_session.py:175-198 | a roll keeps every earlier event in place and appends at most one |
| Sessions.CharacterEventsAppendOnly | game/game_session.py:200-264 | damage keeps earlier events and appends at most two; healing, a story entry and either spend append at most one |
| Sessions.SpendFearAllKeepsPool | game/game_session.py:258-264 | any run of spends keeps Fear >= 0, never raises it on non-negative amounts, leaves Hope alone and only appends events |
| Turns.NextTurnMovesScene | game/game_session.py:149-170 | on an action scene with participants the session's scene becomes the scene after one turn |
| Turns.TurnAfterAt | game/game_session.py:158-170 | within a round the turn passes to the next participant; from the last one it returns to the first with the round + 1 |
| TurnOrder.AdvanceTurnsRotates | game/game_session.py:149-173 | k calls of next_turn move the scene exactly k turns |
| TurnOrder.TurnsFollowOrder | game/game_session.py:149-173 | starting from the first participant, after k < n turns the k-th participant acts in the same round |
| TurnOrder.RotateFullRound | game/game_session.py:149-173 | n turns of an n-participant scene return to the first participant one round later |
| TurnOrder.FullRoundReturnsToFirst | game/game_session.py:149-173 | n calls of next_turn from the first participant return the turn to them and add exactly one round |
| TurnOrder.ActionSceneStartsRound | game/game_session.py:127-173 | an action scene opened over a valid session's players in join order gives the first player the turn in round 1, and n calls of next_turn bring it back to them in round 2 |
| Manager.CreateSession | game/game_session.py:367-372 | registers a new waiting, valid session under the fresh id and leaves the others alone |
| Manager.GetSession | game/game_session.py:374-376 | finds a session iff its id is registered |
| Manager.JoinSession | game/game_session.py:378-383 | an unknown session refuses; otherwise succeeds iff the session has room and the id is new, and only that session changes |
| Manager.ActiveSessions | game/game_session.py:385-391 | lists exactly the waiting and active sessions |
| Manager.CleanupOldSessions | game/game_session.py:393-406 | keeps exactly the sessions that are neither completed nor created before the cutoff, unchanged, and returns how many were dropped |
| Manager.CleanupKeepsOpenSessions | game/game_session.py:385-406 | after a cleanup the open sessions are exactly the previously open ones that were not stale |
| Manager.CreateThenGet | game/game_session.py:367-376 | a created session is found under the returned id, is listed as open and survives a cleanup at its creation time |
| Manager.CleanupIsIdempotent | game/game_session.py:393-406 | a second cleanup at the same moment drops nothing |
| GameMaster.SceneTextDeterminesScene | deepseek/gm_api.py:167-176 | two scenes give the same scene line iff they have the same type and description, and no scene gives the line used when there is none |
| GameMaster.Summaries | deepseek/gm_api.py:157-165 | one summary per player, in join order, marked current iff it is the acting player |
| GameMaster.BuildContext | deepseek/gm_api.py:136-193 | summaries in join order; the last up to 5 events as a tail of the log; the last up to 3 story entries joined by spaces, or the default; the action prefixed by the actor's name or the default name |
| GameMaster.CurrentPlayerMarkedOnce | deepseek/gm_api.py:157-165 | the acting player is marked in exactly one summary if they have a character, in none otherwise |
| GameMaster.RequestMessages | deepseek/gm_api.py:199-210 | system prompt, context, then the last up to 6 history messages as a tail of the history, then the action |
| GameMaster.UpdateConversationHistory | deepseek/gm_api.py:317-328 | the session's history becomes the last up to 20 messages of old + (action, reply) and ends with that pair; other sessions are unchanged |
| GameMaster.ClearSessionHistory | deepseek/gm_api.py:384-387 | removes only that session's history |
| GameMaster.ClearThenRequest | deepseek/gm_api.py:199-210 | after clearing, the session's next request is exactly system prompt, context and action, and other sessions' requests are unchanged |
| GameMaster.RollEffects | deepseek/gm_api.py:265-280 | one roll request per match, in order, with the trait lower-cased and the difficulty parsed |
| GameMaster.Payable | deepseek/gm_api.py:283-297 | keeps exactly the amounts the unchanged pool covers: all when every amount fits, none when none fits; larger amounts are dropped, not reduced |
| GameMaster.PayableSplit | deepseek/gm_api.py:288-297 | every match is judged against the same pool, so the filter distributes over the concatenated pattern results |
| GameMaster.DamageEffects | deepseek/gm_api.py:300-313 | one damage effect per match, in order, with the amount parsed |
| GameMaster.ParseGameEffects | deepseek/gm_api.py:257-315 | roll requests first, then the payable Fear spends, then damage, each in match order; the session is only read |
| GameMaster.ApplyGameEffect | deepseek/gm_api.py:413-428 | a spend goes through the session's spend and may fail silently; damage hits the acting player; a roll request changes nothing; the invariant is kept |
| GameMaster.ApplyEffectsKeepsSession | deepseek/gm_api.py:405-408 | applying any effects keeps the invariant, the Hope pool, the players and the state, and only appends events |
| GameMaster.SecondSpendFailsSilently | deepseek/gm_api.py:288-297 | with Fear 3 two spends of 2 both pass the filter, yet only the first is paid |
| GameMaster.ProcessPlayerAction | deepseek/gm_api.py:91-134 | a failed call returns failure and leaves the history alone; a reply returns its parsed effects with the pools and scene and records the exchange |
| GameMaster.ProcessGmAction | deepseek/gm_api.py:395-410 | an unknown session is an error; effects are applied in order only on success, and only to that session |
| GameMaster.SceneTypeOf | deepseek/gm_api.py:443-449 | "action", "social" and "rest" map to their types, anything else to exploration |
| GameMaster.SceneKeyRoundTrip | deepseek/gm_api.py:443-449 | each scene type's text value maps back to that type |
| GameMaster.StartNewScene | deepseek/gm_api.py:431-453 | an unknown session returns the error text; otherwise a scene of the mapped type opens over every player in join order |

## Findings

| source | as written | input that shows it | evidently intended | confidence | as-written member | corrected member |
|---|---|---|---|---|---|---|
| game/character.py:417 | the starting kit is looked up with the class id exactly as given, while the class itself is looked up lower-cased | class id "Guardian" (ancestry "dwarf", traits 1,2,0,1,0,-1): accepted, but the character gets no equipment | look the kit up by the lower-cased id, as the class lookup does | not executed | Characters.CreateStartingCharacterAsWritten, Characters.CapitalisedClassLosesEquipment | Characters.CreateStartingCharacter |

## Left out

- Randomness: die values, uuids and timestamps are parameters or dropped; events carry no id or timestamp.
- Time is an integer count of seconds rather than `datetime`. `completedAt` exists but no modelled operation sets it, as in the source.
- The HTTP call to the narrator, the async plumbing, the system prompt text, the rendering of the context into text and the random fallback reply. The reply, the prompt and the rendered context are parameters.
- The regular-expression engine. The captures are a parameter, and digit captures are ASCII decimal digits; Python's `\d` also accepts other Unicode digits.
- `generate_scene_description`: the description is a parameter of `StartNewScene`.
- Event description strings and detail dictionaries. An event keeps its type and the structured values its text would show.
- JSON text: `to_json`/`from_json` are modelled as a record-to-record mapping.
- Display formatting: `format_dice_result`, `get_character_sheet`, `get_session_status`, `get_recent_events` and the session's `to_json`.
- `Manager.ActiveSessions` returns the set of ids rather than each session's status dictionary, because that dictionary is display formatting.
- Settings and auto-save on every logged event.
- `get_character_creation_guide`: it refers to tables the module never imports, so it cannot run.
- `str.lower()` is modelled for ASCII and basic Cyrillic letters only.
- `get_trait_value` uses `getattr`: a name that is not one of the six traits but is another attribute of the trait object, or differs only in non-ASCII case, is not modelled. Every non-trait name gives 0.
- `create_starting_character` takes the distribution as a `Traits` record. A dictionary with missing or extra keys, which raises `TypeError` in the source, is not modelled.
- `_handle_dying` does nothing in the source and has no counterpart.
- Sessions.NextTurn: a participant without a character makes the source raise `KeyError` after the scene has advanced. The model returns `TurnToMissing` with the advanced scene and no event.
