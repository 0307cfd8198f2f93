# Branching-story session: a Dafny model

This project models the session state machine of an interactive branching-story
viewer. A generator returns a story graph: a title, a cast of characters, and a map
from scene id to scene, where each scene has choices that point to other scenes. The
application component walks that graph one choice at a time. It keeps
per-character relationship scores and saves the whole session under one key of a
key-value store. It can reload that save, and it autosaves on a timer. The model
follows `App.tsx`, and its data types follow `types.ts`.

Modules:

- `Types` (`types.dfy`): the story shapes of `types.ts` as datatypes. `GameState`
  has exactly the four constructors `Start | Loading | Playing | End`. A choice's
  `nextSceneId` is an `Option<string>`, where `None` is the explicit ending marker.
  `relationshipEffects` is an `Option<seq<…>>`. `scenes` is a finite `map`, so
  scenes have no order. Scores are `map<string, int>`.
- `Player` (`player.dfy`): the player test `name.toLowerCase() === 'you'`, and the
  start-up fix that appends a `You` character when the roster has no player.
- `Ledger` (`ledger.dfy`): the two `forEach` loops over scores, written as
  methods with loops. One seeds the scores; the other applies a choice's effects.
  Each is proved against a specification function, and the lemmas give that function
  a closed form.
- `Storage` (`storage.dfy`): the browser store as a class with a map from key
  to `Blob`. A `Blob` is a session that parses back (`Saved`), the empty string
  (`Blank`), or text that does not parse, or parses to `null` (`Corrupt`). `Truthy` is JavaScript's
  truthiness of `getItem`'s result: a missing key and `Blank` are both false.
- `App` (`app.dfy`): the component as class `Session`. Its fields are the
  component's state and `store` is the store. Each handler is a method whose
  `ensures` gives the complete new state through `State()`. The object invariant
  `Valid()` states two facts of the model. A playing session has a story.
  `saveExists` equals the truthiness of the stored entry. The first fact holds
  only because a `Saved` blob always carries a story. In the component, a parsed
  entry without a story field resumes play with no story (see "## Left out").
- `Scenarios` (`scenarios.dfy`): client methods that chain handlers. They cover
  save then load, a corrupt save loaded twice, an autosave tick during generation,
  and starting a story while a save exists. `TwoSceneStory` walks a two-scene
  story: it applies an effect to `Kael` and ends on a `null` choice. These facts
  are proved from the handlers' contracts alone.

Behaviour that the model keeps as the code has it:

- A generated story without `scene_1` is not rejected before it is used. The read of
  `scene_1`'s background throws inside the `try` block, and by then the story, the
  scene id and the scores have already been set. The session goes back to the start
  screen with the generation error, but those three fields keep their new values.
- When `scene_1`'s background is empty, start keeps the previous background. It does
  not reset it to the default.
- A failed load sets an error message, removes the entry and clears `saveExists`.
  Loading never clears `error`. A successful load leaves `saveExists` alone, which
  the invariant shows is already true.
- A save also requires a non-empty `currentSceneId`. This comes from JavaScript
  truthiness of the guard. In the model the scores are always a map, so that part
  of the guard always holds. In the component it fails only for scores restored from
  a parsed entry whose `relationshipScores` is missing or falsy (`null`, `0`,
  `false`, `""`).
- An autosave tick with a playing story records the clock reading in
  `lastAutosave`, even when the save's own guard skips the write. (Store writes
  cannot fail in the model; see "## Left out".)

## Model

| member | source | states |
|---|---|---|
| `Player.ToLower` | App.tsx:34 | keeps the length, and lower-cases each character at its own position |
| `Player.IsPlayerSpellings` | App.tsx:34 | the player test holds exactly for three-letter names spelled y/Y, o/O, u/U |
| `Player.EnsurePlayer` | App.tsx:34-41 | afterwards the roster has a player. The original roster is a prefix, and at most one character is added. A character is added exactly when the roster had no player. The added character is `You`, and it is then the only player |
| `Ledger.InitialScores` | App.tsx:47-54 | the keys are exactly the non-player names and every value is 0. No player name is a key, and every non-player character has a key |
| `Ledger.SeededUnique` | App.tsx:47-54 | these conditions fix the initial scores completely |
| `Ledger.Applied` | App.tsx:139-146 | applying effects never adds or removes a key |
| `Ledger.AppliedClosedForm` | App.tsx:141-145 | after the effects, each key holds its old value plus the sum of the changes that name it. No other key changes |
| `Ledger.AppliedConcat` | App.tsx:141-145 | effects apply in list order: applying two lists in turn equals applying their concatenation |
| `Ledger.ChangeForPermutation` | App.tsx:141-145 | effect lists with the same multiset carry the same change for every name |
| `Ledger.AppliedOrderIrrelevant` | App.tsx:141-145 | the final scores do not depend on the order of the effects: any two lists with the same multiset of effects give the same scores |
| `Ledger.AppliedSwapBlocks` | App.tsx:141-145 | swapping two blocks of effects gives the same scores |
| `Ledger.ChangeForConcat` | App.tsx:141-145 | the change carried for a name adds up over concatenated effect lists |
| `Ledger.ChangeForAbsent` | App.tsx:142 | effects that never name a character carry no change for it |
| `Ledger.UnknownNamesIgnored` | App.tsx:142 | effects whose names are all missing from the scores leave the scores unchanged |
| `Ledger.ApplyEffects` | App.tsx:138-147 | the loop's result equals `Applied`: same keys, each key moved by the sum of its changes |
| `App.EndingText` | App.tsx:183-184 | never empty. It is the current scene's narration when that scene exists and its narration is non-empty. Otherwise it is "The story concludes." |
| `App.Session.constructor` | App.tsx:13-25 | every field takes its initial value, and `saveExists` is the truthiness of the stored entry |
| `App.Session.BeginStart` | App.tsx:28-29 | state becomes Loading and the error is cleared. Nothing else changes |
| `App.Session.CompleteStart` | App.tsx:30-64 | the store is untouched. A failed generation sets the error and returns to Start with nothing else changed. Otherwise the story becomes the generated one plus the player fix, the scene id becomes `scene_1`, and the scores are seeded. If `scene_1` exists, play starts and its non-empty background is adopted. If it is missing, the session returns to Start with the error and keeps its background |
| `App.Session.Reset` | App.tsx:67-76 | every field returns to its initial value except `lastAutosave`, and the entry is removed |
| `App.Session.Save` | App.tsx:78-89 | with a story, a non-empty scene id and a non-empty background, the entry is overwritten with the snapshot and `saveExists` is set. Otherwise neither the store nor the state changes |
| `App.Session.Autosave` | App.tsx:92-97 | while Playing with a story, it saves exactly as Save does and sets `lastAutosave` to the clock reading. Otherwise it changes neither the store nor the state |
| `App.Session.Load` | App.tsx:117-134 | with no entry or an empty one, nothing changes. A parsed entry restores the four saved fields and sets Playing. A corrupt entry sets the load error, removes the entry and clears `saveExists`, so no entry is left |
| `App.Session.Choose` | App.tsx:136-160 | the scores become the effects applied to the previous scores, with the same keys. The ledger keeps matching the roster. If the target id is non-empty and names a scene, the session moves there and adopts its non-empty background. Otherwise the state becomes End with the scene id unchanged, and the end screen shows the narration of the scene just left |
| `App.Session.Render` | App.tsx:162-189 | which screen each state shows. The end screen's text is never empty. The game screen receives the current scene's lookup |
| `Scenarios.SaveThenLoad` | App.tsx:78-134 | a save followed by a load resumes play with the story, scene id, scores and background exactly as they were |
| `Scenarios.LoadCorruptTwice` | App.tsx:117-134 | loading a corrupt entry twice has the same effect as loading it once |
| `Scenarios.AutosaveWhileLoading` | App.tsx:92-97 | an autosave tick while the generator runs writes nothing to the store |
| `Scenarios.StartKeepsSave` | App.tsx:27-65 | starting a story leaves an existing save and `saveExists` as they were |

## Left out

- The story generator (`services/geminiService.ts`) is a network call. It appears only as its outcome: the `Generated` parameter of `CompleteStart`, which is a parsed story or a failure. Its prompt, response schema and JSON parsing are not part of this model.
- Rendering (`components/GameScreen.tsx`, `components/EndScreen.tsx`, `components/LoadingScreen.tsx`, and the start screen) is modelled only as far as `Render` says which screen is chosen and what values it receives. The notification timers and portrait lookup are presentation only.
- The 30-second `setInterval` and the `useRef` hand-off of the latest callback are not modelled. An autosave tick is a call to `Autosave`, which reads the live state. `Date.now()` is the `now` parameter.
- The asynchronous wait for the generator is modelled only as the split between `BeginStart` and `CompleteStart`. Events that arrive between the two are whatever methods the caller invokes.
- `JSON.stringify` and `JSON.parse` are abstracted: a save stores the snapshot itself, so a parse returns it exactly. The source checks only that the text parses. Text that parses to `null` makes the read `savedGameState.story` throw, and the source takes the corrupt-save path. Text that parses to anything else of the wrong shape, such as `{}`, `42`, `[]` or an older save format missing fields, loads without error. The source then sets `story`, `currentSceneId`, `relationshipScores` and `backgroundImage` to `undefined` (App.tsx:122-126) and sets PLAYING. With no story, `renderContent` renders nothing (App.tsx:167-181). The model's `Blob` has only `Saved`, `Blank` and `Corrupt`, so this state is out of its reach, and `Valid()`'s "playing implies a story" is a fact of the model only.
- Scores and scene lookups use a plain object in the source. An effect or scene id that is an inherited property name, such as `constructor` or `__proto__`, would find a prototype member instead of a missing key. The model treats scores and scenes as maps of their own keys only.
- `Player.ToLower`: lower-cases ASCII letters only, where the source's `toLowerCase` covers all of Unicode. The result is used only to compare with "you", and no non-ASCII character lower-cases to an ASCII y, o or u.
- Scores are unbounded integers. JavaScript numbers are doubles, so precision is lost beyond 2^53. The source applies no clamp.
- Store writes never fail in the model: `Storage.Store.SetItem` always replaces the entry. The browser's `setItem` throws when the quota is exceeded or storage is blocked. `handleSaveGame` does not catch it (App.tsx:86-87), so `saveExists` stays unset and the error escapes the handler. Inside `autosaveCallback` the same throw also skips `setLastAutosave` (App.tsx:94-95). `removeItem` does not throw for a missing key, and the model's `RemoveItem` does not fail either.
- App.Session.Save: describes only a write that succeeds. A throwing `setItem` would leave `saveExists` unset and end the handler with an exception.
- App.Session.Autosave: describes only a write that succeeds. A throwing `setItem` would also skip the update of `lastAutosave`.
- The `console.error` logging is not modelled.
