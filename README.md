# GameManager state machine

This project models the `GameManager` component of a Unity escape-room game. The component holds two coupled states:

- a coarse **game state**: Intro, Room1, Room2, Victory, Defeat;
- a **mission state**: None, Tutorial, Mission1 … Mission6, Ending, which advances cyclically.

`SetGameState` and `SetMissionState` call each other. Entering some states requests a scene by index from a scene-name list, then forces the other state to follow. Requesting scene 0 raises a flag, and the flag makes the component re-initialise once that scene has loaded. The component also keeps a canvas setting, and its editor hook rebuilds the scene-name list from the list of scene assets.

Modules:

- `States` (states.dfy): the two enumerations, the ordinal of a mission state, the cast back from an ordinal, and the successor modulo nine that `SetNextMissionState` computes.
- `Scenes` (scenes.dfy): scene-asset slots, modelled as unassigned or an asset with a name, and the name list derived from them.
- `Effects` (effects.dfy): the outward effects, in the order issued:
  - the mission-changed event with its value;
  - the mission-text refresh;
  - a scene-load request by name;
  - the re-initialisation.

  Two projections give the scene-request log and the event log.
- `Transitions` (transitions.dfy): each state-machine operation as a function on `Machine`. A `Machine` holds:
  - the game state;
  - the mission state;
  - the re-initialisation flag;
  - the log of effects so far.

  `SetGameStep` and `SetMissionStep` call each other exactly as the two setters do. A rank, 1 for Victory, Defeat and the three mission states that load a room and 0 otherwise, shows that the recursion stops after one nested call. The lemmas state the two switch tables and the other promises of the component in closed form.
- `Game` (game_manager.dfy): the class `GameManager`. Its methods update the fields step by step as the original does; the two setters are mutually recursive methods. Every state-machine method is proved to leave its fields and effect log exactly as the matching `Transitions` function says. The canvas and validation methods state their new fields directly.

## Model

| member | source | states |
|---|---|---|
| States.Ordinal | Assets/KHJ/Scripts/GameManager.cs:16-27 | the integer a mission state converts to is its declaration position, below the count of nine |
| States.MissionAt | Assets/KHJ/Scripts/GameManager.cs:162 | casting an integer below nine gives the mission state with that ordinal |
| States.OrdinalInjective | Assets/KHJ/Scripts/GameManager.cs:16-27 | two mission states have the same ordinal exactly when they are equal |
| States.OrdinalRoundTrip | Assets/KHJ/Scripts/GameManager.cs:161-162 | casting a state's ordinal back gives that state |
| States.NextMission | Assets/KHJ/Scripts/GameManager.cs:161-162 | the successor's ordinal is the current ordinal plus one, modulo nine |
| States.NextMissionIsCast | Assets/KHJ/Scripts/GameManager.cs:161-162 | the successor is the cast of `(ordinal + 1) % 9`, as the original computes it |
| States.NextMissionMoves | Assets/KHJ/Scripts/GameManager.cs:161-162 | the successor always differs from the current state; Ending wraps to None; every other state moves one ordinal up |
| States.AdvanceOrdinal | Assets/KHJ/Scripts/GameManager.cs:159-163 | k successive calls add k to the ordinal, modulo nine |
| States.MissionPeriod | Assets/KHJ/Scripts/GameManager.cs:159-163 | k successive calls return to the starting state exactly when k is a multiple of nine |
| States.AdvanceFromNone | Assets/KHJ/Scripts/GameManager.cs:159-163 | starting from None, the k-th successor (k below nine) is the k-th declared state |
| Scenes.NamesOf | Assets/KHJ/Scripts/GameManager.cs:170-177 | the derived name list is never longer than the asset list |
| Scenes.NamesOfAppend | Assets/KHJ/Scripts/GameManager.cs:171-177 | the names of two asset lists joined are the two name lists joined, so the asset order is kept |
| Scenes.NamesOfMembership | Assets/KHJ/Scripts/GameManager.cs:171-177 | a name is in the derived list exactly when an asset of that name is in the asset list |
| Scenes.NamesOfComplete | Assets/KHJ/Scripts/GameManager.cs:173-176 | the derived list is as long as the asset list exactly when no slot is unassigned |
| Effects.SceneLog | Assets/KHJ/Scripts/GameManager.cs:205 | the scene-request log has at most one entry per effect |
| Effects.MissionLog | Assets/KHJ/Scripts/GameManager.cs:123 | the event log has at most one entry per effect |
| Effects.LogsAppend | Assets/KHJ/Scripts/GameManager.cs:116-206 | both logs of effects issued one after another are the two logs joined |
| Effects.LogsPush | Assets/KHJ/Scripts/GameManager.cs:116-206 | issuing one effect extends each log by exactly that effect's contribution |
| Transitions.TransitionGuard | Assets/KHJ/Scripts/GameManager.cs:193-205 | an index outside the list issues nothing and changes nothing; a valid index requests exactly that name and sets the flag exactly when it is 0, leaving both states alone |
| Transitions.TransitionFrame | Assets/KHJ/Scripts/GameManager.cs:190-206 | a scene request keeps both states, raises no event, only extends the log, and adds only scene requests |
| Transitions.SetMissionIdempotent | Assets/KHJ/Scripts/GameManager.cs:118-119 | setting the current mission state changes nothing and issues nothing |
| Transitions.SetGameIdempotent | Assets/KHJ/Scripts/GameManager.cs:96-97 | setting the current game state changes nothing and issues nothing |
| Transitions.AnnounceLogs | Assets/KHJ/Scripts/GameManager.cs:121-128 | a real mission change stores the state, then logs the event with the new value and, when the text component is assigned, the text refresh, and nothing else |
| Transitions.RoomEntryQuiet | Assets/KHJ/Scripts/GameManager.cs:99-112 | entering Intro, Room1 or Room2 changes only the game state and issues nothing |
| Transitions.MissionEventOrder | Assets/KHJ/Scripts/GameManager.cs:121-135 | on a real mission change the event comes first, then the text refresh, and everything after them is a scene request |
| Transitions.MissionRoomEntry | Assets/KHJ/Scripts/GameManager.cs:130-149 | changing to a state with a room is the announcement, then the room's scene request, then entering the room |
| Transitions.MissionTable | Assets/KHJ/Scripts/GameManager.cs:130-156 | None, Tutorial and Mission4 move the game to Intro, Room1 and Room2; the other states keep the game state; only None raises the flag, and only when scene 0 exists |
| Transitions.MissionLogs | Assets/KHJ/Scripts/GameManager.cs:130-156 | a real mission change only extends the log, raises the event once with the new value, and requests the route's scene when it exists and no scene otherwise |
| Transitions.EndingStays | Assets/KHJ/Scripts/GameManager.cs:154-155 | entering Ending is the announcement alone |
| Transitions.VictoryTable | Assets/KHJ/Scripts/GameManager.cs:103-106 | entering Victory leaves game Victory and mission Ending and keeps the flag |
| Transitions.VictoryLogs | Assets/KHJ/Scripts/GameManager.cs:103-106 | entering Victory requests scene 3 first when it exists, then raises the event only if the mission was not already Ending |
| Transitions.DefeatTable | Assets/KHJ/Scripts/GameManager.cs:107-110 | entering Defeat leaves game Defeat and mission Ending, requests no scene, keeps the flag, and raises the event only if the mission was not already Ending |
| Transitions.SetGameBounded | Assets/KHJ/Scripts/GameManager.cs:94-114 | any call of SetGameState only extends the log, adds at most one scene request and one event, and ends in the requested game state |
| Transitions.SetMissionBounded | Assets/KHJ/Scripts/GameManager.cs:116-157 | any call of SetMissionState only extends the log, adds at most one scene request and one event, and ends in the requested mission state |
| Transitions.NextMissionWraps | Assets/KHJ/Scripts/GameManager.cs:159-163 | SetNextMissionState always raises the event with the successor; from Ending it reaches None and Intro, requests scene 0 when it exists and raises the flag then |
| Transitions.SceneLoadedClears | Assets/KHJ/Scripts/GameManager.cs:85-92 | the flag is cleared, and Initialize logged, exactly when the flag is set and the loaded name is the first scene's; a set flag with an empty list is the failing lookup; otherwise nothing changes |
| Transitions.Scene0RoundTrip | Assets/KHJ/Scripts/GameManager.cs:199-205 | requesting scene 0 and then receiving its load notification logs the request and one Initialize and restores the flag |
| Game.GameManager.constructor | Assets/KHJ/Scripts/GameManager.cs:36-57 | the declared field defaults: Intro, None, flag clear, canvas setting on, empty log |
| Game.GameManager.SetGameState | Assets/KHJ/Scripts/GameManager.cs:94-114 | the fields and the log afterwards are exactly what SetGameStep gives for the fields before |
| Game.GameManager.SetMissionState | Assets/KHJ/Scripts/GameManager.cs:116-157 | the fields and the log afterwards are exactly what SetMissionStep gives for the fields before |
| Game.GameManager.SetNextMissionState | Assets/KHJ/Scripts/GameManager.cs:159-163 | setting the cast of `(ordinal + 1) % 9` is SetMissionStep on the successor |
| Game.GameManager.TransitionToScene | Assets/KHJ/Scripts/GameManager.cs:190-206 | the flag and the log afterwards are exactly what TransitionStep gives |
| Game.GameManager.OnSceneLoaded | Assets/KHJ/Scripts/GameManager.cs:85-92 | the outcome, flag and log are what SceneLoadedStep gives |
| Game.GameManager.SetMainCanvasActive | Assets/KHJ/Scripts/GameManager.cs:208-212 | the setting is stored; the canvas shows it when one is assigned; the call reports failure exactly when none is |
| Game.GameManager.OnValidate | Assets/KHJ/Scripts/GameManager.cs:167-187 | the name list becomes the assigned assets' names in order, no longer than the asset list, containing exactly their names; the canvas callback is queued when a canvas is assigned |
| Game.GameManager.RunDelayedCanvasSync | Assets/KHJ/Scripts/GameManager.cs:181-185 | a queued callback copies the setting to an assigned canvas and is then no longer queued |

## Left out

- Awake, Start and OnDestroy are not modelled: the singleton instance, `Destroy(gameObject)` and the subscription to the engine's scene-loaded notification are engine plumbing. `OnSceneLoaded` is a method the environment calls with the loaded scene's name.
- Scene loading itself is not modelled. `SceneManager.LoadScene` is a `SceneRequested` entry in the log.
- Subscribers to the static mission-changed event are not modelled. The event is a log entry, and subscribers are assumed not to re-enter the setters. The entry is logged even when nobody is subscribed.
- `MissionText.UpdateMissionText` is a `MissionTextUpdated` entry, logged when the text component is assigned.
- `Initialize` is an `Initialized` entry. Its call into `DataManager` is foreign code and is not modelled.
- `OpeningUIManager` is not modelled. The model has no code that uses it.
- `Debug.Log` and `Debug.LogError` are not modelled.
- `SceneAsset` is not modelled; a slot of the asset list is either unassigned or an asset's name.
- `EditorApplication.delayCall` does not defer anything in the model. The deferral is a queued flag, and `RunDelayedCanvasSync` is the callback the editor later runs. Several queued callbacks with the same effect are one flag.
- SetMainCanvasActive: with no canvas assigned, the original throws after storing the setting. The model stores the setting and returns false.
- OnSceneLoaded: with the flag set and an empty name list, the original throws when it reads the first name. The model returns the outcome `NoSceneNames` and changes nothing.
- SetMissionState: the nine-case switch is written as a match on its table `RouteOf`, with the same three loading cases and six empty ones.
- The values of the enumerations beyond their declared order are not modelled. C#'s permission to cast an out-of-range integer to an enum goes unused, because the modulo keeps the index below nine.
