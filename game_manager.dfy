/** The GameManager component itself: its fields, and the methods that
    update them step by step as the original does. The state-machine methods
    are proved to leave the state and the effect log exactly as the matching
    step of module Transitions says; the canvas and validation methods state
    their new fields directly. */
module Game {
  import opened States
  import opened Scenes
  import opened Effects
  import opened Transitions

  class GameManager {
    var gameState: GameState
    var missionState: MissionState
    var sceneAssets: seq<SceneAsset>
    var sceneNames: seq<string>
    /** Re-initialise once scene 0 has loaded. */
    var pendingInit: bool
    /** The mission-text component is assigned. */
    var hasMissionText: bool
    /** The main canvas is assigned. */
    var hasMainCanvas: bool
    /** The remembered canvas setting. */
    var canvasActive: bool
    /** The canvas component's own enabled state. */
    var canvasEnabled: bool
    /** An editor callback that copies the setting to the canvas is pending. */
    var canvasSyncQueued: bool
    /** Every effect issued so far, in order. */
    ghost var trace: seq<Effect>

    /** The state the setters change, with the effects issued so far. */
    ghost function State(): Machine
      reads this
    {
      Machine(gameState, missionState, pendingInit, trace)
    }

    /** What the setters read and never change. */
    ghost function Config(): Setup
      reads this
    {
      Setup(sceneNames, hasMissionText)
    }

    /** The scene-load requests issued so far. */
    ghost function SceneRequests(): seq<string>
      reads this
    {
      SceneLog(trace)
    }

    /** The values the mission-changed event has been raised with so far. */
    ghost function MissionEvents(): seq<MissionState>
      reads this
    {
      MissionLog(trace)
    }

    /** A manager with the declared field defaults and the components and
        scene lists configured in the editor. */
    constructor (assets: seq<SceneAsset>, names: seq<string>, missionText: bool,
                 mainCanvas: bool, canvasInitiallyEnabled: bool)
      ensures State() == Machine(Intro, None, false, [])
      ensures sceneAssets == assets && sceneNames == names
      ensures hasMissionText == missionText && hasMainCanvas == mainCanvas
      ensures canvasActive && canvasEnabled == canvasInitiallyEnabled && !canvasSyncQueued
    {
      gameState, missionState := Intro, None;
      sceneAssets, sceneNames := assets, names;
      pendingInit := false;
      hasMissionText, hasMainCanvas := missionText, mainCanvas;
      canvasActive, canvasEnabled := true, canvasInitiallyEnabled;
      canvasSyncQueued := false;
      trace := [];
    }

    method SetGameState(newGameState: GameState)
      modifies this`gameState, this`missionState, this`pendingInit, this`trace
      decreases GameRank(newGameState)
      ensures State() == SetGameStep(old(Config()), old(State()), newGameState)
    {
      if gameState == newGameState {
        return;
      }
      gameState := newGameState;
      match gameState {
        case Victory =>
          TransitionToScene(VictorySceneIndex);
          SetMissionState(Ending);
        case Defeat =>
          SetMissionState(Ending);
        case _ =>
      }
    }

    method SetMissionState(newMissionState: MissionState)
      modifies this`gameState, this`missionState, this`pendingInit, this`trace
      decreases MissionRank(newMissionState)
      ensures State() == SetMissionStep(old(Config()), old(State()), newMissionState)
    {
      if missionState == newMissionState {
        return;
      }
      missionState := newMissionState;
      trace := trace + [MissionChanged(missionState)];
      if hasMissionText {
        trace := trace + [MissionTextUpdated];
      }
      // The switch on the new mission state, written as its table.
      match RouteOf(missionState) {
        case LoadRoom(sceneIndex, room) =>
          TransitionToScene(sceneIndex);
          SetGameState(room);
        case StayInScene =>
      }
    }

    method SetNextMissionState()
      modifies this`gameState, this`missionState, this`pendingInit, this`trace
      ensures State() == NextMissionStep(old(Config()), old(State()))
    {
      var nextIndex := (Ordinal(missionState) + 1) % MissionCount;
      NextMissionIsCast(missionState);
      SetMissionState(MissionAt(nextIndex));
    }

    method TransitionToScene(sceneIndex: int)
      modifies this`pendingInit, this`trace
      ensures State() == TransitionStep(old(Config()), old(State()), sceneIndex)
    {
      if sceneIndex < 0 || sceneIndex >= |sceneNames| {
        return;
      }
      if sceneIndex == 0 {
        pendingInit := true;
      }
      var targetScene := sceneNames[sceneIndex];
      trace := trace + [SceneRequested(targetScene)];
    }

    /** The handler for the engine's scene-loaded notification. */
    method OnSceneLoaded(loadedName: string) returns (outcome: LoadOutcome)
      modifies this`pendingInit, this`trace
      ensures outcome == SceneLoadedStep(old(Config()), old(State()), loadedName).0
      ensures State() == SceneLoadedStep(old(Config()), old(State()), loadedName).1
    {
      outcome := Ignored;
      if pendingInit {
        if |sceneNames| == 0 {
          outcome := NoSceneNames;
          return;
        }
        if loadedName == sceneNames[0] {
          pendingInit := false;
          trace := trace + [Initialized];
          outcome := Reinitialized;
        }
      }
    }

    /** Stores the setting and shows it on the canvas. Returns false when no
        canvas is assigned, where the original fails after storing it. */
    method SetMainCanvasActive(isActive: bool) returns (ok: bool)
      modifies this`canvasActive, this`canvasEnabled
      ensures ok == hasMainCanvas
      ensures canvasActive == isActive
      ensures canvasEnabled == if hasMainCanvas then isActive else old(canvasEnabled)
    {
      canvasActive := isActive;
      ok := hasMainCanvas;
      if ok {
        canvasEnabled := canvasActive;
      }
    }

    /** The editor's validation hook: refill the name list from the asset
        list, keeping the assigned assets' names in order, then queue the
        callback that shows the stored setting on an assigned canvas. */
    method OnValidate()
      modifies this`sceneNames, this`canvasSyncQueued
      ensures sceneNames == NamesOf(sceneAssets)
      ensures |sceneNames| <= |sceneAssets|
      ensures forall n :: n in sceneNames <==> Asset(n) in sceneAssets
      ensures canvasSyncQueued == (old(canvasSyncQueued) || hasMainCanvas)
    {
      sceneNames := [];
      for k := 0 to |sceneAssets|
        invariant sceneNames == NamesOf(sceneAssets[..k])
        invariant canvasSyncQueued == old(canvasSyncQueued)
      {
        assert sceneAssets[..k + 1][..k] == sceneAssets[..k];
        match sceneAssets[k] {
          case Asset(n) =>
            sceneNames := sceneNames + [n];
          case Missing =>
        }
      }
      assert sceneAssets[..|sceneAssets|] == sceneAssets;
      forall n
        ensures n in sceneNames <==> Asset(n) in sceneAssets
      {
        NamesOfMembership(sceneAssets, n);
      }
      if hasMainCanvas {
        canvasSyncQueued := true;
      }
    }

    /** The callback OnValidate queues, when the editor runs it. */
    method RunDelayedCanvasSync()
      modifies this`canvasEnabled, this`canvasSyncQueued
      ensures !canvasSyncQueued
      ensures canvasEnabled == if old(canvasSyncQueued) && hasMainCanvas then canvasActive else old(canvasEnabled)
    {
      if canvasSyncQueued {
        canvasSyncQueued := false;
        if hasMainCanvas {
          canvasEnabled := canvasActive;
        }
      }
    }
  }
}
