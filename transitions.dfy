/** What each state-machine operation of GameManager does, as functions
    from its state to its new state and the effects it issues, in order.
    SetGameStep and SetMissionStep call each other as the two setters do;
    the ranks show that the mutual recursion stops after one nested call.
    Game.GameManager's methods are proved to follow these steps exactly; the
    lemmas below state the switch tables and the other promises in closed
    form. */
module Transitions {
  import opened States
  import opened Scenes
  import opened Effects

  /** What the setters read but never change: the scene-name list and
      whether the mission-text component is assigned. */
  datatype Setup = Setup(sceneNames: seq<string>, hasMissionText: bool)

  /** What the setters change: the two states, the flag that asks for
      re-initialisation once scene 0 has loaded, and the log of every effect
      issued so far, in order. */
  datatype Machine = Machine(game: GameState, mission: MissionState, pendingInit: bool,
                             log: seq<Effect>)

  /** The scene index entered on victory. */
  const VictorySceneIndex: int := 3

  /** What entering a mission state demands besides the event and the text refresh. */
  datatype MissionRoute = StayInScene | LoadRoom(sceneIndex: int, room: GameState)

  /** The switch of SetMissionState as a table: None, Tutorial and Mission4
      load a room, every other state stays in the current scene. */
  function RouteOf(m: MissionState): MissionRoute
  {
    match m
    case None => LoadRoom(0, Intro)
    case Tutorial => LoadRoom(1, Room1)
    case Mission4 => LoadRoom(2, Room2)
    case _ => StayInScene
  }

  /** TransitionToScene: a bounds-checked request for a scene by index. */
  function TransitionStep(c: Setup, s: Machine, sceneIndex: int): Machine
  {
    if sceneIndex < 0 || sceneIndex >= |c.sceneNames| then s
    else
      var flagged := if sceneIndex == 0 then s.(pendingInit := true) else s;
      flagged.(log := flagged.log + [SceneRequested(c.sceneNames[sceneIndex])])
  }

  /** The text refresh, issued only when the text component is assigned. */
  function TextEffects(c: Setup): seq<Effect>
  {
    if c.hasMissionText then [MissionTextUpdated] else []
  }

  /** The first half of a real mission change: store the new state, raise
      the event with it, then refresh the text. */
  function Announce(c: Setup, s: Machine, m: MissionState): Machine
  {
    var raised := s.(mission := m, log := s.log + [MissionChanged(m)]);
    if c.hasMissionText then raised.(log := raised.log + [MissionTextUpdated]) else raised
  }

  /** How deep a call of SetGameStep can nest: only Victory and Defeat go
      on into SetMissionStep. */
  function GameRank(g: GameState): nat
  {
    if g == Victory || g == Defeat then 1 else 0
  }

  /** How deep a call of SetMissionStep can nest: only the states that load
      a room go on into SetGameStep. */
  function MissionRank(m: MissionState): nat
  {
    if RouteOf(m).LoadRoom? then 1 else 0
  }

  /** SetGameState: on a real change, store the new state, then follow the
      switch: Victory requests its scene and ends the mission, Defeat ends
      the mission, the rooms do nothing more. */
  function SetGameStep(c: Setup, s: Machine, g: GameState): Machine
    decreases GameRank(g)
  {
    if s.game == g then s
    else
      var stored := s.(game := g);
      match g
      case Victory => SetMissionStep(c, TransitionStep(c, stored, VictorySceneIndex), Ending)
      case Defeat => SetMissionStep(c, stored, Ending)
      case _ => stored
  }

  /** SetMissionState: on a real change, store the new state, raise the
      event, refresh the text, then follow the switch: a state with a room
      requests its scene and enters the room. */
  function SetMissionStep(c: Setup, s: Machine, m: MissionState): Machine
    decreases MissionRank(m)
  {
    if s.mission == m then s
    else
      var told := Announce(c, s, m);
      match RouteOf(m)
      case StayInScene => told
      case LoadRoom(i, room) => SetGameStep(c, TransitionStep(c, told, i), room)
  }

  /** SetNextMissionState. */
  function NextMissionStep(c: Setup, s: Machine): Machine
  {
    SetMissionStep(c, s, NextMission(s.mission))
  }

  /** How a scene-loaded notification was handled. */
  datatype LoadOutcome =
    | Ignored          // flag clear, or another scene loaded
    | Reinitialized    // flag cleared and Initialize run
    | NoSceneNames     // flag set but the name list is empty: reading its first entry fails

  /** OnSceneLoaded, for the loaded scene's name. */
  function SceneLoadedStep(c: Setup, s: Machine, loaded: string): (LoadOutcome, Machine)
  {
    if !s.pendingInit then (Ignored, s)
    else if |c.sceneNames| == 0 then (NoSceneNames, s)
    else if loaded != c.sceneNames[0] then (Ignored, s)
    else (Reinitialized, s.(pendingInit := false, log := s.log + [Initialized]))
  }

  // ---------------------------------------------------------------------------
  // Scene requests

  /** An index outside the name list requests nothing and changes nothing; a
      valid index appends exactly that entry's request to the log and raises
      the flag exactly when it is 0. */
  lemma TransitionGuard(c: Setup, s: Machine, i: int)
    ensures var t := TransitionStep(c, s, i);
      && (i < 0 || i >= |c.sceneNames| ==> t == s)
      && (0 <= i < |c.sceneNames| ==>
            && t.log == s.log + [SceneRequested(c.sceneNames[i])]
            && t.pendingInit == (i == 0 || s.pendingInit)
            && t.game == s.game && t.mission == s.mission)
  {
  }

  /** A scene request keeps both states, raises no event, and only adds
      requests to the log. */
  lemma TransitionFrame(c: Setup, s: Machine, i: int)
    ensures var t := TransitionStep(c, s, i);
      && t.game == s.game && t.mission == s.mission
      && MissionLog(t.log) == MissionLog(s.log)
      && SceneLog(t.log) == SceneLog(s.log) + (if 0 <= i < |c.sceneNames| then [c.sceneNames[i]] else [])
      && s.log <= t.log
      && (forall e :: e in t.log[|s.log|..] ==> e.SceneRequested?)
  {
    var t := TransitionStep(c, s, i);
    if 0 <= i < |c.sceneNames| {
      LogsPush(s.log, SceneRequested(c.sceneNames[i]));
      assert t.log[|s.log|..] == [SceneRequested(c.sceneNames[i])];
    } else {
      assert t.log[|s.log|..] == [];
    }
  }

  // ---------------------------------------------------------------------------
  // The two setters

  /** Setting a mission state to the current one is a no-op. */
  lemma SetMissionIdempotent(c: Setup, s: Machine, m: MissionState)
    requires s.mission == m
    ensures SetMissionStep(c, s, m) == s
  {
  }

  /** Setting a game state to the current one is a no-op. */
  lemma SetGameIdempotent(c: Setup, s: Machine, g: GameState)
    requires s.game == g
    ensures SetGameStep(c, s, g) == s
  {
  }

  /** The announcement stores the new mission state, adds one event with it
      and no scene request, and changes nothing else. */
  lemma AnnounceLogs(c: Setup, s: Machine, m: MissionState)
    ensures var a := Announce(c, s, m);
      && a.log == s.log + ([MissionChanged(m)] + TextEffects(c))
      && a == s.(mission := m, log := a.log)
      && MissionLog(a.log) == MissionLog(s.log) + [m]
      && SceneLog(a.log) == SceneLog(s.log)
  {
    LogsPush(s.log, MissionChanged(m));
    if c.hasMissionText {
      LogsPush(s.log + [MissionChanged(m)], MissionTextUpdated);
    }
  }

  /** Entering a room state changes only the game state and issues nothing. */
  lemma RoomEntryQuiet(c: Setup, s: Machine, room: GameState)
    requires room != Victory && room != Defeat
    ensures SetGameStep(c, s, room) == s.(game := room)
  {
  }

  /** A real mission change raises the event with the new value first, then
      refreshes the text, and only after that requests a scene. */
  lemma MissionEventOrder(c: Setup, s: Machine, m: MissionState)
    requires s.mission != m
    ensures var r := SetMissionStep(c, s, m);
      var head := s.log + ([MissionChanged(m)] + TextEffects(c));
      && head <= r.log
      && forall e :: e in r.log[|head|..] ==> e.SceneRequested?
  {
    var r := SetMissionStep(c, s, m);
    var a := Announce(c, s, m);
    AnnounceLogs(c, s, m);
    match RouteOf(m)
    case StayInScene =>
      assert r.log[|a.log|..] == [];
    case LoadRoom(i, room) =>
      var t := TransitionStep(c, a, i);
      TransitionFrame(c, a, i);
      RoomEntryQuiet(c, t, room);
      assert r.log == t.log;
  }

  /** A real change to a state with a room is the announcement, then the
      room's scene request, then entering the room. */
  lemma MissionRoomEntry(c: Setup, s: Machine, m: MissionState)
    requires s.mission != m && RouteOf(m).LoadRoom?
    ensures SetMissionStep(c, s, m)
         == TransitionStep(c, Announce(c, s, m), RouteOf(m).sceneIndex).(game := RouteOf(m).room)
  {
    RoomEntryQuiet(c, TransitionStep(c, Announce(c, s, m), RouteOf(m).sceneIndex), RouteOf(m).room);
  }

  /** The mission table: None, Tutorial and Mission4 move the game to Intro,
      Room1 and Room2, and only None raises the re-initialisation flag (when
      scene 0 exists); every other mission state keeps the game state. */
  lemma MissionTable(c: Setup, s: Machine, m: MissionState)
    requires s.mission != m
    ensures var r := SetMissionStep(c, s, m);
      && r.mission == m
      && (m == None ==> r.game == Intro)
      && (m == Tutorial ==> r.game == Room1)
      && (m == Mission4 ==> r.game == Room2)
      && (RouteOf(m).StayInScene? ==> r.game == s.game)
      && r.pendingInit == (s.pendingInit || (m == None && |c.sceneNames| > 0))
  {
    if RouteOf(m).LoadRoom? {
      var i := RouteOf(m).sceneIndex;
      MissionRoomEntry(c, s, m);
      TransitionGuard(c, Announce(c, s, m), i);
      assert i == 0 <==> m == None;
    }
  }

  /** What a real mission change logs: the log only grows, the event is
      raised exactly once with the new value, and the one scene requested is
      the route's scene when the name list has it, and none otherwise. */
  lemma MissionLogs(c: Setup, s: Machine, m: MissionState)
    requires s.mission != m
    ensures var r := SetMissionStep(c, s, m);
      && s.log <= r.log
      && MissionLog(r.log) == MissionLog(s.log) + [m]
      && (RouteOf(m).StayInScene? ==> SceneLog(r.log) == SceneLog(s.log))
      && (RouteOf(m).LoadRoom? ==>
            var i := RouteOf(m).sceneIndex;
            SceneLog(r.log) == SceneLog(s.log) + (if i < |c.sceneNames| then [c.sceneNames[i]] else []))
  {
    AnnounceLogs(c, s, m);
    if RouteOf(m).LoadRoom? {
      MissionRoomEntry(c, s, m);
      TransitionFrame(c, Announce(c, s, m), RouteOf(m).sceneIndex);
    }
  }

  /** Ending has no room: a real change to it is the announcement alone. */
  lemma EndingStays(c: Setup, s: Machine)
    ensures SetMissionStep(c, s, Ending) == if s.mission == Ending then s else Announce(c, s, Ending)
  {
  }

  /** The game table for victory: the game state is Victory, the mission
      ends, and the flag is kept (scene 3 is not scene 0). */
  lemma VictoryTable(c: Setup, s: Machine)
    requires s.game != Victory
    ensures var r := SetGameStep(c, s, Victory);
      && r.game == Victory
      && r.mission == Ending
      && r.pendingInit == s.pendingInit
  {
    var s1 := s.(game := Victory);
    TransitionGuard(c, s1, VictorySceneIndex);
    EndingStays(c, TransitionStep(c, s1, VictorySceneIndex));
  }

  /** What victory logs: scene 3 is requested first, when the name list has
      it, then the mission ends; the event is raised only when the mission
      was not already Ending. */
  lemma VictoryLogs(c: Setup, s: Machine)
    requires s.game != Victory
    ensures var r := SetGameStep(c, s, Victory);
      var requested := VictorySceneIndex < |c.sceneNames|;
      && s.log <= r.log
      && MissionLog(r.log) == MissionLog(s.log) + (if s.mission == Ending then [] else [Ending])
      && SceneLog(r.log) == SceneLog(s.log) + (if requested then [c.sceneNames[VictorySceneIndex]] else [])
      && (requested ==> |s.log| < |r.log| && r.log[|s.log|] == SceneRequested(c.sceneNames[VictorySceneIndex]))
  {
    var s1 := s.(game := Victory);
    var t := TransitionStep(c, s1, VictorySceneIndex);
    TransitionGuard(c, s1, VictorySceneIndex);
    TransitionFrame(c, s1, VictorySceneIndex);
    EndingStays(c, t);
    if t.mission != Ending {
      AnnounceLogs(c, t, Ending);
      var r := Announce(c, t, Ending);
      if VictorySceneIndex < |c.sceneNames| {
        assert r.log[|s.log|] == t.log[|s.log|];
      }
    }
  }

  /** The game table for defeat: the mission ends and no scene is requested;
      the event is raised only when the mission was not already Ending. */
  lemma DefeatTable(c: Setup, s: Machine)
    requires s.game != Defeat
    ensures var r := SetGameStep(c, s, Defeat);
      && r.game == Defeat
      && r.mission == Ending
      && s.log <= r.log
      && MissionLog(r.log) == MissionLog(s.log) + (if s.mission == Ending then [] else [Ending])
      && SceneLog(r.log) == SceneLog(s.log)
      && r.pendingInit == s.pendingInit
  {
    if s.mission != Ending {
      MissionTable(c, s.(game := Defeat), Ending);
      MissionLogs(c, s.(game := Defeat), Ending);
    }
  }

  /** Any top-level call of SetGameState only adds to the log, issues at
      most one scene request and raises the event at most once, and leaves
      the requested state as the final game state. */
  lemma SetGameBounded(c: Setup, s: Machine, g: GameState)
    ensures var r := SetGameStep(c, s, g);
      && s.log <= r.log
      && |SceneLog(r.log)| <= |SceneLog(s.log)| + 1
      && |MissionLog(r.log)| <= |MissionLog(s.log)| + 1
      && r.game == g
  {
    if s.game != g {
      match g
      case Victory => VictoryTable(c, s); VictoryLogs(c, s);
      case Defeat => DefeatTable(c, s);
      case _ => RoomEntryQuiet(c, s, g);
    }
  }

  /** Any top-level call of SetMissionState only adds to the log, issues at
      most one scene request and raises the event at most once, and leaves
      the requested state as the final mission state. */
  lemma SetMissionBounded(c: Setup, s: Machine, m: MissionState)
    ensures var r := SetMissionStep(c, s, m);
      && s.log <= r.log
      && |SceneLog(r.log)| <= |SceneLog(s.log)| + 1
      && |MissionLog(r.log)| <= |MissionLog(s.log)| + 1
      && r.mission == m
  {
    if s.mission != m {
      MissionTable(c, s, m);
      MissionLogs(c, s, m);
    }
  }

  /** SetNextMissionState always changes the mission, raising the event with
      the successor; from Ending it wraps to None, which requests scene 0,
      raises the flag and returns the game to Intro. */
  lemma NextMissionWraps(c: Setup, s: Machine)
    ensures MissionLog(NextMissionStep(c, s).log) == MissionLog(s.log) + [NextMission(s.mission)]
    ensures s.mission == Ending ==>
      var r := NextMissionStep(c, s);
      && r.mission == None
      && r.game == Intro
      && SceneLog(r.log) == SceneLog(s.log) + (if |c.sceneNames| > 0 then [c.sceneNames[0]] else [])
      && r.pendingInit == (s.pendingInit || |c.sceneNames| > 0)
  {
    NextMissionMoves(s.mission);
    MissionTable(c, s, NextMission(s.mission));
    MissionLogs(c, s, NextMission(s.mission));
  }

  // ---------------------------------------------------------------------------
  // The re-initialisation flag

  /** The flag is cleared only when it is set and the first scene's name is
      the one loaded; otherwise nothing changes. */
  lemma SceneLoadedClears(c: Setup, s: Machine, loaded: string)
    ensures var (outcome, r) := SceneLoadedStep(c, s, loaded);
      && (outcome == Reinitialized <==> s.pendingInit && |c.sceneNames| > 0 && loaded == c.sceneNames[0])
      && (outcome == Reinitialized ==> r == s.(pendingInit := false, log := s.log + [Initialized]))
      && (outcome != Reinitialized ==> r == s)
      && (outcome == NoSceneNames <==> s.pendingInit && |c.sceneNames| == 0)
  {
  }

  /** Requesting scene 0 and then receiving that scene's load notification
      runs Initialize once and leaves the flag as it was before. */
  lemma Scene0RoundTrip(c: Setup, s: Machine)
    requires |c.sceneNames| > 0 && !s.pendingInit
    ensures var t := TransitionStep(c, s, 0);
      var (outcome, r) := SceneLoadedStep(c, t, c.sceneNames[0]);
      && outcome == Reinitialized
      && r == s.(log := s.log + [SceneRequested(c.sceneNames[0]), Initialized])
  {
  }
}
