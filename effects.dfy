/** The outward effects GameManager issues, recorded in the order issued:
    the mission-changed event, the mission-text refresh, scene-load
    requests and the re-initialisation after scene 0 has loaded. */
module Effects {
  import opened States

  datatype Effect =
    | MissionChanged(mission: MissionState)   // OnMissionStateChanged raised with this value
    | MissionTextUpdated                      // the mission-text label asked to refresh
    | SceneRequested(name: string)            // SceneManager.LoadScene(name)
    | Initialized                             // Initialize() run after scene 0 loaded

  /** The scene names requested, in order. */
  function SceneLog(t: seq<Effect>): (r: seq<string>)
    ensures |r| <= |t|
  {
    if t == [] then []
    else SceneLog(t[..|t| - 1]) + (match t[|t| - 1] case SceneRequested(n) => [n] case _ => [])
  }

  /** The values the mission-changed event was raised with, in order. */
  function MissionLog(t: seq<Effect>): (r: seq<MissionState>)
    ensures |r| <= |t|
  {
    if t == [] then []
    else MissionLog(t[..|t| - 1]) + (match t[|t| - 1] case MissionChanged(m) => [m] case _ => [])
  }

  /** Both logs distribute over concatenation of traces. */
  lemma {:induction false} LogsAppend(a: seq<Effect>, b: seq<Effect>)
    ensures SceneLog(a + b) == SceneLog(a) + SceneLog(b)
    ensures MissionLog(a + b) == MissionLog(a) + MissionLog(b)
  {
    if b == [] {
      assert a + b == a;
    } else {
      var front := b[..|b| - 1];
      assert (a + b)[..|a + b| - 1] == a + front;
      assert (a + b)[|a + b| - 1] == b[|b| - 1];
      LogsAppend(a, front);
    }
  }

  /** Appending one effect extends each log by what that effect contributes to it. */
  lemma LogsPush(t: seq<Effect>, e: Effect)
    ensures SceneLog(t + [e]) == SceneLog(t) + (if e.SceneRequested? then [e.name] else [])
    ensures MissionLog(t + [e]) == MissionLog(t) + (if e.MissionChanged? then [e.mission] else [])
  {
    assert (t + [e])[..|t|] == t;
  }
}
