/** The scene configuration of GameManager: the editor's list of scene assets
    and the list of scene names that OnValidate derives from it. */
module Scenes {

  /** One slot of the scene-asset list: unassigned, or an asset with its name. */
  datatype SceneAsset = Missing | Asset(name: string)

  /** What one slot contributes to the name list. */
  function NameOf(a: SceneAsset): seq<string>
  {
    match a
    case Missing => []
    case Asset(n) => [n]
  }

  /** The scene-name list OnValidate builds: the names of the assigned
      assets, in the order of the asset list. */
  function NamesOf(assets: seq<SceneAsset>): (r: seq<string>)
    ensures |r| <= |assets|
  {
    if assets == [] then []
    else NamesOf(assets[..|assets| - 1]) + NameOf(assets[|assets| - 1])
  }

  /** Names of a concatenation are the concatenation of the names: the
      derived list keeps the order of the asset list. */
  lemma {:induction false} NamesOfAppend(a: seq<SceneAsset>, b: seq<SceneAsset>)
    ensures NamesOf(a + b) == NamesOf(a) + NamesOf(b)
  {
    if b == [] {
      assert a + b == a;
    } else {
      var front := b[..|b| - 1];
      assert (a + b)[..|a + b| - 1] == a + front;
      assert (a + b)[|a + b| - 1] == b[|b| - 1];
      NamesOfAppend(a, front);
    }
  }

  /** A name is in the derived list exactly when an asset of that name is
      in the asset list. */
  lemma {:induction false} NamesOfMembership(assets: seq<SceneAsset>, n: string)
    ensures n in NamesOf(assets) <==> Asset(n) in assets
  {
    if assets != [] {
      var front := assets[..|assets| - 1];
      assert assets == front + [assets[|assets| - 1]];
      NamesOfMembership(front, n);
    }
  }

  /** The derived list is as long as the asset list exactly when no slot
      is unassigned. */
  lemma {:induction false} NamesOfComplete(assets: seq<SceneAsset>)
    ensures |NamesOf(assets)| == |assets| <==> forall i :: 0 <= i < |assets| ==> assets[i].Asset?
  {
    if assets != [] {
      var front := assets[..|assets| - 1];
      NamesOfComplete(front);
      if assets[|assets| - 1].Missing? {
        assert |NamesOf(assets)| < |assets|;
      } else {
        assert forall i :: 0 <= i < |front| ==> front[i] == assets[i];
      }
    }
  }
}
