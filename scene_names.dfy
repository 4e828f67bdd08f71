// The name shown when a scene is entered (GameSceneManager.cs: GetSceneDisplayName, FormatSceneName).
module SceneNames {
  import opened Common

  /** A configured display name for a scene. */
  datatype SceneNameConfig = SceneNameConfig(sceneName: string, displayName: string)

  /** A scene name with a space put before every upper-case letter after the first character. */
  function Spaced(s: string): string
  {
    if |s| == 0 then ""
    else
      var i := |s| - 1;
      Spaced(s[..i]) + (if i > 0 && IsUpperAscii(s[i]) then " " else "") + [s[i]]
  }

  /** `FormatSceneName`: "Unknown Scene" for an empty name, else the spaced name. */
  function FormattedName(s: string): string
  {
    if |s| == 0 then "Unknown Scene" else Spaced(s)
  }

  /** The upper-case letters after the first character. */
  function UppersAfterFirst(s: string): nat
  {
    if |s| == 0 then 0
    else UppersAfterFirst(s[..|s| - 1]) + (if |s| - 1 > 0 && IsUpperAscii(s[|s| - 1]) then 1 else 0)
  }

  /** Removes every space that stands directly before an upper-case letter. */
  function Unspaced(t: string): string
  {
    if |t| == 0 then ""
    else if |t| >= 2 && t[|t| - 2] == ' ' && IsUpperAscii(t[|t| - 1]) then Unspaced(t[..|t| - 2]) + [t[|t| - 1]]
    else Unspaced(t[..|t| - 1]) + [t[|t| - 1]]
  }

  /** One space is added per upper-case letter after the first character, and nothing else. */
  lemma {:induction false} SpacedLength(s: string)
    ensures |Spaced(s)| == |s| + UppersAfterFirst(s)
  {
    if |s| > 0 {
      SpacedLength(s[..|s| - 1]);
    }
  }

  /** The spaces `FormatSceneName` inserts are exactly the ones `Unspaced` removes: the name comes back. */
  lemma {:induction false} UnspaceSpaced(s: string)
    ensures Unspaced(Spaced(s)) == s
  {
    if |s| > 0 {
      var i := |s| - 1;
      var init := s[..i];
      assert init + [s[i]] == s;
      UnspaceSpaced(init);
      var p := Spaced(init);
      if i > 0 && IsUpperAscii(s[i]) {
        assert Spaced(s) == p + [' ', s[i]];
        UnspacedSpaceUpper(p, s[i]);
      } else {
        assert Spaced(s) == p + [s[i]];
        if i == 0 {
          assert p == "";
        }
        UnspacedOther(p, s[i]);
      }
    }
  }

  /** A space before an upper-case letter is removed. */
  lemma UnspacedSpaceUpper(p: string, c: char)
    requires IsUpperAscii(c)
    ensures Unspaced(p + [' ', c]) == Unspaced(p) + [c]
  {
    var t := p + [' ', c];
    assert t[..|t| - 2] == p;
  }

  /** A character that does not follow a space as an upper-case letter is kept. */
  lemma UnspacedOther(p: string, c: char)
    requires !(|p| >= 1 && p[|p| - 1] == ' ' && IsUpperAscii(c))
    ensures Unspaced(p + [c]) == Unspaced(p) + [c]
  {
    var t := p + [c];
    assert t[..|t| - 1] == p;
  }

  /** A formatted name is never empty, and a non-empty name is kept up to the inserted spaces. */
  lemma FormattedNameInverts(s: string)
    ensures |FormattedName(s)| > 0
    ensures |s| > 0 ==> Unspaced(FormattedName(s)) == s && |FormattedName(s)| == |s| + UppersAfterFirst(s)
  {
    SpacedLength(s);
    if |s| > 0 {
      UnspaceSpaced(s);
    }
  }

  /** The display name of the first configured scene of that name, skipping missing configs. */
  function FirstConfigured(configs: seq<Option<SceneNameConfig>>, sceneName: string, from: nat := 0): (r: Option<string>)
    ensures r.Some? ==> exists k :: from <= k < |configs| && configs[k] == Some(SceneNameConfig(sceneName, r.value)) &&
                                    forall j :: from <= j < k ==> !(configs[j].Some? && configs[j].value.sceneName == sceneName)
    ensures r.None? ==> forall j :: from <= j < |configs| ==> !(configs[j].Some? && configs[j].value.sceneName == sceneName)
    decreases |configs| - from
  {
    if from >= |configs| then None
    else if configs[from].Some? && configs[from].value.sceneName == sceneName then Some(configs[from].value.displayName)
    else FirstConfigured(configs, sceneName, from + 1)
  }

  class GameSceneManager {
    /** `sceneConfigs`: the array may be unassigned, and so may any of its entries. */
    var sceneConfigs: Option<seq<Option<SceneNameConfig>>>

    constructor (sceneConfigs: Option<seq<Option<SceneNameConfig>>>)
      ensures this.sceneConfigs == sceneConfigs
    {
      this.sceneConfigs := sceneConfigs;
    }

    /** `GetSceneDisplayName`: a configured display name wins; otherwise the formatted scene name. */
    method GetSceneDisplayName(sceneName: string) returns (r: string)
      ensures sceneConfigs.Some? && FirstConfigured(sceneConfigs.value, sceneName).Some? ==>
        r == FirstConfigured(sceneConfigs.value, sceneName).value
      ensures sceneConfigs.None? || FirstConfigured(sceneConfigs.value, sceneName).None? ==>
        r == FormattedName(sceneName)
    {
      if sceneConfigs.Some? {
        var configs := sceneConfigs.value;
        var i := 0;
        while i < |configs|
          invariant 0 <= i <= |configs|
          invariant FirstConfigured(configs, sceneName) == FirstConfigured(configs, sceneName, i)
        {
          var config := configs[i];
          if config.Some? && config.value.sceneName == sceneName {
            return config.value.displayName;
          }
          i := i + 1;
        }
      }
      r := FormatSceneName(sceneName);
    }

    /** `FormatSceneName`, appending one character (and perhaps a space before it) at a time. */
    method FormatSceneName(sceneName: string) returns (formatted: string)
      ensures formatted == FormattedName(sceneName)
    {
      if |sceneName| == 0 {
        return "Unknown Scene";
      }
      formatted := "";
      var i := 0;
      while i < |sceneName|
        invariant 0 <= i <= |sceneName|
        invariant formatted == Spaced(sceneName[..i])
      {
        assert sceneName[..i + 1][..i] == sceneName[..i];
        if i > 0 && IsUpperAscii(sceneName[i]) {
          formatted := formatted + " ";
        }
        formatted := formatted + [sceneName[i]];
        i := i + 1;
      }
      assert sceneName[..i] == sceneName;
    }
  }
}
