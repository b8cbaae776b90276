/**
 * The common prefix of the two asset directories and what remains of each
 * after it, used to move output emitted under two root directories.
 */
module AssetDirs {
  import opened Wrappers
  import JsText

  /**
   * `common` is a prefix of both paths that stops at the end of either path or
   * at the first position where they differ: a plain character comparison,
   * not aware of path segments.
   */
  predicate IsCommonPath(path1: string, path2: string, common: string)
  {
    common <= path1 && common <= path2 &&
    (|common| == |path1| || |common| == |path2| || path1[|common|] != path2[|common|])
  }

  /** `commonPath`: grows the prefix one character at a time until the paths differ. */
  method CommonPath(path1: string, path2: string) returns (common: string)
    ensures IsCommonPath(path1, path2, common)
  {
    common := "";
    var i := 0;
    while i < |path1|
      invariant 0 <= i <= |path1|
      invariant common == path1[..i] && common <= path2
    {
      // charAt past the end of path2 is "", which equals no character
      if i < |path2| && path1[i] == path2[i] {
        common := common + [path1[i]];
      } else {
        return;
      }
      i := i + 1;
    }
  }

  /** The longest common prefix of two strings. */
  function LongestCommonPrefix(path1: string, path2: string): string
  {
    if path1 == [] || path2 == [] || path1[0] != path2[0] then []
    else [path1[0]] + LongestCommonPrefix(path1[1..], path2[1..])
  }

  /** The common path of two paths is determined by them: it is their longest common prefix. */
  lemma {:induction false} CommonPathUnique(path1: string, path2: string, common: string)
    requires IsCommonPath(path1, path2, common)
    ensures common == LongestCommonPrefix(path1, path2)
  {
    if common != [] {
      assert common[1..] <= path1[1..] && common[1..] <= path2[1..];
      CommonPathUnique(path1[1..], path2[1..], common[1..]);
    }
  }

  /** The common paths of the asset-directory pairs a build typically has. */
  lemma CommonPathExamples()
    ensures LongestCommonPrefix("src/main/assets", "src/test/assets") == "src/"
    ensures LongestCommonPrefix("abc", "abd") == "ab"
    ensures LongestCommonPrefix("a", "b") == ""
  {
  }

  /**
   * The remainder computation of `moveEmittedTestAssets`: each asset
   * directory is its common path followed by its remainder.
   */
  method RelativeAssetPaths(assetsDirs: seq<string>)
    returns (common: string, relPathAssets: string, relPathTestAssets: string)
    requires |assetsDirs| == 2
    ensures IsCommonPath(assetsDirs[0], assetsDirs[1], common)
    ensures common + relPathAssets == assetsDirs[0]
    ensures common + relPathTestAssets == assetsDirs[1]
  {
    common := CommonPath(assetsDirs[0], assetsDirs[1]);
    relPathAssets := JsText.Substring(assetsDirs[0], Some(|common|), None);
    relPathTestAssets := JsText.Substring(assetsDirs[1], Some(|common|), None);
    JsText.SubstringFrom(assetsDirs[0], |common|);
    JsText.SubstringFrom(assetsDirs[1], |common|);
    assert assetsDirs[0] == common + assetsDirs[0][|common|..];
    assert assetsDirs[1] == common + assetsDirs[1][|common|..];
  }
}
