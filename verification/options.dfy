/**
 * Build-tool configuration and the in-place preparation of the raw
 * `compilerOptions` object before it is handed to the compiler's converter.
 */
module Options {
  import opened Wrappers
  import opened JsText
  import opened TypeScriptApi

  /** The configuration the build tool passes in; never changed. */
  datatype SbtOptions = SbtOptions(
    assetsDirs: seq<string>,
    nodeModulesDirs: seq<string>,
    resolveFromNodeModulesDir: bool,
    extraFiles: Option<seq<string>>,
    tsconfigDir: string,
    tsCodesToIgnore: Option<seq<nat>>,
    assertCompilation: bool)

  /** The `compilerOptions` object of the project configuration, which the driver edits in place. */
  class RawCompilerOptions {
    var outFile: Option<string>
    var rootDir: Option<string>
    var rootDirs: Option<seq<string>>
    var listEmittedFiles: bool

    /** The object's current contents, as the converter reads them. */
    function Snapshot(): RawOptions
      reads this
    {
      RawOptions(outFile, rootDir, rootDirs, listEmittedFiles)
    }
  }

  /** The message of the error thrown for an unsupported number of asset directories. */
  const AssetDirCountError := "nr of asset dirs should always be 1 or 2"

  /** Whether the number of asset directories is one the driver supports. */
  predicate SupportedDirCount(sbt: SbtOptions)
  {
    |sbt.assetsDirs| == 1 || |sbt.assetsDirs| == 2
  }

  /** The raw options after the driver's edits. */
  function PreparedRaw(raw: RawOptions, sbt: SbtOptions, target: string, ext: Externals): RawOptions
  {
    var withOutFile := if Truthy(raw.outFile) then raw.(outFile := Some(ext.join(target, raw.outFile.value))) else raw;
    if |sbt.assetsDirs| == 2 then withOutFile.(rootDirs := Some(sbt.assetsDirs), listEmittedFiles := true)
    else if |sbt.assetsDirs| == 1 then withOutFile.(rootDir := Some(sbt.assetsDirs[0]), listEmittedFiles := true)
    else withOutFile
  }

  /**
   * The driver's edits: a truthy `outFile` is re-rooted under the target, and
   * this happens even when the number of asset directories is then refused;
   * one asset directory sets `rootDir`, two set `rootDirs`, and only then is
   * `listEmittedFiles` switched on; nothing else changes.
   */
  lemma PreparedRawShape(raw: RawOptions, sbt: SbtOptions, target: string, ext: Externals)
    ensures var p := PreparedRaw(raw, sbt, target, ext);
      && p.outFile == (if Truthy(raw.outFile) then Some(ext.join(target, raw.outFile.value)) else raw.outFile)
      && p.rootDir == (if |sbt.assetsDirs| == 1 then Some(sbt.assetsDirs[0]) else raw.rootDir)
      && p.rootDirs == (if |sbt.assetsDirs| == 2 then Some(sbt.assetsDirs) else raw.rootDirs)
      && p.listEmittedFiles == (SupportedDirCount(sbt) || raw.listEmittedFiles)
  {
  }

  /**
   * `toCompilerOptions`: edits the raw options in place and converts them; an
   * unsupported number of asset directories is the thrown error, after the
   * `outFile` edit.
   */
  method ToCompilerOptions(sbt: SbtOptions, raw: RawCompilerOptions, target: string, ext: Externals)
    returns (r: Result<Conversion, string>)
    modifies raw
    ensures raw.Snapshot() == PreparedRaw(old(raw.Snapshot()), sbt, target, ext)
    ensures SupportedDirCount(sbt) ==> r == Success(ext.convert(raw.Snapshot(), sbt.tsconfigDir))
    ensures !SupportedDirCount(sbt) ==> r == Failure(AssetDirCountError)
  {
    if Truthy(raw.outFile) {
      var outFile := ext.join(target, raw.outFile.value);
      raw.outFile := Some(outFile);
    }
    if |sbt.assetsDirs| == 2 {
      raw.rootDirs := Some(sbt.assetsDirs);
    } else if |sbt.assetsDirs| == 1 {
      raw.rootDir := Some(sbt.assetsDirs[0]);
    } else {
      return Failure(AssetDirCountError);
    }
    raw.listEmittedFiles := true;
    r := Success(ext.convert(raw.Snapshot(), sbt.tsconfigDir));
  }

  /** Appends `suffix` to every directory, in order. */
  function Suffixed(dirs: seq<string>, suffix: string): (r: seq<string>)
    ensures |r| == |dirs| && forall i :: 0 <= i < |dirs| ==> r[i] == dirs[i] + suffix
  {
    seq(|dirs|, i requires 0 <= i < |dirs| => dirs[i] + suffix)
  }

  /** The module-lookup patterns added for node-module directories. */
  function NodeModulesPaths(sbt: SbtOptions): seq<string>
  {
    if sbt.resolveFromNodeModulesDir
    then Suffixed(sbt.nodeModulesDirs, "/*") + Suffixed(sbt.nodeModulesDirs, "/@types/*")
    else []
  }

  /**
   * The converted options as the driver completes them before creating the
   * program: output directory, type roots when resolving from node modules,
   * base URL and the wildcard path alias.
   */
  function TargetedOptions(options: CompilerOptions, sbt: SbtOptions, target: string): (r: CompilerOptions)
    ensures r.outDir == Some(target) && r.baseUrl == Some(".")
    ensures r.paths.Keys == {"*"}
    ensures "*" in r.paths && |r.paths["*"]| > 0 && r.paths["*"][0] == "*"
    ensures r.outFile == options.outFile && r.declaration == options.declaration
    ensures r.sourceMap == options.sourceMap && r.inlineSourceMap == options.inlineSourceMap
    ensures sbt.resolveFromNodeModulesDir ==>
      && r.typeRoots == Some(Suffixed(sbt.nodeModulesDirs, "/@types"))
      && |r.paths["*"]| == 1 + 2 * |sbt.nodeModulesDirs|
      && forall i :: 0 <= i < |sbt.nodeModulesDirs| ==>
           r.paths["*"][1 + i] == sbt.nodeModulesDirs[i] + "/*" &&
           r.paths["*"][1 + |sbt.nodeModulesDirs| + i] == sbt.nodeModulesDirs[i] + "/@types/*"
    ensures !sbt.resolveFromNodeModulesDir ==> r.paths["*"] == ["*"] && r.typeRoots == options.typeRoots
  {
    options.(
      outDir := Some(target),
      typeRoots := if sbt.resolveFromNodeModulesDir then Some(Suffixed(sbt.nodeModulesDirs, "/@types")) else options.typeRoots,
      baseUrl := Some("."),
      paths := map["*" := ["*"] + NodeModulesPaths(sbt)])
  }
}
