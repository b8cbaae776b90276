/**
 * The `compile` driver: prepares the options, runs the (external) compiler,
 * gathers problems from conversion, pre-emit and emit diagnostics, computes
 * the expected results, and runs the assertion step over them.
 */
module Compiler {
  import opened Wrappers
  import opened TypeScriptApi
  import opened Diagnostics
  import opened Options
  import opened Outputs
  import opened Reconcile

  /** What the driver hands back to the build tool. */
  datatype CompilationResult = CompilationResult(results: seq<CompilationFileResult>, problems: seq<Problem>)

  /** The problems among the program's pre-emit diagnostics. */
  function FindPreemitProblems(program: Program, ignoreList: Option<seq<nat>>): (ps: seq<Problem>)
    ensures |ps| <= |program.preEmitDiagnostics|
    ensures ignoreList.None? ==> |ps| == |program.preEmitDiagnostics|
    ensures forall p :: p in ps ==>
      exists d :: d in program.preEmitDiagnostics && Kept(d, ignoreList) && p == ParseDiagnostic(d)
  {
    ToProblems(program.preEmitDiagnostics, ignoreList)
  }

  /** The files the program is created over: the mapped inputs, then any extra files. */
  function FilesToCompile(sms: SourceMappings, sbt: SbtOptions): (files: seq<string>)
    ensures sms.asAbsolutePaths <= files
    ensures sbt.extraFiles.Some? ==> files[|sms.asAbsolutePaths|..] == sbt.extraFiles.value
    ensures sbt.extraFiles.None? ==> |files| == |sms.asAbsolutePaths|
  {
    sms.asAbsolutePaths + (if sbt.extraFiles.Some? then sbt.extraFiles.value else [])
  }

  /**
   * Whether the assertion step runs: it is asked for, and, with two asset
   * directories, the relocation of the emitted files it waits for succeeded.
   */
  function AssertionRuns(sbt: SbtOptions, relocationFailed: bool): (runs: bool)
    ensures !sbt.assertCompilation ==> !runs
    ensures |sbt.assetsDirs| != 2 ==> (runs <==> sbt.assertCompilation)
    ensures |sbt.assetsDirs| == 2 ==> (runs <==> sbt.assertCompilation && !relocationFailed)
  {
    sbt.assertCompilation && !(|sbt.assetsDirs| == 2 && relocationFailed)
  }

  /**
   * The outcome of compiling with converted options that carry no errors:
   * the problems are the pre-emit then the emit problems, the results are the
   * expected outputs of the mapped code files (none when emission was
   * skipped), and the assertion step reconciles those results.
   */
  ghost predicate ProgramOutcome(
    sms: SourceMappings, sbt: SbtOptions, converted: CompilerOptions, target: string, ext: Externals,
    relocationFailed: bool, res: CompilationResult, report: Option<Reconciliation>)
  {
    var options := TargetedOptions(converted, sbt, target);
    var program := ext.createProgram(FilesToCompile(sms, sbt), options);
    var emit := program.emitResult;
    && res.problems == FindPreemitProblems(program, sbt.tsCodesToIgnore) + ToProblems(emit.diagnostics, sbt.tsCodesToIgnore)
    && res.results == (if emit.emitSkipped then [] else CompiledResults(sms, options, program.sourceFiles))
    && report == (if AssertionRuns(sbt, relocationFailed) then Some(ReconcileOf(res.results, emit)) else None)
  }

  /**
   * The outcome of a compilation whose options were prepared into `raw`:
   * conversion errors alone become the problems and nothing is compiled;
   * otherwise it is the program's outcome.
   */
  ghost predicate CompiledAsSpecified(
    sms: SourceMappings, sbt: SbtOptions, raw: RawOptions, target: string, ext: Externals,
    relocationFailed: bool, res: CompilationResult, report: Option<Reconciliation>)
  {
    var conversion := ext.convert(raw, sbt.tsconfigDir);
    if |conversion.errors| > 0 then
      && res.problems == ToProblems(conversion.errors, sbt.tsCodesToIgnore)
      && res.results == []
      && report.None?
    else
      ProgramOutcome(sms, sbt, conversion.options, target, ext, relocationFailed, res, report)
  }

  /** `.map(toCompilationResult(...))` over the code files. */
  method MapCompilationResults(sms: SourceMappings, options: CompilerOptions, code: seq<SourceFile>)
    returns (mapped: seq<Option<CompilationFileResult>>)
    requires options.outDir.Some?
    ensures mapped == MappedResults(sms, options, code)
  {
    mapped := [];
    var i := 0;
    while i < |code|
      invariant 0 <= i <= |code|
      invariant |mapped| == i
      invariant forall k :: 0 <= k < i ==> mapped[k] == FileResultOf(sms, options, code[k])
    {
      var r := ToCompilationResult(sms, options, code[i]);
      mapped := mapped + [r];
      i := i + 1;
    }
  }

  /**
   * `compile`. An unsupported number of asset directories is the thrown
   * configuration error; otherwise the result and the assertion step's report
   * are as `CompiledAsSpecified` says, over the options as prepared in place.
   * The assertion step, which the source schedules after the relocation of
   * emitted files and which therefore sees the final results, runs last.
   */
  method Compile(
    sms: SourceMappings, sbt: SbtOptions, tsconfig: RawCompilerOptions, target: string, ext: Externals,
    relocationFailed: bool)
    returns (r: Result<CompilationResult, string>, report: Option<Reconciliation>)
    modifies tsconfig
    ensures tsconfig.Snapshot() == PreparedRaw(old(tsconfig.Snapshot()), sbt, target, ext)
    ensures r.Failure? <==> !SupportedDirCount(sbt)
    ensures r.Failure? ==> r.error == AssetDirCountError && report.None?
    ensures r.Success? ==>
      CompiledAsSpecified(sms, sbt, tsconfig.Snapshot(), target, ext, relocationFailed, r.value, report)
  {
    report := None;
    var converted := ToCompilerOptions(sbt, tsconfig, target, ext);
    if converted.Failure? {
      return Failure(converted.error), None;
    }
    var compilerOptions := converted.value.options;
    var errors := converted.value.errors;
    var problems: seq<Problem> := [];
    var results: seq<CompilationFileResult> := [];

    if |errors| > 0 {
      problems := problems + ToProblems(errors, sbt.tsCodesToIgnore);
      r := Success(CompilationResult(results, problems));
    } else {
      var res;
      res, report := CompileProgram(sms, sbt, compilerOptions, target, ext, relocationFailed);
      r := Success(res);
    }
  }

  /**
   * Completes the converted options in place before the program is created:
   * output directory, node-module lookup paths and type roots, base URL and
   * the wildcard path alias.
   */
  method PrepareOptions(converted: CompilerOptions, sbt: SbtOptions, target: string)
    returns (compilerOptions: CompilerOptions)
    ensures compilerOptions == TargetedOptions(converted, sbt, target)
  {
    compilerOptions := converted.(outDir := Some(target));
    var nodeModulesPaths: seq<string> := [];
    if sbt.resolveFromNodeModulesDir {
      nodeModulesPaths := nodeModulesPaths + Suffixed(sbt.nodeModulesDirs, "/*");
      nodeModulesPaths := nodeModulesPaths + Suffixed(sbt.nodeModulesDirs, "/@types/*");
      compilerOptions := compilerOptions.(typeRoots := Some(Suffixed(sbt.nodeModulesDirs, "/@types")));
    }
    assert nodeModulesPaths == NodeModulesPaths(sbt);
    compilerOptions := compilerOptions.(baseUrl := Some("."), paths := map["*" := ["*"] + nodeModulesPaths]);
  }

  /** The results of an emitted program: the mapped code files' expected outputs, none when emission was skipped. */
  method ExpectedResults(sms: SourceMappings, options: CompilerOptions, program: Program)
    returns (results: seq<CompilationFileResult>)
    requires options.outDir.Some?
    ensures results == if program.emitResult.emitSkipped then [] else CompiledResults(sms, options, program.sourceFiles)
  {
    if !program.emitResult.emitSkipped {
      var mapped := MapCompilationResults(sms, options, CodeFiles(program.sourceFiles));
      results := Flatten(mapped);
    } else {
      results := [];
    }
  }

  /** The part of `compile` after a conversion without errors. */
  method CompileProgram(
    sms: SourceMappings, sbt: SbtOptions, converted: CompilerOptions, target: string, ext: Externals,
    relocationFailed: bool)
    returns (res: CompilationResult, report: Option<Reconciliation>)
    ensures ProgramOutcome(sms, sbt, converted, target, ext, relocationFailed, res, report)
  {
    report := None;
    var compilerOptions := PrepareOptions(converted, sbt, target);
    var filesToCompile := sms.asAbsolutePaths;
    if sbt.extraFiles.Some? {
      filesToCompile := filesToCompile + sbt.extraFiles.value;
    }
    assert filesToCompile == FilesToCompile(sms, sbt);
    var program := ext.createProgram(filesToCompile, compilerOptions);
    var problems := FindPreemitProblems(program, sbt.tsCodesToIgnore);
    var emitOutput := program.emitResult;
    problems := problems + ToProblems(emitOutput.diagnostics, sbt.tsCodesToIgnore);
    var results := ExpectedResults(sms, compilerOptions, program);
    if AssertionRuns(sbt, relocationFailed) {
      var reconciliation := LogAndAssertEmitted(results, emitOutput);
      report := Some(reconciliation);
    }
    res := CompilationResult(results, problems);
  }

  /** When the converter reports errors, no file is compiled and every problem comes from a conversion error. */
  lemma ConversionErrorsOnly(
    sms: SourceMappings, sbt: SbtOptions, raw: RawOptions, target: string, ext: Externals,
    relocationFailed: bool, res: CompilationResult, report: Option<Reconciliation>)
    requires CompiledAsSpecified(sms, sbt, raw, target, ext, relocationFailed, res, report)
    requires |ext.convert(raw, sbt.tsconfigDir).errors| > 0
    ensures res.results == [] && report.None?
    ensures forall p :: p in res.problems ==>
      exists d :: d in ext.convert(raw, sbt.tsconfigDir).errors && p == ParseDiagnostic(d)
  {
  }

  /** When emission is skipped there are no results, and the assertion step never logs a mismatch. */
  lemma SkippedEmitHasNoResults(
    sms: SourceMappings, sbt: SbtOptions, raw: RawOptions, target: string, ext: Externals,
    relocationFailed: bool, res: CompilationResult, report: Option<Reconciliation>)
    requires CompiledAsSpecified(sms, sbt, raw, target, ext, relocationFailed, res, report)
    requires var conversion := ext.convert(raw, sbt.tsconfigDir);
      |conversion.errors| == 0 &&
      ext.createProgram(FilesToCompile(sms, sbt), TargetedOptions(conversion.options, sbt, target)).emitResult.emitSkipped
    ensures res.results == []
    ensures report.Some? ==> !report.value.mismatchLogged && report.value.emitted == []
  {
  }

  /**
   * When emission was not skipped and every code file has a mapping, there is
   * one result per code file, each listing the primary output plus one file
   * for declarations and one for a separate source map when those are on.
   */
  lemma EmittedResultsShape(
    sms: SourceMappings, sbt: SbtOptions, raw: RawOptions, target: string, ext: Externals,
    relocationFailed: bool, res: CompilationResult, report: Option<Reconciliation>)
    requires CompiledAsSpecified(sms, sbt, raw, target, ext, relocationFailed, res, report)
    requires var conversion := ext.convert(raw, sbt.tsconfigDir);
      var program := ext.createProgram(FilesToCompile(sms, sbt), TargetedOptions(conversion.options, sbt, target));
      |conversion.errors| == 0 && !program.emitResult.emitSkipped &&
      forall sf :: sf in program.sourceFiles && IsCodeFile(sf) ==> sms.find(sf.fileName).Some?
    ensures var conversion := ext.convert(raw, sbt.tsconfigDir);
      var program := ext.createProgram(FilesToCompile(sms, sbt), TargetedOptions(conversion.options, sbt, target));
      && |res.results| == |CodeFiles(program.sourceFiles)|
      && forall fr :: fr in res.results ==> |fr.result.filesWritten| == ExpectedCount(conversion.options)
  {
    var conversion := ext.convert(raw, sbt.tsconfigDir);
    var options := TargetedOptions(conversion.options, sbt, target);
    var program := ext.createProgram(FilesToCompile(sms, sbt), options);
    CompiledResultsCount(sms, options, program.sourceFiles);
    CompiledResultsShape(sms, options, program.sourceFiles);
    assert ExpectedCount(options) == ExpectedCount(conversion.options);
  }
}
