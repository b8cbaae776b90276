/**
 * The files the driver expects the compiler to write for each code file, and
 * the collection of those expectations over the program.
 */
module Outputs {
  import opened Wrappers
  import opened JsText
  import opened TypeScriptApi

  datatype SourceMapping = SourceMapping(relativePath: string, absolutePath: string)

  /**
   * The mapping set the build tool passes in: the absolute input paths, the
   * lookup of a compiler-visible file name (absent means "skip this file"),
   * and the output path of a mapping under an output root with an extension.
   */
  datatype SourceMappings = SourceMappings(
    asAbsolutePaths: seq<string>,
    find: string -> Option<SourceMapping>,
    toOutputPath: (SourceMapping, string, string) -> string)

  datatype FileResult = FileResult(filesRead: seq<string>, filesWritten: seq<string>)

  datatype CompilationFileResult = CompilationFileResult(source: string, result: FileResult)

  /** A declaration file is one whose last five characters are ".d.ts". */
  function IsDeclarationFile(f: SourceFile): (r: bool)
    ensures r <==> EndsWith(f.fileName, ".d.ts")
  {
    SubstringFrom(f.fileName, |f.fileName| - 5);
    ".d.ts" == Substring(f.fileName, Some(|f.fileName| - 5), None)
  }

  /** Every file that is not a declaration file is a code file. */
  function IsCodeFile(f: SourceFile): (r: bool)
    ensures r <==> !EndsWith(f.fileName, ".d.ts")
  {
    !IsDeclarationFile(f)
  }

  /** A truthy `outFile` option replaces the per-file output. */
  function DetermineOutFile(outFile: string, options: CompilerOptions): string
  {
    if Truthy(options.outFile) then options.outFile.value else outFile
  }

  /** What `toCompilationResult` gives for one source file. */
  function FileResultOf(sms: SourceMappings, options: CompilerOptions, sf: SourceFile): Option<CompilationFileResult>
    requires options.outDir.Some?
  {
    match sms.find(sf.fileName)
    case None => None
    case Some(sm) =>
      var outputFile := DetermineOutFile(sms.toOutputPath(sm, options.outDir.value, ".js"), options);
      var declaration := if options.declaration then [sms.toOutputPath(sm, options.outDir.value, ".d.ts")] else [];
      var sourceMap := if options.sourceMap && !options.inlineSourceMap then [outputFile + ".map"] else [];
      Some(CompilationFileResult(sf.fileName, FileResult([sf.fileName] + sf.referencedFiles, [outputFile] + declaration + sourceMap)))
  }

  /**
   * The expected outputs of one code file, built by pushing onto the list of
   * written files. The output directory is always set by the caller.
   */
  method ToCompilationResult(sms: SourceMappings, options: CompilerOptions, sf: SourceFile)
    returns (r: Option<CompilationFileResult>)
    requires options.outDir.Some?
    ensures r == FileResultOf(sms, options, sf)
  {
    var found := sms.find(sf.fileName);
    if found.None? {
      return None;
    }
    var sm := found.value;
    var deps := [sf.fileName] + sf.referencedFiles;
    var outputFile := DetermineOutFile(sms.toOutputPath(sm, options.outDir.value, ".js"), options);
    var filesWritten := [outputFile];
    ghost var expected := FileResultOf(sms, options, sf).value.result.filesWritten;
    if options.declaration {
      var outputFileDeclaration := sms.toOutputPath(sm, options.outDir.value, ".d.ts");
      filesWritten := filesWritten + [outputFileDeclaration];
    }
    if options.sourceMap && !options.inlineSourceMap {
      var outputFileMap := outputFile + ".map";
      filesWritten := filesWritten + [outputFileMap];
    }
    assert filesWritten == expected;
    r := Some(CompilationFileResult(sf.fileName, FileResult(deps, filesWritten)));
  }

  /** The number of written files one result has: 1, plus 1 for declarations, plus 1 for a separate source map. */
  function ExpectedCount(options: CompilerOptions): nat
  {
    1 + (if options.declaration then 1 else 0) + (if options.sourceMap && !options.inlineSourceMap then 1 else 0)
  }

  /**
   * The shape of one file's expected outputs: absent exactly when the file
   * has no mapping; otherwise the primary output comes first (the `outFile`
   * override or the mapped ".js" path), a ".d.ts" path (which ignores
   * `outFile`) is present exactly when declarations are on, and the primary
   * path plus ".map" is present exactly when source maps are on and not
   * inlined; the files read are the source followed by its references.
   */
  lemma FileResultShape(sms: SourceMappings, options: CompilerOptions, sf: SourceFile)
    requires options.outDir.Some?
    ensures FileResultOf(sms, options, sf).None? <==> sms.find(sf.fileName).None?
    ensures FileResultOf(sms, options, sf).Some? ==>
      var r := FileResultOf(sms, options, sf).value;
      var sm := sms.find(sf.fileName).value;
      var fw := r.result.filesWritten;
      var hasMap := options.sourceMap && !options.inlineSourceMap;
      && r.source == sf.fileName
      && r.result.filesRead == [sf.fileName] + sf.referencedFiles
      && |fw| == ExpectedCount(options) && 1 <= |fw| <= 3
      && fw[0] == (if Truthy(options.outFile) then options.outFile.value else sms.toOutputPath(sm, options.outDir.value, ".js"))
      && (options.declaration <==> |fw| == (if hasMap then 3 else 2))
      && (options.declaration ==> fw[1] == sms.toOutputPath(sm, options.outDir.value, ".d.ts"))
      && (hasMap <==> |fw| == (if options.declaration then 3 else 2))
      && (hasMap ==> fw[|fw| - 1] == fw[0] + ".map")
  {
  }

  /** The values present in a list of options, in order. */
  function Present<T(!new)>(xs: seq<Option<T>>): (r: seq<T>)
    ensures |r| <= |xs|
    ensures forall v :: v in r <==> Some(v) in xs
  {
    if xs == [] then []
    else Present(xs[..|xs| - 1]) + (if xs[|xs| - 1].Some? then [xs[|xs| - 1].value] else [])
  }

  /** `flatten`: collects the present values into a fresh list. */
  method Flatten<T(!new)>(xs: seq<Option<T>>) returns (result: seq<T>)
    ensures result == Present(xs)
  {
    result := [];
    var i := 0;
    while i < |xs|
      invariant 0 <= i <= |xs|
      invariant result == Present(xs[..i])
    {
      assert xs[..i + 1][..i] == xs[..i];
      if xs[i].Some? {
        result := result + [xs[i].value];
      }
      i := i + 1;
    }
    assert xs[..|xs|] == xs;
  }

  /** When every option is present, nothing is dropped. */
  lemma {:induction false} PresentAll<T(!new)>(xs: seq<Option<T>>)
    requires forall i :: 0 <= i < |xs| ==> xs[i].Some?
    ensures |Present(xs)| == |xs|
  {
    if xs != [] {
      PresentAll(xs[..|xs| - 1]);
    }
  }

  /** The code files of a program, in order. */
  function CodeFiles(sfs: seq<SourceFile>): (r: seq<SourceFile>)
    ensures |r| <= |sfs|
    ensures forall f :: f in r <==> f in sfs && IsCodeFile(f)
  {
    if sfs == [] then []
    else CodeFiles(sfs[..|sfs| - 1]) + (if IsCodeFile(sfs[|sfs| - 1]) then [sfs[|sfs| - 1]] else [])
  }

  /** The expected result of each code file, one option per code file. */
  function MappedResults(sms: SourceMappings, options: CompilerOptions, code: seq<SourceFile>): (r: seq<Option<CompilationFileResult>>)
    requires options.outDir.Some?
    ensures |r| == |code|
  {
    seq(|code|, k requires 0 <= k < |code| => FileResultOf(sms, options, code[k]))
  }

  /** The results the driver reports for a program whose emission was not skipped. */
  function CompiledResults(sms: SourceMappings, options: CompilerOptions, sfs: seq<SourceFile>): seq<CompilationFileResult>
    requires options.outDir.Some?
  {
    Present(MappedResults(sms, options, CodeFiles(sfs)))
  }

  /**
   * Every reported result comes from a mapped code file of the program and
   * lists the expected number of written files; every mapped code file has
   * its result among them.
   */
  lemma CompiledResultsShape(sms: SourceMappings, options: CompilerOptions, sfs: seq<SourceFile>)
    requires options.outDir.Some?
    ensures forall r :: r in CompiledResults(sms, options, sfs) ==>
      (exists sf :: sf in sfs && IsCodeFile(sf) && sms.find(sf.fileName).Some? && FileResultOf(sms, options, sf) == Some(r))
      && |r.result.filesWritten| == ExpectedCount(options)
    ensures forall sf :: sf in sfs && IsCodeFile(sf) && sms.find(sf.fileName).Some? ==>
      FileResultOf(sms, options, sf).value in CompiledResults(sms, options, sfs)
  {
    var code := CodeFiles(sfs);
    var mapped := MappedResults(sms, options, code);
    forall r | r in CompiledResults(sms, options, sfs)
      ensures exists sf :: sf in sfs && IsCodeFile(sf) && sms.find(sf.fileName).Some? && FileResultOf(sms, options, sf) == Some(r)
      ensures |r.result.filesWritten| == ExpectedCount(options)
    {
      var k :| 0 <= k < |mapped| && mapped[k] == Some(r);
      assert code[k] in code;
      FileResultShape(sms, options, code[k]);
    }
    forall sf | sf in sfs && IsCodeFile(sf) && sms.find(sf.fileName).Some?
      ensures FileResultOf(sms, options, sf).value in CompiledResults(sms, options, sfs)
    {
      var k :| 0 <= k < |code| && code[k] == sf;
      assert mapped[k] == FileResultOf(sms, options, sf);
    }
  }

  /** When every code file has a mapping, there is one result per code file. */
  lemma CompiledResultsCount(sms: SourceMappings, options: CompilerOptions, sfs: seq<SourceFile>)
    requires options.outDir.Some?
    requires forall sf :: sf in sfs && IsCodeFile(sf) ==> sms.find(sf.fileName).Some?
    ensures |CompiledResults(sms, options, sfs)| == |CodeFiles(sfs)|
  {
    var code := CodeFiles(sfs);
    var mapped := MappedResults(sms, options, code);
    forall k | 0 <= k < |mapped| ensures mapped[k].Some? {
      assert code[k] in code;
    }
    PresentAll(mapped);
  }
}
