/**
 * The part of the TypeScript compiler's surface the driver consumes, and the
 * external capabilities it calls, as plain values. Everything computed by the
 * compiler, by Node's `path.join` or by the source-mapping helpers is a
 * function-valued field here: the model only says what the driver does with
 * their answers.
 */
module TypeScriptApi {
  import opened Wrappers

  /** A file the compiler has read: its name, its full text and the offsets at which its lines start. */
  datatype SourceText = SourceText(fileName: string, text: string, lineStarts: seq<int>)

  /**
   * A compiler diagnostic. `start` is the offset into `file`, never negative
   * (absent for configuration-level diagnostics); `category` is the compiler's
   * DiagnosticCategory number; `messageText` is the message already flattened
   * with the platform line separator.
   */
  datatype Diagnostic = Diagnostic(
    file: Option<SourceText>,
    start: Option<nat>,
    code: nat,
    category: int,
    messageText: string)

  /** A file of the program: its name and the names of the files it references. */
  datatype SourceFile = SourceFile(fileName: string, referencedFiles: seq<string>)

  /** The raw `compilerOptions` JSON object, restricted to the keys the driver writes. */
  datatype RawOptions = RawOptions(
    outFile: Option<string>,
    rootDir: Option<string>,
    rootDirs: Option<seq<string>>,
    listEmittedFiles: bool)

  /** Converted compiler options, restricted to the keys the driver reads or writes. */
  datatype CompilerOptions = CompilerOptions(
    outDir: Option<string>,
    outFile: Option<string>,
    declaration: bool,
    sourceMap: bool,
    inlineSourceMap: bool,
    baseUrl: Option<string>,
    paths: map<string, seq<string>>,
    typeRoots: Option<seq<string>>)

  /** What `convertCompilerOptionsFromJson` returns. */
  datatype Conversion = Conversion(options: CompilerOptions, errors: seq<Diagnostic>)

  /** What `program.emit()` returns. */
  datatype EmitResult = EmitResult(emitSkipped: bool, emittedFiles: seq<string>, diagnostics: seq<Diagnostic>)

  /** A created program, through the three queries the driver makes of it. */
  datatype Program = Program(
    sourceFiles: seq<SourceFile>,
    preEmitDiagnostics: seq<Diagnostic>,
    emitResult: EmitResult)

  /**
   * The external capabilities: option conversion (given the raw options and
   * the base directory), program creation (given the files and the options,
   * with diagnostics and emission already decided), and `path.join`.
   */
  datatype Externals = Externals(
    convert: (RawOptions, string) -> Conversion,
    createProgram: (seq<string>, CompilerOptions) -> Program,
    join: (string, string) -> string)
}
