# sbt-typescript compiler driver, modelled in Dafny

This project models the core of the sbt-typescript driver (`src/main/typescript/typescript.ts`).
The driver runs the TypeScript compiler for sbt. Around the compiler it does four things:

- It prepares the raw `compilerOptions` object: it re-roots `outFile` under the target and sets `rootDir` or `rootDirs` from the one or two asset directories.
- It turns compiler diagnostics into sbt `Problem` records. It drops ignored codes and attaches the line number, the character offset, the line text, the severity and a `TS<code> ` message prefix.
- It predicts the files the compiler should write for each mapped code file: the primary output, an optional `.d.ts` file and an optional `.map` file.
- It reconciles that prediction with the compiler's emitted-file list by taking the list difference in both directions.

The foreign pieces become function-valued fields of `TypeScriptApi.Externals` and `Outputs.SourceMappings`:

- option conversion, program creation and `path.join`;
- the source-mapping lookup and the output-path computation.

The model proves what the driver does with their answers.

Modules, in dependency order:

- `Wrappers`: `Option` and `Result`.
- `JsText`: JavaScript `substring` (clamping and swapping), truthiness and decimal numerals.
- `TypeScriptApi`: the compiler surface the driver consumes.
- `Diagnostics`
- `Options`: the `compilerOptions` object is a class, because the driver edits it in place.
- `Outputs`
- `Reconcile`
- `AssetDirs`
- `Compiler`

Where the code builds lists with loops or `push`, the model uses methods with loop invariants: `CommonPath`, `Minus`, `FlatFilesWritten`, `Flatten` and `MapCompilationResults`. `ToCompilationResult` builds its list with a fixed sequence of conditional pushes and has no loop. Each method is proved equal to a specification function, and lemmas state the properties of those functions.

## Model

| member | source | states |
|---|---|---|
| Diagnostics.ToSeverity | src/main/typescript/typescript.ts:377-387 | total: category 0 gives "warn", 2 gives "info", every other value (1 included) gives "error" |
| Diagnostics.LineOf | src/main/typescript/typescript.ts:359 | the line found for an offset is the last line whose start is at or before it (line 0 when no start is, a case the compiler's tables, which start at 0, never meet with a non-negative offset); every later line starts after it |
| Diagnostics.ParseDiagnostic | src/main/typescript/typescript.ts:354-375 | without a file or with a falsy start (0 included) the problem is at tsconfig.json, line 1, offset 0, with empty line text; otherwise the source is the file and the line is 1-based within the table; the message is exactly "TS", the decimal code, a space and the diagnostic text (prefix, length and suffix stated), its "TS" prefix reads back as the code, and the severity is the category's |
| Diagnostics.PositionedProblemLine | src/main/typescript/typescript.ts:358-368 | for well-formed line starts the reported line holds the offset, the offset is measured from the line start, and the line text runs from that start to the next line's start or to the end of the text |
| Diagnostics.MessageCodeOf | src/main/typescript/typescript.ts:370 | the "TS" + code + " " prefix can be read back to the code, whatever text follows |
| Diagnostics.Unignored | src/main/typescript/typescript.ts:350-352 | keeps exactly the diagnostics whose code is not on the list |
| Diagnostics.ToProblems | src/main/typescript/typescript.ts:338-348 | never more problems than diagnostics; without an ignore list exactly one problem per diagnostic, in order; every problem comes from a diagnostic that is not ignored |
| Diagnostics.ToProblemsAppend | src/main/typescript/typescript.ts:345-348 | translation preserves order: the problems of a concatenation are the concatenation of the problems |
| Diagnostics.ToProblemsSingle | src/main/typescript/typescript.ts:346-352 | one diagnostic gives one problem iff its code is not ignored, and none otherwise |
| Diagnostics.IgnoredCodesAbsent | src/main/typescript/typescript.ts:341-352 | no problem produced under an ignore list carries an ignored code |
| Diagnostics.EmptyIgnoreListKeepsAll | src/main/typescript/typescript.ts:346-347 | an empty (truthy) ignore list gives the same problems as no ignore list |
| Diagnostics.FilterTranslateCommute | src/main/typescript/typescript.ts:346-347 | dropping ignored codes after translating gives the problems of the filtered diagnostics |
| Options.PreparedRawShape | src/main/typescript/typescript.ts:255-269 | a truthy outFile is re-rooted under the target (even when the count is then refused); 1 dir sets rootDir, 2 set rootDirs, and only then is listEmittedFiles switched on; nothing else changes |
| Options.ToCompilerOptions | src/main/typescript/typescript.ts:252-271 | edits the object in place as PreparedRaw says; throws (Failure) unless there are 1 or 2 asset dirs; otherwise returns the converter's answer on the edited object |
| Options.TargetedOptions | src/main/typescript/typescript.ts:45-59 | the completed options have the target as outDir and "." as baseUrl; the whole paths map is replaced, so "*" is its only alias and the project's own aliases are dropped; and keep outFile, declaration and the source-map flags; when resolving from node_modules dirs, typeRoots is each dir + "/@types" and the "*" alias is "*", then each dir + "/*", then each dir + "/@types/*", position by position; otherwise the alias is just ["*"] and typeRoots is untouched |
| Compiler.PrepareOptions | src/main/typescript/typescript.ts:45-59 | the stepwise edits of the converted options give TargetedOptions |
| Outputs.IsDeclarationFile | src/main/typescript/typescript.ts:283-286 | holds iff the name ends in ".d.ts" (names shorter than five characters included) |
| Outputs.IsCodeFile | src/main/typescript/typescript.ts:279-281 | holds iff the name does not end in ".d.ts" |
| Outputs.ToCompilationResult | src/main/typescript/typescript.ts:297-335 | the pushed list of written files equals the specification FileResultOf |
| Outputs.FileResultShape | src/main/typescript/typescript.ts:299-324 | no result iff no mapping; files read are the source then its references; the first written file is the truthy outFile or the mapped .js path; a .d.ts path (ignoring outFile) is present iff declaration is set; primary + ".map" is present iff sourceMap is set and inlineSourceMap is not; so 1 to 3 files |
| Outputs.Present | src/main/typescript/typescript.ts:288-294 | a value is kept iff it is present in the input; never longer than the input |
| Outputs.Flatten | src/main/typescript/typescript.ts:288-294 | the pushed list equals Present, the present values in order |
| Outputs.PresentAll | src/main/typescript/typescript.ts:288-294 | when every option is present nothing is dropped |
| Outputs.CodeFiles | src/main/typescript/typescript.ts:93 | keeps exactly the program's files that are not declaration files |
| Outputs.CompiledResultsShape | src/main/typescript/typescript.ts:93 | every result comes from a mapped code file and has the expected number of written files; every mapped code file has its result |
| Outputs.CompiledResultsCount | src/main/typescript/typescript.ts:93 | when every code file has a mapping there is one result per code file |
| Compiler.FilesToCompile | src/main/typescript/typescript.ts:63-64 | the program's files are the mapped absolute input paths first, then the extra files when given, and nothing else |
| Compiler.FindPreemitProblems | src/main/typescript/typescript.ts:338-343 | each problem is the translation of a pre-emit diagnostic that is kept by the ignore list; never more problems than diagnostics; with no ignore list one problem per diagnostic |
| Compiler.AssertionRuns | src/main/typescript/typescript.ts:73-84 | the assertion step runs only when asked for; with other than two asset dirs exactly when asked for; with two, exactly when asked for and the relocation succeeded (the rejection handler does nothing) |
| Compiler.MapCompilationResults | src/main/typescript/typescript.ts:93 | the loop gives, per code file, toCompilationResult's option |
| Compiler.ExpectedResults | src/main/typescript/typescript.ts:92-96 | no results when emission was skipped, otherwise the flattened results of the code files |
| Reconcile.FlatFilesWritten | src/main/typescript/typescript.ts:273-277 | the nested pushes give every result's written files concatenated in order |
| Reconcile.FlatWrittenMembership | src/main/typescript/typescript.ts:273-277 | a file is in the flat list iff some result lists it |
| Reconcile.Difference | src/main/typescript/typescript.ts:136-144 | keeps exactly the elements of the first list that are absent from the second; never longer than the first list |
| Reconcile.Minus | src/main/typescript/typescript.ts:136-144 | the loop with indexOf equals Difference |
| Reconcile.DifferenceOfContained | src/main/typescript/typescript.ts:136-144 | nothing is left of a list contained in the other |
| Reconcile.DifferenceSelf | src/main/typescript/typescript.ts:136-144 | minus(x, x) is empty |
| Reconcile.DifferenceAppend | src/main/typescript/typescript.ts:136-144 | the difference keeps the order of its first argument |
| Reconcile.DifferencesEmptyIffSameElements | src/main/typescript/typescript.ts:112-126 | both differences are empty iff the two lists hold the same set of files |
| Reconcile.ReconcileOf | src/main/typescript/typescript.ts:106-133 | the emitted list is empty when emission was skipped; each difference holds exactly the files missing from the other list; a mismatch is logged iff emission was not skipped and the declared and emitted sets differ |
| Reconcile.LogAndAssertEmitted | src/main/typescript/typescript.ts:106-133 | the flat list, the two minus calls and the logging decision give ReconcileOf |
| AssetDirs.CommonPath | src/main/typescript/typescript.ts:240-250 | the result is a prefix of both paths that stops at the end of either or at the first differing character |
| AssetDirs.CommonPathUnique | src/main/typescript/typescript.ts:240-250 | any such prefix is the longest common prefix, so the result is determined |
| AssetDirs.RelativeAssetPaths | src/main/typescript/typescript.ts:155-157 | common + relPathAssets is the first asset dir and common + relPathTestAssets is the second |
| Compiler.CompileProgram | src/main/typescript/typescript.ts:45-98 | problems are the pre-emit then the emit problems; results as ExpectedResults; the assertion step reconciles the final results when it runs |
| Compiler.Compile | src/main/typescript/typescript.ts:35-104 | the options object is edited as PreparedRaw says; fails iff the asset-dir count is not 1 or 2; with conversion errors only those errors (filtered) are problems and results stay empty; otherwise as ProgramOutcome |
| Compiler.ConversionErrorsOnly | src/main/typescript/typescript.ts:39-43 | with conversion errors there are no results, no assertion step, and every problem comes from a conversion error |
| Compiler.SkippedEmitHasNoResults | src/main/typescript/typescript.ts:92-96 | when emission is skipped results is empty and the assertion step sees an empty emitted list and logs nothing |
| Compiler.EmittedResultsShape | src/main/typescript/typescript.ts:92-93 | when every code file is mapped there is one result per code file, each with 1, plus 1 for declarations, plus 1 for a separate source map, written files |

Behaviour of the code that the model keeps, although a reader might not expect it:

- A diagnostic whose start offset is 0 is treated as having no position (`d.file && d.start`). It is attributed to `tsconfig.json`.
- The reconciliation is two order-preserving list differences. They are empty together exactly when the two lists are equal as sets (`Reconcile.DifferencesEmptyIffSameElements`).
- `outFile` is re-rooted before the asset-directory count is checked. The edit therefore persists when the count is refused.
- An empty `outFile` string is falsy and is neither re-rooted nor used as the primary output.

## Left out

- File system work is not modelled: `remove`, `move`, `notExistingFiles` and `exists` (src/main/typescript/typescript.ts:172-237), and the `Promise.all` relocation at line 169. Only the relocation's outcome is modelled, as `Compile`'s `relocationFailed` parameter. With two asset dirs, a failed relocation skips the assertion step.
- The check that every declared file exists on disk is file-system I/O and is not modelled.
- Promise scheduling (lines 73-84) is not modelled. The assertion step runs after `compile` has assigned its results, so the model runs it last, on the final results.
- Logging is not modelled: the `logger.*` calls, the debug-only counts at lines 87-90, and the process wiring at lines 19-33. Where the source logs a mismatch, `ReconcileOf.mismatchLogged` records the decision; the message text is not modelled.
- The TypeScript compiler API is represented by the function values `convert` (`convertCompilerOptionsFromJson`), `createProgram` and `join` in `Externals`. The pre-emit diagnostics (`getPreEmitDiagnostics`) and the emit result (`program.emit`) are data fields of the `Program` value that `createProgram` returns. The compiler host (`createCompilerHost`) is not modelled: `createProgram` takes only the files and the options.
- `flattenDiagnosticMessageText` is not modelled: `messageText` arrives already flattened.
- `getLineAndCharacterOfPosition` is modelled by its result on the line-starts table (`LineOf`), not by the compiler's binary search.
- `internal.ts` is not part of this model: `SourceMappings`, `toOutputPath`, `asAbsolutePaths`, `parseArgs`, `Logger` and `Option`. The mapping lookup and output-path computation are function values.
- `path.join` is a function value; its normalisation is not modelled.
- The raw `compilerOptions` object holds only the four keys the driver writes. Its other keys are fixed for a run, so their effect is part of the converter function.
- A project configuration without a `compilerOptions` object is not modelled. The source would throw a TypeError at line 255; the model always has the object.
- Diagnostic codes and start offsets are natural numbers, as TypeScript's are.
- `ParseDiagnostic`: for an empty line-starts table, which the compiler never produces, the compiler's line lookup throws ("position cannot precede the beginning of the file"), and the exception leaves `parseDiagnostic` and `compile`. The model instead reports line 1, the offset itself as the character and the whole text as the line. Diagnostic offsets are natural numbers (`Diagnostic.start`), as the compiler's are, so the same throw for a negative offset does not arise.
- Strings are sequences of Unicode scalar values, while JavaScript strings are UTF-16 code units. `Substring` (used for a problem's line text) and `CommonPath` (which compares `charAt` positions) therefore index by characters. Offsets into text with characters outside the Basic Multilingual Plane differ, and the source can split a surrogate pair where the model cannot.
- `Present`/`Flatten`: the source keeps `x.value` when it is truthy (src/main/typescript/typescript.ts:291). The model keeps every present value. The two agree because the only caller passes compilation results, which are objects and always truthy; a present but falsy value (0, "") would be dropped by the source and kept by the model.
- Whether distinct inputs map to distinct output paths depends on `toOutputPath`, which is not part of this model.
