/**
 * Reconciliation of the files the driver expects with the files the compiler
 * reports it emitted: concatenation of the expected lists, order-preserving
 * list difference in both directions, and the decision to log a mismatch.
 */
module Reconcile {
  import opened TypeScriptApi
  import opened Outputs

  /** Every result's written files, concatenated in order. */
  function FlatWritten(results: seq<CompilationFileResult>): seq<string>
  {
    if results == [] then []
    else FlatWritten(results[..|results| - 1]) + results[|results| - 1].result.filesWritten
  }

  /** `flatFilesWritten`: pushes each written file of each result onto one list. */
  method FlatFilesWritten(results: seq<CompilationFileResult>) returns (files: seq<string>)
    ensures files == FlatWritten(results)
  {
    files := [];
    var i := 0;
    while i < |results|
      invariant 0 <= i <= |results|
      invariant files == FlatWritten(results[..i])
    {
      var written := results[i].result.filesWritten;
      var j := 0;
      while j < |written|
        invariant 0 <= j <= |written|
        invariant files == FlatWritten(results[..i]) + written[..j]
      {
        files := files + [written[j]];
        j := j + 1;
      }
      assert results[..i + 1][..i] == results[..i];
      assert written[..j] == written;
      i := i + 1;
    }
    assert results[..|results|] == results;
  }

  /** A file is in the flat list exactly when some result lists it. */
  lemma {:induction false} FlatWrittenMembership(results: seq<CompilationFileResult>)
    ensures forall f :: f in FlatWritten(results) <==>
      exists i :: 0 <= i < |results| && f in results[i].result.filesWritten
  {
    if results != [] {
      var init := results[..|results| - 1];
      FlatWrittenMembership(init);
      forall f | f in FlatWritten(results)
        ensures exists i :: 0 <= i < |results| && f in results[i].result.filesWritten
      {
        if f in FlatWritten(init) {
          var i :| 0 <= i < |init| && f in init[i].result.filesWritten;
          assert results[i] == init[i];
        }
      }
      forall f, i | 0 <= i < |results| && f in results[i].result.filesWritten
        ensures f in FlatWritten(results)
      {
        if i < |init| {
          assert results[i] == init[i];
        }
      }
    }
  }

  /** The elements of `xs` that are not in `ys`, in order. */
  function Difference(xs: seq<string>, ys: seq<string>): (r: seq<string>)
    ensures |r| <= |xs|
    ensures forall x :: x in r <==> x in xs && x !in ys
  {
    if xs == [] then []
    else Difference(xs[..|xs| - 1], ys) + (if xs[|xs| - 1] in ys then [] else [xs[|xs| - 1]])
  }

  /** `minus`: keeps each element of `arr1` whose `indexOf` in `arr2` is -1. */
  method Minus(arr1: seq<string>, arr2: seq<string>) returns (r: seq<string>)
    ensures r == Difference(arr1, arr2)
  {
    r := [];
    var i := 0;
    while i < |arr1|
      invariant 0 <= i <= |arr1|
      invariant r == Difference(arr1[..i], arr2)
    {
      assert arr1[..i + 1][..i] == arr1[..i];
      if arr1[i] !in arr2 {
        r := r + [arr1[i]];
      }
      i := i + 1;
    }
    assert arr1[..|arr1|] == arr1;
  }

  /** Nothing is left of a list whose every element is in the other. */
  lemma {:induction false} DifferenceOfContained(xs: seq<string>, ys: seq<string>)
    requires forall x :: x in xs ==> x in ys
    ensures Difference(xs, ys) == []
  {
    if xs != [] {
      assert xs[|xs| - 1] in xs;
      DifferenceOfContained(xs[..|xs| - 1], ys);
    }
  }

  /** Nothing is left when a list is taken away from itself. */
  lemma DifferenceSelf(xs: seq<string>)
    ensures Difference(xs, xs) == []
  {
    DifferenceOfContained(xs, xs);
  }

  /** The difference keeps the order of its first argument. */
  lemma {:induction false} DifferenceAppend(a: seq<string>, b: seq<string>, ys: seq<string>)
    ensures Difference(a + b, ys) == Difference(a, ys) + Difference(b, ys)
    decreases |b|
  {
    if b == [] {
      assert a + b == a;
    } else {
      var b' := b[..|b| - 1];
      assert (a + b)[..|a + b| - 1] == a + b';
      DifferenceAppend(a, b', ys);
    }
  }

  function Elements(s: seq<string>): set<string>
  {
    set x | x in s
  }

  /** Both differences are empty exactly when the two lists hold the same elements. */
  lemma DifferencesEmptyIffSameElements(a: seq<string>, b: seq<string>)
    ensures (Difference(a, b) == [] && Difference(b, a) == []) <==> Elements(a) == Elements(b)
  {
    if Elements(a) == Elements(b) {
      forall x | x in a ensures x in b {
        assert x in Elements(a);
      }
      forall x | x in b ensures x in a {
        assert x in Elements(b);
      }
      DifferenceOfContained(a, b);
      DifferenceOfContained(b, a);
    }
    if Difference(a, b) == [] && Difference(b, a) == [] {
      forall x | x in Elements(a) ensures x in Elements(b) {
        assert x !in Difference(a, b);
      }
      forall x | x in Elements(b) ensures x in Elements(a) {
        assert x !in Difference(b, a);
      }
    }
  }

  /** What the assertion step computes and whether it logs a mismatch. */
  datatype Reconciliation = Reconciliation(
    declared: seq<string>,
    emitted: seq<string>,
    emittedButNotDeclared: seq<string>,
    declaredButNotEmitted: seq<string>,
    mismatchLogged: bool)

  /**
   * The assertion step: the emitted list is empty when emission was skipped,
   * each difference holds exactly the files missing from the other list, and
   * a mismatch is logged exactly when emission was not skipped and the
   * declared and emitted files are not the same set.
   */
  function ReconcileOf(declaredResults: seq<CompilationFileResult>, emit: EmitResult): (rec: Reconciliation)
    ensures rec.declared == FlatWritten(declaredResults)
    ensures rec.emitted == if emit.emitSkipped then [] else emit.emittedFiles
    ensures forall f :: f in rec.emittedButNotDeclared <==> f in rec.emitted && f !in rec.declared
    ensures forall f :: f in rec.declaredButNotEmitted <==> f in rec.declared && f !in rec.emitted
    ensures rec.mismatchLogged <==> !emit.emitSkipped && Elements(rec.declared) != Elements(emit.emittedFiles)
  {
    var declared := FlatWritten(declaredResults);
    var emitted := if emit.emitSkipped then [] else emit.emittedFiles;
    var emittedButNotDeclared := Difference(emitted, declared);
    var declaredButNotEmitted := Difference(declared, emitted);
    DifferencesEmptyIffSameElements(declared, emitted);
    Reconciliation(declared, emitted, emittedButNotDeclared, declaredButNotEmitted,
      (emittedButNotDeclared != [] || declaredButNotEmitted != []) && !emit.emitSkipped)
  }

  /** `logAndAssertEmitted`, without the logging and the existence checks on disk. */
  method LogAndAssertEmitted(declaredResults: seq<CompilationFileResult>, emitOutput: EmitResult)
    returns (rec: Reconciliation)
    ensures rec == ReconcileOf(declaredResults, emitOutput)
  {
    var ffw := FlatFilesWritten(declaredResults);
    var emitted := if emitOutput.emitSkipped then [] else emitOutput.emittedFiles;
    var emittedButNotDeclared := Minus(emitted, ffw);
    var declaredButNotEmitted := Minus(ffw, emitted);
    var logged := false;
    if emittedButNotDeclared != [] || declaredButNotEmitted != [] {
      if !emitOutput.emitSkipped {
        logged := true;
      }
    }
    rec := Reconciliation(ffw, emitted, emittedButNotDeclared, declaredButNotEmitted, logged);
  }
}
