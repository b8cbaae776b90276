/**
 * Translation of compiler diagnostics into build-tool problems: the ignore
 * list, the position and line text of a diagnostic, its severity and its
 * "TS<code> " message prefix.
 */
module Diagnostics {
  import opened Wrappers
  import opened JsText
  import opened TypeScriptApi

  /** The problem record handed back to the build tool. */
  datatype Problem = Problem(
    lineNumber: int,
    characterOffset: int,
    message: string,
    source: string,
    severity: string,
    lineContent: string)

  /** The file a diagnostic without a position is attributed to. */
  const ConfigFileName := "tsconfig.json"

  /** Severity names by DiagnosticCategory: Warning 0, Error 1, Suggestion 2; anything else is an error. */
  function ToSeverity(category: int): (severity: string)
    ensures severity == "warn" <==> category == 0
    ensures severity == "info" <==> category == 2
    ensures severity == "error" <==> category != 0 && category != 2
  {
    if category == 0 then "warn"
    else if category == 1 then "error"
    else if category == 2 then "info"
    else "error"
  }

  /** `d.file && d.start`: a start offset of 0 is falsy, so it counts as no position. */
  predicate HasPosition(d: Diagnostic)
  {
    d.file.Some? && d.start.Some? && d.start.value != 0
  }

  /**
   * The 0-based line of offset `pos`, as the compiler's line lookup finds it:
   * the last line whose start is at or before `pos` (line 0 when there is none).
   */
  function LineOf(lineStarts: seq<int>, pos: int): (line: nat)
    ensures line < |lineStarts| || line == 0
    ensures 0 < line ==> lineStarts[line] <= pos
    ensures 0 < |lineStarts| && lineStarts[0] <= pos ==> lineStarts[line] <= pos
    ensures forall j :: line < j < |lineStarts| ==> pos < lineStarts[j]
  {
    if |lineStarts| <= 1 then 0
    else if lineStarts[|lineStarts| - 1] <= pos then |lineStarts| - 1
    else LineOf(lineStarts[..|lineStarts| - 1], pos)
  }

  /** A JavaScript array read: undefined outside the array. */
  function At(s: seq<int>, i: int): Option<int>
  {
    if 0 <= i < |s| then Some(s[i]) else None
  }

  /** The code written after "TS" at the head of a problem message, when there is one. */
  function MessageCode(message: string): Option<nat>
  {
    if |message| >= 2 && message[..2] == "TS" && LeadingDigits(message[2..]) != []
    then Some(DecimalValue(LeadingDigits(message[2..])))
    else None
  }

  /** The message prefix carries the code, and it can be read back. */
  lemma MessageCodeOf(code: nat, text: string)
    ensures MessageCode("TS" + Decimal(code) + " " + text) == Some(code)
  {
    var m := "TS" + Decimal(code) + " " + text;
    assert m[..2] == "TS";
    assert m[2..] == Decimal(code) + (" " + text);
    LeadingDigitsOfNumeral(Decimal(code), " " + text);
    DecimalRoundTrip(code);
  }

  /** One diagnostic as a problem. */
  function ParseDiagnostic(d: Diagnostic): (p: Problem)
    ensures p.severity == ToSeverity(d.category)
    ensures "TS" + Decimal(d.code) + " " <= p.message
    ensures |p.message| == |Decimal(d.code)| + 3 + |d.messageText|
    ensures MessageCode(p.message) == Some(d.code)
    ensures EndsWith(p.message, d.messageText)
    ensures !HasPosition(d) ==>
      p.source == ConfigFileName && p.lineNumber == 1 && p.characterOffset == 0 && p.lineContent == ""
    ensures HasPosition(d) ==>
      p.source == d.file.value.fileName && p.lineNumber >= 1 &&
      (|d.file.value.lineStarts| > 0 ==> p.lineNumber <= |d.file.value.lineStarts|)
  {
    var message := "TS" + Decimal(d.code) + " " + d.messageText;
    MessageCodeOf(d.code, d.messageText);
    if HasPosition(d) then
      var f := d.file.value;
      var line := LineOf(f.lineStarts, d.start.value);
      var character := d.start.value - (if |f.lineStarts| > 0 then f.lineStarts[line] else 0);
      var lineText := Substring(f.text, At(f.lineStarts, line), At(f.lineStarts, line + 1));
      Problem(line + 1, character, message, f.fileName, ToSeverity(d.category), lineText)
    else
      Problem(1, 0, message, ConfigFileName, ToSeverity(d.category), "")
  }

  /** Line starts as the compiler computes them: from 0, strictly increasing, within the text. */
  ghost predicate WellFormedLines(f: SourceText)
  {
    && |f.lineStarts| > 0
    && f.lineStarts[0] == 0
    && (forall i, j :: 0 <= i < j < |f.lineStarts| ==> f.lineStarts[i] < f.lineStarts[j])
    && f.lineStarts[|f.lineStarts| - 1] <= |f.text|
  }

  /**
   * For a positioned diagnostic in a well-formed file, the reported 1-based line
   * is the line holding the offset, the character offset is the distance from
   * that line's start, and the line text runs from that start to the next
   * line's start (to the end of the text on the last line).
   */
  lemma PositionedProblemLine(d: Diagnostic)
    requires HasPosition(d) && WellFormedLines(d.file.value)
    requires d.start.value <= |d.file.value.text|
    ensures var f := d.file.value;
            var p := ParseDiagnostic(d);
            var line := p.lineNumber - 1;
            0 <= line < |f.lineStarts| &&
            var lineEnd := if line + 1 < |f.lineStarts| then f.lineStarts[line + 1] else |f.text|;
            && f.lineStarts[line] <= d.start.value <= lineEnd
            && (line + 1 < |f.lineStarts| ==> d.start.value < lineEnd)
            && p.characterOffset == d.start.value - f.lineStarts[line]
            && p.lineContent == f.text[f.lineStarts[line]..lineEnd]
  {
    var f := d.file.value;
    var line := LineOf(f.lineStarts, d.start.value);
    var lineEnd := if line + 1 < |f.lineStarts| then f.lineStarts[line + 1] else |f.text|;
    assert f.lineStarts[line] <= f.lineStarts[|f.lineStarts| - 1] <= |f.text|;
    assert f.lineStarts[line] <= lineEnd;
    assert Substring(f.text, At(f.lineStarts, line), At(f.lineStarts, line + 1))
        == f.text[f.lineStarts[line]..lineEnd];
  }

  /** Whether the ignore list lets a diagnostic through (`indexOf(d.code) === -1`). */
  predicate Kept(d: Diagnostic, ignoreList: Option<seq<nat>>)
  {
    ignoreList.None? || d.code !in ignoreList.value
  }

  /** The diagnostics whose code is not on the ignore list, in order. */
  function Unignored(ds: seq<Diagnostic>, ignoreList: seq<nat>): (kept: seq<Diagnostic>)
    ensures |kept| <= |ds|
    ensures forall d :: d in kept <==> d in ds && d.code !in ignoreList
  {
    if ds == [] then []
    else Unignored(ds[..|ds| - 1], ignoreList) +
         (if ds[|ds| - 1].code in ignoreList then [] else [ds[|ds| - 1]])
  }

  /**
   * Diagnostics as problems: filtered by the ignore list when there is one,
   * then each translated.
   */
  function ToProblems(ds: seq<Diagnostic>, ignoreList: Option<seq<nat>>): (ps: seq<Problem>)
    ensures |ps| <= |ds|
    ensures ignoreList.None? ==> |ps| == |ds| && forall i :: 0 <= i < |ds| ==> ps[i] == ParseDiagnostic(ds[i])
    ensures forall p :: p in ps ==> exists d :: d in ds && Kept(d, ignoreList) && p == ParseDiagnostic(d)
  {
    var kept := if ignoreList.Some? then Unignored(ds, ignoreList.value) else ds;
    assert forall i :: 0 <= i < |kept| ==> kept[i] in kept;
    seq(|kept|, i requires 0 <= i < |kept| => ParseDiagnostic(kept[i]))
  }

  lemma {:induction false} UnignoredAppend(a: seq<Diagnostic>, b: seq<Diagnostic>, ignoreList: seq<nat>)
    ensures Unignored(a + b, ignoreList) == Unignored(a, ignoreList) + Unignored(b, ignoreList)
    decreases |b|
  {
    if b != [] {
      var b' := b[..|b| - 1];
      assert (a + b)[..|a + b| - 1] == a + b';
      UnignoredAppend(a, b', ignoreList);
    } else {
      assert a + b == a;
    }
  }

  /** Translation preserves order: the problems of a concatenation are the concatenated problems. */
  lemma ToProblemsAppend(a: seq<Diagnostic>, b: seq<Diagnostic>, ignoreList: Option<seq<nat>>)
    ensures ToProblems(a + b, ignoreList) == ToProblems(a, ignoreList) + ToProblems(b, ignoreList)
  {
    if ignoreList.Some? {
      UnignoredAppend(a, b, ignoreList.value);
    }
  }

  /** A single diagnostic gives one problem exactly when its code is not ignored. */
  lemma ToProblemsSingle(d: Diagnostic, ignoreList: Option<seq<nat>>)
    ensures ToProblems([d], ignoreList) == if Kept(d, ignoreList) then [ParseDiagnostic(d)] else []
  {
    if ignoreList.Some? {
      assert [d][..0] == [];
    }
  }

  /** No problem produced under an ignore list carries an ignored code. */
  lemma IgnoredCodesAbsent(ds: seq<Diagnostic>, ignoreList: seq<nat>)
    ensures forall p :: p in ToProblems(ds, Some(ignoreList)) ==>
      MessageCode(p.message).Some? && MessageCode(p.message).value !in ignoreList
  {
  }

  /** An empty ignore list (truthy in JavaScript) keeps every diagnostic, as having none does. */
  lemma {:induction false} EmptyIgnoreListKeepsAll(ds: seq<Diagnostic>)
    ensures ToProblems(ds, Some([])) == ToProblems(ds, None)
  {
    assert Unignored(ds, []) == ds by {
      UnignoredNothing(ds);
    }
  }

  lemma {:induction false} UnignoredNothing(ds: seq<Diagnostic>)
    ensures Unignored(ds, []) == ds
  {
    if ds != [] {
      UnignoredNothing(ds[..|ds| - 1]);
    }
  }

  /** The problems whose message code is not on the list, in order. */
  function WithoutCodes(ps: seq<Problem>, codes: seq<nat>): seq<Problem>
  {
    if ps == [] then []
    else WithoutCodes(ps[..|ps| - 1], codes) +
         (if MessageCode(ps[|ps| - 1].message).Some? && MessageCode(ps[|ps| - 1].message).value in codes
          then [] else [ps[|ps| - 1]])
  }

  /**
   * Filtering and translating commute: translating everything and then dropping
   * the problems with an ignored code gives the problems of the filtered
   * diagnostics.
   */
  lemma {:induction false} FilterTranslateCommute(ds: seq<Diagnostic>, ignoreList: seq<nat>)
    ensures WithoutCodes(ToProblems(ds, None), ignoreList) == ToProblems(ds, Some(ignoreList))
  {
    if ds != [] {
      var init := ds[..|ds| - 1];
      var last := ds[|ds| - 1];
      assert ds == init + [last];
      FilterTranslateCommute(init, ignoreList);
      ToProblemsAppend(init, [last], None);
      ToProblemsAppend(init, [last], Some(ignoreList));
      ToProblemsSingle(last, None);
      ToProblemsSingle(last, Some(ignoreList));
      var all := ToProblems(ds, None);
      assert all[..|all| - 1] == ToProblems(init, None);
      assert all[|all| - 1] == ParseDiagnostic(last);
    }
  }
}
