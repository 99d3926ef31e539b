/**
 * The scanner state both classes keep in fields, and one pure transition
 * function per method that changes it. The classes' methods are proved to
 * leave their fields equal to these functions applied to the old fields; the
 * lemmas of this module and of LexerModel are stated about the functions.
 *
 * `Variant` separates the two end-of-line routines: the Lexer records the
 * last read line in a field, the MatchHandler adds the method-declaration
 * spacing check.
 */
module ScanSpec {
  import opened Scanning

  datatype Variant = LexerVariant | HandlerVariant

  datatype ScanState = ScanState(
    lineNumber: int,
    warnings: seq<Diagnostic>,
    lineLength: nat,
    indentationLevel: int,
    currentIndentationLevel: int,
    consecutiveEmptyLines: nat,
    isEmptyLine: bool,
    lineNotToStyleCheck: int,
    skipStylingOnFile: bool,
    characters: string,
    currentCharIndex: nat,
    currentMatch: Option<RegexMatch>,
    tokenType: Option<TokenKind>,
    lastReadLine: string)

  /** The fields as both constructors set them. */
  function InitialState(characters: string): ScanState
  {
    ScanState(1, [], 0, 0, 0, 0, true, -1, false, characters, 0, None, None, "")
  }

  /** Style checks never move the cursor, the line number, the current match
      or the suppression state, and they only append warnings. */
  predicate StylingKeeps(a: ScanState, b: ScanState)
  {
    a.lineNumber == b.lineNumber && a.characters == b.characters &&
    a.currentCharIndex == b.currentCharIndex && a.currentMatch == b.currentMatch &&
    a.tokenType == b.tokenType && a.lineNotToStyleCheck == b.lineNotToStyleCheck &&
    a.skipStylingOnFile == b.skipStylingOnFile && a.warnings <= b.warnings
  }

  // ---------------------------------------------------------------------
  // Warning accumulation
  // ---------------------------------------------------------------------

  /** A diagnostic with the line number appended, as text, to its parameters. */
  function Stamp(d: Diagnostic, line: int): (w: Diagnostic)
    ensures w.key == d.key
    ensures |w.params| == |d.params| + 1 && w.params[..|d.params|] == d.params
    ensures w.params[|d.params|].Text? && ParseDecimal(w.params[|d.params|].s) == line
  {
    DecimalStringRoundTrip(line);
    Diagnostic(d.key, d.params + [Text(DecimalString(line))])
  }

  /** The warnings one check result contributes on the given line. */
  function Emitted(d: Option<Diagnostic>, line: int): seq<Diagnostic>
  {
    if d.Some? then [Stamp(d.value, line)] else []
  }

  /** `warning_filter`: nothing for None, otherwise exactly one warning,
      appended after those already collected. */
  function WarningFilter(st: ScanState, d: Option<Diagnostic>): (r: ScanState)
    ensures r.(warnings := st.warnings) == st
    ensures st.warnings <= r.warnings
    ensures |r.warnings| == |st.warnings| + (if d.Some? then 1 else 0)
    ensures d.Some? ==> r.warnings[|st.warnings|] == Stamp(d.value, st.lineNumber)
  {
    st.(warnings := st.warnings + Emitted(d, st.lineNumber))
  }

  // ---------------------------------------------------------------------
  // Suppression
  // ---------------------------------------------------------------------

  predicate StyleCheckingIsActive(st: ScanState)
  {
    st.lineNumber != st.lineNotToStyleCheck && !st.skipStylingOnFile
  }

  /** `apply_bslint_command`: `skip_line` records the line the check names,
      `skip_file` records the check's verdict, any other command is ignored. */
  function ApplyBslintCommand(st: ScanState, cmds: Commands): (r: ScanState)
    requires st.currentMatch.Some?
    ensures r.(lineNotToStyleCheck := st.lineNotToStyleCheck, skipStylingOnFile := st.skipStylingOnFile) == st
    ensures st.currentMatch.value.commandGroup == "skip_line" ==>
      r.lineNotToStyleCheck == cmds.checkSkipLine(st.lineNumber) && r.skipStylingOnFile == st.skipStylingOnFile
    ensures st.currentMatch.value.commandGroup == "skip_file" ==>
      r.skipStylingOnFile == cmds.checkSkipFile && r.lineNotToStyleCheck == st.lineNotToStyleCheck
    ensures st.currentMatch.value.commandGroup !in {"skip_line", "skip_file"} ==> r == st
  {
    var command := st.currentMatch.value.commandGroup;
    if command == "skip_line" then st.(lineNotToStyleCheck := cmds.checkSkipLine(st.lineNumber))
    else if command == "skip_file" then st.(skipStylingOnFile := cmds.checkSkipFile)
    else st
  }

  // ---------------------------------------------------------------------
  // Per-token styling
  // ---------------------------------------------------------------------

  /** `apply_common_styling`: the line is no longer blank, and the check for
      the token's kind runs (a comment: form, then spelling). */
  function ApplyCommonStyling(st: ScanState, cmds: Commands): (r: ScanState)
    requires st.currentMatch.Some?
    ensures StylingKeeps(st, r) && !r.isEmptyLine
    ensures r.(warnings := st.warnings, isEmptyLine := st.isEmptyLine) == st
    ensures var text := st.currentMatch.value.text;
      r.warnings == st.warnings +
        match st.tokenType
        case Some(Comment) =>
          Emitted(cmds.checkComment(text), st.lineNumber) +
          Emitted(cmds.checkSpelling(text, st.tokenType), st.lineNumber)
        case Some(Operator) =>
          Emitted(cmds.checkSpacesAroundOperators(st.characters, st.currentCharIndex), st.lineNumber)
        case Some(Id) => Emitted(cmds.checkSpelling(text, st.tokenType), st.lineNumber)
        case Some(PrintKeyword) => Emitted(cmds.checkTraceFree, st.lineNumber)
        case _ => []
  {
    var s := st.(isEmptyLine := false);
    var text := st.currentMatch.value.text;
    match st.tokenType
    case Some(Comment) =>
      var s1 := WarningFilter(s, cmds.checkComment(text));
      WarningFilter(s1, cmds.checkSpelling(text, s1.tokenType))
    case Some(Operator) => WarningFilter(s, cmds.checkSpacesAroundOperators(s.characters, s.currentCharIndex))
    case Some(Id) => WarningFilter(s, cmds.checkSpelling(text, s.tokenType))
    case Some(PrintKeyword) => WarningFilter(s, cmds.checkTraceFree)
    case _ => s
  }

  // ---------------------------------------------------------------------
  // End-of-line styling
  // ---------------------------------------------------------------------

  /** `count_consecutive_new_lines`. */
  function CountConsecutiveNewLines(st: ScanState): (r: ScanState)
    ensures r.isEmptyLine
    ensures r.consecutiveEmptyLines == if st.isEmptyLine then st.consecutiveEmptyLines + 1 else 0
    ensures r.(isEmptyLine := st.isEmptyLine, consecutiveEmptyLines := st.consecutiveEmptyLines) == st
  {
    if st.isEmptyLine then st.(consecutiveEmptyLines := st.consecutiveEmptyLines + 1)
    else st.(isEmptyLine := true, consecutiveEmptyLines := 0)
  }

  /** `get_last_line`: the line before the character just consumed,
      from `characters[:current_char_index - 1]`. */
  function LastReadLine(st: ScanState): string
  {
    LastLine(PrefixTo(st.characters, st.currentCharIndex - 1))
  }

  /** The line `get_last_line` reads is the end of the text before the
      character just consumed, holds no newline and starts that text or
      follows a newline. */
  lemma LastReadLineIsLastLine(st: ScanState)
    ensures var p := PrefixTo(st.characters, st.currentCharIndex - 1);
      var r := LastReadLine(st);
      '\n' !in r && |r| <= |p| && r == p[|p| - |r|..] && (|r| == |p| || p[|p| - |r| - 1] == '\n')
  {
    LastLineIsLastLine(PrefixTo(st.characters, st.currentCharIndex - 1));
  }

  /** `apply_indentation_styling`: a verdict of the check replaces the current
      depth and clears the hint; no verdict changes nothing. */
  function ApplyIndentationStyling(st: ScanState, lastLine: string, cmds: Commands): (r: ScanState)
    ensures var verdict := cmds.checkIndentation(st.currentIndentationLevel, lastLine, st.indentationLevel);
      if verdict.None? then r == st
      else
        r.currentIndentationLevel == verdict.value.newLevel && r.indentationLevel == 0 &&
        r.warnings == st.warnings + Emitted(verdict.value.diagnostic, st.lineNumber) &&
        r.(warnings := st.warnings, currentIndentationLevel := st.currentIndentationLevel,
           indentationLevel := st.indentationLevel) == st
  {
    match cmds.checkIndentation(st.currentIndentationLevel, lastLine, st.indentationLevel)
    case None => st
    case Some(verdict) =>
      WarningFilter(st, verdict.diagnostic).(currentIndentationLevel := verdict.newLevel, indentationLevel := 0)
  }

  /** The warnings the indentation check contributes. */
  function IndentationEmitted(cmds: Commands, current: int, hint: int, lastLine: string, line: int): seq<Diagnostic>
  {
    match cmds.checkIndentation(current, lastLine, hint)
    case None => []
    case Some(verdict) => Emitted(verdict.diagnostic, line)
  }

  /** `apply_new_line_styling`: blank-run update, then the line-length,
      blank-run and indentation checks (and, in the MatchHandler, the
      method-declaration spacing check), in that order; the line length
      restarts at 0. */
  function ApplyNewLineStyling(st: ScanState, cmds: Commands, variant: Variant): (r: ScanState)
    ensures StylingKeeps(st, r)
    ensures r.lineLength == 0 && r.isEmptyLine
    ensures r.consecutiveEmptyLines == if st.isEmptyLine then st.consecutiveEmptyLines + 1 else 0
  {
    var s1 := CountConsecutiveNewLines(st);
    var s2 := WarningFilter(s1, cmds.checkMaxLineLength(s1.lineLength));
    var s3 := WarningFilter(s2, cmds.checkConsecutiveEmptyLines(s2.consecutiveEmptyLines));
    var last := LastReadLine(st);  // s3 has the same characters and cursor
    var s4 :=
      if variant == LexerVariant then ApplyIndentationStyling(s3.(lastReadLine := last), last, cmds)
      else WarningFilter(ApplyIndentationStyling(s3, last, cmds), cmds.checkMethodDeclarationSpacing(last));
    s4.(lineLength := 0)
  }

  /** End-of-line checks run in the order line length, blank run,
      indentation, then (MatchHandler only) method-declaration spacing, each
      adding at most one warning for the line just finished. */
  lemma EndOfLineOrder(st: ScanState, cmds: Commands, variant: Variant)
    ensures var r := ApplyNewLineStyling(st, cmds, variant);
      var last := LastReadLine(st);
      r.warnings == st.warnings
        + Emitted(cmds.checkMaxLineLength(st.lineLength), st.lineNumber)
        + Emitted(cmds.checkConsecutiveEmptyLines(r.consecutiveEmptyLines), st.lineNumber)
        + IndentationEmitted(cmds, st.currentIndentationLevel, st.indentationLevel, last, st.lineNumber)
        + (if variant == HandlerVariant then Emitted(cmds.checkMethodDeclarationSpacing(last), st.lineNumber) else [])
  {
  }

  /** A verdict of the indentation check replaces the depth and clears the
      hint; the Lexer keeps the line it checked. */
  lemma EndOfLineIndentation(st: ScanState, cmds: Commands, variant: Variant)
    ensures var r := ApplyNewLineStyling(st, cmds, variant);
      var verdict := cmds.checkIndentation(st.currentIndentationLevel, LastReadLine(st), st.indentationLevel);
      (if verdict.None? then
        r.currentIndentationLevel == st.currentIndentationLevel && r.indentationLevel == st.indentationLevel
      else
        r.currentIndentationLevel == verdict.value.newLevel && r.indentationLevel == 0) &&
      r.lastReadLine == if variant == LexerVariant then LastReadLine(st) else st.lastReadLine
  {
  }

  /** `apply_styling`: nothing at all while checking is suppressed; otherwise
      end-of-line styling for a newline and per-token styling for the rest. */
  function ApplyStyling(st: ScanState, cmds: Commands, variant: Variant): (r: ScanState)
    requires st.currentMatch.Some?
    ensures !StyleCheckingIsActive(st) ==> r == st
    ensures StylingKeeps(st, r)
    ensures r.lineLength == if StyleCheckingIsActive(st) && st.tokenType == Some(NewLine) then 0 else st.lineLength
    ensures StyleCheckingIsActive(st) && st.tokenType != Some(NewLine) ==> !r.isEmptyLine
  {
    if !StyleCheckingIsActive(st) then st
    else if st.tokenType == Some(NewLine) then ApplyNewLineStyling(st, cmds, variant)
    else ApplyCommonStyling(st, cmds)
  }

  // ---------------------------------------------------------------------
  // One classified match
  // ---------------------------------------------------------------------

  /** Recording a classifier answer: the match and its kind become current,
      and the indentation hint is replaced unless it is the sentinel. */
  function Receive(st: ScanState, c: Classified): (r: ScanState)
    ensures r.currentMatch == Some(c.regexMatch) && r.tokenType == c.tokenType
    ensures r.indentationLevel == if c.indentationLevel.Level? then c.indentationLevel.n else st.indentationLevel
    ensures r.(currentMatch := st.currentMatch, tokenType := st.tokenType, indentationLevel := st.indentationLevel) == st
  {
    var s := st.(currentMatch := Some(c.regexMatch), tokenType := c.tokenType);
    if c.indentationLevel != NoIndentation then s.(indentationLevel := c.indentationLevel.n) else s
  }

  /** The state half of `match_handler`: styling first, then a newline moves
      to the next line and a directive updates the suppression state. */
  function HandleMatch(st: ScanState, cmds: Commands, variant: Variant): (r: ScanState)
    requires st.currentMatch.Some?
    ensures r.lineNumber == st.lineNumber + (if st.tokenType == Some(NewLine) then 1 else 0)
    ensures r.characters == st.characters && r.currentCharIndex == st.currentCharIndex
    ensures r.currentMatch == st.currentMatch && r.tokenType == st.tokenType
    ensures st.warnings <= r.warnings
    ensures !StyleCheckingIsActive(st) ==> r.warnings == st.warnings
    ensures StyleCheckingIsActive(st) && st.tokenType == Some(NewLine) ==>
      r.warnings == ApplyNewLineStyling(st, cmds, variant).warnings
    ensures StyleCheckingIsActive(st) && st.tokenType != Some(NewLine) ==>
      r.warnings == ApplyCommonStyling(st, cmds).warnings
    ensures r.lineLength == if StyleCheckingIsActive(st) && st.tokenType == Some(NewLine) then 0 else st.lineLength
    ensures st.tokenType != Some(BslintCommand) ==>
      r.lineNotToStyleCheck == st.lineNotToStyleCheck && r.skipStylingOnFile == st.skipStylingOnFile
    ensures st.tokenType == Some(BslintCommand) && st.currentMatch.value.commandGroup == "skip_file" ==>
      r.skipStylingOnFile == cmds.checkSkipFile
    ensures st.tokenType == Some(BslintCommand) && st.currentMatch.value.commandGroup != "skip_file" ==>
      r.skipStylingOnFile == st.skipStylingOnFile
  {
    var s := ApplyStyling(st, cmds, variant);
    if st.tokenType == Some(NewLine) then s.(lineNumber := s.lineNumber + 1)
    else if st.tokenType == Some(BslintCommand) then ApplyBslintCommand(s, cmds)
    else s
  }

  /** The token half of `match_handler`: newlines, directives and comments
      yield none; every other match yields one token on the current line. */
  function MatchToken(st: ScanState): (t: Option<Token>)
    requires st.currentMatch.Some?
    ensures t.None? <==> st.tokenType in {Some(NewLine), Some(BslintCommand), Some(Comment)}
    ensures t.Some? ==> t.value == BuildToken(st.currentMatch.value, st.tokenType, st.lineNumber)
  {
    if st.tokenType in {Some(NewLine), Some(BslintCommand), Some(Comment)} then None
    else Some(BuildToken(st.currentMatch.value, st.tokenType, st.lineNumber))
  }

  // ---------------------------------------------------------------------
  // Properties
  // ---------------------------------------------------------------------

  /** The refined end-of-line routine differs from the original only by the
      method-declaration spacing warning it appends last (and by not keeping
      the last read line in a field). */
  lemma HandlerExtendsLexerEndOfLine(st: ScanState, cmds: Commands)
    ensures var byLexer := ApplyNewLineStyling(st, cmds, LexerVariant);
      var byHandler := ApplyNewLineStyling(st, cmds, HandlerVariant);
      byHandler.warnings == byLexer.warnings +
        Emitted(cmds.checkMethodDeclarationSpacing(LastReadLine(st)), st.lineNumber) &&
      byHandler.(warnings := byLexer.warnings, lastReadLine := byLexer.lastReadLine) == byLexer
  {
  }

  /** Every warning in `ws` ends with the given line number, as text. */
  predicate StampedWith(ws: seq<Diagnostic>, line: int)
  {
    forall w :: w in ws ==> 0 < |w.params| && w.params[|w.params| - 1] == Text(DecimalString(line))
  }

  lemma StampedEmitted(d: Option<Diagnostic>, line: int)
    ensures StampedWith(Emitted(d, line), line)
  {
  }

  lemma StampedConcat(a: seq<Diagnostic>, b: seq<Diagnostic>, line: int)
    requires StampedWith(a, line) && StampedWith(b, line)
    ensures StampedWith(a + b, line)
  {
  }

  /** Four stamped groups appended to a list: what was appended is stamped. */
  lemma StampedSuffix(ws: seq<Diagnostic>, pre: seq<Diagnostic>,
                      e1: seq<Diagnostic>, e2: seq<Diagnostic>, e3: seq<Diagnostic>, e4: seq<Diagnostic>, line: int)
    requires ws == pre + e1 + e2 + e3 + e4
    requires StampedWith(e1, line) && StampedWith(e2, line) && StampedWith(e3, line) && StampedWith(e4, line)
    ensures pre <= ws && StampedWith(ws[|pre|..], line)
  {
    StampedConcat(e1, e2, line);
    StampedConcat(e1 + e2, e3, line);
    StampedConcat(e1 + e2 + e3, e4, line);
    assert ws == pre + (e1 + e2 + e3 + e4);
    assert ws[|pre|..] == e1 + e2 + e3 + e4;
  }

  /** Each end-of-line check's contribution is stamped with the line. */
  lemma EndOfLineGroupsStamped(cmds: Commands, length: nat, run: nat, current: int, hint: int,
                               last: string, line: int)
    ensures StampedWith(Emitted(cmds.checkMaxLineLength(length), line), line)
    ensures StampedWith(Emitted(cmds.checkConsecutiveEmptyLines(run), line), line)
    ensures StampedWith(IndentationEmitted(cmds, current, hint, last, line), line)
    ensures StampedWith(Emitted(cmds.checkMethodDeclarationSpacing(last), line), line)
  {
    StampedEmitted(cmds.checkMaxLineLength(length), line);
    StampedEmitted(cmds.checkConsecutiveEmptyLines(run), line);
    match cmds.checkIndentation(current, last, hint)
    case None =>
    case Some(verdict) => StampedEmitted(verdict.diagnostic, line);
    StampedEmitted(cmds.checkMethodDeclarationSpacing(last), line);
  }

  /** The warnings end-of-line styling adds all name the line being closed. */
  lemma EndOfLineCitesLine(st: ScanState, cmds: Commands, variant: Variant)
    ensures var r := ApplyNewLineStyling(st, cmds, variant);
      st.warnings <= r.warnings && StampedWith(r.warnings[|st.warnings|..], st.lineNumber)
  {
    var r := ApplyNewLineStyling(st, cmds, variant);
    var line, last, run := st.lineNumber, LastReadLine(st), r.consecutiveEmptyLines;
    EndOfLineOrder(st, cmds, variant);
    EndOfLineGroupsStamped(cmds, st.lineLength, run, st.currentIndentationLevel, st.indentationLevel, last, line);
    StampedSuffix(r.warnings, st.warnings,
                  Emitted(cmds.checkMaxLineLength(st.lineLength), line),
                  Emitted(cmds.checkConsecutiveEmptyLines(run), line),
                  IndentationEmitted(cmds, st.currentIndentationLevel, st.indentationLevel, last, line),
                  if variant == HandlerVariant then Emitted(cmds.checkMethodDeclarationSpacing(last), line) else [],
                  line);
  }

  /** A newline match is styled before the line number moves on, so every
      warning it adds names the line that just ended. */
  lemma NewLineChecksCiteFinishedLine(st: ScanState, cmds: Commands, variant: Variant)
    requires st.currentMatch.Some? && st.tokenType == Some(NewLine)
    ensures var r := HandleMatch(st, cmds, variant);
      r.lineNumber == st.lineNumber + 1 && st.warnings <= r.warnings &&
      StampedWith(r.warnings[|st.warnings|..], st.lineNumber)
  {
    var r := HandleMatch(st, cmds, variant);
    if StyleCheckingIsActive(st) {
      EndOfLineCitesLine(st, cmds, variant);
    } else {
      assert r.warnings[|st.warnings|..] == [];
    }
  }

  /** The Lexer's loop records a match and moves past it before it calls
      `match_handler`: the cursor and the line length grow by the lexeme's
      length, the indentation hint is replaced unless it is the sentinel, and
      nothing else changes. */
  function Advance(st: ScanState, c: Classified): (r: ScanState)
    ensures r.currentCharIndex == st.currentCharIndex + |c.regexMatch.text|
    ensures r.lineLength == st.lineLength + |c.regexMatch.text|
    ensures r.currentMatch == Some(c.regexMatch) && r.tokenType == c.tokenType
    ensures r.indentationLevel == if c.indentationLevel.Level? then c.indentationLevel.n else st.indentationLevel
    ensures r.(currentCharIndex := st.currentCharIndex, lineLength := st.lineLength, currentMatch := st.currentMatch,
               tokenType := st.tokenType, indentationLevel := st.indentationLevel) == st
  {
    var received := Receive(st, c);
    received.(currentCharIndex := received.currentCharIndex + |c.regexMatch.text|,
              lineLength := received.lineLength + |c.regexMatch.text|)
  }

  /** One call of `match_handler` on a classifier answer. The MatchHandler
      records the answer itself; in the Lexer the loop has already recorded
      it and moved past the lexeme. */
  function MatchStep(st: ScanState, c: Classified, cmds: Commands, variant: Variant): ScanState
  {
    HandleMatch(if variant == LexerVariant then Advance(st, c) else Receive(st, c), cmds, variant)
  }

  /** Newline answers handled one after the other, each by a whole
      `match_handler` call. */
  function NewLineRun(st: ScanState, answers: seq<Classified>, cmds: Commands, variant: Variant): (r: ScanState)
    requires forall i :: 0 <= i < |answers| ==> answers[i].tokenType == Some(NewLine)
    ensures r.lineNumber == st.lineNumber + |answers|
    ensures r.lineNotToStyleCheck == st.lineNotToStyleCheck && r.skipStylingOnFile == st.skipStylingOnFile
    decreases |answers|
  {
    if |answers| == 0 then st
    else MatchStep(NewLineRun(st, answers[..|answers| - 1], cmds, variant), answers[|answers| - 1], cmds, variant)
  }

  /** Blank-line run: after a line that held a styled token, its closing
      newline and then `k` further newlines (empty lines) leave the counter
      the consecutive-empty-lines check reads at `k`, and the next line
      starts out empty. */
  lemma {:induction false} BlankRunCountsEmptyLines(st: ScanState, answers: seq<Classified>, cmds: Commands, variant: Variant)
    requires forall i :: 0 <= i < |answers| ==> answers[i].tokenType == Some(NewLine)
    requires 0 < |answers|
    requires !st.isEmptyLine && !st.skipStylingOnFile
    requires st.lineNotToStyleCheck < st.lineNumber
    ensures var r := NewLineRun(st, answers, cmds, variant);
      r.consecutiveEmptyLines == |answers| - 1 && r.isEmptyLine
    decreases |answers|
  {
    var earlier := answers[..|answers| - 1];
    var prev := NewLineRun(st, earlier, cmds, variant);
    if 0 < |earlier| {
      BlankRunCountsEmptyLines(st, earlier, cmds, variant);
    }
    var a := answers[|answers| - 1];
    var received := if variant == LexerVariant then Advance(prev, a) else Receive(prev, a);
    assert received.isEmptyLine == prev.isEmptyLine && received.consecutiveEmptyLines == prev.consecutiveEmptyLines;
    StyledNewLineCountsBlankRun(received, cmds, variant);
  }

  /** A newline handled while styling is active closes the line: the blank
      run grows by one if the line was empty and restarts at 0 otherwise, and
      the next line starts out empty. */
  lemma StyledNewLineCountsBlankRun(st: ScanState, cmds: Commands, variant: Variant)
    requires st.currentMatch.Some? && st.tokenType == Some(NewLine) && StyleCheckingIsActive(st)
    ensures var r := HandleMatch(st, cmds, variant);
      r.isEmptyLine && r.consecutiveEmptyLines == if st.isEmptyLine then st.consecutiveEmptyLines + 1 else 0
  {
    assert ApplyStyling(st, cmds, variant) == ApplyNewLineStyling(st, cmds, variant);
  }
}
