/**
 * The `Lexer` class of bslint/lexer.py: one left-to-right pass over the
 * source that builds tokens, applies the in-source suppression directives,
 * runs the style checks and recovers, line by line, from text the classifier
 * cannot match (an unterminated string literal).
 *
 * `Loop` and `LexRun` specify the `lex` driver; `Lexer.Lex` is proved to
 * leave its fields and return its result exactly as they say, and the lemmas
 * at the end state what a scan guarantees.
 */
module LexerModel {
  import opened Scanning
  import opened ScanSpec

  const UNMATCHED_QUOTATION_MARK: string := "UNMATCHED_QUOTATION_MARK"

  /** The slice end that drops a line's last character (Python `[:-1]`). */
  const PENULTIMATE_CHARACTER: int := -1

  /** The `{Status, Tokens, Warnings}` record: tokens on success, the
      unmatched-quotation errors otherwise, and the warnings in both cases. */
  datatype ScanResult =
    | Success(tokens: seq<Token>, warnings: seq<Diagnostic>)
    | Error(errors: seq<Diagnostic>, warnings: seq<Diagnostic>)

  /** `lex` either returns a result or lets the AttributeError out that
      `end_of_line.group()` raises when the unmatched text has no newline. */
  datatype LexOutcome = Returned(result: ScanResult) | RaisedAttributeError

  /** Where the `while` loop of `lex` stops: the fields, the local token and
      error lists, and whether it left by the exception. */
  datatype Scan = Scan(state: ScanState, tokens: seq<Token>, errors: seq<Diagnostic>, raised: bool)

  /** The lexeme classifier answers with a non-empty prefix of its input
      (or fails, the ValueError of `find_match`). */
  ghost predicate WellFormedClassifier(classify: string -> Option<Classified>)
  {
    forall s :: classify(s).Some? ==>
      0 < |classify(s).value.regexMatch.text| && classify(s).value.regexMatch.text <= s
  }

  /** A classifier whose newline tokens hold exactly one newline character
      and whose other lexemes hold none. */
  ghost predicate LinesFaithful(classify: string -> Option<Classified>)
  {
    forall s :: classify(s).Some? ==>
      Newlines(classify(s).value.regexMatch.text) == if classify(s).value.tokenType == Some(NewLine) then 1 else 0
  }

  /** The error recorded for an unmatched line: the line without its last
      character, and the line number. */
  function UnmatchedQuotation(line: string, lineNumber: int): (e: Diagnostic)
    ensures e.key == UNMATCHED_QUOTATION_MARK && |e.params| == 2
    ensures e.params[1] == Number(lineNumber) && e.params[0].Text?
    ensures 0 < |line| ==> e.params[0].s == line[..|line| - 1]
  {
    Diagnostic(UNMATCHED_QUOTATION_MARK, [Text(PrefixTo(line, PENULTIMATE_CHARACTER)), Number(lineNumber)])
  }

  /** The line number an unmatched-quotation error names. */
  function ErrorLine(e: Diagnostic): int
  {
    if |e.params| == 2 && e.params[1].Number? then e.params[1].n else 0
  }

  /** Errors that all report unmatched quotation marks on lines in [lo, hi),
      in strictly increasing line order. */
  predicate UnmatchedErrorsBetween(es: seq<Diagnostic>, lo: int, hi: int)
  {
    (forall i :: 0 <= i < |es| ==>
      es[i].key == UNMATCHED_QUOTATION_MARK && |es[i].params| == 2 && es[i].params[0].Text? &&
      es[i].params[1].Number? && lo <= ErrorLine(es[i]) < hi) &&
    (forall i, j :: 0 <= i < j < |es| ==> ErrorLine(es[i]) < ErrorLine(es[j]))
  }

  predicate LinesSorted(ts: seq<Token>)
  {
    forall i, j :: 0 <= i < j < |ts| ==> ts[i].line <= ts[j].line
  }

  predicate LinesBetween(ts: seq<Token>, lo: int, hi: int)
  {
    forall i :: 0 <= i < |ts| ==> lo <= ts[i].line <= hi
  }

  // ---------------------------------------------------------------------
  // The lex driver as functions
  // ---------------------------------------------------------------------

  /** The token list after one match: one token for every kind except
      newline, directive and comment. */
  function AppendToken(tokens: seq<Token>, t: Option<Token>): (r: seq<Token>)
    ensures tokens <= r
    ensures |r| == |tokens| + (if t.Some? then 1 else 0)
    ensures t.Some? ==> r[|tokens|] == t.value
  {
    if t.Some? then tokens + [t.value] else tokens
  }

  /** One successful iteration of the loop: record the match, advance the
      cursor and the line length by the lexeme's length, and, for a token
      kind, run `match_handler`. */
  function ClassifiedStep(st: ScanState, tokens: seq<Token>, c: Classified, cmds: Commands): (r: (ScanState, seq<Token>))
  {
    var advanced := Advance(st, c);
    if c.tokenType.Some? then
      (HandleMatch(advanced, cmds, LexerVariant), AppendToken(tokens, MatchToken(advanced)))
    else
      (advanced, tokens)
  }

  /** One classified lexeme moves the cursor by its length, keeps the text,
      counts a newline, restarts the line length at a styled newline, only
      appends warnings, and appends the token `match_handler` builds. */
  lemma ClassifiedStepFacts(st: ScanState, tokens: seq<Token>, c: Classified, cmds: Commands)
    ensures var r := ClassifiedStep(st, tokens, c, cmds);
      r.0.characters == st.characters &&
      r.0.currentCharIndex == st.currentCharIndex + |c.regexMatch.text| &&
      r.0.lineLength ==
        (if c.tokenType == Some(NewLine) && StyleCheckingIsActive(st) then 0 else st.lineLength + |c.regexMatch.text|) &&
      r.0.lineNumber == st.lineNumber + (if c.tokenType == Some(NewLine) then 1 else 0) &&
      st.warnings <= r.0.warnings &&
      r.1 == tokens + (
        if c.tokenType.Some? && c.tokenType !in {Some(NewLine), Some(BslintCommand), Some(Comment)}
        then [BuildToken(c.regexMatch, c.tokenType, st.lineNumber)] else [])
  {
  }

  /** For a token kind the loop's step is one `match_handler` call in the
      sense of `MatchStep`, the same step the MatchHandler takes. */
  lemma ClassifiedStepIsMatchStep(st: ScanState, tokens: seq<Token>, c: Classified, cmds: Commands)
    requires c.tokenType.Some?
    ensures ClassifiedStep(st, tokens, c, cmds).0 == MatchStep(st, c, cmds, LexerVariant)
  {
  }

  /** The recovery step: skip the offending line, newline included, and move
      to the next line number. */
  function Recover(st: ScanState, line: string): ScanState
  {
    st.(lineNumber := st.lineNumber + 1, currentCharIndex := st.currentCharIndex + |line|)
  }

  /** The recovery step skips exactly the offending line: the cursor lands
      just past its newline, nothing between holds another newline, the line
      number grows by one and nothing else changes. */
  lemma RecoverSkipsLine(st: ScanState, line: string)
    requires st.currentCharIndex <= |st.characters|
    requires FirstLine(st.characters[st.currentCharIndex..]) == Some(line)
    ensures var r := Recover(st, line);
      st.currentCharIndex < r.currentCharIndex <= |st.characters| &&
      st.characters[r.currentCharIndex - 1] == '\n' &&
      '\n' !in st.characters[st.currentCharIndex..r.currentCharIndex - 1] &&
      r.lineNumber == st.lineNumber + 1 &&
      r.(lineNumber := st.lineNumber, currentCharIndex := st.currentCharIndex) == st
  {
  }

  /** The `while` loop of `lex`. */
  function Loop(st: ScanState, tokens: seq<Token>, errors: seq<Diagnostic>,
                classify: string -> Option<Classified>, cmds: Commands): Scan
    requires WellFormedClassifier(classify)
    decreases |st.characters| - st.currentCharIndex
  {
    if st.currentCharIndex >= |st.characters| then Scan(st, tokens, errors, false)
    else
      var rest := st.characters[st.currentCharIndex..];
      match classify(rest)
      case Some(c) =>
        var next := ClassifiedStep(st, tokens, c, cmds);
        Loop(next.0, next.1, errors, classify, cmds)
      case None =>
        match FirstLine(rest)
        case None => Scan(st, tokens, errors, true)
        case Some(line) =>
          Loop(Recover(st, line), tokens, errors + [UnmatchedQuotation(line, st.lineNumber)], classify, cmds)
  }

  /** Unrolling the loop by one classified lexeme. */
  lemma LoopConsumes(st: ScanState, tokens: seq<Token>, errors: seq<Diagnostic>,
                     classify: string -> Option<Classified>, cmds: Commands)
    requires WellFormedClassifier(classify)
    requires st.currentCharIndex < |st.characters|
    requires classify(st.characters[st.currentCharIndex..]).Some?
    ensures var next := ClassifiedStep(st, tokens, classify(st.characters[st.currentCharIndex..]).value, cmds);
      Loop(st, tokens, errors, classify, cmds) == Loop(next.0, next.1, errors, classify, cmds)
  {
  }

  /** Unrolling the loop by one recovered line. */
  lemma LoopRecovers(st: ScanState, tokens: seq<Token>, errors: seq<Diagnostic>,
                     classify: string -> Option<Classified>, cmds: Commands)
    requires WellFormedClassifier(classify)
    requires st.currentCharIndex < |st.characters|
    requires classify(st.characters[st.currentCharIndex..]).None?
    requires FirstLine(st.characters[st.currentCharIndex..]).Some?
    ensures var line := FirstLine(st.characters[st.currentCharIndex..]).value;
      Loop(st, tokens, errors, classify, cmds) ==
      Loop(Recover(st, line), tokens, errors + [UnmatchedQuotation(line, st.lineNumber)], classify, cmds)
  {
  }

  /** Unrolling the loop where the unmatched text has no newline left. */
  lemma LoopRaises(st: ScanState, tokens: seq<Token>, errors: seq<Diagnostic>,
                   classify: string -> Option<Classified>, cmds: Commands)
    requires WellFormedClassifier(classify)
    requires st.currentCharIndex < |st.characters|
    requires classify(st.characters[st.currentCharIndex..]).None?
    requires FirstLine(st.characters[st.currentCharIndex..]).None?
    ensures Loop(st, tokens, errors, classify, cmds) == Scan(st, tokens, errors, true)
  {
  }

  /** What `lex` does once the loop has stopped: the flush of the final line
      unless the loop raised, then the result. */
  function Finish(scan: Scan, cmds: Commands): (r: (ScanState, LexOutcome))
    ensures r.1.RaisedAttributeError? <==> scan.raised
    ensures scan.raised ==> r.0 == scan.state
    ensures !scan.raised ==>
      r.0 == (if StyleCheckingIsActive(scan.state) then ApplyNewLineStyling(scan.state, cmds, LexerVariant) else scan.state)
    ensures r.1.Returned? ==> r.1.result.warnings == r.0.warnings
    ensures r.1.Returned? ==> (r.1.result.Error? <==> |scan.errors| != 0)
    ensures r.1.Returned? && r.1.result.Error? ==> r.1.result.errors == scan.errors
    ensures r.1.Returned? && r.1.result.Success? ==> r.1.result.tokens == scan.tokens
  {
    if scan.raised then (scan.state, RaisedAttributeError)
    else
      var final :=
        if StyleCheckingIsActive(scan.state) then ApplyNewLineStyling(scan.state, cmds, LexerVariant) else scan.state;
      (final, Returned(if |scan.errors| != 0 then Error(scan.errors, final.warnings)
                       else Success(scan.tokens, final.warnings)))
  }

  /** `lex`: the loop from the object's current fields (nothing but the text
      and the file-wide suppression flag is reset), then the flush of the
      final line, then the result. */
  function LexRun(st: ScanState, characters: string, classify: string -> Option<Classified>, cmds: Commands): (ScanState, LexOutcome)
    requires WellFormedClassifier(classify)
  {
    Finish(Loop(st.(characters := characters, skipStylingOnFile := false), [], [], classify, cmds), cmds)
  }

  // ---------------------------------------------------------------------
  // The class
  // ---------------------------------------------------------------------

  class Lexer {
    /** The lexeme classifier (`regex_handler.find_match`). */
    const classify: string -> Option<Classified>
    /** The style checks of the `commands` module. */
    const commands: Commands

    var lineNumber: int
    var warnings: seq<Diagnostic>
    var lineLength: nat
    var indentationLevel: int
    var currentIndentationLevel: int
    var consecutiveEmptyLines: nat
    var isEmptyLine: bool
    var lineNotToStyleCheck: int
    var skipStylingOnFile: bool
    var characters: string
    var currentCharIndex: nat
    var currentMatch: Option<RegexMatch>
    var tokenType: Option<TokenKind>
    var lastReadLine: string

    function State(): ScanState
      reads this
    {
      ScanState(lineNumber, warnings, lineLength, indentationLevel, currentIndentationLevel,
                consecutiveEmptyLines, isEmptyLine, lineNotToStyleCheck, skipStylingOnFile,
                characters, currentCharIndex, currentMatch, tokenType, lastReadLine)
    }

    constructor(classify: string -> Option<Classified>, commands: Commands)
      ensures this.classify == classify && this.commands == commands
      ensures State() == InitialState("")
    {
      this.classify := classify;
      this.commands := commands;
      lineNumber := 1;
      warnings := [];
      lineLength := 0;
      indentationLevel := 0;
      currentIndentationLevel := 0;
      consecutiveEmptyLines := 0;
      isEmptyLine := true;
      lineNotToStyleCheck := -1;
      skipStylingOnFile := false;
      characters := "";
      currentCharIndex := 0;
      currentMatch := None;
      tokenType := None;
      lastReadLine := "";
    }

    /** `lex`: the scan over `characters`, the flush of the final line, and
        the result record. */
    method Lex(characters: string) returns (outcome: LexOutcome)
      requires WellFormedClassifier(classify)
      modifies this
      ensures (State(), outcome) == LexRun(old(State()), characters, classify, commands)
    {
      this.characters := characters;
      skipStylingOnFile := false;
      var tokens, errors, raised := ScanLoop();
      if raised {
        outcome := RaisedAttributeError;
        return;
      }
      if StyleCheckingIsActive() {
        ApplyNewLineStyling();
      }
      if |errors| != 0 {
        outcome := Returned(Error(errors, warnings));
      } else {
        outcome := Returned(Success(tokens, warnings));
      }
    }

    /** The `while` loop of `lex`, from the current fields with empty token
        and error lists. */
    method ScanLoop() returns (tokens: seq<Token>, errors: seq<Diagnostic>, raised: bool)
      requires WellFormedClassifier(classify)
      modifies this
      ensures Scan(State(), tokens, errors, raised) == Loop(old(State()), [], [], classify, commands)
    {
      tokens, errors, raised := [], [], false;
      ghost var goal := Loop(State(), [], [], classify, commands);
      while currentCharIndex < |characters|
        invariant Loop(State(), tokens, errors, classify, commands) == goal
        decreases |characters| - currentCharIndex
      {
        var result := classify(characters[currentCharIndex..]);
        ghost var before := State();
        if result.Some? {
          LoopConsumes(before, tokens, errors, classify, commands);
          tokens := Consume(result.value, tokens);
        } else {
          var endOfLine := FirstLine(characters[currentCharIndex..]);
          if endOfLine.None? {
            LoopRaises(before, tokens, errors, classify, commands);
            raised := true;
            return;
          }
          LoopRecovers(before, tokens, errors, classify, commands);
          errors := errors + [UnmatchedQuotation(endOfLine.value, lineNumber)];
          SkipLine(endOfLine.value);
        }
      }
    }

    /** The recovery half of the loop body of `lex`: move past the unmatched
        line and on to the next line number. */
    method SkipLine(line: string)
      modifies this
      ensures State() == Recover(old(State()), line)
    {
      lineNumber := lineNumber + 1;
      currentCharIndex := currentCharIndex + |line|;
    }

    /** Taking a classifier answer: the match, its kind and (unless it is the
        sentinel) its indentation hint become current. */
    method Record(c: Classified)
      modifies this
      ensures State() == Receive(old(State()), c)
    {
      currentMatch := Some(c.regexMatch);
      tokenType := c.tokenType;
      if c.indentationLevel != NoIndentation {
        indentationLevel := c.indentationLevel.n;
      }
    }

    /** The loop body of `lex` for a classified lexeme: record it, move past
        it and, for a token kind, hand it to `match_handler`. */
    method Consume(c: Classified, tokens: seq<Token>) returns (result: seq<Token>)
      modifies this
      ensures var next := ClassifiedStep(old(State()), tokens, c, commands);
        State() == next.0 && result == next.1
    {
      ghost var before := State();
      Record(c);
      currentCharIndex := currentCharIndex + |c.regexMatch.text|;
      lineLength := lineLength + |c.regexMatch.text|;
      ghost var advanced := State();
      assert advanced == Advance(before, c);
      result := tokens;
      if tokenType.Some? {
        result := HandleMatch(tokens);
        assert State() == ScanSpec.HandleMatch(advanced, commands, LexerVariant);
      }
    }

    /** `get_last_line`. */
    method GetLastLine()
      modifies this
      ensures State() == old(State()).(lastReadLine := LastReadLine(old(State())))
    {
      lastReadLine := LastLine(PrefixTo(characters, currentCharIndex - 1));
    }

    /** `match_handler`: styling, then the newline, directive or token. */
    method HandleMatch(tokens: seq<Token>) returns (result: seq<Token>)
      requires currentMatch.Some?
      modifies this
      ensures State() == ScanSpec.HandleMatch(old(State()), commands, LexerVariant)
      ensures result == AppendToken(tokens, MatchToken(old(State())))
    {
      ApplyStyling();
      result := tokens;
      if tokenType == Some(NewLine) {
        lineNumber := lineNumber + 1;
      } else if tokenType == Some(BslintCommand) {
        ApplyBslintCommand();
      } else if tokenType != Some(Comment) {
        var tokenTuple := BuildToken();
        result := result + [tokenTuple];
      }
    }

    /** `apply_bslint_command`. */
    method ApplyBslintCommand()
      requires currentMatch.Some?
      modifies this
      ensures State() == ScanSpec.ApplyBslintCommand(old(State()), commands)
    {
      var commandType := currentMatch.value.commandGroup;
      if commandType == "skip_line" {
        lineNotToStyleCheck := commands.checkSkipLine(lineNumber);
      } else if commandType == "skip_file" {
        skipStylingOnFile := commands.checkSkipFile;
      }
    }

    /** `apply_styling`. */
    method ApplyStyling()
      requires currentMatch.Some?
      modifies this
      ensures State() == ScanSpec.ApplyStyling(old(State()), commands, LexerVariant)
    {
      if StyleCheckingIsActive() {
        if tokenType == Some(NewLine) {
          ApplyNewLineStyling();
        } else {
          ApplyCommonStyling();
        }
      }
    }

    /** `style_checking_is_active`. */
    predicate StyleCheckingIsActive()
      reads this
    {
      lineNumber != lineNotToStyleCheck && !skipStylingOnFile
    }

    /** `apply_common_styling`. */
    method ApplyCommonStyling()
      requires currentMatch.Some?
      modifies this
      ensures State() == ScanSpec.ApplyCommonStyling(old(State()), commands)
    {
      ghost var st := State();
      isEmptyLine := false;
      assert State() == st.(isEmptyLine := false);
      if tokenType == Some(Comment) {
        CheckCommentStyling();
      } else if tokenType == Some(Operator) {
        CheckOperatorSpacing();
      } else if tokenType == Some(Id) {
        CheckSpelling();
      } else if tokenType == Some(PrintKeyword) {
        CheckTraceFree();
      }
    }

    method CheckTraceFree()
      modifies this
      ensures State() == ScanSpec.WarningFilter(old(State()), commands.checkTraceFree)
    {
      var isTraceFree := commands.checkTraceFree;
      WarningFilter(isTraceFree);
    }

    method CheckSpelling()
      requires currentMatch.Some?
      modifies this
      ensures State() == ScanSpec.WarningFilter(old(State()), commands.checkSpelling(old(currentMatch).value.text, tokenType))
    {
      var isSpeltCorrectly := commands.checkSpelling(currentMatch.value.text, tokenType);
      WarningFilter(isSpeltCorrectly);
    }

    method CheckOperatorSpacing()
      modifies this
      ensures State() == ScanSpec.WarningFilter(old(State()), commands.checkSpacesAroundOperators(characters, currentCharIndex))
    {
      var correctSpacing := commands.checkSpacesAroundOperators(characters, currentCharIndex);
      WarningFilter(correctSpacing);
    }

    method CheckCommentStyling()
      requires currentMatch.Some?
      modifies this
      ensures State() == ScanSpec.WarningFilter(
        ScanSpec.WarningFilter(old(State()), commands.checkComment(old(currentMatch).value.text)),
        commands.checkSpelling(old(currentMatch).value.text, tokenType))
    {
      var isCorrectComment := commands.checkComment(currentMatch.value.text);
      WarningFilter(isCorrectComment);
      CheckSpelling();
    }

    /** `apply_new_line_styling`. */
    method ApplyNewLineStyling()
      modifies this
      ensures State() == ScanSpec.ApplyNewLineStyling(old(State()), commands, LexerVariant)
    {
      ghost var st := State();
      CountConsecutiveNewLines();
      var isCorrectLineLength := commands.checkMaxLineLength(lineLength);
      WarningFilter(isCorrectLineLength);
      var isConsecutiveEmptyLines := commands.checkConsecutiveEmptyLines(consecutiveEmptyLines);
      WarningFilter(isConsecutiveEmptyLines);
      ghost var s3 := State();
      assert LastReadLine(s3) == LastReadLine(st);
      ApplyIndentationStyling();
      assert State() == ScanSpec.ApplyIndentationStyling(s3.(lastReadLine := LastReadLine(st)), LastReadLine(st), commands);
      lineLength := 0;
    }

    /** `apply_indentation_styling`: reads the last line into its field first. */
    method ApplyIndentationStyling()
      modifies this
      ensures var withLine := old(State()).(lastReadLine := LastReadLine(old(State())));
        State() == ScanSpec.ApplyIndentationStyling(withLine, withLine.lastReadLine, commands)
    {
      GetLastLine();
      var isCorrectIndentation := commands.checkIndentation(currentIndentationLevel, lastReadLine, indentationLevel);
      if isCorrectIndentation.Some? {
        WarningFilter(isCorrectIndentation.value.diagnostic);
        currentIndentationLevel := isCorrectIndentation.value.newLevel;
        indentationLevel := 0;
      }
    }

    /** `count_consecutive_new_lines`. */
    method CountConsecutiveNewLines()
      modifies this
      ensures State() == ScanSpec.CountConsecutiveNewLines(old(State()))
    {
      if isEmptyLine {
        consecutiveEmptyLines := consecutiveEmptyLines + 1;
      } else {
        isEmptyLine := true;
        consecutiveEmptyLines := 0;
      }
    }

    /** `build_token` with `build_string_tuple` and `build_id_tuple`. */
    function BuildToken(): (t: Token)
      requires currentMatch.Some?
      reads this
      ensures t == Scanning.BuildToken(currentMatch.value, tokenType, lineNumber)
    {
      Scanning.BuildToken(currentMatch.value, tokenType, lineNumber)
    }

    /** `warning_filter`: the rendered message is kept as its key and parameters. */
    method WarningFilter(result: Option<Diagnostic>)
      modifies this
      ensures State() == ScanSpec.WarningFilter(old(State()), result)
    {
      if result.Some? {
        var warning := Diagnostic(result.value.key, result.value.params + [Text(DecimalString(lineNumber))]);
        warnings := warnings + [warning];
      }
    }
  }

  // ---------------------------------------------------------------------
  // What a scan guarantees
  // ---------------------------------------------------------------------

  /** The loop never changes the text; it stops at the end of the text unless
      it raised, which happens only on unmatched text with no newline left; it
      keeps every token, error and warning collected so far; and the line
      number never decreases. */
  lemma {:induction false} LoopFacts(st: ScanState, tokens: seq<Token>, errors: seq<Diagnostic>,
                                     classify: string -> Option<Classified>, cmds: Commands)
    requires WellFormedClassifier(classify)
    requires st.currentCharIndex <= |st.characters|
    ensures ScanFacts(st, tokens, errors, classify, Loop(st, tokens, errors, classify, cmds))
    decreases |st.characters| - st.currentCharIndex, 1
  {
    var i := st.currentCharIndex;
    if i < |st.characters| {
      var rest := st.characters[i..];
      if classify(rest).Some? {
        ConsumedLexemeFacts(st, tokens, errors, classify, cmds);
      } else if FirstLine(rest).Some? {
        RecoveredLineFacts(st, tokens, errors, classify, cmds);
      } else {
        LoopRaises(st, tokens, errors, classify, cmds);
      }
    }
  }

  /** What LoopFacts states about the scan `r` that started from `st`. */
  ghost predicate ScanFacts(st: ScanState, tokens: seq<Token>, errors: seq<Diagnostic>,
                            classify: string -> Option<Classified>, r: Scan)
  {
    r.state.characters == st.characters &&
    st.currentCharIndex <= r.state.currentCharIndex <= |st.characters| &&
    (r.raised <==> r.state.currentCharIndex < |st.characters|) &&
    (r.raised ==> classify(st.characters[r.state.currentCharIndex..]).None? &&
                  '\n' !in st.characters[r.state.currentCharIndex..]) &&
    st.lineNumber <= r.state.lineNumber &&
    st.warnings <= r.state.warnings && tokens <= r.tokens && errors <= r.errors
  }

  /** LoopFacts, where the first lexeme is classified. */
  lemma {:induction false} ConsumedLexemeFacts(st: ScanState, tokens: seq<Token>, errors: seq<Diagnostic>,
                                               classify: string -> Option<Classified>, cmds: Commands)
    requires WellFormedClassifier(classify)
    requires st.currentCharIndex < |st.characters|
    requires classify(st.characters[st.currentCharIndex..]).Some?
    ensures ScanFacts(st, tokens, errors, classify, Loop(st, tokens, errors, classify, cmds))
    decreases |st.characters| - st.currentCharIndex, 0
  {
    var c := classify(st.characters[st.currentCharIndex..]).value;
    var next := ClassifiedStep(st, tokens, c, cmds);
    LoopConsumes(st, tokens, errors, classify, cmds);
    ClassifiedStepFacts(st, tokens, c, cmds);
    LoopFacts(next.0, next.1, errors, classify, cmds);
  }

  /** LoopFacts, where the first line is skipped as unmatched. */
  lemma {:induction false} RecoveredLineFacts(st: ScanState, tokens: seq<Token>, errors: seq<Diagnostic>,
                                              classify: string -> Option<Classified>, cmds: Commands)
    requires WellFormedClassifier(classify)
    requires st.currentCharIndex < |st.characters|
    requires classify(st.characters[st.currentCharIndex..]).None?
    requires FirstLine(st.characters[st.currentCharIndex..]).Some?
    ensures ScanFacts(st, tokens, errors, classify, Loop(st, tokens, errors, classify, cmds))
    decreases |st.characters| - st.currentCharIndex, 0
  {
    var line := FirstLine(st.characters[st.currentCharIndex..]).value;
    LoopRecovers(st, tokens, errors, classify, cmds);
    LoopFacts(Recover(st, line), tokens, errors + [UnmatchedQuotation(line, st.lineNumber)], classify, cmds);
  }

  /** Errors once recorded stay recorded, first to last. */
  lemma {:induction false} LoopKeepsErrors(st: ScanState, tokens: seq<Token>, errors: seq<Diagnostic>,
                                           classify: string -> Option<Classified>, cmds: Commands)
    requires WellFormedClassifier(classify)
    ensures errors <= Loop(st, tokens, errors, classify, cmds).errors
    decreases |st.characters| - st.currentCharIndex
  {
    if st.currentCharIndex < |st.characters| {
      var rest := st.characters[st.currentCharIndex..];
      match classify(rest)
      case Some(c) =>
        var next := ClassifiedStep(st, tokens, c, cmds);
        LoopKeepsErrors(next.0, next.1, errors, classify, cmds);
      case None =>
        match FirstLine(rest)
        case None =>
        case Some(line) =>
          LoopKeepsErrors(Recover(st, line), tokens, errors + [UnmatchedQuotation(line, st.lineNumber)], classify, cmds);
    }
  }

  /** Tokens come out in line order, each stamped with a line the scan
      passed through. */
  lemma {:induction false} LoopOrdersTokens(st: ScanState, tokens: seq<Token>, errors: seq<Diagnostic>,
                                            classify: string -> Option<Classified>, cmds: Commands, lo: int)
    requires WellFormedClassifier(classify)
    requires lo <= st.lineNumber
    requires LinesSorted(tokens) && LinesBetween(tokens, lo, st.lineNumber)
    ensures var r := Loop(st, tokens, errors, classify, cmds);
      LinesSorted(r.tokens) && LinesBetween(r.tokens, lo, r.state.lineNumber)
    decreases |st.characters| - st.currentCharIndex, 1
  {
    var i := st.currentCharIndex;
    if i < |st.characters| {
      var rest := st.characters[i..];
      if classify(rest).Some? {
        ConsumedLexemeOrdersTokens(st, tokens, errors, classify, cmds, lo);
      } else if FirstLine(rest).Some? {
        var line := FirstLine(rest).value;
        LoopRecovers(st, tokens, errors, classify, cmds);
        LoopOrdersTokens(Recover(st, line), tokens, errors + [UnmatchedQuotation(line, st.lineNumber)], classify, cmds, lo);
      } else {
        LoopRaises(st, tokens, errors, classify, cmds);
      }
    }
  }

  /** LoopOrdersTokens, where the first lexeme is classified. */
  lemma {:induction false} ConsumedLexemeOrdersTokens(st: ScanState, tokens: seq<Token>, errors: seq<Diagnostic>,
                                                      classify: string -> Option<Classified>, cmds: Commands, lo: int)
    requires WellFormedClassifier(classify)
    requires st.currentCharIndex < |st.characters|
    requires classify(st.characters[st.currentCharIndex..]).Some?
    requires lo <= st.lineNumber
    requires LinesSorted(tokens) && LinesBetween(tokens, lo, st.lineNumber)
    ensures var r := Loop(st, tokens, errors, classify, cmds);
      LinesSorted(r.tokens) && LinesBetween(r.tokens, lo, r.state.lineNumber)
    decreases |st.characters| - st.currentCharIndex, 0
  {
    var c := classify(st.characters[st.currentCharIndex..]).value;
    var next := ClassifiedStep(st, tokens, c, cmds);
    LoopConsumes(st, tokens, errors, classify, cmds);
    ClassifiedStepFacts(st, tokens, c, cmds);
    LoopOrdersTokens(next.0, next.1, errors, classify, cmds, lo);
  }

  /** The unmatched-quotation errors name the lines they were found on, one
      per line, in increasing order. */
  lemma {:induction false} LoopOrdersErrors(st: ScanState, tokens: seq<Token>, errors: seq<Diagnostic>,
                                            classify: string -> Option<Classified>, cmds: Commands, lo: int)
    requires WellFormedClassifier(classify)
    requires lo <= st.lineNumber
    requires UnmatchedErrorsBetween(errors, lo, st.lineNumber)
    ensures var r := Loop(st, tokens, errors, classify, cmds);
      UnmatchedErrorsBetween(r.errors, lo, r.state.lineNumber)
    decreases |st.characters| - st.currentCharIndex, 1
  {
    var i := st.currentCharIndex;
    if i < |st.characters| {
      var rest := st.characters[i..];
      if classify(rest).Some? {
        ConsumedLexemeOrdersErrors(st, tokens, errors, classify, cmds, lo);
      } else if FirstLine(rest).Some? {
        var line := FirstLine(rest).value;
        LoopRecovers(st, tokens, errors, classify, cmds);
        AppendUnmatched(errors, line, lo, st.lineNumber);
        LoopOrdersErrors(Recover(st, line), tokens, errors + [UnmatchedQuotation(line, st.lineNumber)], classify, cmds, lo);
      } else {
        LoopRaises(st, tokens, errors, classify, cmds);
      }
    }
  }

  /** LoopOrdersErrors, where the first lexeme is classified. */
  lemma {:induction false} ConsumedLexemeOrdersErrors(st: ScanState, tokens: seq<Token>, errors: seq<Diagnostic>,
                                                      classify: string -> Option<Classified>, cmds: Commands, lo: int)
    requires WellFormedClassifier(classify)
    requires st.currentCharIndex < |st.characters|
    requires classify(st.characters[st.currentCharIndex..]).Some?
    requires lo <= st.lineNumber
    requires UnmatchedErrorsBetween(errors, lo, st.lineNumber)
    ensures var r := Loop(st, tokens, errors, classify, cmds);
      UnmatchedErrorsBetween(r.errors, lo, r.state.lineNumber)
    decreases |st.characters| - st.currentCharIndex, 0
  {
    var c := classify(st.characters[st.currentCharIndex..]).value;
    var next := ClassifiedStep(st, tokens, c, cmds);
    LoopConsumes(st, tokens, errors, classify, cmds);
    ClassifiedStepFacts(st, tokens, c, cmds);
    LoopOrdersErrors(next.0, next.1, errors, classify, cmds, lo);
  }

  /** Recording the error for line `n` after errors for earlier lines keeps
      the list ordered, now up to line `n + 1`. */
  lemma AppendUnmatched(errors: seq<Diagnostic>, line: string, lo: int, n: int)
    requires lo <= n && UnmatchedErrorsBetween(errors, lo, n)
    ensures UnmatchedErrorsBetween(errors + [UnmatchedQuotation(line, n)], lo, n + 1)
  {
    var es := errors + [UnmatchedQuotation(line, n)];
    assert ErrorLine(es[|errors|]) == n;
    forall i, j | 0 <= i < j < |es|
      ensures ErrorLine(es[i]) < ErrorLine(es[j])
    {
      if j < |errors| {
        assert es[i] == errors[i] && es[j] == errors[j];
      } else {
        assert es[i] == errors[i];
      }
    }
  }

  /** With a classifier whose lexemes carry their newlines faithfully, the
      line number counts exactly the newlines the scan moves past: the line
      number less the newlines before the cursor is the same before and after
      the loop. */
  lemma {:induction false} LoopCountsLines(st: ScanState, tokens: seq<Token>, errors: seq<Diagnostic>,
                                          classify: string -> Option<Classified>, cmds: Commands)
    requires WellFormedClassifier(classify) && LinesFaithful(classify)
    requires st.currentCharIndex <= |st.characters|
    ensures var r := Loop(st, tokens, errors, classify, cmds);
      r.state.characters == st.characters && r.state.currentCharIndex <= |st.characters| &&
      LineOffset(r.state) == LineOffset(st)
    decreases |st.characters| - st.currentCharIndex, 1
  {
    var i := st.currentCharIndex;
    if i < |st.characters| {
      var rest := st.characters[i..];
      if classify(rest).Some? {
        ConsumedLexemeCountsLines(st, tokens, errors, classify, cmds);
      } else if FirstLine(rest).Some? {
        RecoveredLineCountsLines(st, tokens, errors, classify, cmds);
      } else {
        LoopRaises(st, tokens, errors, classify, cmds);
      }
    }
  }

  /** LoopCountsLines, where the first lexeme is classified. */
  lemma {:induction false} ConsumedLexemeCountsLines(st: ScanState, tokens: seq<Token>, errors: seq<Diagnostic>,
                                                     classify: string -> Option<Classified>, cmds: Commands)
    requires WellFormedClassifier(classify) && LinesFaithful(classify)
    requires st.currentCharIndex < |st.characters|
    requires classify(st.characters[st.currentCharIndex..]).Some?
    ensures var r := Loop(st, tokens, errors, classify, cmds);
      r.state.characters == st.characters && r.state.currentCharIndex <= |st.characters| &&
      LineOffset(r.state) == LineOffset(st)
    decreases |st.characters| - st.currentCharIndex, 0
  {
    var c := classify(st.characters[st.currentCharIndex..]).value;
    var next := ClassifiedStep(st, tokens, c, cmds);
    LoopConsumes(st, tokens, errors, classify, cmds);
    StepCountsLines(st, tokens, c, cmds);
    LoopCountsLines(next.0, next.1, errors, classify, cmds);
  }

  /** LoopCountsLines, where the first line is skipped as unmatched. */
  lemma {:induction false} RecoveredLineCountsLines(st: ScanState, tokens: seq<Token>, errors: seq<Diagnostic>,
                                                    classify: string -> Option<Classified>, cmds: Commands)
    requires WellFormedClassifier(classify) && LinesFaithful(classify)
    requires st.currentCharIndex < |st.characters|
    requires classify(st.characters[st.currentCharIndex..]).None?
    requires FirstLine(st.characters[st.currentCharIndex..]).Some?
    ensures var r := Loop(st, tokens, errors, classify, cmds);
      r.state.characters == st.characters && r.state.currentCharIndex <= |st.characters| &&
      LineOffset(r.state) == LineOffset(st)
    decreases |st.characters| - st.currentCharIndex, 0
  {
    var line := FirstLine(st.characters[st.currentCharIndex..]).value;
    LoopRecovers(st, tokens, errors, classify, cmds);
    RecoveredLineHasOneNewline(st.characters, st.currentCharIndex, line);
    LoopCountsLines(Recover(st, line), tokens, errors + [UnmatchedQuotation(line, st.lineNumber)], classify, cmds);
  }

  /** The line number minus the newlines already passed: what stays fixed
      while the scan runs. */
  function LineOffset(st: ScanState): int
    requires st.currentCharIndex <= |st.characters|
  {
    st.lineNumber - NewlinesBefore(st.characters, st.currentCharIndex)
  }

  /** A classified lexeme that carries its newlines faithfully moves the line
      number by the newlines it covers. */
  lemma StepCountsLines(st: ScanState, tokens: seq<Token>, c: Classified, cmds: Commands)
    requires st.currentCharIndex <= |st.characters|
    requires c.regexMatch.text <= st.characters[st.currentCharIndex..]
    requires Newlines(c.regexMatch.text) == if c.tokenType == Some(NewLine) then 1 else 0
    ensures var next := ClassifiedStep(st, tokens, c, cmds);
      next.0.currentCharIndex <= |st.characters| && next.0.characters == st.characters &&
      LineOffset(next.0) == LineOffset(st)
  {
    ClassifiedStepFacts(st, tokens, c, cmds);
    var i := st.currentCharIndex;
    var j := i + |c.regexMatch.text|;
    assert st.characters[i..j] == c.regexMatch.text;
    NewlinesSplit(st.characters, i, j);
  }

  /** The line the recovery step skips holds exactly one newline. */
  lemma RecoveredLineHasOneNewline(s: string, i: nat, line: string)
    requires i <= |s| && FirstLine(s[i..]) == Some(line)
    ensures i + |line| <= |s| && NewlinesBefore(s, i + |line|) == NewlinesBefore(s, i) + 1
  {
    assert s[i..i + |line|] == line;
    FirstLineHasOneNewline(s[i..]);
    NewlinesSplit(s, i, i + |line|);
  }

  /** Once styling is switched off for the file and the skip-file check
      confirms it, nothing the rest of the scan meets adds a warning or
      switches styling back on. */
  lemma {:induction false} SkippedFileStaysSilent(st: ScanState, tokens: seq<Token>, errors: seq<Diagnostic>,
                                                  classify: string -> Option<Classified>, cmds: Commands)
    requires WellFormedClassifier(classify)
    requires st.skipStylingOnFile && cmds.checkSkipFile
    ensures var r := Loop(st, tokens, errors, classify, cmds);
      r.state.warnings == st.warnings && r.state.skipStylingOnFile
    decreases |st.characters| - st.currentCharIndex
  {
    if st.currentCharIndex < |st.characters| {
      var rest := st.characters[st.currentCharIndex..];
      match classify(rest)
      case Some(c) =>
        var next := ClassifiedStep(st, tokens, c, cmds);
        SkippedFileStaysSilent(next.0, next.1, errors, classify, cmds);
      case None =>
        match FirstLine(rest)
        case None =>
        case Some(line) =>
          SkippedFileStaysSilent(Recover(st, line), tokens, errors + [UnmatchedQuotation(line, st.lineNumber)], classify, cmds);
    }
  }

  /** The text from position `i` on splits into lexemes the classifier
      matches one after another: the scan never reaches a position where
      `find_match` fails. */
  ghost predicate ClassifiesFrom(classify: string -> Option<Classified>, s: string, i: nat)
    requires WellFormedClassifier(classify)
    decreases |s| - i
  {
    i >= |s| ||
    (classify(s[i..]).Some? && ClassifiesFrom(classify, s, i + |classify(s[i..]).value.regexMatch.text|))
  }

  /** The classifier assumptions can be met by a classifier that fails the way
      `find_match` does: one that takes one character at a time, reads a
      newline as a newline token and fails on a quotation mark. It still
      classifies a line without quotes from start to end. */
  lemma ClassifierAssumptionsAreSatisfiable()
    ensures exists classify: string -> Option<Classified> ::
      WellFormedClassifier(classify) && LinesFaithful(classify) &&
      classify("\"").None? && ClassifiesFrom(classify, "ab\n", 0)
  {
    var single := (s: string) =>
      if s == "" || s[0] == '"' then None
      else Some(Classified(RegexMatch(s[..1], s[..1], "", ""),
                           if s[0] == '\n' then Some(NewLine) else None, NoIndentation));
    forall s | single(s).Some?
      ensures Newlines(single(s).value.regexMatch.text) ==
              if single(s).value.tokenType == Some(NewLine) then 1 else 0
    {
      var t := s[..1];
      assert t[0] == s[0];
      assert NewlinesBefore(t, 1) == NewlinesBefore(t, 0) + (if t[0] == '\n' then 1 else 0);
    }
    var line := "ab\n";
    assert ClassifiesFrom(single, line, 3);
    assert line[2..] == "\n";
    assert ClassifiesFrom(single, line, 2);
    assert line[1..] == "b\n";
    assert ClassifiesFrom(single, line, 1);
    assert line[0..] == line;
    assert ClassifiesFrom(single, line, 0);
    assert WellFormedClassifier(single) && LinesFaithful(single) && single("\"").None?;
  }

  /** The loop finishes without raising and without recording an error
      exactly when the text from the cursor on splits into lexemes the
      classifier matches. */
  lemma {:induction false} LoopCleanIffClassifiable(st: ScanState, tokens: seq<Token>, errors: seq<Diagnostic>,
                                                    classify: string -> Option<Classified>, cmds: Commands)
    requires WellFormedClassifier(classify)
    ensures var r := Loop(st, tokens, errors, classify, cmds);
      (!r.raised && r.errors == errors) <==> ClassifiesFrom(classify, st.characters, st.currentCharIndex)
    decreases |st.characters| - st.currentCharIndex
  {
    if st.currentCharIndex < |st.characters| {
      var rest := st.characters[st.currentCharIndex..];
      match classify(rest)
      case Some(c) =>
        var next := ClassifiedStep(st, tokens, c, cmds);
        LoopConsumes(st, tokens, errors, classify, cmds);
        ClassifiedStepFacts(st, tokens, c, cmds);
        LoopCleanIffClassifiable(next.0, next.1, errors, classify, cmds);
      case None =>
        match FirstLine(rest)
        case None =>
          LoopRaises(st, tokens, errors, classify, cmds);
        case Some(line) =>
          var more := errors + [UnmatchedQuotation(line, st.lineNumber)];
          LoopRecovers(st, tokens, errors, classify, cmds);
          LoopKeepsErrors(Recover(st, line), tokens, more, classify, cmds);
          assert |more| > |errors|;
    }
  }

  /** What `lex` returns: a run that does not raise has consumed the whole
      text and reports the warnings the object now holds; Success carries
      tokens in line order, Error a non-empty list of unmatched-quotation
      errors, one per line and in line order; a raise happens only on
      unmatched text with no newline after it. */
  lemma LexReports(st: ScanState, characters: string, classify: string -> Option<Classified>, cmds: Commands)
    requires WellFormedClassifier(classify)
    requires st.currentCharIndex <= |characters|
    ensures var run := LexRun(st, characters, classify, cmds);
      var final, outcome := run.0, run.1;
      final.characters == characters && st.lineNumber <= final.lineNumber && st.warnings <= final.warnings &&
      (outcome.RaisedAttributeError? ==>
        final.currentCharIndex < |characters| &&
        classify(characters[final.currentCharIndex..]).None? && '\n' !in characters[final.currentCharIndex..]) &&
      (outcome.Returned? ==>
        final.currentCharIndex == |characters| && outcome.result.warnings == final.warnings) &&
      (outcome.Returned? && outcome.result.Success? ==>
        LinesSorted(outcome.result.tokens) && LinesBetween(outcome.result.tokens, st.lineNumber, final.lineNumber)) &&
      (outcome.Returned? && outcome.result.Error? ==>
        0 < |outcome.result.errors| && UnmatchedErrorsBetween(outcome.result.errors, st.lineNumber, final.lineNumber))
  {
    var start := st.(characters := characters, skipStylingOnFile := false);
    LoopFacts(start, [], [], classify, cmds);
    LoopOrdersTokens(start, [], [], classify, cmds, st.lineNumber);
    LoopOrdersErrors(start, [], [], classify, cmds, st.lineNumber);
  }

  /** `lex` returns Success exactly when the text from the object's cursor
      on splits into lexemes the classifier matches; otherwise it reports an
      error or raises. */
  lemma LexSucceedsIffClassifiable(st: ScanState, characters: string, classify: string -> Option<Classified>, cmds: Commands)
    requires WellFormedClassifier(classify)
    ensures var outcome := LexRun(st, characters, classify, cmds).1;
      (outcome.Returned? && outcome.result.Success?) <==> ClassifiesFrom(classify, characters, st.currentCharIndex)
  {
    LoopCleanIffClassifiable(st.(characters := characters, skipStylingOnFile := false), [], [], classify, cmds);
  }

  /** An unterminated string on line `L` that the classifier cannot match,
      with a newline after it, makes the scan end in Error whose first error
      names that line and holds the line's text without its newline. */
  lemma UnmatchedLineIsReported(st: ScanState, characters: string, classify: string -> Option<Classified>, cmds: Commands)
    requires WellFormedClassifier(classify)
    requires st.currentCharIndex < |characters|
    requires classify(characters[st.currentCharIndex..]).None?
    requires '\n' in characters[st.currentCharIndex..]
    ensures var outcome := LexRun(st, characters, classify, cmds).1;
      var line := FirstLine(characters[st.currentCharIndex..]).value;
      outcome.Returned? ==>
        (outcome.result.Error? && 0 < |outcome.result.errors| &&
         outcome.result.errors[0] == UnmatchedQuotation(line, st.lineNumber) &&
         outcome.result.errors[0].params[0] == Text(line[..|line| - 1]))
  {
    var start := st.(characters := characters, skipStylingOnFile := false);
    var line := FirstLine(characters[st.currentCharIndex..]).value;
    var e := UnmatchedQuotation(line, st.lineNumber);
    LoopRecovers(start, [], [], classify, cmds);
    assert [] + [e] == [e];
    LoopKeepsErrors(Recover(start, line), [], [e], classify, cmds);
    var scan := Loop(start, [], [], classify, cmds);
    assert scan.errors[0] == e;
    assert LexRun(st, characters, classify, cmds).1 == Finish(scan, cmds).1;
  }

  /** A fresh Lexer whose classifier carries newlines faithfully ends a
      returning scan on line 1 + the number of newlines in the text. */
  lemma FreshLexCountsLines(characters: string, classify: string -> Option<Classified>, cmds: Commands)
    requires WellFormedClassifier(classify) && LinesFaithful(classify)
    ensures var run := LexRun(InitialState(""), characters, classify, cmds);
      run.1.Returned? ==> run.0.lineNumber == 1 + Newlines(characters)
  {
    var start := InitialState(characters);
    assert InitialState("").(characters := characters, skipStylingOnFile := false) == start;
    LoopFacts(start, [], [], classify, cmds);
    LoopCountsLines(start, [], [], classify, cmds);
  }

  /** A `skip_file` directive as the first lexeme of a fresh Lexer, with the
      skip-file check enabled, leaves the scan without a single warning. */
  lemma LeadingSkipFileSilencesScan(characters: string, classify: string -> Option<Classified>, cmds: Commands)
    requires WellFormedClassifier(classify)
    requires cmds.checkSkipFile
    requires classify(characters).Some?
    requires classify(characters).value.tokenType == Some(BslintCommand)
    requires classify(characters).value.regexMatch.commandGroup == "skip_file"
    ensures var outcome := LexRun(InitialState(""), characters, classify, cmds).1;
      outcome.Returned? ==> outcome.result.warnings == []
  {
    var start := InitialState(characters);
    assert InitialState("").(characters := characters, skipStylingOnFile := false) == start;
    assert characters[0..] == characters;
    var c := classify(characters).value;
    var next := ClassifiedStep(start, [], c, cmds);
    assert next.0.warnings == [];
    LoopConsumes(start, [], [], classify, cmds);
    SkippedFileStaysSilent(next.0, next.1, [], classify, cmds);
  }
}
