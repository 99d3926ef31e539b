/**
 * The `MatchHandler` class of bslint/utilities/match_handler.py: the
 * per-match step of the scanner, refactored out of the Lexer. It keeps the
 * same per-line state, runs the same suppression gate and style checks, adds
 * the method-declaration spacing check at the end of a line, and hands back
 * an optional token instead of appending to a list. Moving the cursor is its
 * caller's business.
 *
 * Every method is proved to leave the fields as the matching ScanSpec
 * function (with the `HandlerVariant`) says; the properties of those
 * functions are stated in ScanSpec.
 */
module MatchHandlerModel {
  import opened Scanning
  import opened ScanSpec

  class MatchHandler {
    /** The style checks of the `commands` module. */
    const commands: Commands

    var isEmptyLine: bool
    var lineNotToStyleCheck: int
    var lineNumber: int
    var characters: string
    var consecutiveEmptyLines: nat
    var indentationLevel: int
    var lineLength: nat
    var currentCharIndex: nat
    var currentIndentationLevel: int
    var skipStylingOnFile: bool
    var currentMatch: Option<RegexMatch>
    var tokenType: Option<TokenKind>
    var warnings: seq<Diagnostic>

    /** The fields as a ScanState; this class keeps no last read line. */
    function State(): ScanState
      reads this
    {
      ScanState(lineNumber, warnings, lineLength, indentationLevel, currentIndentationLevel,
                consecutiveEmptyLines, isEmptyLine, lineNotToStyleCheck, skipStylingOnFile,
                characters, currentCharIndex, currentMatch, tokenType, "")
    }

    constructor(characters: string, commands: Commands)
      ensures this.commands == commands
      ensures State() == InitialState(characters)
    {
      this.commands := commands;
      isEmptyLine := true;
      lineNotToStyleCheck := -1;
      lineNumber := 1;
      this.characters := characters;
      consecutiveEmptyLines := 0;
      indentationLevel := 0;
      lineLength := 0;
      currentCharIndex := 0;
      currentIndentationLevel := 0;
      skipStylingOnFile := false;
      currentMatch := None;
      tokenType := None;
      warnings := [];
    }

    /** `_get_last_line`: the line before the character just consumed (see
        Scanning.LastLineIsLastLine for what that line is). */
    function GetLastLine(): (r: string)
      reads this
      ensures r == LastReadLine(State())
    {
      LastLine(PrefixTo(characters, currentCharIndex - 1))
    }

    /** `match_handler`: take the classifier's answer, style, then count a
        newline, obey a directive, or build the token. */
    method HandleMatch(regexMatch: Classified) returns (tokenTuple: Option<Token>)
      modifies this
      ensures State() == MatchStep(old(State()), regexMatch, commands, HandlerVariant)
      ensures tokenTuple == MatchToken(Receive(old(State()), regexMatch))
    {
      Record(regexMatch);
      ApplyStyling();
      tokenTuple := None;
      if tokenType == Some(NewLine) {
        lineNumber := lineNumber + 1;
      } else if tokenType == Some(BslintCommand) {
        ApplyBslintCommand();
      } else if tokenType != Some(Comment) {
        var token := BuildToken();
        tokenTuple := Some(token);
      }
    }

    /** Taking the classifier's answer: the match, its kind and (unless it is
        the sentinel) its indentation hint become current. */
    method Record(regexMatch: Classified)
      modifies this
      ensures State() == Receive(old(State()), regexMatch)
    {
      currentMatch := Some(regexMatch.regexMatch);
      tokenType := regexMatch.tokenType;
      if regexMatch.indentationLevel != NoIndentation {
        indentationLevel := regexMatch.indentationLevel.n;
      }
    }

    /** `_apply_bslint_command`. */
    method ApplyBslintCommand()
      requires currentMatch.Some?
      modifies this
      ensures State() == ScanSpec.ApplyBslintCommand(old(State()), commands)
    {
      var commandType := currentMatch.value.commandGroup;
      if commandType == "skip_line" {
        lineNotToStyleCheck := commands.checkSkipLine(lineNumber);
      } else if commandType == "skip_file" {
        skipStylingOnFile := commands.checkSkipFile;
      }
    }

    /** `_apply_styling`. */
    method ApplyStyling()
      requires currentMatch.Some?
      modifies this
      ensures State() == ScanSpec.ApplyStyling(old(State()), commands, HandlerVariant)
    {
      if StyleCheckingIsActive() {
        if tokenType == Some(NewLine) {
          ApplyNewLineStyling();
        } else {
          ApplyCommonStyling();
        }
      }
    }

    /** `style_checking_is_active`. */
    predicate StyleCheckingIsActive()
      reads this
    {
      lineNumber != lineNotToStyleCheck && !skipStylingOnFile
    }

    /** `check_trace_free`. */
    method CheckTraceFree()
      modifies this
      ensures State() == ScanSpec.WarningFilter(old(State()), commands.checkTraceFree)
    {
      var isTraceFree := commands.checkTraceFree;
      WarningFilter(isTraceFree);
    }

    /** `_apply_common_styling`. */
    method ApplyCommonStyling()
      requires currentMatch.Some?
      modifies this
      ensures State() == ScanSpec.ApplyCommonStyling(old(State()), commands)
    {
      ghost var st := State();
      isEmptyLine := false;
      assert State() == st.(isEmptyLine := false);
      if tokenType == Some(Comment) {
        CheckCommentStyling();
      } else if tokenType == Some(Operator) {
        CheckOperatorSpacing();
      } else if tokenType == Some(Id) {
        CheckSpelling();
      } else if tokenType == Some(PrintKeyword) {
        CheckTraceFree();
      }
    }

    method CheckSpelling()
      requires currentMatch.Some?
      modifies this
      ensures State() == ScanSpec.WarningFilter(old(State()), commands.checkSpelling(old(currentMatch).value.text, tokenType))
    {
      var isSpeltCorrectly := commands.checkSpelling(currentMatch.value.text, tokenType);
      WarningFilter(isSpeltCorrectly);
    }

    method CheckOperatorSpacing()
      modifies this
      ensures State() == ScanSpec.WarningFilter(old(State()), commands.checkSpacesAroundOperators(characters, currentCharIndex))
    {
      var correctSpacing := commands.checkSpacesAroundOperators(characters, currentCharIndex);
      WarningFilter(correctSpacing);
    }

    method CheckCommentStyling()
      requires currentMatch.Some?
      modifies this
      ensures State() == ScanSpec.WarningFilter(
        ScanSpec.WarningFilter(old(State()), commands.checkComment(old(currentMatch).value.text)),
        commands.checkSpelling(old(currentMatch).value.text, tokenType))
    {
      var isCorrectComment := commands.checkComment(currentMatch.value.text);
      WarningFilter(isCorrectComment);
      CheckSpelling();
    }

    /** `apply_new_line_styling`, with the method-declaration spacing check
        on the same last read line as the indentation check. */
    method ApplyNewLineStyling()
      modifies this
      ensures State() == ScanSpec.ApplyNewLineStyling(old(State()), commands, HandlerVariant)
    {
      ghost var st := State();
      CountConsecutiveNewLines();
      var isCorrectLineLength := commands.checkMaxLineLength(lineLength);
      WarningFilter(isCorrectLineLength);
      var isConsecutiveEmptyLines := commands.checkConsecutiveEmptyLines(consecutiveEmptyLines);
      WarningFilter(isConsecutiveEmptyLines);
      var lastReadLine := GetLastLine();
      assert lastReadLine == LastReadLine(st);
      ApplyIndentationStyling(lastReadLine);
      var isCorrectMethodDeclarationSpacing := commands.checkMethodDeclarationSpacing(lastReadLine);
      WarningFilter(isCorrectMethodDeclarationSpacing);
      lineLength := 0;
    }

    /** `_apply_indentation_styling`. */
    method ApplyIndentationStyling(lastReadLine: string)
      modifies this
      ensures State() == ScanSpec.ApplyIndentationStyling(old(State()), lastReadLine, commands)
    {
      var isCorrectIndentation := commands.checkIndentation(currentIndentationLevel, lastReadLine, indentationLevel);
      if isCorrectIndentation.Some? {
        WarningFilter(isCorrectIndentation.value.diagnostic);
        currentIndentationLevel := isCorrectIndentation.value.newLevel;
        indentationLevel := 0;
      }
    }

    /** `_count_consecutive_new_lines`. */
    method CountConsecutiveNewLines()
      modifies this
      ensures State() == ScanSpec.CountConsecutiveNewLines(old(State()))
    {
      if isEmptyLine {
        consecutiveEmptyLines := consecutiveEmptyLines + 1;
      } else {
        isEmptyLine := true;
        consecutiveEmptyLines := 0;
      }
    }

    /** `_build_token` with `_build_string_tuple` and `_build_id_tuple`. */
    function BuildToken(): (t: Token)
      requires currentMatch.Some?
      reads this
      ensures t == Scanning.BuildToken(currentMatch.value, tokenType, lineNumber)
    {
      Scanning.BuildToken(currentMatch.value, tokenType, lineNumber)
    }

    /** `_warning_filter`: the rendered message is kept as its key and parameters. */
    method WarningFilter(result: Option<Diagnostic>)
      modifies this
      ensures State() == ScanSpec.WarningFilter(old(State()), result)
    {
      if result.Some? {
        var warning := Diagnostic(result.value.key, result.value.params + [Text(DecimalString(lineNumber))]);
        warnings := warnings + [warning];
      }
    }
  }
}
