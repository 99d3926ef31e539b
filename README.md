# BSLint scanner model

A Dafny model of the scanner at the heart of BSLint, a linter for
BrightScript. The scanner makes one left-to-right pass over a source text.
It asks a lexeme classifier for the next match, builds token tuples, obeys
the in-source `skip_line` / `skip_file` directives and runs the style
checks. It also keeps per-line state: line number, line length, the
indentation hint and the current depth, and the blank-line run. When the
classifier fails on an unterminated string literal, the scanner records an
error for that line and goes on with the next one. The scan returns a
`{Status, Tokens, Warnings}` record.

The scanner exists in two forms, and both are modelled:

- `Lexer` (bslint/lexer.py) owns the whole scan. It is modelled as the class
  `LexerModel.Lexer`. Its `lex` driver is `Lex`, and the `while` loop is
  `ScanLoop`. The loop body is split into `Consume` for a classified lexeme
  and `SkipLine` for recovery.
- `MatchHandler` (bslint/utilities/match_handler.py) is the refactored
  per-match step. It returns an optional token and adds the
  method-declaration spacing check at the end of a line. It is modelled as
  the class `MatchHandlerModel.MatchHandler`.

Layout:

- `scanning.dfy` (module `Scanning`) holds the shared vocabulary: token
  kinds, the classifier's answer, tokens and diagnostics. It also holds the
  collaborating checks, passed in as the record `Commands`, and the pure text
  helpers. Those are Python's `s[:n]`, the last line of a prefix, the first
  line of a text, `str()` of an integer, and token building.
- `scan_spec.dfy` (module `ScanSpec`) holds the fields both classes keep, as
  the value `ScanState`. It has one pure transition function per method that
  changes them. The function is parameterised by `Variant` where the two
  classes differ.
- `lexer.dfy` (module `LexerModel`) holds the `lex` loop as the recursive
  function `Loop` and the whole call as `LexRun`. It also holds the class
  `Lexer` and the lemmas about what a scan guarantees.
- `match_handler.dfy` (module `MatchHandlerModel`) holds the class
  `MatchHandler`.

Every method of both classes is proved to leave the object's fields (read
back through `State()`) equal to the matching `ScanSpec` or `LexerModel`
function applied to the old fields. The method's return value is proved in
the same way. The lemmas and the functions' own contracts then state what
the source promises.

Collaborators the scanner calls but does not define are parameters of the
model:

- The lexeme classifier `regex_handler.find_match` is a function
  `classify: string -> Option<Classified>`. `None` stands for its
  ValueError. `WellFormedClassifier` requires that every match is a
  non-empty prefix of the text it was given. The loop moves the cursor by
  the match's length (bslint/lexer.py:43), so an empty match would make the
  `while` loop of `lex` run forever; the requirement excludes exactly that
  non-termination.
- The `commands.*` style checks are the function-valued fields of
  `Commands`.

Recovery reads the offending line with `re.match(r"(.*)\n", ...)`. When
the rest of the text has no newline (the unmatched text is on the last
line), that match is `None`. `end_of_line.group()` then raises an
AttributeError out of `lex`; the scan does not skip to the end of the text.
The model keeps this behaviour as the outcome `RaisedAttributeError`.

## Model

| member | source | states |
|---|---|---|
| LexerModel.Lexer.constructor | bslint/lexer.py:11-27 | every field starts as `InitialState("")`: line 1, no warnings, blank line, no suppressed line, cursor 0 |
| LexerModel.Lexer.Lex | bslint/lexer.py:29-60 | the new fields and the outcome are exactly `LexRun` of the old fields: the loop, the final-line flush, the result record |
| LexerModel.Lexer.ScanLoop | bslint/lexer.py:35-54 | the `while` loop leaves the fields, tokens, errors and raise flag exactly as `Loop` from the old fields with empty lists |
| LexerModel.Lexer.Consume | bslint/lexer.py:37-46 | one classified lexeme: record it, advance cursor and line length by its length, and hand token kinds to `match_handler` (`ClassifiedStep`) |
| LexerModel.Lexer.SkipLine | bslint/lexer.py:53-54 | the recovery step: line number plus one, cursor past the skipped line (`Recover`) |
| LexerModel.Lexer.Record | bslint/lexer.py:38-41 | the match and kind become current; the indentation hint changes unless it is the sentinel (`Receive`) |
| LexerModel.Lexer.GetLastLine | bslint/lexer.py:62-64 | only `last_read_line` changes, to the last line of `characters[:current_char_index - 1]` |
| LexerModel.Lexer.HandleMatch | bslint/lexer.py:66-75 | the new fields are `ScanSpec.HandleMatch`, and the token list gains exactly `MatchToken`'s token, if any |
| LexerModel.Lexer.ApplyBslintCommand | bslint/lexer.py:77-82 | the fields become `ScanSpec.ApplyBslintCommand` of the old ones |
| LexerModel.Lexer.ApplyStyling | bslint/lexer.py:84-89 | the fields become `ScanSpec.ApplyStyling` with the Lexer's end-of-line routine |
| LexerModel.Lexer.ApplyCommonStyling | bslint/lexer.py:94-103 | the fields become `ScanSpec.ApplyCommonStyling` of the old ones |
| LexerModel.Lexer.CheckTraceFree | bslint/lexer.py:105-107 | the trace-free verdict goes through the warning filter |
| LexerModel.Lexer.CheckSpelling | bslint/lexer.py:109-111 | the spelling verdict on the matched text goes through the warning filter |
| LexerModel.Lexer.CheckOperatorSpacing | bslint/lexer.py:113-115 | the operator-spacing verdict at the cursor goes through the warning filter |
| LexerModel.Lexer.CheckCommentStyling | bslint/lexer.py:117-120 | the comment-form verdict, then the spelling verdict, go through the warning filter in that order |
| LexerModel.Lexer.ApplyNewLineStyling | bslint/lexer.py:122-131 | the fields become `ScanSpec.ApplyNewLineStyling` with the Lexer variant |
| LexerModel.Lexer.ApplyIndentationStyling | bslint/lexer.py:133-140 | the last read line is stored, then the indentation verdict is applied as `ScanSpec.ApplyIndentationStyling` says |
| LexerModel.Lexer.CountConsecutiveNewLines | bslint/lexer.py:142-147 | the fields become `ScanSpec.CountConsecutiveNewLines` of the old ones |
| LexerModel.Lexer.BuildToken | bslint/lexer.py:149-167 | delegates to `Scanning.BuildToken` on the current match, kind and line; the shape is stated there |
| LexerModel.Lexer.WarningFilter | bslint/lexer.py:169-173 | the fields become `ScanSpec.WarningFilter` of the old ones |
| LexerModel.Lexer.StyleCheckingIsActive | bslint/lexer.py:91-92 | the gate on the fields: the line is not the suppressed one and the file is not skipped |
| LexerModel.UnmatchedQuotation | bslint/lexer.py:50-52 | the recovery error has the unmatched-quotation key and two parameters: the line without its last character, and the line number |
| LexerModel.Loop | bslint/lexer.py:35-54 | the `while` loop of `lex` as a recursive function; what it guarantees is stated by `LoopFacts`, `LoopOrdersTokens`, `LoopOrdersErrors` and `LoopCountsLines` |
| LexerModel.LexRun | bslint/lexer.py:29-60 | `lex`: reset the text and the file flag, run `Loop`, then `Finish`; what it reports is stated by `LexReports` and the lemmas after it |
| LexerModel.ClassifiedStep | bslint/lexer.py:37-46 | one classified lexeme; stated by `ClassifiedStepFacts` and `ClassifiedStepIsMatchStep` |
| LexerModel.ClassifiedStepIsMatchStep | bslint/lexer.py:37-46 | for a token kind the loop step is exactly one `MatchStep` of the Lexer variant |
| LexerModel.Recover | bslint/lexer.py:53-54 | the recovery step; stated by `RecoverSkipsLine` |
| LexerModel.AppendToken | bslint/lexer.py:72-75 | the old tokens are kept as a prefix; a built token is appended as the one new last element, and no token means no change in length |
| ScanSpec.Advance | bslint/lexer.py:38-44 | the cursor and line length grow by exactly the lexeme's length; match and kind become current; the indentation hint is replaced unless it is the sentinel; no other field changes |
| LexerModel.ClassifiedStepFacts | bslint/lexer.py:37-46 | one classified lexeme keeps the text and moves the cursor by its length. A newline adds exactly one line; a styled newline restarts the line length at 0. Warnings are only appended. Exactly one token (stamped with the current line) is appended unless the kind is newline, directive or comment |
| LexerModel.RecoverSkipsLine | bslint/lexer.py:49-54 | recovery moves the cursor just past the first newline of the rest of the text and adds exactly one to the line number; nothing else changes |
| LexerModel.LoopConsumes | bslint/lexer.py:35-46 | the loop from a classifiable position equals the loop after that one classified step |
| LexerModel.LoopRecovers | bslint/lexer.py:48-54 | the loop at an unclassifiable position with a newline ahead records exactly one error for the current line, skips the line and continues |
| LexerModel.LoopRaises | bslint/lexer.py:48-49 | the loop at an unclassifiable position with no newline ahead stops by raising |
| LexerModel.Finish | bslint/lexer.py:55-60 | after the loop: a raise propagates with the fields as they are. Otherwise the last line is flushed only if checking is active. The status is Error (carrying the errors) iff an error was recorded, else Success (carrying the tokens). The warnings are reported in both cases |
| LexerModel.LoopFacts | bslint/lexer.py:35-54 | the loop keeps the text and never moves the cursor back. It ends at the end of the text unless it raised, which happens only on unclassifiable text with no newline left. It never lowers the line number and keeps every warning, token and error collected so far |
| LexerModel.LoopKeepsErrors | bslint/lexer.py:48-52 | errors once recorded are kept, in order |
| LexerModel.LoopOrdersTokens | bslint/lexer.py:66-75 | token line numbers are non-decreasing and lie between the starting and final line numbers |
| LexerModel.LoopOrdersErrors | bslint/lexer.py:48-53 | recovery errors name lines the scan passed, strictly increasing, so one per line |
| LexerModel.LoopCountsLines | bslint/lexer.py:43-54 | with a classifier whose newline tokens hold exactly one newline and whose other lexemes hold none, the line number minus the newlines passed stays fixed |
| LexerModel.StepCountsLines | bslint/lexer.py:43-69 | one classified step keeps the line number minus the newlines passed fixed |
| LexerModel.RecoveredLineHasOneNewline | bslint/lexer.py:49-54 | the line recovery skips holds exactly one newline |
| LexerModel.SkippedFileStaysSilent | bslint/lexer.py:81-92 | once `skip_file` is in force and the check confirms it, the rest of the scan adds no warning and never lifts the suppression |
| LexerModel.LoopCleanIffClassifiable | bslint/lexer.py:35-54 | the loop neither raises nor records an error exactly when the text from the cursor splits into lexemes the classifier matches; one unclassifiable position anywhere means an error or a raise |
| LexerModel.LexReports | bslint/lexer.py:29-60 | a returning `lex` has consumed the whole text and reports the object's warnings. Success carries tokens in line order; Error carries a non-empty list of recovery errors, one per line, in line order. A raise happens only on unclassifiable text with no newline after it |
| LexerModel.LexSucceedsIffClassifiable | bslint/lexer.py:57-60 | `lex` returns Success exactly when the text from the cursor splits into lexemes the classifier matches |
| LexerModel.ClassifierAssumptionsAreSatisfiable | bslint/lexer.py:37-48 | a classifier that fails on a quotation mark, as `find_match` does on an unterminated string, meets the classifier assumptions and still classifies a line without quotes from start to end |
| LexerModel.UnmatchedLineIsReported | bslint/lexer.py:48-58 | an unclassifiable first lexeme with a newline ahead makes a returning `lex` end in Error. Its first error names that line and holds the line's text without its newline |
| LexerModel.FreshLexCountsLines | bslint/lexer.py:43-69 | a fresh Lexer with a newline-faithful classifier ends a returning scan on line 1 + the number of newlines in the text |
| LexerModel.LeadingSkipFileSilencesScan | bslint/lexer.py:77-92 | a confirmed `skip_file` directive as the first lexeme of a fresh Lexer leaves the scan without a warning |
| ScanSpec.Stamp | bslint/lexer.py:171 | the warning keeps the key and parameters and appends the line number as text, which parses back to that number |
| ScanSpec.InitialState | bslint/utilities/match_handler.py:8-21 | the fields as both constructors set them: line 1, no warnings, blank line, no suppressed line, cursor 0 |
| ScanSpec.StyleCheckingIsActive | bslint/lexer.py:91-92 | styling is active iff the line is not the suppressed one and the file is not skipped |
| ScanSpec.LastReadLine | bslint/lexer.py:62-64 | `get_last_line` on the state; its meaning is stated by `LastReadLineIsLastLine` |
| ScanSpec.LastReadLineIsLastLine | bslint/lexer.py:62-64 | the line read is the end of `characters[:current_char_index - 1]`, holds no newline, and starts that text or follows a newline |
| ScanSpec.WarningFilter | bslint/lexer.py:169-173 | None leaves the state unchanged; a diagnostic appends exactly one stamped warning after the existing ones; nothing else changes |
| ScanSpec.ApplyBslintCommand | bslint/lexer.py:77-82 | `skip_line` sets only the suppressed line from the check, `skip_file` sets only the file flag from the check, and any other command changes nothing |
| ScanSpec.ApplyCommonStyling | bslint/lexer.py:94-103 | the line is no longer blank. The warnings gain exactly those of the kind's check: comment form then spelling, operator spacing, spelling, or trace-free; nothing for other kinds. No other field changes |
| ScanSpec.CountConsecutiveNewLines | bslint/lexer.py:142-147 | the blank run grows by one after a blank line and restarts at 0 otherwise; the next line starts blank |
| ScanSpec.ApplyIndentationStyling | bslint/lexer.py:133-140 | no verdict changes nothing. A verdict adds its warning, sets the depth to the returned one and clears the hint |
| ScanSpec.ApplyNewLineStyling | bslint/utilities/match_handler.py:89-101 | end-of-line styling keeps the cursor, line, match and suppression state and only appends warnings; the line length ends at 0 and the blank run is updated |
| ScanSpec.EndOfLineOrder | bslint/utilities/match_handler.py:89-101 | the end-of-line warnings are, in order, line length, blank run, indentation and (MatchHandler only) method-declaration spacing; the last two read the same last line |
| ScanSpec.EndOfLineIndentation | bslint/lexer.py:122-140 | after end-of-line styling, an indentation verdict has set the depth and cleared the hint; no verdict keeps both. The Lexer keeps the checked line in its field |
| ScanSpec.ApplyStyling | bslint/lexer.py:84-92 | while checking is suppressed nothing changes. Otherwise the line length restarts at 0 after a newline, and any other kind marks the line non-blank. Warnings are only appended |
| ScanSpec.Receive | bslint/utilities/match_handler.py:28-32 | the match and kind become current; the hint is replaced only when the answer's level is not the sentinel |
| ScanSpec.HandleMatch | bslint/utilities/match_handler.py:34-39 | styling runs on the state before the line number moves: the warnings added are exactly those of end-of-line styling for a newline, of per-token styling otherwise, and none while suppressed. A newline adds exactly one line and nothing else does. Cursor and text are kept. Only a directive touches the suppression state |
| ScanSpec.EndOfLineCitesLine | bslint/lexer.py:122-131 | every warning end-of-line styling adds ends with the number of the line being closed |
| ScanSpec.NewLineChecksCiteFinishedLine | bslint/utilities/match_handler.py:34-37 | a newline match adds one line, and every warning its styling adds names the line just finished |
| ScanSpec.MatchStep | bslint/utilities/match_handler.py:27-42 | one `match_handler` call on a classifier answer: receive it (the Lexer has also moved past it), then the state half of `HandleMatch` |
| ScanSpec.MatchToken | bslint/utilities/match_handler.py:35-42 | no token for newline, directive or comment; otherwise exactly the built token stamped with the current line |
| ScanSpec.HandlerExtendsLexerEndOfLine | bslint/utilities/match_handler.py:89-101 | the MatchHandler's end-of-line routine is the Lexer's plus the method-declaration spacing warning appended last |
| ScanSpec.NewLineRun | bslint/utilities/match_handler.py:27-42 | newline answers handled by successive `match_handler` calls (`MatchStep`) add exactly one line each and leave the suppression state alone |
| ScanSpec.BlankRunCountsEmptyLines | bslint/utilities/match_handler.py:111-116 | after a line with a styled token, its closing newline and `k` further newlines, each a full `match_handler` call, leave the blank-run counter at `k` and the next line empty |
| ScanSpec.StyledNewLineCountsBlankRun | bslint/lexer.py:142-147 | a styled newline grows the run by one after a blank line and restarts it otherwise; the next line starts blank |
| Scanning.PrefixTo | bslint/lexer.py:63 | Python's `s[:stop]`: a prefix, of length `stop` clamped to the text, or counted from the end for a negative stop |
| Scanning.LastLine | bslint/lexer.py:63 | the last element of the multiline `findall`: the text after the last newline; stated by `LastLineIsLastLine` |
| Scanning.LastLineIsLastLine | bslint/utilities/match_handler.py:23-25 | the last line is a newline-free suffix that starts the text or follows a newline |
| Scanning.FirstLine | bslint/lexer.py:49 | `re.match(r"(.*)\n", s)`: None iff there is no newline; otherwise a prefix ending in its only newline |
| Scanning.FirstLineHasOneNewline | bslint/lexer.py:49 | the first line holds exactly one newline |
| Scanning.DecimalString | bslint/lexer.py:171 | `str(n)`: non-empty, with a minus sign iff `n` is negative |
| Scanning.DecimalStringRoundTrip | bslint/lexer.py:171 | `int(str(n)) == n` |
| Scanning.StripEnds | bslint/lexer.py:158-160 | Python's `s[1:-1]`: the text between the first and last character, empty for shorter texts |
| Scanning.BuildToken | bslint/utilities/match_handler.py:118-136 | a STRING token's value is the lexeme without its first and last character. An ID token carries the `value` capture, plus the `type` capture only when that is non-empty. Any other kind keeps the raw lexeme. The token ends in the current line |
| MatchHandlerModel.MatchHandler.constructor | bslint/utilities/match_handler.py:8-21 | every field starts as `InitialState(characters)` |
| MatchHandlerModel.MatchHandler.GetLastLine | bslint/utilities/match_handler.py:23-25 | the last line of `characters[:current_char_index - 1]` |
| MatchHandlerModel.MatchHandler.HandleMatch | bslint/utilities/match_handler.py:27-42 | the new fields are one `MatchStep` of the old ones on the given answer (record it, style, then count a newline or obey a directive); the returned token is `MatchToken` of the received answer |
| MatchHandlerModel.MatchHandler.Record | bslint/utilities/match_handler.py:28-32 | the fields become `Receive` of the old ones |
| MatchHandlerModel.MatchHandler.ApplyBslintCommand | bslint/utilities/match_handler.py:44-49 | the fields become `ScanSpec.ApplyBslintCommand` of the old ones |
| MatchHandlerModel.MatchHandler.ApplyStyling | bslint/utilities/match_handler.py:51-59 | the fields become `ScanSpec.ApplyStyling` with the MatchHandler's end-of-line routine |
| MatchHandlerModel.MatchHandler.StyleCheckingIsActive | bslint/utilities/match_handler.py:58-59 | the gate on the fields: the line is not the suppressed one and the file is not skipped |
| MatchHandlerModel.MatchHandler.CheckTraceFree | bslint/utilities/match_handler.py:61-63 | the trace-free verdict goes through the warning filter |
| MatchHandlerModel.MatchHandler.ApplyCommonStyling | bslint/utilities/match_handler.py:65-74 | the fields become `ScanSpec.ApplyCommonStyling` of the old ones |
| MatchHandlerModel.MatchHandler.CheckSpelling | bslint/utilities/match_handler.py:76-78 | the spelling verdict on the matched text goes through the warning filter |
| MatchHandlerModel.MatchHandler.CheckOperatorSpacing | bslint/utilities/match_handler.py:80-82 | the operator-spacing verdict at the cursor goes through the warning filter |
| MatchHandlerModel.MatchHandler.CheckCommentStyling | bslint/utilities/match_handler.py:84-87 | the comment-form verdict, then the spelling verdict, go through the warning filter in that order |
| MatchHandlerModel.MatchHandler.ApplyNewLineStyling | bslint/utilities/match_handler.py:89-101 | the fields become `ScanSpec.ApplyNewLineStyling` with the MatchHandler variant |
| MatchHandlerModel.MatchHandler.ApplyIndentationStyling | bslint/utilities/match_handler.py:103-109 | the fields become `ScanSpec.ApplyIndentationStyling` for the given last line |
| MatchHandlerModel.MatchHandler.CountConsecutiveNewLines | bslint/utilities/match_handler.py:111-116 | the fields become `ScanSpec.CountConsecutiveNewLines` of the old ones |
| MatchHandlerModel.MatchHandler.BuildToken | bslint/utilities/match_handler.py:118-136 | delegates to `Scanning.BuildToken` on the current match, kind and line; the shape is stated there |
| MatchHandlerModel.MatchHandler.WarningFilter | bslint/utilities/match_handler.py:138-142 | the fields become `ScanSpec.WarningFilter` of the old ones |

## Left out

- The lexeme classifier (`regex_handler.find_match`) is a parameter, not a model of the regular expressions. A classifier may return any non-empty prefix of its input. `LinesFaithful` (the classifier's newline kinds match the lexeme's newlines) is an extra assumption, stated only on the lemmas that use it. Whether a given text scans cleanly is stated about the text (`ClassifiesFrom`), not about the classifier. `ClassifierAssumptionsAreSatisfiable` shows a failing classifier that meets both assumptions.
- The bodies of the `commands.*` checks, their configuration and dictionaries are not modelled. Each is a parameter in `Commands`. The checks without arguments (`check_skip_file`, `check_trace_free`) are plain values, so every call in one scan returns the same verdict.
- Message rendering (`error_message_handler.get`, `err.get_message`) is not modelled. A warning is kept as its key and parameter list, not as rendered text.
- `warning_filter` appends the line number to the check's own `error_params` list in place. The model builds a new diagnostic instead, so aliasing between that list and the check's result is not modelled. The same holds for the `tokens` list that `match_handler` appends to and returns: it is a value in the model.
- `personal_words_filepath` (bslint/lexer.py:175-181) builds a file-system path and is not modelled.
- The `RegexHandler` and message-handler objects made in the Lexer constructor are not modelled; the classifier and checks are parameters instead.
- `PENULTIMATE_CHARACTER` lives in `bslint.constants`, which is not part of this model. It is taken to be -1, Python's `[:-1]`.
- `token_type is const.NEW_LINE`, `is_empty_line is True` and `group('type') is not ''` compare by identity in the source. The model reads them as equality.
- The `type` capture of an identifier is never None in the model.
- A truthy indentation verdict is modelled as `Some`. A verdict that is present but falsy, such as an empty tuple, is not modelled.
- `lex` resets only the text and the file-wide suppression flag, so a second call on the same object continues from the old line number, cursor and warnings. The model's `LexRun` keeps this behaviour. The line-counting and skip-file lemmas are stated for a fresh object.
- Who calls `MatchHandler.match_handler` (moving the cursor and the line length) is outside the two core files. The MatchHandler class is modelled without its caller.

