/**
 * Vocabulary shared by BSLint's two scanner implementations (the `Lexer`
 * class and its refactored per-match step, `MatchHandler`): token kinds,
 * what the lexeme classifier hands back, tokens, diagnostics, the style-check
 * collaborators, and the pure text helpers both classes use.
 */
module Scanning {

  datatype Option<+T> = None | Some(value: T)

  /** The token kinds the scanner dispatches on. Every other kind the
      classifier knows (keywords, numbers, brackets, ...) is `Other`. */
  datatype TokenKind =
    | NewLine
    | BslintCommand
    | Comment
    | Operator
    | Id
    | PrintKeyword
    | StringLiteral
    | Other(name: string)

  /** The parts of a regular-expression match the scanner reads: the whole
      matched text and the named groups `value`, `type` and `command`. */
  datatype RegexMatch = RegexMatch(text: string, valueGroup: string, typeGroup: string, commandGroup: string)

  /** The classifier's indentation hint; `NoIndentation` is the sentinel that
      leaves the previously recorded hint in place. */
  datatype Indentation = NoIndentation | Level(n: int)

  /** One answer of the lexeme classifier. `tokenType` is None for a lexeme
      that is not a token (blanks between tokens). */
  datatype Classified = Classified(regexMatch: RegexMatch, tokenType: Option<TokenKind>, indentationLevel: Indentation)

  /** A diagnostic parameter: the checks and the scanner pass both text and
      integers to the message renderer. */
  datatype Param = Text(s: string) | Number(n: int)

  /** An unrendered message: an error key and its parameters. */
  datatype Diagnostic = Diagnostic(key: string, params: seq<Param>)

  /** A token tuple `(value, kind[, type], line)`. */
  datatype Token = Token(value: string, kind: Option<TokenKind>, subtype: Option<string>, line: int)

  /** What the indentation check returns when it has a verdict: an optional
      diagnostic and the depth to continue from. */
  datatype IndentationVerdict = IndentationVerdict(diagnostic: Option<Diagnostic>, newLevel: int)

  /** The style checks of the `commands` module, whose bodies and configuration
      are not part of this model. Checks without arguments are plain values. */
  datatype Commands = Commands(
    checkSkipLine: int -> int,
    checkSkipFile: bool,
    checkTraceFree: Option<Diagnostic>,
    checkSpelling: (string, Option<TokenKind>) -> Option<Diagnostic>,
    checkSpacesAroundOperators: (string, nat) -> Option<Diagnostic>,
    checkComment: string -> Option<Diagnostic>,
    checkMaxLineLength: nat -> Option<Diagnostic>,
    checkConsecutiveEmptyLines: nat -> Option<Diagnostic>,
    checkIndentation: (int, string, int) -> Option<IndentationVerdict>,
    checkMethodDeclarationSpacing: string -> Option<Diagnostic>)

  // ---------------------------------------------------------------------
  // Text helpers
  // ---------------------------------------------------------------------

  /** Python's `s[:stop]`: a negative stop counts from the end, and both ends clamp. */
  function PrefixTo(s: string, stop: int): (r: string)
    ensures r <= s
    ensures stop >= 0 ==> |r| == if stop < |s| then stop else |s|
    ensures stop < 0 ==> |r| == if |s| + stop < 0 then 0 else |s| + stop
  {
    if stop < 0 then s[..if |s| + stop < 0 then 0 else |s| + stop]
    else s[..if stop < |s| then stop else |s|]
  }

  /** The text after the last newline of `s`, or all of `s` when it has none:
      the last element of `re.findall("(?:(?<=^)|(?<=\n))(.*)", s, re.MULTILINE)`. */
  function LastLine(s: string): string
    decreases |s|
  {
    if |s| == 0 then ""
    else if s[|s| - 1] == '\n' then ""
    else LastLine(s[..|s| - 1]) + [s[|s| - 1]]
  }

  /** LastLine is a suffix without newlines that starts the text or follows a newline. */
  lemma {:induction false} LastLineIsLastLine(s: string)
    ensures var r := LastLine(s);
      |r| <= |s| && r == s[|s| - |r|..] && '\n' !in r && (|r| == |s| || s[|s| - |r| - 1] == '\n')
    decreases |s|
  {
    if |s| > 0 && s[|s| - 1] != '\n' {
      var p := s[..|s| - 1];
      LastLineIsLastLine(p);
      var r := LastLine(s);
      assert r == LastLine(p) + [s[|s| - 1]];
      assert r == s[|s| - |r|..];
    }
  }

  /** The position of the first newline at or after `from`, or `|s|` when
      there is none. */
  function FindNewline(s: string, from: nat): (k: nat)
    requires from <= |s|
    ensures from <= k <= |s|
    ensures k < |s| ==> s[k] == '\n'
    ensures forall j :: from <= j < k ==> s[j] != '\n'
    decreases |s| - from
  {
    if from == |s| then |s|
    else if s[from] == '\n' then from
    else FindNewline(s, from + 1)
  }

  /** `re.match(r"(.*)\n", s)`: the first line of `s` including its newline,
      or None when `s` has no newline. */
  function FirstLine(s: string): (r: Option<string>)
    ensures r.None? <==> '\n' !in s
    ensures r.Some? ==> r.value <= s && 0 < |r.value| && r.value[|r.value| - 1] == '\n'
    ensures r.Some? ==> '\n' !in r.value[..|r.value| - 1]
  {
    var k := FindNewline(s, 0);
    if k == |s| then None else Some(s[..k + 1])
  }

  /** Number of newline characters among the first `n` characters of `s`. */
  function NewlinesBefore(s: string, n: nat): nat
    requires n <= |s|
    decreases n
  {
    if n == 0 then 0 else NewlinesBefore(s, n - 1) + (if s[n - 1] == '\n' then 1 else 0)
  }

  /** Number of newline characters in `s`. */
  function Newlines(s: string): nat
  {
    NewlinesBefore(s, |s|)
  }

  lemma {:induction false} NewlinesBeforeSamePrefix(s: string, t: string, n: nat)
    requires n <= |s| && n <= |t| && s[..n] == t[..n]
    ensures NewlinesBefore(s, n) == NewlinesBefore(t, n)
    decreases n
  {
    if n > 0 {
      assert s[n - 1] == s[..n][n - 1] == t[..n][n - 1] == t[n - 1];
      assert s[..n - 1] == s[..n][..n - 1] == t[..n][..n - 1] == t[..n - 1];
      NewlinesBeforeSamePrefix(s, t, n - 1);
    }
  }

  /** The newlines before `j` are those before `i` and those between. */
  lemma {:induction false} NewlinesSplit(s: string, i: nat, j: nat)
    requires i <= j <= |s|
    ensures NewlinesBefore(s, j) == NewlinesBefore(s, i) + Newlines(s[i..j])
    decreases j - i
  {
    if i < j {
      NewlinesSplit(s, i, j - 1);
      var u := s[i..j];
      var v := s[i..j - 1];
      assert u[..j - i - 1] == v[..j - i - 1];
      NewlinesBeforeSamePrefix(u, v, j - i - 1);
      assert u[j - i - 1] == s[j - 1];
    }
  }

  lemma NewlinesAppend(a: string, b: string)
    ensures Newlines(a + b) == Newlines(a) + Newlines(b)
  {
    var ab := a + b;
    NewlinesSplit(ab, |a|, |ab|);
    assert ab[..|a|] == a[..|a|];
    NewlinesBeforeSamePrefix(ab, a, |a|);
    assert ab[|a|..|ab|] == b;
  }

  lemma {:induction false} NoNewlinesBefore(s: string, n: nat)
    requires n <= |s| && '\n' !in s
    ensures NewlinesBefore(s, n) == 0
    decreases n
  {
    if n > 0 {
      assert s[n - 1] in s;
      NoNewlinesBefore(s, n - 1);
    }
  }

  lemma NoNewlines(s: string)
    requires '\n' !in s
    ensures Newlines(s) == 0
  {
    NoNewlinesBefore(s, |s|);
  }

  /** The first line of a text holds exactly one newline. */
  lemma FirstLineHasOneNewline(s: string)
    requires FirstLine(s).Some?
    ensures Newlines(FirstLine(s).value) == 1
  {
    var line := FirstLine(s).value;
    var body := line[..|line| - 1];
    NoNewlines(body);
    assert line == body + "\n";
    NewlinesAppend(body, "\n");
  }

  // ---------------------------------------------------------------------
  // Python's str() of an integer, and its inverse
  // ---------------------------------------------------------------------

  function Digit(d: nat): (c: char)
    requires d < 10
    ensures '0' <= c <= '9' && c as int - '0' as int == d
  {
    ('0' as int + d) as char
  }

  /** Decimal digits of `n`, most significant first. */
  function Digits(n: nat): (r: string)
    ensures 0 < |r|
    ensures forall i :: 0 <= i < |r| ==> '0' <= r[i] <= '9'
    decreases n
  {
    if n < 10 then [Digit(n)] else Digits(n / 10) + [Digit(n % 10)]
  }

  /** The value of a string of decimal digits. */
  function DigitsValue(s: string): int
  {
    if |s| == 0 then 0 else 10 * DigitsValue(s[..|s| - 1]) + (s[|s| - 1] as int - '0' as int)
  }

  /** `str(n)`. */
  function DecimalString(n: int): (r: string)
    ensures 0 < |r|
    ensures n < 0 <==> r[0] == '-'
  {
    if n < 0 then "-" + Digits(-n) else Digits(n)
  }

  /** `int(s)` for the strings DecimalString produces. */
  function ParseDecimal(s: string): int
  {
    if 0 < |s| && s[0] == '-' then -DigitsValue(s[1..]) else DigitsValue(s)
  }

  lemma {:induction false} DigitsRoundTrip(n: nat)
    ensures DigitsValue(Digits(n)) == n
    decreases n
  {
    if n >= 10 {
      var s := Digits(n / 10) + [Digit(n % 10)];
      assert s[..|s| - 1] == Digits(n / 10);
      DigitsRoundTrip(n / 10);
    }
  }

  /** `int(str(n)) == n`: the rendered line number identifies the line. */
  lemma DecimalStringRoundTrip(n: int)
    ensures ParseDecimal(DecimalString(n)) == n
  {
    if n < 0 {
      assert ("-" + Digits(-n))[1..] == Digits(-n);
      DigitsRoundTrip(-n);
    } else {
      DigitsRoundTrip(n);
    }
  }

  // ---------------------------------------------------------------------
  // Token building
  // ---------------------------------------------------------------------

  /** Python's `s[1:-1]`. */
  function StripEnds(s: string): (r: string)
    ensures |s| >= 2 ==> s == [s[0]] + r + [s[|s| - 1]]
    ensures |s| < 2 ==> r == ""
  {
    if |s| < 2 then "" else s[1..|s| - 1]
  }

  /** The token tuple for a classified match: a string literal loses its
      delimiters, an identifier carries its `value` group and, when the `type`
      group is non-empty, that type; any other kind keeps the raw text. */
  function BuildToken(m: RegexMatch, kind: Option<TokenKind>, line: int): (t: Token)
    ensures t.kind == kind && t.line == line
    ensures t.subtype.Some? <==> kind == Some(Id) && m.typeGroup != ""
    ensures t.subtype.Some? ==> t.subtype.value == m.typeGroup
    ensures kind == Some(StringLiteral) && |m.text| >= 2 ==> m.text == [m.text[0]] + t.value + [m.text[|m.text| - 1]]
    ensures kind == Some(StringLiteral) && |m.text| < 2 ==> t.value == ""
    ensures kind == Some(Id) ==> t.value == m.valueGroup
    ensures kind != Some(StringLiteral) && kind != Some(Id) ==> t.value == m.text
  {
    if kind == Some(StringLiteral) then
      Token(StripEnds(m.text), kind, None, line)
    else if kind == Some(Id) then
      Token(m.valueGroup, kind, if m.typeGroup != "" then Some(m.typeGroup) else None, line)
    else
      Token(m.text, kind, None, line)
  }
}
