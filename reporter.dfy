/**
 * The diagnostics sinks the parser writes to.
 *
 * `JsonReporter` keeps every issue, in the order reported, and derives `HadError` from that
 * list. `PrettyReporter` renders one line of text per diagnostic and keeps a sticky flag;
 * the text is a pure function of the message and the token, and the error stream it is
 * written to is modelled as the sequence of lines written so far.
 */
module Reporting {
  import opened Wrappers
  import Tokens
  import Chars

  datatype Severity = Error | Warning

  /** One recorded diagnostic. */
  datatype Issue = Issue(message: string, token: Tokens.Token, severity: Severity)

  /** The structured collector: an append-only list of issues. */
  class JsonReporter {
    var issues: seq<Issue>

    constructor ()
      ensures issues == [] && !HadError()
    {
      issues := [];
    }

    /** Any issue at all, warnings included, counts as an error having occurred. */
    predicate HadError()
      reads this
    {
      |issues| != 0
    }

    method Error(message: string, token: Tokens.Token)
      modifies this
      ensures issues == old(issues) + [Issue(message, token, Severity.Error)]
      ensures HadError()
    {
      issues := issues + [Issue(message, token, Severity.Error)];
    }

    method Warn(message: string, token: Tokens.Token)
      modifies this
      ensures issues == old(issues) + [Issue(message, token, Severity.Warning)]
      ensures HadError()
    {
      issues := issues + [Issue(message, token, Severity.Warning)];
    }

    method GetIssues() returns (r: seq<Issue>)
      ensures r == issues
    {
      r := issues;
    }
  }

  /** The character for a decimal digit value. */
  function DigitChar(d: nat): (c: char)
    requires d < 10
    ensures Chars.IsDigit(c) && c as int - '0' as int == d
  {
    (d + '0' as int) as char
  }

  /** The decimal numeral of `n`, as a template string renders a line number. */
  function NatToString(n: nat): (s: string)
    ensures 1 <= |s| && AllDigits(s)
    ensures s[0] == '0' ==> n == 0
  {
    if n < 10 then [DigitChar(n)] else NatToString(n / 10) + [DigitChar(n % 10)]
  }

  predicate AllDigits(s: string)
  {
    forall k :: 0 <= k < |s| ==> Chars.IsDigit(s[k])
  }

  /** The value of a string of decimal digits. */
  function DigitsValue(s: string): nat
    requires AllDigits(s)
  {
    if s == [] then 0 else DigitsValue(s[..|s| - 1]) * 10 + (s[|s| - 1] as int - '0' as int)
  }

  /** Reading a rendered line number back gives the number. */
  lemma {:induction false} NatToStringRoundTrip(n: nat)
    ensures DigitsValue(NatToString(n)) == n
  {
    if n >= 10 {
      var s := NatToString(n);
      NatToStringRoundTrip(n / 10);
      assert s[..|s| - 1] == NatToString(n / 10);
    }
  }

  /** The length of the longest run of digits at the front of `s`. */
  function DigitRun(s: string): (k: nat)
    ensures k <= |s| && AllDigits(s[..k])
    ensures k < |s| ==> !Chars.IsDigit(s[k])
  {
    if s != [] && Chars.IsDigit(s[0]) then
      var k := 1 + DigitRun(s[1..]);
      assert s[..k] == [s[0]] + s[1..][..k - 1];
      k
    else 0
  }

  lemma {:induction false} DigitRunOf(digits: string, rest: string)
    requires AllDigits(digits) && (rest == [] || !Chars.IsDigit(rest[0]))
    ensures DigitRun(digits + rest) == |digits|
  {
    if digits != [] {
      assert (digits + rest)[1..] == digits[1..] + rest;
      DigitRunOf(digits[1..], rest);
    }
  }

  /** `[line N]`, the label every rendered diagnostic starts with. */
  function LineLabel(line: nat): string
  {
    "[line " + NatToString(line) + "]"
  }

  /** Reads the line number back from the label at the front of a rendered diagnostic. */
  function ReadLine(text: string): Option<nat>
  {
    if |text| < 6 || text[..6] != "[line " then None
    else
      var rest := text[6..];
      var k := DigitRun(rest);
      if 0 < k < |rest| && rest[k] == ']' then Some(DigitsValue(rest[..k])) else None
  }

  /** Where an error is placed: at end of file, nowhere for a scanner error, else at the lexeme. */
  function ErrorPlace(t: Tokens.Token): string
  {
    if t.kind == Tokens.Eof then " at end of file"
    else if t.kind == Tokens.Error then ""
    else " at '" + t.lexeme + "'"
  }

  /** The line `PrettyReporter.Error` writes. */
  function ErrorText(message: string, t: Tokens.Token): string
  {
    LineLabel(t.line) + " Error" + ErrorPlace(t) + ": " + message
  }

  /** What a warning is placed at: the end of file, nothing for a scanner error, else the lexeme. */
  function WarningPlace(t: Tokens.Token): string
  {
    if t.kind == Tokens.Eof then "end of file"
    else if t.kind == Tokens.Error then ""
    else t.lexeme
  }

  /** The line `PrettyReporter.Warn` writes. */
  function WarningText(message: string, t: Tokens.Token): string
  {
    LineLabel(t.line) + " Warning at " + WarningPlace(t) + ": " + message
  }

  lemma LineLabelRead(line: nat, rest: string)
    ensures ReadLine(LineLabel(line) + rest) == Some(line)
  {
    var n := NatToString(line);
    var text := LineLabel(line) + rest;
    assert text == "[line " + (n + ("]" + rest));
    assert text[..6] == "[line ";
    assert text[6..] == n + ("]" + rest);
    DigitRunOf(n, "]" + rest);
    assert text[6..][..|n|] == n;
    NatToStringRoundTrip(line);
  }

  /**
   * A rendered error names the token's line, ends with the message, and places the error
   * at end of file, nowhere, or at the quoted lexeme according to the token's kind.
   */
  lemma ErrorTextParts(message: string, t: Tokens.Token)
    ensures var text := ErrorText(message, t);
      && ReadLine(text) == Some(t.line)
      && text[|text| - |message|..] == message
      && (t.kind == Tokens.Error ==> text == LineLabel(t.line) + " Error: " + message)
  {
    var text := ErrorText(message, t);
    assert text == LineLabel(t.line) + (" Error" + ErrorPlace(t) + ": " + message);
    LineLabelRead(t.line, " Error" + ErrorPlace(t) + ": " + message);
  }

  /** A rendered warning names the token's line and ends with the message. */
  lemma WarningTextParts(message: string, t: Tokens.Token)
    ensures var text := WarningText(message, t);
      && ReadLine(text) == Some(t.line)
      && text[|text| - |message|..] == message
      && (t.kind == Tokens.Eof ==> text == LineLabel(t.line) + " Warning at end of file: " + message)
  {
    var text := WarningText(message, t);
    assert text == LineLabel(t.line) + (" Warning at " + WarningPlace(t) + ": " + message);
    LineLabelRead(t.line, " Warning at " + WarningPlace(t) + ": " + message);
  }

  /** The human-readable renderer: writes one line per diagnostic and remembers that it did. */
  class PrettyReporter {
    var hadError: bool
    /** The lines written to the error stream so far, oldest first. */
    var written: seq<string>

    constructor ()
      ensures !hadError && written == []
    {
      hadError := false;
      written := [];
    }

    method Error(message: string, token: Tokens.Token)
      modifies this
      ensures hadError && written == old(written) + [ErrorText(message, token)]
    {
      var lineReporting := LineLabel(token.line);
      var tokenReporting := ErrorPlace(token);
      written := written + [lineReporting + " Error" + tokenReporting + ": " + message];
      hadError := true;
    }

    method Warn(message: string, token: Tokens.Token)
      modifies this
      ensures hadError && written == old(written) + [WarningText(message, token)]
    {
      var lineReporting := LineLabel(token.line);
      var tokenReporting := WarningPlace(token);
      written := written + [lineReporting + " Warning at " + tokenReporting + ": " + message];
      hadError := true;
    }
  }
}
