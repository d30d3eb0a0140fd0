/**
 * The few pieces of the Python runtime that the capture program leans on:
 * exceptions as values, `str.lower` on the format names, decimal rendering
 * of integers inside f-strings, `os.path.join` and the keyword-only
 * `str.format` used to build output file names.
 */
module Builtins {
  import opened Wrappers

  /** The exception classes the program raises, catches or lets escape. */
  datatype ExceptionKind =
    | RequestException   // requests.exceptions.RequestException and its subclasses
    | KeyError
    | IndexError
    | ValueError
    | ZeroDivisionError
    | OtherError         // anything else derived from Exception (OpenCV, urllib3, OSError, ...)

  /** A raised exception: its class and `str(e)`. */
  datatype Exception = Exception(kind: ExceptionKind, text: string)

  // ---------------------------------------------------------------------------
  // str.lower

  function LowerChar(c: char): char {
    if 'A' <= c <= 'Z' then (c as int + 32) as char else c
  }

  /** `s.lower()` on ASCII letters; every other character is kept. */
  function Lower(s: string): (r: string)
    ensures |r| == |s|
    ensures forall i :: 0 <= i < |s| ==> r[i] == LowerChar(s[i])
  {
    if s == [] then [] else [LowerChar(s[0])] + Lower(s[1..])
  }

  /** Lower-casing twice is lower-casing once. */
  lemma LowerIdempotent(s: string)
    ensures Lower(Lower(s)) == Lower(s)
  {
  }

  /** Only strings that agree with `w` up to ASCII case lower-case to a lower-case word `w`. */
  lemma {:induction false} LowerEqualsWord(s: string, w: string)
    requires Lower(w) == w
    ensures Lower(s) == w <==> |s| == |w| && forall i :: 0 <= i < |s| ==> LowerChar(s[i]) == w[i]
  {
    if Lower(s) == w {
      assert |s| == |w|;
    }
    if |s| == |w| && forall i :: 0 <= i < |s| ==> LowerChar(s[i]) == w[i] {
      assert forall i :: 0 <= i < |s| ==> Lower(s)[i] == w[i];
    }
  }

  /** A string lower-cases to a three-character lower-case word exactly when each of its three characters does. */
  lemma LowerThreeLetters(s: string, x: char, y: char, z: char)
    requires LowerChar(x) == x && LowerChar(y) == y && LowerChar(z) == z
    ensures Lower(s) == [x, y, z] <==> |s| == 3 && LowerChar(s[0]) == x && LowerChar(s[1]) == y && LowerChar(s[2]) == z
  {
    var w := [x, y, z];
    assert Lower(w) == w by {
      assert |Lower(w)| == 3 && Lower(w)[0] == x && Lower(w)[1] == y && Lower(w)[2] == z;
    }
    LowerEqualsWord(s, w);
  }

  /** A character lower-cases to a letter exactly when it is that letter in either case. */
  lemma LowerCharIs(c: char, lower: char, upper: char)
    requires 'a' <= lower <= 'z' && upper as int == lower as int - 32
    ensures LowerChar(c) == lower <==> c == lower || c == upper
  {
  }

  /** A character lower-cases to a non-letter exactly when it is that character. */
  lemma LowerCharKeeps(c: char, d: char)
    requires !('a' <= d <= 'z') && !('A' <= d <= 'Z')
    ensures LowerChar(c) == d <==> c == d
  {
  }

  function UpperChar(c: char): char {
    if 'a' <= c <= 'z' then (c as int - 32) as char else c
  }

  /** `s.upper()` on ASCII letters; every other character is kept. */
  function Upper(s: string): (r: string)
    ensures |r| == |s|
    ensures forall i :: 0 <= i < |s| ==> r[i] == UpperChar(s[i])
  {
    if s == [] then [] else [UpperChar(s[0])] + Upper(s[1..])
  }

  // ---------------------------------------------------------------------------
  // Decimal rendering, as `str(n)` / `f"{n}"` does it

  function DigitChar(d: nat): char
    requires d < 10
  {
    "0123456789"[d]
  }

  predicate IsDigit(c: char) {
    '0' <= c <= '9'
  }

  predicate AllDigits(s: string) {
    forall i :: 0 <= i < |s| ==> IsDigit(s[i])
  }

  /** The decimal digits of `n`, without leading zeros. */
  function NatToString(n: nat): (r: string)
    ensures |r| >= 1 && AllDigits(r)
    ensures r[0] == '0' ==> n == 0 && r == "0"
    decreases n
  {
    if n < 10 then [DigitChar(n)] else NatToString(n / 10) + [DigitChar(n % 10)]
  }

  /** The inverse of `NatToString`: the value of a string of digits. */
  function DigitsValue(s: string): nat
    requires AllDigits(s)
  {
    if s == [] then 0 else 10 * DigitsValue(s[..|s| - 1]) + (s[|s| - 1] as int - '0' as int)
  }

  /** Rendering a number and reading it back gives the number. */
  lemma {:induction false} NatToStringRoundTrip(n: nat)
    ensures DigitsValue(NatToString(n)) == n
    decreases n
  {
    var r := NatToString(n);
    if n >= 10 {
      NatToStringRoundTrip(n / 10);
      assert r[..|r| - 1] == NatToString(n / 10);
    }
  }

  /** Python's `str(i)` for any integer. */
  function IntToString(i: int): (r: string)
    ensures i >= 0 ==> AllDigits(r) && DigitsValue(r) == i
    ensures i < 0 ==> |r| >= 2 && r[0] == '-' && AllDigits(r[1..]) && DigitsValue(r[1..]) == -i
  {
    if i >= 0 then
      NatToStringRoundTrip(i);
      NatToString(i)
    else
      NatToStringRoundTrip(-i);
      assert ("-" + NatToString(-i))[1..] == NatToString(-i);
      "-" + NatToString(-i)
  }

  // ---------------------------------------------------------------------------
  // os.path.join (POSIX)

  /** `os.path.join(a, b)`: an absolute `b` replaces `a`; otherwise one separator is inserted when needed. */
  function PathJoin(a: string, b: string): (r: string)
    ensures |b| <= |r| && r[|r| - |b|..] == b
    ensures |b| > 0 && b[0] == '/' ==> r == b
    ensures !(|b| > 0 && b[0] == '/') ==> |a| <= |r| && r[..|a|] == a && (r == a + b || r == a + "/" + b)
    ensures !(|b| > 0 && b[0] == '/') ==> (r == a + b <==> a == [] || a[|a| - 1] == '/')
  {
    if |b| > 0 && b[0] == '/' then b
    else if a == [] || a[|a| - 1] == '/' then a + b
    else a + "/" + b
  }

  // ---------------------------------------------------------------------------
  // repr of a string, as `str(KeyError(name))` shows the missing key

  /** A character below U+0100 that `str.isprintable` rejects and `repr` writes as `\xNN`, tab, newline and return aside. */
  predicate HexEscaped(c: char) {
    (c < ' ' && c != '\t' && c != '\n' && c != '\r') || ('\U{7F}' <= c <= '\U{A0}') || c == '\U{AD}'
  }

  function HexDigit(n: nat): char
    requires n < 16
  {
    "0123456789abcdef"[n]
  }

  /** How `repr` writes one character inside the quotes `q`. */
  function ReprChar(c: char, q: char): (r: string)
    ensures |r| >= 1
    ensures |r| == 1 <==> r == [c]
  {
    if c == q || c == '\\' then ['\\', c]
    else if c == '\t' then "\\t"
    else if c == '\n' then "\\n"
    else if c == '\r' then "\\r"
    else if HexEscaped(c) then ['\\', 'x', HexDigit(c as int / 16), HexDigit(c as int % 16)]
    else [c]
  }

  function ReprBody(s: string, q: char): string {
    if s == [] then [] else ReprChar(s[0], q) + ReprBody(s[1..], q)
  }

  /**
   * `repr(s)`: double quotes exactly when `s` holds a single quote and no double
   * quote, single quotes otherwise; the chosen quote and the backslash are
   * escaped, and so are the control characters.
   */
  function Repr(s: string): (r: string)
    ensures |r| >= 2 && r[0] == r[|r| - 1]
    ensures r[0] == '"' <==> '\'' in s && '"' !in s
    ensures r[0] != '"' ==> r[0] == '\''
  {
    var q := if '\'' in s && '"' !in s then '"' else '\'';
    [q] + ReprBody(s, q) + [q]
  }

  /** A character `repr` copies unchanged between single quotes. */
  predicate PlainChar(c: char) {
    c != '\'' && c != '\\' && c != '\t' && c != '\n' && c != '\r' && !HexEscaped(c)
  }

  /** Text copied unchanged between the quotes `q`, as long as it holds no character needing an escape. */
  lemma {:induction false} ReprBodyPlain(s: string, q: char)
    requires q == '\'' && forall i :: 0 <= i < |s| ==> PlainChar(s[i])
    ensures ReprBody(s, q) == s
    decreases |s|
  {
    if s != [] {
      ReprBodyPlain(s[1..], q);
    }
  }

  /** A name with no quote, backslash or control character is shown in single quotes as it is. */
  lemma ReprPlain(s: string)
    requires forall i :: 0 <= i < |s| ==> PlainChar(s[i])
    ensures Repr(s) == "'" + s + "'"
  {
    ReprBodyPlain(s, '\'');
  }

  // ---------------------------------------------------------------------------
  // str.format with keyword arguments only

  /** Prefixes a successful rendering with `s`; an error is passed through. */
  function Prepend(s: string, r: Result<string, Exception>): Result<string, Exception> {
    match r
    case Success(v) => Success(s + v)
    case Failure(e) => r
  }

  /** Index of the first brace, `{` or `}`, at or after `i`. */
  function NextBrace(t: string, i: nat): (r: Option<nat>)
    requires i <= |t|
    ensures r.Some? ==> && i <= r.value < |t| && (t[r.value] == '{' || t[r.value] == '}')
                        && forall k :: i <= k < r.value ==> t[k] != '{' && t[k] != '}'
    ensures r.None? ==> forall k :: i <= k < |t| ==> t[k] != '{' && t[k] != '}'
    decreases |t| - i
  {
    if i == |t| then None else if t[i] == '{' || t[i] == '}' then Some(i) else NextBrace(t, i + 1)
  }

  /** A field with no name, or a name made of digits, asks for a positional argument. */
  predicate IsPositional(name: string) {
    name == [] || AllDigits(name)
  }

  /**
   * `t.format(**args)`, read left to right as Python does: `{{` and `}}` stand for
   * single braces, `{name}` is replaced by `args[name]`, and the first fault met
   * raises: a missing keyword (KeyError), a positional field when no positional
   * arguments are given (IndexError), or a misplaced brace (ValueError): a lone
   * `{` or `}`, a field left open, or a `{` inside a field name.
   */
  function Render(t: string, args: map<string, string>): (r: Result<string, Exception>)
    ensures r.Failure? ==> r.error.kind == KeyError || r.error.kind == IndexError || r.error.kind == ValueError
    decreases |t|
  {
    if t == [] then Success([])
    else if t[0] == '{' then
      if |t| == 1 then Failure(Exception(ValueError, "Single '{' encountered in format string"))
      else if t[1] == '{' then Prepend("{", Render(t[2..], args))
      else
        match NextBrace(t, 1)
        case None => Failure(Exception(ValueError, "expected '}' before end of string"))
        case Some(j) =>
          var name := t[1..j];
          if t[j] == '{' then Failure(Exception(ValueError, "unexpected '{' in field name"))
          else if IsPositional(name) then
            Failure(Exception(IndexError, "Replacement index " + PositionalIndex(name) + " out of range for positional args tuple"))
          else if name !in args then Failure(Exception(KeyError, Repr(name)))
          else Prepend(args[name], Render(t[j + 1..], args))
    else if t[0] == '}' then
      if |t| >= 2 && t[1] == '}' then Prepend("}", Render(t[2..], args))
      else Failure(Exception(ValueError, "Single '}' encountered in format string"))
    else Prepend([t[0]], Render(t[1..], args))
  }

  /** The index Python names for a positional field: 0 for `{}`, the number itself otherwise. */
  function PositionalIndex(name: string): string
    requires IsPositional(name)
  {
    if name == [] then "0" else NatToString(DigitsValue(name))
  }

  predicate NoBraces(s: string) {
    forall i :: 0 <= i < |s| ==> s[i] != '{' && s[i] != '}'
  }

  /** Brace-free text is copied through unchanged, whatever follows it. */
  lemma {:induction false} RenderLiteral(lit: string, rest: string, args: map<string, string>)
    requires NoBraces(lit)
    ensures Render(lit + rest, args) == Prepend(lit, Render(rest, args))
    decreases |lit|
  {
    if lit != [] {
      assert (lit + rest)[0] == lit[0];
      assert (lit + rest)[1..] == lit[1..] + rest;
      RenderLiteral(lit[1..], rest, args);
      match Render(rest, args)
      case Success(v) => assert [lit[0]] + (lit[1..] + v) == lit + v;
      case Failure(e) =>
    } else {
      assert lit + rest == rest;
      match Render(rest, args)
      case Success(v) => assert lit + v == v;
      case Failure(e) =>
    }
  }

  /** A template without braces formats to itself. */
  lemma RenderNoBraces(t: string, args: map<string, string>)
    requires NoBraces(t)
    ensures Render(t, args) == Success(t)
  {
    RenderLiteral(t, [], args);
    assert t + [] == t;
  }

  /** A named field is replaced by its keyword argument, or raises KeyError when none was supplied. */
  lemma RenderField(name: string, rest: string, args: map<string, string>)
    requires NoBraces(name) && !IsPositional(name)
    ensures Render("{" + name + "}" + rest, args)
         == if name in args then Prepend(args[name], Render(rest, args))
            else Failure(Exception(KeyError, Repr(name)))
  {
    var t := "{" + name + "}" + rest;
    var j := |name| + 1;
    assert t[0] == '{' && t[1] == name[0] && t[j] == '}';
    assert forall k :: 1 <= k < j ==> t[k] == name[k - 1];
    assert NextBrace(t, 1) == Some(j);
    assert t[1..j] == name;
    assert t[j + 1..] == rest;
  }

  /** Brace-free text followed by a named field: the text, then the argument or a KeyError. */
  lemma RenderLiteralField(lit: string, name: string, rest: string, args: map<string, string>)
    requires NoBraces(lit) && NoBraces(name) && !IsPositional(name)
    ensures Render(lit + "{" + name + "}" + rest, args)
         == Prepend(lit, if name in args then Prepend(args[name], Render(rest, args))
                         else Failure(Exception(KeyError, Repr(name))))
  {
    assert lit + "{" + name + "}" + rest == lit + ("{" + name + "}" + rest);
    RenderLiteral(lit, "{" + name + "}" + rest, args);
    RenderField(name, rest, args);
  }

  /** A `{` met inside a field name, before its closing `}`, raises ValueError. */
  lemma RenderBraceInName(name: string, rest: string, args: map<string, string>)
    requires name != [] && NoBraces(name)
    ensures Render("{" + name + "{" + rest, args) == Failure(Exception(ValueError, "unexpected '{' in field name"))
  {
    var t := "{" + name + "{" + rest;
    var j := |name| + 1;
    assert t[0] == '{' && t[1] == name[0] && t[j] == '{';
    assert forall k :: 1 <= k < j ==> t[k] == name[k - 1];
    assert NextBrace(t, 1) == Some(j);
  }
}
