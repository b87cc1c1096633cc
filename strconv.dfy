/**
 * The parts of Go's `strconv` package the admission hooks rely on:
 * `ParseBool`, which accepts exactly twelve spellings and reports a syntax
 * error for every other string, and `Quote`, which renders a string as a
 * double-quoted Go literal. `ParseBool`'s syntax error quotes the rejected
 * value this way, and the kubelet handler prints that error in its rejection
 * message. `Unquote` is the inverse of `Quote`.
 */
module Strconv {
  import opened Wrappers

  /** The spellings `ParseBool` reads as true. */
  const TrueLiterals: set<string> := {"1", "t", "T", "TRUE", "true", "True"}

  /** The spellings `ParseBool` reads as false. */
  const FalseLiterals: set<string> := {"0", "f", "F", "FALSE", "false", "False"}

  /**
   * `strconv.ParseBool`: `Some(b)` for a recognised literal, `None` where Go
   * returns a syntax error. No trimming and no case folding beyond the listed
   * spellings.
   */
  function ParseBool(s: string): (r: Option<bool>)
    ensures r == Some(true) <==> s in TrueLiterals
    ensures r == Some(false) <==> s in FalseLiterals
    ensures r == None <==> s !in TrueLiterals + FalseLiterals
  {
    match s
    case "1" | "t" | "T" | "true" | "TRUE" | "True" => Some(true)
    case "0" | "f" | "F" | "false" | "FALSE" | "False" => Some(false)
    case _ => None
  }

  /** The garbage values exercised by the tests of both hooks, and the empty string, are syntax errors. */
  lemma GarbageIsSyntaxError()
    ensures ParseBool("not true") == None
    ensures ParseBool("not-a-bool") == None
    ensures ParseBool("") == None
  {
  }

  const HexDigits := "0123456789abcdef"

  /** The lower-case hexadecimal digit Go's quoting writes for `n`. */
  function HexDigit(n: nat): char
    requires n < 16
  {
    HexDigits[n]
  }

  /** The value of a lower-case hexadecimal digit. */
  function HexValue(c: char): (r: Option<nat>)
    ensures r.Some? ==> r.value < 16 && HexDigit(r.value) == c
  {
    if '0' <= c <= '9' then Some(c as int - '0' as int)
    else if 'a' <= c <= 'f' then Some(c as int - 'a' as int + 10)
    else None
  }

  /** The letter of Go's one-letter escape (`\a`, `\b`, `\t`, `\n`, `\v`, `\f`, `\r`) for a control character. */
  function LetterEscape(c: char): Option<char>
  {
    match c as int
    case 7 => Some('a')
    case 8 => Some('b')
    case 9 => Some('t')
    case 10 => Some('n')
    case 11 => Some('v')
    case 12 => Some('f')
    case 13 => Some('r')
    case _ => None
  }

  /** The control character a one-letter escape stands for. */
  function LetterUnescape(l: char): (r: Option<char>)
    ensures r.Some? ==> LetterEscape(r.value) == Some(l)
  {
    match l
    case 'a' => Some(7 as char)
    case 'b' => Some(8 as char)
    case 't' => Some(9 as char)
    case 'n' => Some(10 as char)
    case 'v' => Some(11 as char)
    case 'f' => Some(12 as char)
    case 'r' => Some(13 as char)
    case _ => None
  }

  /** The ASCII control characters, which Go never writes unescaped in a quoted string. */
  predicate IsControl(c: char)
  {
    c as int < 0x20 || c as int == 0x7F
  }

  /** How one character appears inside a quoted string. */
  function EscapeChar(c: char): (e: string)
    ensures |e| > 0
  {
    if c == '"' || c == '\\' then ['\\', c]
    else if LetterEscape(c).Some? then ['\\', LetterEscape(c).value]
    else if IsControl(c) then ['\\', 'x', HexDigit(c as int / 16), HexDigit(c as int % 16)]
    else [c]
  }

  /** The text between the quotes of `Quote(s)`. */
  function QuoteBody(s: string): string
  {
    if s == [] then [] else EscapeChar(s[0]) + QuoteBody(s[1..])
  }

  /**
   * `strconv.Quote`: the double-quoted literal for a string, as the syntax
   * error of `ParseBool` writes the rejected value. Quoting loses nothing.
   */
  function Quote(s: string): (q: string)
    ensures Unquote(q) == Some(s)
  {
    var q := "\"" + QuoteBody(s) + "\"";
    assert q[1..|q| - 1] == QuoteBody(s);
    UnquoteBodyQuoteBody(s);
    q
  }

  /** Decodes the first character of a quoted body: the character and how many characters it took. */
  function DecodeUnit(t: string): (r: Option<(char, nat)>)
    requires |t| > 0
    ensures r.Some? ==> 0 < r.value.1 <= |t|
  {
    if t[0] == '"' || t[0] == '\n' then None
    else if t[0] != '\\' then Some((t[0], 1))
    else if |t| < 2 then None
    else if t[1] == '"' || t[1] == '\\' then Some((t[1], 2))
    else if t[1] == 'x' then
      if |t| < 4 then None
      else match (HexValue(t[2]), HexValue(t[3]))
        case (Some(h), Some(l)) => Some(((h * 16 + l) as char, 4))
        case _ => None
    else match LetterUnescape(t[1])
      case Some(c) => Some((c, 2))
      case None => None
  }

  /** Decodes a whole quoted body; `None` on an unescaped quote or newline, or an unknown escape. */
  function UnquoteBody(t: string): (r: Option<string>)
    ensures r.Some? ==> |r.value| <= |t| && '\n' !in t
    decreases |t|
  {
    if t == [] then Some([])
    else match DecodeUnit(t)
      case None => None
      case Some((c, n)) =>
        match UnquoteBody(t[n..])
        case None => None
        case Some(rest) => Some([c] + rest)
  }

  /**
   * `strconv.Unquote` for double-quoted literals: the text must be enclosed
   * in quotes and hold no raw newline, and decoding never makes it longer.
   */
  function Unquote(t: string): (r: Option<string>)
    ensures r.Some? ==> 2 <= |t| && t[0] == '"' && t[|t| - 1] == '"' && |r.value| <= |t| - 2
    ensures r.Some? ==> '\n' !in t[1..|t| - 1]
  {
    if |t| >= 2 && t[0] == '"' && t[|t| - 1] == '"' then UnquoteBody(t[1..|t| - 1]) else None
  }

  /** The escape of a character decodes back to that character, whatever follows it. */
  lemma DecodeEscaped(c: char, t: string)
    ensures DecodeUnit(EscapeChar(c) + t) == Some((c, |EscapeChar(c)|))
  {
  }

  lemma {:induction false} UnquoteBodyQuoteBody(s: string)
    ensures UnquoteBody(QuoteBody(s)) == Some(s)
    decreases |s|
  {
    if s != [] {
      var e, t := EscapeChar(s[0]), QuoteBody(s[1..]);
      DecodeEscaped(s[0], t);
      assert (e + t)[|e|..] == t;
      UnquoteBodyQuoteBody(s[1..]);
      assert [s[0]] + s[1..] == s;
    }
  }
}
