/** Quoted strings as fmt writes them with %q, on ASCII text, and what TOML makes of them. */
module Quoting {
  import opened Wrappers

  function HexDigit(d: nat): (c: char)
    requires d < 16
  {
    if d < 10 then '0' + d as char else 'a' + (d - 10) as char
  }

  function HexValue(c: char): (r: Option<nat>)
    ensures r.Some? ==> r.value < 16
  {
    if '0' <= c <= '9' then Some(c as int - '0' as int)
    else if 'a' <= c <= 'f' then Some(c as int - 'a' as int + 10)
    else None
  }

  /** The letter after the backslash of a two-character escape. */
  function Letter(c: char): Option<char> {
    if c == '"' then Some('"')
    else if c == '\\' then Some('\\')
    else if c as int == 7 then Some('a')
    else if c as int == 8 then Some('b')
    else if c as int == 12 then Some('f')
    else if c == '\n' then Some('n')
    else if c == '\r' then Some('r')
    else if c == '\t' then Some('t')
    else if c as int == 11 then Some('v')
    else None
  }

  function Meaning(letter: char): Option<char> {
    match letter
    case '"' => Some('"')
    case '\\' => Some('\\')
    case 'a' => Some(7 as char)
    case 'b' => Some(8 as char)
    case 'f' => Some(12 as char)
    case 'n' => Some('\n')
    case 'r' => Some('\r')
    case 't' => Some('\t')
    case 'v' => Some(11 as char)
    case _ => None
  }

  predicate Control(c: char) { c as int < 32 || c as int == 127 }

  function Escape(c: char): (e: string)
    ensures e != ""
    ensures forall i | 0 <= i < |e| :: e[i] != '\n'
  {
    if Letter(c).Some? then ['\\', Letter(c).value]
    else if Control(c) then ['\\', 'x', HexDigit(c as int / 16), HexDigit(c as int % 16)]
    else [c]
  }

  function Body(s: string): (b: string)
    ensures forall i | 0 <= i < |b| :: b[i] != '\n'
  {
    if s == "" then "" else Escape(s[0]) + Body(s[1..])
  }

  function Quote(s: string): (q: string)
    ensures q != "" && q[0] == '"'
    ensures forall i | 0 <= i < |q| :: q[i] != '\n'
  {
    "\"" + Body(s) + "\""
  }

  // ---------- reading back ----------

  /** What a reader knows: the escapes of Go's %q, or only those of the basic strings of TOML v1.0.0, section
      "String", which has no \a, \v or \x and no control characters but tabs. The four- and eight-digit escapes
      are left out, as %q writes none for ASCII. */
  datatype Syntax = GoSyntax | TomlSyntax

  predicate TomlLetter(letter: char) { letter in {'b', 't', 'n', 'f', 'r', '"', '\\'} }

  predicate PlainIn(syntax: Syntax, c: char) { syntax.TomlSyntax? && Control(c) ==> c == '\t' }

  predicate LetterIn(syntax: Syntax, letter: char) {
    Meaning(letter).Some? && (syntax.TomlSyntax? ==> TomlLetter(letter))
  }

  datatype Read = Read(text: string, rest: string)

  /** The character an escape or a plain character stands for, and what follows it. */
  function ReadChar(syntax: Syntax, s: string): Option<(char, string)> {
    if s == "" || s[0] == '"' then None
    else if s[0] != '\\' then if PlainIn(syntax, s[0]) then Some((s[0], s[1..])) else None
    else if |s| >= 2 && LetterIn(syntax, s[1]) then Some((Meaning(s[1]).value, s[2..]))
    else if syntax.GoSyntax? && |s| >= 4 && s[1] == 'x' && HexValue(s[2]).Some? && HexValue(s[3]).Some? then
      Some(((HexValue(s[2]).value * 16 + HexValue(s[3]).value) as char, s[4..]))
    else None
  }

  /** Reads up to the closing quote. */
  function ReadBody(syntax: Syntax, s: string): Option<Read>
    decreases |s|
  {
    if s == "" then None
    else if s[0] == '"' then Some(Read("", s[1..]))
    else
      match ReadChar(syntax, s)
      case None => None
      case Some((c, rest)) =>
        if |rest| >= |s| then None
        else
          match ReadBody(syntax, rest)
          case None => None
          case Some(r) => Some(Read([c] + r.text, r.rest))
  }

  /** Control characters that TOML can write with one letter, or no control character. */
  predicate TomlWritable(c: char) {
    !Control(c) || c as int in {8, 9, 10, 12, 13}
  }

  predicate Writable(syntax: Syntax, s: string) {
    syntax.TomlSyntax? ==> forall i | 0 <= i < |s| :: TomlWritable(s[i])
  }

  lemma ReadEscaped(syntax: Syntax, c: char, rest: string)
    ensures ReadChar(syntax, Escape(c) + rest) == if Writable(syntax, [c]) then Some((c, rest)) else None
  {
    var s := Escape(c) + rest;
    assert s[|Escape(c)|..] == rest;
    assert Writable(syntax, [c]) <==> (syntax.TomlSyntax? ==> TomlWritable([c][0]));
    if Letter(c).None? && Control(c) {
      assert HexValue(HexDigit(c as int / 16)) == Some(c as int / 16);
      assert HexValue(HexDigit(c as int % 16)) == Some(c as int % 16);
      assert c as int / 16 * 16 + c as int % 16 == c as int;
    }
  }

  lemma EscapeNotQuote(c: char)
    ensures Escape(c)[0] != '"'
  {
  }

  lemma WritableParts(syntax: Syntax, s: string)
    requires s != ""
    ensures Writable(syntax, s) <==> Writable(syntax, [s[0]]) && Writable(syntax, s[1..])
  {
    assert s == [s[0]] + s[1..];
    assert TomlWritable([s[0]][0]) == TomlWritable(s[0]);
    assert forall i | 0 <= i < |s| - 1 :: s[1..][i] == s[i + 1];
    assert forall i | 0 < i < |s| :: s[i] == s[1..][i - 1];
  }

  /** Whatever follows the closing quote, the quoted text is read back exactly: always with Go's escapes, and
      with those of TOML precisely when the text holds no control character but \b, \t, \n, \f and \r. */
  lemma {:induction false} ReadQuoted(syntax: Syntax, s: string, rest: string)
    ensures ReadBody(syntax, Body(s) + "\"" + rest) == if Writable(syntax, s) then Some(Read(s, rest)) else None
  {
    var t := Body(s) + "\"" + rest;
    if s == "" {
      assert t[1..] == rest;
    } else {
      var tail := Body(s[1..]) + "\"" + rest;
      assert t == Escape(s[0]) + tail;
      ReadEscaped(syntax, s[0], tail);
      EscapeNotQuote(s[0]);
      ReadQuoted(syntax, s[1..], rest);
      WritableParts(syntax, s);
      assert s == [s[0]] + s[1..];
    }
  }

  /** A bell is a character that TOML cannot read: %q writes it \a. */
  lemma BellIsNotToml()
    ensures Quote([7 as char]) == "\"\\a\"" && ReadBody(TomlSyntax, "\\a\"") == None
  {
    var bell := [7 as char];
    assert bell[1..] == [] && Body(bell) == Escape(bell[0]);
    assert Letter(bell[0]) == Some('a') && Escape(bell[0]) == "\\a";
    ReadQuoted(TomlSyntax, bell, "");
    assert Body(bell) + "\"" + "" == "\\a\"";
    assert !TomlWritable(bell[0]);
  }

  /** The escapes that %q writes. */
  lemma EscapesAre()
    ensures Escape('"') == "\\\"" && Escape('\\') == "\\\\" && Escape('\n') == "\\n" && Escape('\r') == "\\r" && Escape('\t') == "\\t"
    ensures Escape(7 as char) == "\\a" && Escape(8 as char) == "\\b" && Escape(11 as char) == "\\v" && Escape(12 as char) == "\\f"
    ensures Escape(0 as char) == "\\x00" && Escape(31 as char) == "\\x1f" && Escape(127 as char) == "\\x7f"
    ensures forall c: char | 32 <= c as int < 127 && c != '"' && c != '\\' :: Escape(c) == [c]
  {
  }
}
