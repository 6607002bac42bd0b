/** Reading a rendered configuration line by line, with the escapes of %q or with those of TOML v1.0.0. */
module FrpConfigLines {
  import opened Wrappers
  import opened Quoting
  import opened FrpConfig
  import Validate
  import Decimal

  /** A bare key of TOML v1.0.0. */
  predicate Bare(key: string) {
    key != "" && forall i | 0 <= i < |key| :: Validate.IsIdChar(key[i])
  }

  predicate WellFormedLine(l: Line) {
    match l
    case Blank => true
    case Header(title) => title != "" && title[0] == '[' && forall i | 0 <= i < |title| :: title[i] != '\n'
    case Quoted(key, _) => Bare(key)
    case Number(key, _) => Bare(key)
    case List(key, values) => Bare(key) && |values| > 0
  }

  predicate WellFormedDoc(d: Doc) {
    d.Then? ==> WellFormedLine(d.line) && WellFormedDoc(d.rest)
  }

  // ---------- the reader ----------

  function KeyLength(s: string): (n: nat)
    ensures n <= |s|
  {
    if s != "" && Validate.IsIdChar(s[0]) then 1 + KeyLength(s[1..]) else 0
  }

  /** The items of a list up to its closing bracket at the end of the line. */
  function ReadItems(syntax: Syntax, s: string): Option<seq<string>>
    decreases |s|
  {
    if s == "" || s[0] != '"' then None
    else
      match ReadBody(syntax, s[1..])
      case None => None
      case Some(r) =>
        if r.rest == "]" then Some([r.text])
        else if |r.rest| < 2 || r.rest[0] != ',' || r.rest[1] != ' ' || |r.rest| >= |s| then None
        else
          match ReadItems(syntax, r.rest[2..])
          case None => None
          case Some(items) => Some([r.text] + items)
  }

  function ReadValue(syntax: Syntax, key: string, v: string): Option<Line> {
    if v == "" then None
    else if v[0] == '"' then
      match ReadBody(syntax, v[1..])
      case None => None
      case Some(r) => if r.rest == "" then Some(Quoted(key, r.text)) else None
    else if v[0] == '[' then
      match ReadItems(syntax, v[1..])
      case None => None
      case Some(items) => Some(List(key, items))
    else
      match Decimal.ReadInt(v)
      case None => None
      case Some(n) => Some(Number(key, n))
  }

  function ReadLine(syntax: Syntax, s: string): Option<Line> {
    if s == "" then Some(Blank)
    else if s[0] == '[' then Some(Header(s))
    else
      var n := KeyLength(s);
      if n == 0 || |s| < n + 3 || s[n..n + 3] != " = " then None else ReadValue(syntax, s[..n], s[n + 3..])
  }

  function LineLength(s: string): (n: nat)
    ensures n <= |s|
  {
    if s == "" || s[0] == '\n' then 0 else 1 + LineLength(s[1..])
  }

  function ReadDoc(syntax: Syntax, s: string): Option<Doc>
    decreases |s|
  {
    if s == "" then Some(End)
    else
      var n := LineLength(s);
      if n == |s| then None
      else
        match (ReadLine(syntax, s[..n]), ReadDoc(syntax, s[n + 1..]))
        case (Some(l), Some(d)) => Some(Then(l, d))
        case _ => None
  }

  // ---------- which documents it reads ----------

  predicate AllWritable(syntax: Syntax, vs: seq<string>) {
    forall v | v in vs :: Writable(syntax, v)
  }

  predicate LineWritable(syntax: Syntax, l: Line) {
    match l
    case Quoted(_, v) => Writable(syntax, v)
    case List(_, vs) => AllWritable(syntax, vs)
    case _ => true
  }

  predicate DocWritable(syntax: Syntax, d: Doc) {
    d.Then? ==> LineWritable(syntax, d.line) && DocWritable(syntax, d.rest)
  }

  // ---------- the proof ----------

  lemma {:induction false} KeyLengthOf(key: string, rest: string)
    requires forall i | 0 <= i < |key| :: Validate.IsIdChar(key[i])
    requires rest != "" && !Validate.IsIdChar(rest[0])
    ensures KeyLength(key + rest) == |key|
  {
    if key == "" {
      assert key + rest == rest;
    } else {
      assert (key + rest)[1..] == key[1..] + rest;
      KeyLengthOf(key[1..], rest);
    }
  }

  lemma ReadLastItem(syntax: Syntax, value: string)
    ensures ReadItems(syntax, Quote(value) + "]") == if Writable(syntax, value) then Some([value]) else None
  {
    var s := Quote(value) + "]";
    ReadQuoted(syntax, value, "]");
    assert s[1..] == Body(value) + "\"" + "]";
  }

  lemma ReadAfterItem(syntax: Syntax, s: string, text: string, rest: string, tail: string)
    requires s != "" && s[0] == '"' && ReadBody(syntax, s[1..]) == Some(Quoting.Read(text, rest))
    requires |rest| < |s| && rest == ", " + tail
    ensures ReadItems(syntax, s) == match ReadItems(syntax, tail) case None => None case Some(values) => Some([text] + values)
  {
    assert rest[0] == ',' && rest[1] == ' ' && rest[2..] == tail;
  }

  lemma ReadOneMoreItem(syntax: Syntax, value: string, tail: string)
    ensures ReadItems(syntax, Quote(value) + ", " + tail)
         == if !Writable(syntax, value) then None
            else match ReadItems(syntax, tail) case None => None case Some(values) => Some([value] + values)
  {
    var s := Quote(value) + ", " + tail;
    var rest := ", " + tail;
    ReadQuoted(syntax, value, rest);
    assert s[1..] == Body(value) + "\"" + rest;
    if Writable(syntax, value) {
      ReadAfterItem(syntax, s, value, rest, tail);
    }
  }

  lemma {:induction false} ReadPrintedItems(syntax: Syntax, values: seq<string>)
    requires |values| > 0
    ensures ReadItems(syntax, PrintItems(values) + "]") == if AllWritable(syntax, values) then Some(values) else None
  {
    assert values == [values[0]] + values[1..];
    if |values| == 1 {
      ReadLastItem(syntax, values[0]);
      assert values == [values[0]];
    } else {
      var tail := PrintItems(values[1..]) + "]";
      ReadPrintedItems(syntax, values[1..]);
      ReadOneMoreItem(syntax, values[0], tail);
      assert PrintItems(values) + "]" == Quote(values[0]) + ", " + tail;
    }
  }

  lemma {:induction false} ItemsStart(values: seq<string>)
    requires |values| > 0
    ensures PrintItems(values) != "" && PrintItems(values)[0] == '"'
    ensures forall i | 0 <= i < |PrintItems(values)| :: PrintItems(values)[i] != '\n'
  {
    if |values| > 1 {
      ItemsStart(values[1..]);
    }
  }

  lemma ReadKeyed(syntax: Syntax, key: string, v: string)
    requires Bare(key)
    ensures ReadLine(syntax, key + " = " + v) == ReadValue(syntax, key, v)
  {
    var s := key + " = " + v;
    assert s == key + (" = " + v);
    KeyLengthOf(key, " = " + v);
    assert s[0] == key[0];
    assert s[|key|..|key| + 3] == " = ";
    assert s[..|key|] == key && s[|key| + 3..] == v;
  }

  lemma ReadPrintedNumber(syntax: Syntax, key: string, n: int)
    ensures ReadValue(syntax, key, Decimal.PrintInt(n)) == Some(Number(key, n))
  {
    Decimal.ReadPrintInt(n);
  }

  lemma ReadPrintedValue(syntax: Syntax, key: string, l: Line, v: string)
    requires WellFormedLine(l)
    requires (l.Quoted? && l.key == key && v == Quote(l.value))
          || (l.Number? && l.key == key && v == Decimal.PrintInt(l.n))
          || (l.List? && l.key == key && v == "[" + PrintItems(l.values) + "]")
    ensures ReadValue(syntax, key, v) == if LineWritable(syntax, l) then Some(l) else None
  {
    match l
    case Quoted(_, value) =>
      ReadQuoted(syntax, value, "");
      assert v[1..] == Body(value) + "\"" + "";
    case Number(_, n) => ReadPrintedNumber(syntax, key, n);
    case List(_, values) =>
      ReadPrintedItems(syntax, values);
      assert v[1..] == PrintItems(values) + "]";
    case _ =>
  }

  /** A printed line reads back as the line, if its strings can be read. */
  lemma ReadPrintedLine(syntax: Syntax, l: Line)
    requires WellFormedLine(l)
    ensures ReadLine(syntax, PrintLine(l)) == if LineWritable(syntax, l) then Some(l) else None
  {
    match l
    case Blank =>
    case Header(title) =>
    case Quoted(key, value) =>
      ReadKeyed(syntax, key, Quote(value));
      ReadPrintedValue(syntax, key, l, Quote(value));
    case Number(key, n) =>
      ReadKeyed(syntax, key, Decimal.PrintInt(n));
      ReadPrintedValue(syntax, key, l, Decimal.PrintInt(n));
    case List(key, values) =>
      var v := "[" + PrintItems(values) + "]";
      assert PrintLine(l) == key + " = " + v;
      ReadKeyed(syntax, key, v);
      ReadPrintedValue(syntax, key, l, v);
  }

  lemma PrintedIntHasNoBreak(n: int)
    ensures forall i | 0 <= i < |Decimal.PrintInt(n)| :: Decimal.PrintInt(n)[i] != '\n'
  {
    var p := Decimal.PrintInt(n);
    if n < 0 {
      assert forall i | 0 < i < |p| :: p[i] == p[1..][i - 1] && Decimal.IsDigit(p[1..][i - 1]);
    }
  }

  lemma PrintedLineHasNoBreak(l: Line)
    requires WellFormedLine(l)
    ensures forall i | 0 <= i < |PrintLine(l)| :: PrintLine(l)[i] != '\n'
  {
    match l
    case Number(_, n) => PrintedIntHasNoBreak(n);
    case List(_, values) => ItemsStart(values);
    case _ =>
  }

  lemma {:induction false} LineLengthOf(line: string, rest: string)
    requires forall i | 0 <= i < |line| :: line[i] != '\n'
    ensures LineLength(line + "\n" + rest) == |line|
  {
    var s := line + "\n" + rest;
    if line != "" {
      assert s[1..] == line[1..] + "\n" + rest;
      LineLengthOf(line[1..], rest);
    }
  }

  /** A well-formed document reads back from its text exactly when every string in it can be read. */
  lemma {:induction false} ReadPrintedDoc(syntax: Syntax, d: Doc)
    requires WellFormedDoc(d)
    ensures ReadDoc(syntax, PrintDoc(d)) == if DocWritable(syntax, d) then Some(d) else None
  {
    if d.Then? {
      var line, rest := PrintLine(d.line), PrintDoc(d.rest);
      PrintedLineHasNoBreak(d.line);
      LineLengthOf(line, rest);
      ReadPrintedLine(syntax, d.line);
      ReadPrintedDoc(syntax, d.rest);
      var s := line + "\n" + rest;
      assert s[..|line|] == line && s[|line| + 1..] == rest;
    }
  }
}
