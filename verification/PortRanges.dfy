/** Allowed-port lists: the web form's printer and parser (web/src/pages/client/Nodes.tsx) and the
    client service's normalisation of what it receives. */
module PortRanges {
  import opened Text
  import opened Decimal
  import opened Order
  import opened Validate

  // ---------- the form ----------

  function FormatRange(r: PortRange): string {
    PrintInt(r.from) + "-" + PrintInt(r.to)
  }

  function FormatRanges(rs: seq<PortRange>): string {
    if |rs| == 0 then ""
    else if |rs| == 1 then FormatRange(rs[0])
    else FormatRange(rs[0]) + "\n" + FormatRanges(rs[1..])
  }

  predicate IsBreak(c: char) { c == '\n' || c == ',' }

  function SkipBreaks(s: string): (r: string)
    ensures |r| <= |s|
  {
    if s != "" && IsBreak(s[0]) then SkipBreaks(s[1..]) else s
  }

  /** split(/[\n,]+/): a run of breaks separates two pieces. */
  function Pieces(s: string): (ps: seq<string>)
    ensures |ps| >= 1
    decreases |s|
  {
    if s == "" then [""]
    else if IsBreak(s[0]) then [""] + Pieces(SkipBreaks(s[1..]))
    else
      var ps := Pieces(s[1..]);
      [[s[0]] + ps[0]] + ps[1..]
  }

  function LeadingDigits(s: string): (n: nat)
    ensures n <= |s|
    ensures forall i | 0 <= i < n :: IsDigit(s[i])
    ensures n < |s| ==> !IsDigit(s[n])
  {
    if s != "" && IsDigit(s[0]) then LeadingDigits(s[1..]) + 1 else 0
  }

  datatype Parsed<+T> = Absent | Value(value: T) | Malformed

  /** What follows a dash that may stand among spaces. */
  function Second(rest: string): string {
    var dash := TrimLeft(rest);
    if dash != "" && dash[0] == '-' then TrimLeft(dash[1..]) else ""
  }

  /** /^(\d+)(?:\s*-\s*(\d+))?$/ and the bounds check. */
  function ParseRange(piece: string): (r: Parsed<PortRange>)
    ensures r.Value? ==> ValidRange(r.value)
  {
    var t := TrimSpace(piece);
    var n := LeadingDigits(t);
    if n == 0 then Malformed
    else
      var from := DigitsValue(t[..n]);
      var second := Second(t[n..]);
      if n < |t| && !Digits(second) then Malformed
      else
        var to := if n == |t| then from else DigitsValue(second);
        if from < 1024 || from > 65535 || to < 1024 || to > 65535 || from > to then Malformed
        else Value(PortRange(from, to))
  }

  /** One port, or two with a dash between them that may stand among spaces. */
  ghost predicate Denotes(t: string, r: PortRange) {
    || (Digits(t) && DigitsValue(t) == r.from && r.to == r.from)
    || exists a, gap, gap', b :: DenotesPair(t, a, gap, gap', b, r)
  }

  ghost predicate DenotesPair(t: string, a: string, gap: string, gap': string, b: string, r: PortRange) {
    && t == a + gap + "-" + gap' + b && Digits(a) && Digits(b) && Spaces(gap) && Spaces(gap')
    && DigitsValue(a) == r.from && DigitsValue(b) == r.to
  }

  lemma SecondOf(gap: string, gap': string, b: string)
    requires Spaces(gap) && Spaces(gap') && Digits(b)
    ensures Second(gap + "-" + gap' + b) == b
  {
    var dash := "-" + gap' + b;
    assert gap + "-" + gap' + b == gap + dash;
    TrimLeftOf(gap, dash);
    assert dash[1..] == gap' + b;
    TrimLeftOf(gap', b);
  }

  lemma SecondSplits(rest: string) returns (gap: string, gap': string)
    requires Second(rest) != ""
    ensures Spaces(gap) && Spaces(gap') && rest == gap + "-" + gap' + Second(rest)
  {
    var dash := TrimLeft(rest);
    gap := TrimLeftDrops(rest);
    gap' := TrimLeftDrops(dash[1..]);
    DashAgain(rest, gap, dash, gap', Second(rest));
  }

  lemma DashAgain(rest: string, gap: string, dash: string, gap': string, b: string)
    requires rest == gap + dash && dash != "" && dash[0] == '-' && dash[1..] == gap' + b
    ensures rest == gap + "-" + gap' + b
  {
    assert dash == "-" + (gap' + b);
  }

  lemma ParsedDenotes(piece: string, r: PortRange)
    requires ParseRange(piece) == Value(r)
    ensures Denotes(TrimSpace(piece), r)
  {
    var t := TrimSpace(piece);
    var n := LeadingDigits(t);
    if n == |t| {
      assert t[..n] == t;
    } else {
      var gap, gap' := SecondSplits(t[n..]);
      assert t == t[..n] + t[n..];
      assert t == t[..n] + gap + "-" + gap' + Second(t[n..]);
      assert DenotesPair(t, t[..n], gap, gap', Second(t[n..]), r);
    }
  }

  lemma OneParses(piece: string, r: PortRange)
    requires Digits(TrimSpace(piece)) && DigitsValue(TrimSpace(piece)) == r.from && r.to == r.from && 1024 <= r.from <= 65535
    ensures ParseRange(piece) == Value(r)
  {
    var t := TrimSpace(piece);
    LeadingDigitsOf(t, "");
    assert t + "" == t && t[..|t|] == t;
  }

  lemma PairParses(piece: string, a: string, gap: string, gap': string, b: string, r: PortRange)
    requires DenotesPair(TrimSpace(piece), a, gap, gap', b, r) && 1024 <= r.from <= r.to <= 65535
    ensures ParseRange(piece) == Value(r)
  {
    var t := TrimSpace(piece);
    var rest := gap + "-" + gap' + b;
    assert t == a + rest;
    assert gap != "" ==> rest[0] == gap[0];
    LeadingDigitsOf(a, rest);
    assert t[..|a|] == a && t[|a|..] == rest;
    SecondOf(gap, gap', b);
  }

  /** The form accepts a piece exactly when it denotes a range of user ports, and then as that range. */
  lemma ParseRangeIff(piece: string, r: PortRange)
    ensures ParseRange(piece) == Value(r) <==>
              Denotes(TrimSpace(piece), r) && 1024 <= r.from <= r.to <= 65535
  {
    var t := TrimSpace(piece);
    if ParseRange(piece) == Value(r) {
      ParsedDenotes(piece, r);
    }
    if Denotes(t, r) && 1024 <= r.from <= r.to <= 65535 {
      if Digits(t) && DigitsValue(t) == r.from && r.to == r.from {
        OneParses(piece, r);
      } else {
        var a, gap, gap', b :| DenotesPair(t, a, gap, gap', b, r);
        PairParses(piece, a, gap, gap', b, r);
      }
    }
  }

  function ParsePieces(ps: seq<string>): (r: Parsed<seq<PortRange>>)
    ensures r.Value? ==> |r.value| == |ps| && ValidRanges(r.value)
    ensures !r.Absent?
  {
    if ps == [] then Value([])
    else
      var first := ParseRange(ps[0]);
      var rest := ParsePieces(ps[1..]);
      if first.Value? && rest.Value? then Value([first.value] + rest.value) else Malformed
  }

  /** parsePortRanges. Whatever it accepts passes the services' own validation. */
  function ParseRanges(value: string): (r: Parsed<seq<PortRange>>)
    ensures r.Value? ==> |r.value| >= 1 && ValidRanges(r.value)
    ensures r.Absent? <==> TrimSpace(value) == ""
  {
    var raw := TrimSpace(value);
    if raw == "" then Absent else ParsePieces(Pieces(raw))
  }

  /** The form accepts a text exactly when each of its pieces between commas and line breaks denotes a range. */
  lemma {:induction false} ParsePiecesIff(ps: seq<string>, rs: seq<PortRange>)
    ensures ParsePieces(ps) == Value(rs) <==>
              |rs| == |ps| && forall i | 0 <= i < |ps| :: Denotes(TrimSpace(ps[i]), rs[i]) && 1024 <= rs[i].from <= rs[i].to <= 65535
  {
    if ps == [] {
      assert rs == [] <==> |rs| == 0;
    } else if rs != [] {
      ParsePiecesIff(ps[1..], rs[1..]);
      ParseRangeIff(ps[0], rs[0]);
      assert rs == [rs[0]] + rs[1..];
      if |rs| == |ps| && forall i | 0 <= i < |ps[1..]| :: Denotes(TrimSpace(ps[1..][i]), rs[1..][i]) && 1024 <= rs[1..][i].from <= rs[1..][i].to <= 65535 {
        forall i | 1 <= i < |ps| ensures Denotes(TrimSpace(ps[i]), rs[i]) && 1024 <= rs[i].from <= rs[i].to <= 65535 {
          assert ps[1..][i - 1] == ps[i] && rs[1..][i - 1] == rs[i];
        }
      }
    }
  }

  // ---------- the round trip ----------

  lemma {:induction false} LeadingDigitsOf(d: string, rest: string)
    requires forall i | 0 <= i < |d| :: IsDigit(d[i])
    requires rest == "" || !IsDigit(rest[0])
    ensures LeadingDigits(d + rest) == |d|
  {
    if d != "" {
      assert (d + rest)[1..] == d[1..] + rest;
      LeadingDigitsOf(d[1..], rest);
    } else {
      assert d + rest == rest;
    }
  }

  lemma FormattedShape(r: PortRange)
    requires ValidRange(r)
    ensures var s := FormatRange(r);
            s != "" && IsDigit(s[0]) && IsDigit(s[|s| - 1]) && forall i | 0 <= i < |s| :: IsDigit(s[i]) || s[i] == '-'
  {
    var a, b := PrintInt(r.from), PrintInt(r.to);
    assert FormatRange(r) == a + "-" + b;
  }

  lemma ParseFormatted(r: PortRange)
    requires ValidRange(r)
    ensures ParseRange(FormatRange(r)) == Value(r)
  {
    var a, b := PrintInt(r.from), PrintInt(r.to);
    FormattedShape(r);
    PrintNatValue(r.from);
    PrintNatValue(r.to);
    assert FormatRange(r) == a + "" + "-" + "" + b;
    PairParses(FormatRange(r), a, "", "", b, r);
  }

  lemma {:induction false} SkipRun(run: string, rest: string)
    requires forall i | 0 <= i < |run| :: run[i] == ',' || run[i] == '\n'
    requires rest == "" || (rest[0] != ',' && rest[0] != '\n')
    ensures SkipBreaks(run + rest) == rest
  {
    if run == "" {
      assert run + rest == rest;
    } else {
      SkipRun(run[1..], rest);
      assert (run + rest)[1..] == run[1..] + rest;
    }
  }

  /** Commas and line breaks, as many as there are, end a piece. */
  lemma {:induction false} PiecesSplit(a: string, run: string, rest: string)
    requires forall i | 0 <= i < |a| :: a[i] != ',' && a[i] != '\n'
    requires run != "" && forall i | 0 <= i < |run| :: run[i] == ',' || run[i] == '\n'
    requires rest == "" || (rest[0] != ',' && rest[0] != '\n')
    ensures Pieces(a + run + rest) == [a] + Pieces(rest)
  {
    var s := a + run + rest;
    if a == "" {
      assert s[0] == run[0] && s[1..] == run[1..] + rest;
      SkipRun(run[1..], rest);
    } else {
      PiecesSplit(a[1..], run, rest);
      assert s[1..] == a[1..] + run + rest;
      assert a == [a[0]] + a[1..];
    }
  }

  lemma PiecesFirst(a: string, rest: string)
    requires forall i | 0 <= i < |a| :: !IsBreak(a[i])
    requires rest != "" && !IsBreak(rest[0])
    ensures Pieces(a + "\n" + rest) == [a] + Pieces(rest)
  {
    PiecesSplit(a, "\n", rest);
  }

  lemma {:induction false} PiecesLast(a: string)
    requires forall i | 0 <= i < |a| :: !IsBreak(a[i])
    ensures Pieces(a) == [a]
  {
    if a != "" {
      PiecesLast(a[1..]);
      assert a == [a[0]] + a[1..];
    }
  }

  lemma ParseCons(p: string, ps: seq<string>, r: PortRange, rs: seq<PortRange>)
    requires ParseRange(p) == Value(r) && ParsePieces(ps) == Value(rs)
    ensures ParsePieces([p] + ps) == Value([r] + rs)
  {
    assert ([p] + ps)[1..] == ps;
  }

  predicate DigitEnds(s: string) {
    s != "" && IsDigit(s[0]) && IsDigit(s[|s| - 1])
  }

  lemma {:induction false} FormattedEnds(rs: seq<PortRange>)
    requires |rs| >= 1 && ValidRanges(rs)
    ensures DigitEnds(FormatRanges(rs))
  {
    FormattedShape(rs[0]);
    if |rs| > 1 {
      FormattedEnds(rs[1..]);
    }
  }

  lemma ParseOneMore(r: PortRange, text: string, rs: seq<PortRange>)
    requires ValidRange(r) && DigitEnds(text) && ParsePieces(Pieces(text)) == Value(rs)
    ensures ParsePieces(Pieces(FormatRange(r) + "\n" + text)) == Value([r] + rs)
  {
    FormattedShape(r);
    ParseFormatted(r);
    PiecesFirst(FormatRange(r), text);
    ParseCons(FormatRange(r), Pieces(text), r, rs);
  }

  lemma ParseOnly(r: PortRange)
    requires ValidRange(r)
    ensures ParsePieces(Pieces(FormatRange(r))) == Value([r])
  {
    FormattedShape(r);
    ParseFormatted(r);
    PiecesLast(FormatRange(r));
    var ps := Pieces(FormatRange(r));
    var none := ps[1..];
    assert none == [];
    ParseCons(ps[0], none, r, []);
    assert ps == [ps[0]] + none;
    assert [r] + [] == [r];
  }

  lemma {:induction false} ParsePiecesOfFormatted(rs: seq<PortRange>)
    requires |rs| >= 1 && ValidRanges(rs)
    ensures ParsePieces(Pieces(FormatRanges(rs))) == Value(rs)
  {
    assert ValidRange(rs[0]);
    assert rs == [rs[0]] + rs[1..];
    if |rs| == 1 {
      ParseOnly(rs[0]);
    } else {
      ParsePiecesOfFormatted(rs[1..]);
      FormattedEnds(rs[1..]);
      ParseOneMore(rs[0], FormatRanges(rs[1..]), rs[1..]);
    }
  }

  lemma ParseUntrimmed(text: string)
    requires DigitEnds(text)
    ensures ParseRanges(text) == ParsePieces(Pieces(text))
  {
    assert TrimSpace(text) == text;
  }

  /** The form reads back every nonempty list of valid ranges that it prints, in the same order. */
  lemma ParseFormatRoundTrip(rs: seq<PortRange>)
    requires |rs| >= 1 && ValidRanges(rs)
    ensures ParseRanges(FormatRanges(rs)) == Value(rs)
  {
    FormattedEnds(rs);
    ParseUntrimmed(FormatRanges(rs));
    ParsePiecesOfFormatted(rs);
  }

  // ---------- the service ----------

  predicate RangeLe(a: PortRange, b: PortRange) {
    if a.from == b.from then a.to <= b.to else a.from <= b.from
  }

  /** normalizePortRanges: a copy sorted by lower and then upper bound. */
  function NormalizeRanges(rs: seq<PortRange>): seq<PortRange> {
    Sort(rs, RangeLe)
  }

  /** An empty list allows every port. */
  predicate RemotePortAllowed(port: int, rs: seq<PortRange>) {
    |rs| == 0 || InSomeRange(port, rs)
  }

  /** Normalising permutes and orders the list, depends only on its contents, and changes neither its
      validity nor which ports it allows. */
  lemma NormalizePreserves(rs: seq<PortRange>, port: int)
    ensures multiset(NormalizeRanges(rs)) == multiset(rs)
    ensures var ns := NormalizeRanges(rs);
            forall i, j | 0 <= i < j < |ns| :: ns[i].from < ns[j].from || (ns[i].from == ns[j].from && ns[i].to <= ns[j].to)
    ensures RemotePortAllowed(port, NormalizeRanges(rs)) <==> RemotePortAllowed(port, rs)
    ensures ValidRanges(NormalizeRanges(rs)) <==> ValidRanges(rs)
  {
    var ns := NormalizeRanges(rs);
    SortMultiset(rs, RangeLe);
    SortMembers(rs, RangeLe);
    SortSorted(rs, RangeLe);
    if i :| 0 <= i < |rs| && rs[i].from <= port <= rs[i].to {
      assert rs[i] in ns;
    }
    if i :| 0 <= i < |ns| && ns[i].from <= port <= ns[i].to {
      assert ns[i] in rs;
    }
    assert ValidRanges(ns) <==> (forall r | r in ns :: ValidRange(r));
    assert ValidRanges(rs) <==> (forall r | r in rs :: ValidRange(r));
  }
}
