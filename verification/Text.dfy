/** The parts of Go's `strings` package the services use, on ASCII text. */
module Text {

  // ---------- white space and case ----------

  predicate IsSpace(c: char) {
    c == ' ' || '\t' <= c <= '\r'
  }

  function TrimLeft(s: string): (r: string)
    ensures |r| <= |s|
    ensures r == "" || !IsSpace(r[0])
    ensures s != "" && !IsSpace(s[0]) ==> r == s
  {
    if s != "" && IsSpace(s[0]) then TrimLeft(s[1..]) else s
  }

  function TrimRight(s: string): (r: string)
    ensures r <= s
    ensures r == "" || !IsSpace(r[|r| - 1])
    ensures s != "" && !IsSpace(s[|s| - 1]) ==> r == s
  {
    if s != "" && IsSpace(s[|s| - 1]) then TrimRight(s[..|s| - 1]) else s
  }

  /** strings.TrimSpace: the result has no space at either end, and a text without one is unchanged. */
  function TrimSpace(s: string): (r: string)
    ensures r == "" || (!IsSpace(r[0]) && !IsSpace(r[|r| - 1]))
    ensures s == "" || (!IsSpace(s[0]) && !IsSpace(s[|s| - 1])) ==> r == s
  {
    TrimRight(TrimLeft(s))
  }

  function LowerChar(c: char): char {
    if 'A' <= c <= 'Z' then c + ' ' else c
  }

  /** strings.ToLower, character by character. */
  function Lower(s: string): (r: string)
    ensures |r| == |s|
    ensures forall i | 0 <= i < |s| :: r[i] == LowerChar(s[i])
  {
    seq(|s|, i requires 0 <= i < |s| => LowerChar(s[i]))
  }

  predicate EqualFold(a: string, b: string) {
    Lower(a) == Lower(b)
  }

  lemma LowerIdempotent(s: string)
    ensures Lower(Lower(s)) == Lower(s)
  {
  }

  lemma LowerConcat(a: string, b: string)
    ensures Lower(a + b) == Lower(a) + Lower(b)
  {
  }

  predicate HasSuffix(s: string, suffix: string) {
    |suffix| <= |s| && s[|s| - |suffix|..] == suffix
  }

  predicate HasPrefix(s: string, prefix: string) {
    prefix <= s
  }

  function TrimSuffix(s: string, suffix: string): (r: string)
    ensures HasSuffix(s, suffix) ==> r + suffix == s
    ensures !HasSuffix(s, suffix) ==> r == s
  {
    if HasSuffix(s, suffix) then s[..|s| - |suffix|] else s
  }

  /** strings.Contains */
  predicate Contains(s: string, part: string) {
    part <= s || (s != "" && Contains(s[1..], part))
  }

  /** strings.ContainsAny */
  predicate ContainsAny(s: string, chars: string) {
    exists i | 0 <= i < |s| :: s[i] in chars
  }

  predicate Spaces(s: string) {
    forall i | 0 <= i < |s| :: IsSpace(s[i])
  }

  /** TrimLeft drops the spaces in front, all of them and nothing else. */
  lemma {:induction false} TrimLeftDrops(s: string) returns (gap: string)
    ensures Spaces(gap) && s == gap + TrimLeft(s)
  {
    if s != "" && IsSpace(s[0]) {
      var more := TrimLeftDrops(s[1..]);
      gap := [s[0]] + more;
      assert s == [s[0]] + s[1..];
    } else {
      gap := "";
    }
  }

  lemma {:induction false} TrimLeftOf(gap: string, s: string)
    requires Spaces(gap) && s != "" && !IsSpace(s[0])
    ensures TrimLeft(gap + s) == s
  {
    if gap == "" {
      assert gap + s == s;
    } else {
      TrimLeftOf(gap[1..], s);
      assert (gap + s)[1..] == gap[1..] + s;
    }
  }

  // ---------- separators ----------

  predicate Free(s: string, sep: char) {
    sep !in s
  }

  function Split(s: string, sep: char): (parts: seq<string>)
    ensures |parts| >= 1
  {
    if s == "" then [""]
    else
      var rest := Split(s[1..], sep);
      if s[0] == sep then [""] + rest else [[s[0]] + rest[0]] + rest[1..]
  }

  function Join(parts: seq<string>, sep: char): string {
    if |parts| == 0 then ""
    else if |parts| == 1 then parts[0]
    else parts[0] + [sep] + Join(parts[1..], sep)
  }

  lemma {:induction false} SplitOne(a: string, sep: char)
    requires Free(a, sep)
    ensures Split(a, sep) == [a]
  {
    if a != "" {
      SplitOne(a[1..], sep);
      assert a == [a[0]] + a[1..];
    }
  }

  lemma {:induction false} SplitFirst(a: string, rest: string, sep: char)
    requires Free(a, sep)
    ensures Split(a + [sep] + rest, sep) == [a] + Split(rest, sep)
  {
    var s := a + [sep] + rest;
    if a == "" {
      assert s[1..] == rest;
    } else {
      SplitFirst(a[1..], rest, sep);
      assert s[1..] == a[1..] + [sep] + rest;
      assert a == [a[0]] + a[1..];
    }
  }

  /** Splitting undoes joining whenever no part holds the separator. */
  lemma {:induction false} SplitJoin(parts: seq<string>, sep: char)
    requires |parts| >= 1
    requires forall p | p in parts :: Free(p, sep)
    ensures Split(Join(parts, sep), sep) == parts
  {
    if |parts| == 1 {
      SplitOne(parts[0], sep);
      assert parts == [parts[0]];
    } else {
      SplitJoin(parts[1..], sep);
      SplitFirst(parts[0], Join(parts[1..], sep), sep);
      assert parts == [parts[0]] + parts[1..];
    }
  }

  /** Joined lists of separator-free parts are equal only when the lists are. */
  lemma JoinInjective(a: seq<string>, b: seq<string>, sep: char)
    requires |a| >= 1 && |b| >= 1
    requires forall p | p in a :: Free(p, sep)
    requires forall p | p in b :: Free(p, sep)
    ensures Join(a, sep) == Join(b, sep) <==> a == b
  {
    SplitJoin(a, sep);
    SplitJoin(b, sep);
  }

  // ---------- texts built from the left ----------

  /** The parts with one more character at the end of the last. */
  function Extended(parts: seq<string>, c: char): seq<string>
    requires parts != []
  {
    parts[..|parts| - 1] + [parts[|parts| - 1] + [c]]
  }

  /** One more character in front: a part of its own for a separator, else the first letter of the first part. */
  function Fronted(c: char, parts: seq<string>, sep: char): seq<string>
    requires parts != []
  {
    if c == sep then [""] + parts else [[c] + parts[0]] + parts[1..]
  }

  lemma SplitStep(c: char, s: string, sep: char)
    ensures Split([c] + s, sep) == Fronted(c, Split(s, sep), sep)
  {
    assert ([c] + s)[1..] == s;
  }

  lemma ExtendedLast(front: seq<string>, last: string, c: char)
    ensures Extended(front + [last], c) == front + [last + [c]]
  {
  }

  lemma FrontedLast(c0: char, front: seq<string>, last: string, sep: char)
    ensures Fronted(c0, front + [last], sep)
         == if c0 == sep then [""] + front + [last]
            else if front == [] then [[c0] + last]
            else [[c0] + front[0]] + front[1..] + [last]
  {
    assert front == [] ==> front + [last] == [last];
    assert front != [] ==> (front + [last])[1..] == front[1..] + [last];
  }

  lemma FrontedExtended(c0: char, parts: seq<string>, c: char, sep: char)
    requires parts != []
    ensures Fronted(c0, Extended(parts, c), sep) == Extended(Fronted(c0, parts, sep), c)
    ensures Fronted(c0, parts + [""], sep) == Fronted(c0, parts, sep) + [""]
  {
    var front, last := parts[..|parts| - 1], parts[|parts| - 1];
    assert parts == front + [last];
    FrontedLast(c0, front, last, sep);
    FrontedLast(c0, front, last + [c], sep);
    FrontedLast(c0, parts, "", sep);
    if c0 == sep {
      ExtendedLast([""] + front, last, c);
    } else if front == [] {
      ExtendedLast([], [c0] + last, c);
      assert [] + [[c0] + last] == [[c0] + last];
      assert [c0] + last + [c] == [c0] + (last + [c]);
    } else {
      ExtendedLast([[c0] + front[0]] + front[1..], last, c);
    }
  }

  lemma {:induction false} SplitGrows(s: string, c: char, sep: char)
    ensures Split(s + [c], sep) == if c == sep then Split(s, sep) + [""] else Extended(Split(s, sep), c)
  {
    if s == "" {
      assert s + [c] == [c] + "";
      SplitStep(c, "", sep);
    } else {
      var c0, t := s[0], s[1..];
      assert s == [c0] + t && s + [c] == [c0] + (t + [c]);
      SplitGrows(t, c, sep);
      SplitStep(c0, t, sep);
      SplitStep(c0, t + [c], sep);
      FrontedExtended(c0, Split(t, sep), c, sep);
    }
  }

  lemma {:induction false} SplitPartsFree(s: string, sep: char)
    ensures forall p | p in Split(s, sep) :: Free(p, sep)
  {
    if s != "" {
      SplitPartsFree(s[1..], sep);
      var rest := Split(s[1..], sep);
      forall p | p in Split(s, sep) ensures Free(p, sep) {
        assert rest[0] in rest;
        if s[0] == sep {
          assert p == "" || p in rest;
        } else {
          assert p == [s[0]] + rest[0] || p in rest[1..];
        }
      }
    }
  }

  lemma {:induction false} JoinGrows(parts: seq<string>, p: string, sep: char)
    ensures Join(parts + [p], sep) == if parts == [] then p else Join(parts, sep) + [sep] + p
  {
    if |parts| == 0 {
      assert parts + [p] == [p];
    } else {
      var more := parts + [p];
      assert more[1..] == parts[1..] + [p];
      JoinGrows(parts[1..], p, sep);
      assert |parts| == 1 ==> parts[1..] == [];
    }
  }
}
