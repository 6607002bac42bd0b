/** Web domains of http rules and the ids derived from free text
    (internal/client/service.go, resolveWebDomain, validateWebRule, sanitizeSubdomain, sanitizeNodeID). */
module WebDomain {
  import opened Wrappers
  import opened Text
  import opened Validate

  predicate IsLowerAlnum(c: char) { 'a' <= c <= 'z' || '0' <= c <= '9' }

  /** ^[a-z0-9](?:[a-z0-9-]{0,61}[a-z0-9])?$ */
  predicate Label(s: string) {
    && 1 <= |s| <= 63 && IsLowerAlnum(s[0]) && IsLowerAlnum(s[|s| - 1])
    && forall i | 0 <= i < |s| :: IsLowerAlnum(s[i]) || s[i] == '-'
  }

  // ---------- sanitizing ----------

  predicate IsJoiner(c: char) { c == '-' || c == '_' || c == ' ' || c == '.' }

  predicate EndsWithDash(b: string) { b != "" && b[|b| - 1] == '-' }

  function Squeeze(s: string): (b: string)
    ensures |b| <= |s|
  {
    if s == "" then ""
    else
      var b := Squeeze(s[..|s| - 1]);
      var c := s[|s| - 1];
      if IsLowerAlnum(c) then b + [c]
      else if IsJoiner(c) && b != "" && !EndsWithDash(b) then b + "-"
      else b
  }

  function TrimRightDashes(s: string): (r: string)
    ensures r <= s
    ensures !EndsWithDash(r)
    ensures !EndsWithDash(s) ==> r == s
  {
    if EndsWithDash(s) then TrimRightDashes(s[..|s| - 1]) else s
  }

  function TrimLeftDashes(s: string): (r: string)
    ensures |r| <= |s|
    ensures s == "" || s[0] != '-' ==> r == s
  {
    if s != "" && s[0] == '-' then TrimLeftDashes(s[1..]) else s
  }

  function Cut(s: string, max: nat): (r: string)
    ensures |r| <= max
  {
    var out := TrimRightDashes(TrimLeftDashes(s));
    if |out| > max then TrimRightDashes(out[..max]) else out
  }

  function SanitizeSubdomain(v: string): (r: string)
    ensures r == "" || Label(r)
  {
    var out := Cut(Squeeze(Lower(TrimSpace(v))), 63);
    if Label(out) then out else ""
  }

  /** The source's loop over the runes, with its two running variables. */
  method SqueezeLoop(v: string) returns (b: string)
    ensures b == Squeeze(v)
  {
    b := "";
    var lastDash := false;
    for i := 0 to |v|
      invariant b == Squeeze(v[..i]) && lastDash == EndsWithDash(b)
    {
      assert v[..i + 1][..i] == v[..i];
      var r := v[i];
      if IsLowerAlnum(r) {
        b := b + [r];
        lastDash := false;
      } else if IsJoiner(r) && |b| > 0 && !lastDash {
        b := b + "-";
        lastDash := true;
      }
    }
    assert v[..|v|] == v;
  }

  /** Starts with a letter or digit and holds single dashes only: what squeezing leaves. */
  predicate Squeezed(b: string) {
    && (b != "" ==> IsLowerAlnum(b[0]))
    && (forall i | 0 <= i < |b| :: IsLowerAlnum(b[i]) || b[i] == '-')
    && (forall i | 0 < i < |b| :: b[i] == '-' ==> b[i - 1] != '-')
  }

  predicate HasLowerAlnum(s: string) {
    exists i | 0 <= i < |s| :: IsLowerAlnum(s[i])
  }

  lemma {:induction false} SqueezeShape(s: string)
    ensures Squeezed(Squeeze(s))
    ensures Squeeze(s) != "" <==> HasLowerAlnum(s)
  {
    if s != "" {
      var t, c := s[..|s| - 1], s[|s| - 1];
      SqueezeShape(t);
      if HasLowerAlnum(t) {
        var i :| 0 <= i < |t| && IsLowerAlnum(t[i]);
        assert IsLowerAlnum(s[i]);
      } else if HasLowerAlnum(s) {
        assert forall k | 0 <= k < |t| :: t[k] == s[k] && !IsLowerAlnum(t[k]);
        assert IsLowerAlnum(c);
      }
    }
  }

  lemma {:induction false} SqueezeFixed(b: string)
    requires Squeezed(b)
    ensures Squeeze(b) == b
  {
    if b != "" {
      SqueezeFixed(b[..|b| - 1]);
      assert b == b[..|b| - 1] + [b[|b| - 1]];
    }
  }

  lemma {:induction false} TrimKeepsFirst(s: string)
    requires s != "" && s[0] != '-'
    ensures TrimRightDashes(s) != ""
  {
    if EndsWithDash(s) {
      TrimKeepsFirst(s[..|s| - 1]);
    }
  }

  lemma CutShape(b: string, max: nat)
    requires Squeezed(b) && max >= 1
    ensures Squeezed(Cut(b, max)) && !EndsWithDash(Cut(b, max))
    ensures Cut(b, max) != "" <==> b != ""
    ensures |b| <= max && !EndsWithDash(b) ==> Cut(b, max) == b
  {
    if b != "" {
      TrimKeepsFirst(b);
      var out := TrimRightDashes(b);
      if |out| > max {
        TrimKeepsFirst(out[..max]);
      }
    }
  }

  /** A squeezed text without a dash at its end goes through the sanitizer unchanged. */
  lemma CleanFixed(r: string, max: nat)
    requires Squeezed(r) && !EndsWithDash(r) && |r| <= max && max >= 1
    ensures Cut(Squeeze(Lower(TrimSpace(r))), max) == r
  {
    assert TrimSpace(r) == r && Lower(r) == r;
    SqueezeFixed(r);
    CutShape(r, max);
  }

  lemma CleanOfAny(v: string, max: nat)
    requires max >= 1
    ensures var r := Cut(Squeeze(Lower(TrimSpace(v))), max);
            && Squeezed(r) && !EndsWithDash(r) && |r| <= max
            && (r != "" <==> HasLowerAlnum(Lower(TrimSpace(v))))
  {
    var s := Lower(TrimSpace(v));
    SqueezeShape(s);
    CutShape(Squeeze(s), max);
  }

  /** An ASCII text yields a label exactly when it holds a letter or digit; the result is a squeezed
      label, and sanitizing it again changes nothing. */
  lemma SanitizeSubdomainMeaning(v: string)
    ensures SanitizeSubdomain(v) != "" <==> HasLowerAlnum(Lower(TrimSpace(v)))
    ensures SanitizeSubdomain(SanitizeSubdomain(v)) == SanitizeSubdomain(v)
  {
    CleanOfAny(v, 63);
    var r := Cut(Squeeze(Lower(TrimSpace(v))), 63);
    assert r != "" ==> Label(r);
    CleanFixed(r, 63);
  }

  // ---------- the words of a text ----------

  /** The letters and digits of a text, with a dash for every joiner; other characters vanish. */
  function Slugged(s: string): (r: string) {
    if s == "" then ""
    else
      var c := s[|s| - 1];
      Slugged(s[..|s| - 1]) + if 'a' <= c <= 'z' || '0' <= c <= '9' then [c] else if c in {'-', '_', ' ', '.'} then "-" else ""
  }

  function NonEmpty(parts: seq<string>): seq<string> {
    if parts == [] then []
    else
      var last := parts[|parts| - 1];
      NonEmpty(parts[..|parts| - 1]) + if last == "" then [] else [last]
  }

  /** What stands between joiners. */
  function Words(s: string): seq<string> {
    NonEmpty(Split(Slugged(s), '-'))
  }

  function LastPart(s: string): string {
    var parts := Split(Slugged(s), '-');
    parts[|parts| - 1]
  }

  function Dashes(words: seq<string>, open: bool): string {
    Join(words, '-') + if open && words != [] then "-" else ""
  }

  /** The words of a text joined by dashes, with one more dash when the last word is closed. */
  function Slug(s: string): string {
    Dashes(Words(s), LastPart(s) == "")
  }

  lemma NonEmptyGrows(parts: seq<string>, p: string)
    ensures NonEmpty(parts + [p]) == NonEmpty(parts) + if p == "" then [] else [p]
  {
    assert (parts + [p])[..|parts|] == parts;
  }

  lemma WordsOfLast(s: string)
    ensures LastPart(s) != "" ==> Words(s) != [] && Words(s)[|Words(s)| - 1] == LastPart(s)
    ensures Free(LastPart(s), '-')
  {
    var parts := Split(Slugged(s), '-');
    assert parts == parts[..|parts| - 1] + [LastPart(s)];
    NonEmptyGrows(parts[..|parts| - 1], LastPart(s));
    SplitPartsFree(Slugged(s), '-');
    assert LastPart(s) in parts;
  }

  lemma JoinEnds(words: seq<string>)
    requires words != [] && words[|words| - 1] != "" && Free(words[|words| - 1], '-')
    ensures Join(words, '-') != "" && !EndsWithDash(Join(words, '-'))
  {
    var front, last := words[..|words| - 1], words[|words| - 1];
    assert words == front + [last];
    JoinGrows(front, last, '-');
    LastIn(if front == [] then "" else Join(front, '-') + "-", last);
  }

  lemma LastIn(a: string, last: string)
    requires last != "" && Free(last, '-')
    ensures !EndsWithDash(a + last)
  {
    assert (a + last)[|a + last| - 1] == last[|last| - 1];
    assert last[|last| - 1] in last;
  }

  /** The open word stands after the closed ones. */
  lemma OpenWord(t: string, front: seq<string>, last: string)
    requires Split(Slugged(t), '-') == front + [last]
    ensures Slug(t) == Dashes(NonEmpty(front), true) + last
  {
    NonEmptyGrows(front, last);
    JoinGrows(NonEmpty(front), last, '-');
    assert last == "" ==> NonEmpty(front) + [] == NonEmpty(front);
  }

  lemma SluggedGrows(t: string, c: char)
    ensures Slugged(t + [c]) == Slugged(t) + if IsLowerAlnum(c) then [c] else if IsJoiner(c) then "-" else ""
  {
    assert (t + [c])[..|t|] == t;
  }

  lemma SqueezeGrows(t: string, c: char)
    ensures Squeeze(t + [c]) == if IsLowerAlnum(c) then Squeeze(t) + [c]
                                else if IsJoiner(c) && Squeeze(t) != "" && !EndsWithDash(Squeeze(t)) then Squeeze(t) + "-"
                                else Squeeze(t)
  {
    assert (t + [c])[..|t|] == t;
  }

  lemma WordGrows(t: string, s: string, front: seq<string>, last: string, c: char)
    requires Split(Slugged(t), '-') == front + [last] && Split(Slugged(s), '-') == front + [last + [c]]
    ensures Slug(s) == Slug(t) + [c]
  {
    var before := Dashes(NonEmpty(front), true);
    OpenWord(t, front, last);
    OpenWord(s, front, last + [c]);
    assert before + last + [c] == before + (last + [c]);
  }

  lemma SplitOfLetter(t: string, c: char)
    requires IsLowerAlnum(c)
    ensures Split(Slugged(t + [c]), '-') == Extended(Split(Slugged(t), '-'), c)
  {
    SluggedGrows(t, c);
    SplitGrows(Slugged(t), c, '-');
  }

  /** A letter or digit goes on with the open word or opens one. */
  lemma SlugOfLetter(t: string, c: char)
    requires IsLowerAlnum(c)
    ensures Slug(t + [c]) == Slug(t) + [c]
  {
    var parts := Split(Slugged(t), '-');
    SplitOfLetter(t, c);
    assert parts == parts[..|parts| - 1] + [parts[|parts| - 1]];
    WordGrows(t, t + [c], parts[..|parts| - 1], parts[|parts| - 1], c);
  }

  lemma SplitOfJoiner(t: string, c: char)
    requires IsJoiner(c)
    ensures Words(t + [c]) == Words(t) && LastPart(t + [c]) == ""
  {
    SluggedGrows(t, c);
    SplitGrows(Slugged(t), '-', '-');
    NonEmptyGrows(Split(Slugged(t), '-'), "");
  }

  /** A joiner closes the open word. */
  lemma SlugOfJoiner(t: string, c: char)
    requires IsJoiner(c)
    ensures Slug(t + [c]) == if Slug(t) != "" && !EndsWithDash(Slug(t)) then Slug(t) + "-" else Slug(t)
  {
    SplitOfJoiner(t, c);
    WordsOfLast(t);
    if LastPart(t) != "" {
      JoinEnds(Words(t));
    }
  }

  /** Squeezing gives the words of the text, a dash between each two, and one more when the last is closed. */
  lemma {:induction false} SqueezeIsWords(s: string)
    ensures Squeeze(s) == Slug(s)
  {
    if s == "" {
      assert Split(Slugged(s), '-') == [""];
      NonEmptyGrows([], "");
      assert [] + [""] == [""];
    } else {
      var t, c := s[..|s| - 1], s[|s| - 1];
      SqueezeIsWords(t);
      SqueezeGrows(t, c);
      assert s == t + [c];
      if IsLowerAlnum(c) {
        SlugOfLetter(t, c);
      } else if IsJoiner(c) {
        SlugOfJoiner(t, c);
      } else {
        SluggedGrows(t, c);
        assert Slugged(s) == Slugged(t);
      }
    }
  }

  lemma {:induction false} TrimsToWords(words: seq<string>, open: bool)
    requires words != [] ==> words[|words| - 1] != "" && Free(words[|words| - 1], '-')
    ensures TrimRightDashes(Dashes(words, open)) == Join(words, '-')
  {
    var joined := Join(words, '-');
    if words != [] {
      JoinEnds(words);
      if open {
        assert (joined + "-")[..|joined|] == joined;
      }
    }
  }

  lemma CutOfWords(s: string, max: nat)
    requires max >= 1
    ensures var joined := Join(Words(s), '-');
            Cut(Squeeze(s), max) == if |joined| <= max then joined else TrimRightDashes(joined[..max])
  {
    SqueezeIsWords(s);
    SqueezeShape(s);
    WordsNonEmpty(Split(Slugged(s), '-'));
    SplitPartsFree(Slugged(s), '-');
    if Words(s) != [] {
      assert Words(s)[|Words(s)| - 1] in Words(s);
    }
    TrimsToWords(Words(s), LastPart(s) == "");
  }

  lemma {:induction false} WordsNonEmpty(parts: seq<string>)
    ensures forall w | w in NonEmpty(parts) :: w != "" && w in parts
  {
    if parts != [] {
      WordsNonEmpty(parts[..|parts| - 1]);
    }
  }

  /** The label of a text: its words in lower case joined by dashes, cut to 63 characters. */
  lemma SanitizeSubdomainIsWords(v: string)
    ensures var joined := Join(Words(Lower(TrimSpace(v))), '-');
            SanitizeSubdomain(v) == if |joined| <= 63 then joined else TrimRightDashes(joined[..63])
  {
    var s := Lower(TrimSpace(v));
    CutOfWords(s, 63);
    CleanOfAny(v, 63);
    var out := Cut(Squeeze(s), 63);
    assert out != "" ==> Label(out);
  }

  /** sanitizeNodeID differs in the length bound and in the pattern, which wants two characters. */
  function SanitizeNodeId(v: string): (r: string)
    ensures r == "" || IdPattern(r, 2)
  {
    var out := Cut(Squeeze(Lower(TrimSpace(v))), 64);
    if IdPattern(out, 2) then out else ""
  }

  lemma SanitizeNodeIdMeaning(v: string)
    ensures SanitizeNodeId(v) != "" <==> |Cut(Squeeze(Lower(TrimSpace(v))), 64)| >= 2
    ensures SanitizeNodeId(SanitizeNodeId(v)) == SanitizeNodeId(v)
  {
    CleanOfAny(v, 64);
    var r := Cut(Squeeze(Lower(TrimSpace(v))), 64);
    assert |r| >= 2 ==> IdPattern(r, 2);
    CleanFixed(r, 64);
    CleanFixed("", 64);
  }

  /** The id of a name: its words in lower case joined by dashes, cut to 64 characters, if two are left. */
  lemma SanitizeNodeIdIsWords(v: string)
    ensures var joined := Join(Words(Lower(TrimSpace(v))), '-');
            var cut := if |joined| <= 64 then joined else TrimRightDashes(joined[..64]);
            SanitizeNodeId(v) == if |cut| >= 2 then cut else ""
  {
    var s := Lower(TrimSpace(v));
    CutOfWords(s, 64);
    CleanOfAny(v, 64);
    var out := Cut(Squeeze(s), 64);
    assert |out| >= 2 ==> IdPattern(out, 2);
  }

  // ---------- resolving ----------

  function NormalizeDomain(v: string): string {
    Lower(TrimSuffix(TrimSpace(v), "."))
  }

  predicate UnderBase(domain: string, base: string) {
    domain == base || HasSuffix(domain, "." + base)
  }

  function Dashed(id: string): (r: string)
    ensures |r| == |id|
    ensures forall i | 0 <= i < |id| :: r[i] == if id[i] == '_' then '-' else id[i]
  {
    seq(|id|, i requires 0 <= i < |id| => if id[i] == '_' then '-' else id[i])
  }

  datatype Web = Web(subdomain: string, domain: string)

  /** No domain was asked for: the first of subdomain, name and id that gives a label. */
  function Build(base: string, id: string, name: string, subdomain: string): Web {
    var named := if subdomain == "" then SanitizeSubdomain(name) else subdomain;
    var chosen := if named == "" then SanitizeSubdomain(Dashed(id)) else named;
    Web(chosen, chosen + "." + base)
  }

  /** A domain was asked for: it must lie under the base and match the subdomain, if any. */
  function Accept(base: string, subdomain: string, domain: string): Result<Web> {
    if !UnderBase(domain, base) then Err(BadRequest)
    else if subdomain != "" && domain != subdomain + "." + base then Err(BadRequest)
    else
      var prefix := TrimSuffix(domain, "." + base);
      var derived := HasSuffix(domain, "." + base) && '.' !in prefix && Label(prefix);
      Ok(Web(if subdomain == "" && derived then prefix else subdomain, domain))
  }

  function Resolve(webBaseDomain: string, id: string, name: string, rawSubdomain: string, rawDomain: string): Result<Web>
  {
    var base := NormalizeDomain(webBaseDomain);
    var subdomain := Lower(TrimSpace(rawSubdomain));
    var domain := NormalizeDomain(rawDomain);
    if base == "" then Err(BadRequest)
    else if subdomain != "" && !Label(subdomain) then Err(BadRequest)
    else if domain == "" then Ok(Build(base, id, name, subdomain))
    else Accept(base, subdomain, domain)
  }

  /** validateWebRule on the two web fields of a rule. */
  function ValidateWeb(webBaseDomain: string, web: Web): (r: Outcome)
    ensures r.Fail? ==> r.error == BadRequest
  {
    var base := NormalizeDomain(webBaseDomain);
    if base == "" then Fail(BadRequest)
    else if web.domain == "" then Fail(BadRequest)
    else if !UnderBase(web.domain, base) then Fail(BadRequest)
    else if web.subdomain != "" && !Label(web.subdomain) then Fail(BadRequest)
    else Pass
  }

  lemma SuffixOfConcat(a: string, b: string)
    ensures HasSuffix(a + b, b) && TrimSuffix(a + b, b) == a
  {
    assert (a + b)[|a + b| - |b|..] == b;
    assert TrimSuffix(a + b, b) + b == a + b;
    assert (TrimSuffix(a + b, b) + b)[..|a|] == (a + b)[..|a|];
  }

  predicate WellFormedWeb(web: Web, base: string) {
    && UnderBase(web.domain, base)
    && (web.subdomain != "" ==> Label(web.subdomain) && web.domain == web.subdomain + "." + base)
  }

  lemma BuildWellFormed(base: string, id: string, name: string, subdomain: string)
    requires subdomain == "" || Label(subdomain)
    ensures WellFormedWeb(Build(base, id, name, subdomain), base)
  {
    var web := Build(base, id, name, subdomain);
    SuffixOfConcat(web.subdomain, "." + base);
    assert web.domain == web.subdomain + ("." + base);
  }

  lemma AcceptWellFormed(base: string, subdomain: string, domain: string)
    requires subdomain == "" || Label(subdomain)
    requires Accept(base, subdomain, domain).Ok?
    ensures WellFormedWeb(Accept(base, subdomain, domain).value, base)
  {
    if HasSuffix(domain, "." + base) {
      assert TrimSuffix(domain, "." + base) + ("." + base) == domain;
      assert TrimSuffix(domain, "." + base) + "." + base == domain;
    }
  }

  /** A resolved domain lies under the node's base, equals subdomain + "." + base whenever there is a
      subdomain, and passes the validation of rules. */
  lemma ResolveIsValid(webBaseDomain: string, id: string, name: string, rawSubdomain: string, rawDomain: string)
    requires Resolve(webBaseDomain, id, name, rawSubdomain, rawDomain).Ok?
    ensures var web := Resolve(webBaseDomain, id, name, rawSubdomain, rawDomain).value;
            WellFormedWeb(web, NormalizeDomain(webBaseDomain)) && ValidateWeb(webBaseDomain, web) == Pass
  {
    var base := NormalizeDomain(webBaseDomain);
    var subdomain := Lower(TrimSpace(rawSubdomain));
    var web := Resolve(webBaseDomain, id, name, rawSubdomain, rawDomain).value;
    if NormalizeDomain(rawDomain) == "" {
      BuildWellFormed(base, id, name, subdomain);
    } else {
      AcceptWellFormed(base, subdomain, NormalizeDomain(rawDomain));
    }
    LastOfSuffix(web.domain, base);
  }

  /** When a request is accepted: the node has a base, a requested subdomain is a label, and a requested domain lies
      under the base and belongs to the requested subdomain, if there is one. */
  lemma ResolveSucceedsIff(webBaseDomain: string, id: string, name: string, rawSubdomain: string, rawDomain: string)
    ensures var base, subdomain, domain := NormalizeDomain(webBaseDomain), Lower(TrimSpace(rawSubdomain)), NormalizeDomain(rawDomain);
            var r := Resolve(webBaseDomain, id, name, rawSubdomain, rawDomain);
            && (r.Ok? <==>
                 && base != "" && (subdomain == "" || Label(subdomain))
                 && (domain == "" || domain == base || HasSuffix(domain, "." + base))
                 && (domain == "" || subdomain == "" || domain == subdomain + "." + base))
            && (r.Err? ==> r.error == BadRequest)
  {
  }

  lemma LabelOfDomain(base: string, domain: string, l: string)
    requires Label(l) && domain == l + "." + base
    ensures HasSuffix(domain, "." + base) && TrimSuffix(domain, "." + base) == l && '.' !in l
  {
    SuffixOfConcat(l, "." + base);
    assert l + "." + base == l + ("." + base);
  }

  /** What the answer has to do with the request. A requested subdomain is the answer's, and so is a requested
      domain; a domain without a subdomain gets the label it has before the base, if it has one; and with neither
      the label is that of the name or, when that has no letter or digit, of the id. */
  ghost predicate Answers(base: string, id: string, name: string, subdomain: string, domain: string, web: Web) {
    && (subdomain != "" ==> web.subdomain == subdomain)
    && (domain != "" ==> web.domain == domain)
    && (domain == "" ==> web.domain == web.subdomain + "." + base)
    && (subdomain == "" && domain != "" ==>
         if exists l :: Label(l) && domain == l + "." + base then Label(web.subdomain) && domain == web.subdomain + "." + base
         else web.subdomain == "")
    && (subdomain == "" && domain == "" ==>
         web.subdomain == SanitizeSubdomain(if HasLowerAlnum(Lower(TrimSpace(name))) then name else Dashed(id)))
  }

  lemma AnswersAlone(base: string, id: string, name: string, subdomain: string, domain: string, a: Web, b: Web)
    requires Answers(base, id, name, subdomain, domain, a) && Answers(base, id, name, subdomain, domain, b)
    ensures a == b
  {
    if Label(a.subdomain) && domain == a.subdomain + "." + base && Label(b.subdomain) && domain == b.subdomain + "." + base {
      LabelOfDomain(base, domain, a.subdomain);
      LabelOfDomain(base, domain, b.subdomain);
    }
  }

  lemma BuildAnswers(base: string, id: string, name: string, subdomain: string)
    ensures Answers(base, id, name, subdomain, "", Build(base, id, name, subdomain))
  {
    SanitizeSubdomainMeaning(name);
  }

  lemma AcceptAnswers(base: string, id: string, name: string, subdomain: string, domain: string)
    requires domain != "" && Accept(base, subdomain, domain).Ok?
    ensures Answers(base, id, name, subdomain, domain, Accept(base, subdomain, domain).value)
  {
    if subdomain == "" {
      AcceptWellFormed(base, subdomain, domain);
      if l :| Label(l) && domain == l + "." + base {
        LabelOfDomain(base, domain, l);
      }
    }
  }

  /** A request that is accepted has just the one answer that fits it. */
  lemma ResolveIff(webBaseDomain: string, id: string, name: string, rawSubdomain: string, rawDomain: string, web: Web)
    ensures var r := Resolve(webBaseDomain, id, name, rawSubdomain, rawDomain);
            r == Ok(web) <==>
              r.Ok? && Answers(NormalizeDomain(webBaseDomain), id, name, Lower(TrimSpace(rawSubdomain)), NormalizeDomain(rawDomain), web)
  {
    var base, subdomain, domain := NormalizeDomain(webBaseDomain), Lower(TrimSpace(rawSubdomain)), NormalizeDomain(rawDomain);
    var r := Resolve(webBaseDomain, id, name, rawSubdomain, rawDomain);
    if r.Ok? {
      if domain == "" {
        BuildAnswers(base, id, name, subdomain);
      } else {
        AcceptAnswers(base, id, name, subdomain, domain);
      }
      if Answers(base, id, name, subdomain, domain, web) {
        AnswersAlone(base, id, name, subdomain, domain, web, r.value);
      }
    }
  }

  /** Without a requested domain, any letter or digit in the rule's id is enough for a subdomain, so a
      generated id always gives one. */
  lemma ResolveFindsSubdomain(webBaseDomain: string, id: string, name: string, rawSubdomain: string, rawDomain: string)
    requires Resolve(webBaseDomain, id, name, rawSubdomain, rawDomain).Ok?
    requires NormalizeDomain(rawDomain) == "" && HasLowerAlnum(Lower(TrimSpace(Dashed(id))))
    ensures Resolve(webBaseDomain, id, name, rawSubdomain, rawDomain).value.subdomain != ""
  {
    SanitizeSubdomainMeaning(Dashed(id));
  }

  /** Neither a dot nor a space at the end. */
  predicate CleanEnd(base: string) {
    base != "" && base[|base| - 1] != '.' && !IsSpace(base[|base| - 1])
  }

  /** A domain normalised before, ending like the base, is left alone exactly when the base ends clean. */
  lemma NormalizeFixedIff(domain: string, base: string)
    requires base != "" && domain != "" && Lower(domain) == domain && !IsSpace(domain[0])
    requires domain[|domain| - 1] == base[|base| - 1]
    ensures NormalizeDomain(domain) == domain <==> CleanEnd(base)
  {
    if CleanEnd(base) {
      assert TrimSpace(domain) == domain;
    } else if IsSpace(base[|base| - 1]) {
      assert TrimSpace(domain) != domain;
      TrimSpaceShortens(domain);
    } else {
      assert TrimSpace(domain) == domain;
      assert HasSuffix(domain, ".");
      assert |TrimSuffix(domain, ".")| < |domain|;
    }
  }

  lemma TrimSpaceShortens(s: string)
    requires TrimSpace(s) != s
    ensures |TrimSpace(s)| < |s|
  {
    if |TrimLeft(s)| == |s| {
      TrimLeftWhole(s);
    }
  }

  lemma {:induction false} TrimLeftWhole(s: string)
    requires |TrimLeft(s)| == |s|
    ensures TrimLeft(s) == s
  {
  }

  lemma NormalizedStarts(v: string)
    requires NormalizeDomain(v) != ""
    ensures Lower(NormalizeDomain(v)) == NormalizeDomain(v) && !IsSpace(NormalizeDomain(v)[0])
  {
    LowerIdempotent(TrimSuffix(TrimSpace(v), "."));
    assert TrimSuffix(TrimSpace(v), ".") <= TrimSpace(v);
  }

  lemma LastOfSuffix(domain: string, base: string)
    requires base != "" && UnderBase(domain, base)
    ensures domain != "" && domain[|domain| - 1] == base[|base| - 1]
  {
    if domain != base {
      var t := domain[|domain| - |"." + base|..];
      assert t[|t| - 1] == domain[|domain| - 1];
    }
  }

  lemma LowerLabel(s: string)
    requires Label(s)
    ensures Lower(s) == s && TrimSpace(s) == s
  {
  }

  lemma ResolvedShape(webBaseDomain: string, id: string, name: string, rawSubdomain: string, rawDomain: string)
    requires Resolve(webBaseDomain, id, name, rawSubdomain, rawDomain).Ok?
    ensures var web := Resolve(webBaseDomain, id, name, rawSubdomain, rawDomain).value;
            web.domain != "" && Lower(web.domain) == web.domain && !IsSpace(web.domain[0])
  {
    var web := Resolve(webBaseDomain, id, name, rawSubdomain, rawDomain).value;
    var base := NormalizeDomain(webBaseDomain);
    NormalizedStarts(webBaseDomain);
    if NormalizeDomain(rawDomain) == "" {
      if web.subdomain != "" { LowerLabel(web.subdomain); }
      LowerConcat(web.subdomain + ".", base);
      LowerConcat(web.subdomain, ".");
      assert Lower(".") == ".";
    } else {
      NormalizedStarts(rawDomain);
    }
  }

  lemma {:induction false} TrimRightDropsSpaces(s: string)
    ensures forall i | |TrimRight(s)| <= i < |s| :: IsSpace(s[i])
  {
    if s != "" && IsSpace(s[|s| - 1]) {
      TrimRightDropsSpaces(s[..|s| - 1]);
    }
  }

  /** A domain that normalises to nothing is a dot followed by spaces, and no freshly built domain is. */
  lemma BlankDomainDiffers(domain: string, sub: string, base: string)
    requires NormalizeDomain(domain) == "" && domain != "" && !IsSpace(domain[0])
    requires base != "" && !IsSpace(base[0]) && (sub == "" || Label(sub))
    ensures domain != sub + "." + base
  {
    var t := TrimSpace(domain);
    assert TrimLeft(domain) == domain;
    TrimRightDropsSpaces(domain);
    assert |t| >= 1;
    assert |t| <= 1;
    assert forall i | 1 <= i < |domain| :: IsSpace(domain[i]);
    var built := sub + "." + base;
    assert built[|sub| + 1] == base[0];
  }

  /** Accepting a well-formed pair again gives it back. */
  lemma AcceptAgain(base: string, web: Web)
    requires WellFormedWeb(web, base)
    requires web.subdomain == "" ==>
               !(HasSuffix(web.domain, "." + base) && '.' !in TrimSuffix(web.domain, "." + base)
                 && Label(TrimSuffix(web.domain, "." + base)))
    ensures Accept(base, web.subdomain, web.domain) == Ok(web)
  {
  }

  lemma NoSubdomainLeft(base: string, id: string, name: string, rawSubdomain: string, rawDomain: string)
    requires base != ""
    ensures var subdomain := Lower(TrimSpace(rawSubdomain));
            var domain := NormalizeDomain(rawDomain);
            var r := if domain == "" then Ok(Build(base, id, name, subdomain)) else Accept(base, subdomain, domain);
            r.Ok? && r.value.subdomain == "" ==>
              !(HasSuffix(r.value.domain, "." + base) && '.' !in TrimSuffix(r.value.domain, "." + base)
                && Label(TrimSuffix(r.value.domain, "." + base)))
  {
    SuffixOfConcat("", "." + base);
    assert "" + "." + base == "" + ("." + base);
  }

  /** Resolving its own output again, under any name and id, returns it unchanged exactly when the node's
      normalised base ends in neither a dot nor a space. */
  lemma ResolveFixedPointIff(webBaseDomain: string, id: string, name: string, rawSubdomain: string, rawDomain: string,
                             id': string, name': string)
    requires Resolve(webBaseDomain, id, name, rawSubdomain, rawDomain).Ok?
    ensures var r := Resolve(webBaseDomain, id, name, rawSubdomain, rawDomain);
            Resolve(webBaseDomain, id', name', r.value.subdomain, r.value.domain) == r
            <==> CleanEnd(NormalizeDomain(webBaseDomain))
  {
    var web := Resolve(webBaseDomain, id, name, rawSubdomain, rawDomain).value;
    var base := NormalizeDomain(webBaseDomain);
    ResolveIsValid(webBaseDomain, id, name, rawSubdomain, rawDomain);
    ResolvedShape(webBaseDomain, id, name, rawSubdomain, rawDomain);
    LastOfSuffix(web.domain, base);
    NormalizeFixedIff(web.domain, base);
    if web.subdomain != "" { LowerLabel(web.subdomain); }
    assert Lower(TrimSpace(web.subdomain)) == web.subdomain;
    if CleanEnd(base) {
      NoSubdomainLeft(base, id, name, rawSubdomain, rawDomain);
      AcceptAgain(base, web);
    } else if NormalizeDomain(web.domain) == "" {
      NormalizedStarts(webBaseDomain);
      BlankDomainDiffers(web.domain, Build(base, id', name', web.subdomain).subdomain, base);
    } else {
      AcceptKeepsDomain(base, web.subdomain, NormalizeDomain(web.domain));
    }
  }

  lemma AcceptKeepsDomain(base: string, subdomain: string, domain: string)
    ensures Accept(base, subdomain, domain).Ok? ==> Accept(base, subdomain, domain).value.domain == domain
  {
  }

  /** Such a base can be stored: a node's base domain is normalised once when the node is saved and again
      at each use, and each time loses one dot only. */
  lemma StoredBaseMayEndInDot()
    ensures NormalizeDomain("a...") == "a.."
    ensures !CleanEnd(NormalizeDomain(NormalizeDomain("a...")))
  {
    assert TrimSpace("a...") == "a..." && TrimSpace("a..") == "a..";
    assert HasSuffix("a...", ".") && HasSuffix("a..", ".");
    assert Lower("a..") == "a.." && Lower("a.") == "a.";
  }

  /** For such a base resolving is not a fixed point. */
  lemma ResolveMovesOn()
    ensures NormalizeDomain("a...") == "a.."
    ensures var r := Resolve("a..", "b", "b", "", "");
            r.Ok? && Resolve("a..", "b", "b", r.value.subdomain, r.value.domain) != r
  {
    StoredBaseMayEndInDot();
    assert NormalizeDomain("a..") == "a." by {
      assert TrimSpace("a..") == "a.." && HasSuffix("a..", ".") && Lower("a.") == "a.";
    }
    assert TrimSpace("") == "" && NormalizeDomain("") == "";
    ResolveFixedPointIff("a..", "b", "b", "", "", "b", "b");
  }
}
