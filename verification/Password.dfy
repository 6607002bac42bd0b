/** The password record `pbkdf2-sha256$<iterations>$<salt>$<key>` of internal/security/security.go. */
module Password {
  import opened Wrappers
  import opened Text
  import opened Decimal
  import opened Pbkdf2
  import Base64Url

  const SCHEME: string := "pbkdf2-sha256"
  const ITERATIONS: int := 210000
  const KEY_LEN: int := 32

  /** HashPassword for the random salt drawn. */
  function HashPassword(prf: Prf, password: Bytes, salt: Bytes): (record: string) {
    Join([SCHEME, PrintInt(ITERATIONS), Base64Url.Encode(salt),
          Base64Url.Encode(DerivedKey(prf, password, salt, ITERATIONS, KEY_LEN))], '$')
  }

  function VerifyPassword(prf: Prf, record: string, password: Bytes): (ok: bool) {
    var parts := Split(record, '$');
    if |parts| != 4 || parts[0] != SCHEME then false
    else
      match Atoi(parts[1])
      case None => false
      case Some(iter) =>
        if iter < 100000 then false
        else
          match (Base64Url.Decode(parts[2]), Base64Url.Decode(parts[3]))
          case (Some(salt), Some(want)) => DerivedKey(prf, password, salt, iter, |want|) == want
          case _ => false
  }

  lemma CodesHoldNoDollar(s: string)
    requires forall i | 0 <= i < |s| :: Base64Url.IsCode(s[i])
    ensures Free(s, '$')
  {
  }

  /** A record accepts exactly the passwords that derive the same key: its own password always, another
      one only when PBKDF2 itself does not tell the two apart. */
  lemma RecordAcceptsIff(prf: Prf, password: Bytes, salt: Bytes, guess: Bytes)
    ensures VerifyPassword(prf, HashPassword(prf, password, salt), guess)
       <==> DerivedKey(prf, guess, salt, ITERATIONS, KEY_LEN) == DerivedKey(prf, password, salt, ITERATIONS, KEY_LEN)
  {
    var key := DerivedKey(prf, password, salt, ITERATIONS, KEY_LEN);
    var parts := [SCHEME, PrintInt(ITERATIONS), Base64Url.Encode(salt), Base64Url.Encode(key)];
    CodesHoldNoDollar(parts[2]);
    CodesHoldNoDollar(parts[3]);
    assert Free(parts[1], '$') by {
      assert forall i | 0 <= i < |parts[1]| :: IsDigit(parts[1][i]);
    }
    SplitJoin(parts, '$');
    AtoiPrintInt(ITERATIONS);
    Base64Url.RoundTrip(salt);
    Base64Url.RoundTrip(key);
  }

  /** The four fields of a record, which says how its key was derived. */
  ghost predicate Describes(record: string, iterations: int, salt: Bytes, key: Bytes) {
    exists n, s, k ::
      && Free(n, '$') && Free(s, '$') && Free(k, '$') && record == Join(["pbkdf2-sha256", n, s, k], '$')
      && Atoi(n) == Some(iterations) && Base64Url.Decode(s) == Some(salt) && Base64Url.Decode(k) == Some(key)
  }

  /** HashPassword describes a key of 32 octets, derived in 210000 rounds from the salt. */
  lemma RecordDescribes(prf: Prf, password: Bytes, salt: Bytes)
    ensures Describes(HashPassword(prf, password, salt), 210000, salt, DerivedKey(prf, password, salt, 210000, 32))
  {
    var key := DerivedKey(prf, password, salt, 210000, 32);
    var n, s, k := PrintInt(ITERATIONS), Base64Url.Encode(salt), Base64Url.Encode(key);
    CodesHoldNoDollar(s);
    CodesHoldNoDollar(k);
    assert Free(n, '$') by {
      assert forall i | 0 <= i < |n| :: IsDigit(n[i]);
    }
    AtoiPrintInt(ITERATIONS);
    Base64Url.RoundTrip(salt);
    Base64Url.RoundTrip(key);
    assert HashPassword(prf, password, salt) == Join(["pbkdf2-sha256", n, s, k], '$');
  }

  lemma {:induction false} JoinSplit(s: string, sep: char)
    ensures Join(Split(s, sep), sep) == s
  {
    if s != "" {
      JoinSplit(s[1..], sep);
      var rest := Split(s[1..], sep);
      if s[0] == sep {
        assert ([""] + rest)[1..] == rest;
      } else {
        assert ([[s[0]] + rest[0]] + rest[1..])[1..] == rest[1..];
      }
    }
  }

  lemma FourParts(record: string)
    requires |Split(record, '$')| == 4
    ensures var p := Split(record, '$');
            && record == Join([p[0], p[1], p[2], p[3]], '$')
            && Free(p[1], '$') && Free(p[2], '$') && Free(p[3], '$')
  {
    var p := Split(record, '$');
    JoinSplit(record, '$');
    SplitPartsFree(record, '$');
    assert p == [p[0], p[1], p[2], p[3]];
    assert p[1] in p && p[2] in p && p[3] in p;
  }

  lemma PartsOf(record: string, n: string, s: string, k: string)
    requires Free(n, '$') && Free(s, '$') && Free(k, '$') && record == Join(["pbkdf2-sha256", n, s, k], '$')
    ensures Split(record, '$') == ["pbkdf2-sha256", n, s, k]
  {
    assert Free("pbkdf2-sha256", '$');
    SplitJoin(["pbkdf2-sha256", n, s, k], '$');
  }

  /** A password passes exactly when the record describes a key that it derives, with at least 100000 rounds. */
  lemma VerifyPasswordIff(prf: Prf, record: string, password: Bytes)
    ensures VerifyPassword(prf, record, password) <==>
              exists iterations, salt, key ::
                Describes(record, iterations, salt, key) && iterations >= 100000 && DerivedKey(prf, password, salt, iterations, |key|) == key
  {
    var parts := Split(record, '$');
    if VerifyPassword(prf, record, password) {
      FourParts(record);
      var iterations, salt, key := Atoi(parts[1]).value, Base64Url.Decode(parts[2]).value, Base64Url.Decode(parts[3]).value;
      assert Describes(record, iterations, salt, key);
    }
    if iterations, salt, key :| Describes(record, iterations, salt, key) && iterations >= 100000
                                && DerivedKey(prf, password, salt, iterations, |key|) == key {
      var n, s, k :| && Free(n, '$') && Free(s, '$') && Free(k, '$') && record == Join(["pbkdf2-sha256", n, s, k], '$')
                     && Atoi(n) == Some(iterations) && Base64Url.Decode(s) == Some(salt) && Base64Url.Decode(k) == Some(key);
      PartsOf(record, n, s, k);
    }
  }
}
