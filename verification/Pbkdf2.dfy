/** PBKDF2 as internal/security/security.go computes it, against section 5.2 of RFC 8018. HMAC-SHA-256 is
    a parameter: any function from a key and a message to 32 octets. */
module Pbkdf2 {
  import opened Bits

  type Byte = b: int | 0 <= b < 256
  type Bytes = seq<Byte>

  const HASH_LEN: int := 32

  type Prf = f: (Bytes, Bytes) -> Bytes | forall k, m :: |f(k, m)| == HASH_LEN
    witness (k: Bytes, m: Bytes) => seq(HASH_LEN, _ => 0)

  function XorByte(a: Byte, b: Byte): (r: Byte)
    ensures r == Xor(a, b)
  {
    assert Pow2(8) == 256;
    XorBound(a, b, 8);
    Xor(a, b)
  }

  function XorBytes(a: Bytes, b: Bytes): (r: Bytes)
    requires |a| == |b|
    ensures |r| == |a| && forall n | 0 <= n < |a| :: r[n] == Xor(a[n], b[n])
  {
    seq(|a|, n requires 0 <= n < |a| => XorByte(a[n], b[n]))
  }

  /** The four octets the loop writes for block `i`: each the low eight bits of a shift. */
  function Counter(i: nat): (c: Bytes)
    ensures |c| == 4
  {
    [i / 0x100_0000 % 256, i / 0x1_0000 % 256, i / 0x100 % 256, i % 256]
  }

  // ---------- section 5.2 of RFC 8018 ----------

  /** INT (i): the four-octet encoding of i, most significant octet first. */
  ghost predicate IsInt32Encoding(c: Bytes, i: nat) {
    |c| == 4 && ((c[0] as int * 0x100 + c[1]) * 0x100 + c[2]) * 0x100 + c[3] == i
  }

  /** U_j of block `i`, for j = 1, 2, ... */
  function U(prf: Prf, password: Bytes, salt: Bytes, i: nat, j: nat): (u: Bytes)
    ensures |u| == HASH_LEN
  {
    if j <= 1 then prf(password, salt + Counter(i)) else prf(password, U(prf, password, salt, i, j - 1))
  }

  /** Octet `n` of U_1 \xor U_2 \xor ... \xor U_c. */
  function UXorOctet(prf: Prf, password: Bytes, salt: Bytes, i: nat, c: nat, n: nat): (r: Byte)
    requires n < HASH_LEN
  {
    if c <= 1 then U(prf, password, salt, i, 1)[n]
    else XorByte(UXorOctet(prf, password, salt, i, c - 1, n), U(prf, password, salt, i, c)[n])
  }

  /** T_i = F (P, S, c, i). */
  function Block(prf: Prf, password: Bytes, salt: Bytes, c: nat, i: nat): (t: Bytes)
    ensures |t| == HASH_LEN
  {
    seq(HASH_LEN, n requires 0 <= n < HASH_LEN => UXorOctet(prf, password, salt, i, c, n))
  }

  /** T_1 || T_2 || ... || T_l. */
  function Blocks(prf: Prf, password: Bytes, salt: Bytes, c: nat, l: nat): (k: Bytes)
    ensures |k| == l * HASH_LEN
  {
    if l == 0 then [] else Blocks(prf, password, salt, c, l - 1) + Block(prf, password, salt, c, l)
  }

  function BlockCount(dkLen: nat): (l: nat)
    ensures dkLen <= l * HASH_LEN < dkLen + HASH_LEN
  {
    (dkLen + HASH_LEN - 1) / HASH_LEN
  }

  function DerivedKey(prf: Prf, password: Bytes, salt: Bytes, c: nat, dkLen: nat): (dk: Bytes)
    ensures |dk| == dkLen
  {
    Blocks(prf, password, salt, c, BlockCount(dkLen))[..dkLen]
  }

  // ---------- the loops of the source ----------

  /** An iteration count below 2 skips the inner loop, so it counts as 1. */
  function Rounds(iter: int): nat {
    if iter < 1 then 1 else iter
  }

  method XorInto(t: array<Byte>, u: Bytes)
    requires t.Length == |u|
    modifies t
    ensures t[..] == XorBytes(old(t[..]), u)
  {
    for n := 0 to t.Length
      invariant forall m | 0 <= m < n :: t[m] == Xor(old(t[m]), u[m])
      invariant forall m | n <= m < t.Length :: t[m] == old(t[m])
    {
      t[n] := XorByte(t[n], u[n]);
    }
  }

  lemma BlockStep(prf: Prf, password: Bytes, salt: Bytes, c: nat, i: nat)
    requires c >= 1
    ensures Block(prf, password, salt, c + 1, i)
         == XorBytes(Block(prf, password, salt, c, i), U(prf, password, salt, i, c + 1))
  {
  }

  /** The nested loops, with `t` updated in place, compute the derived key of RFC 8018. */
  method Pbkdf2Sha256(prf: Prf, password: Bytes, salt: Bytes, iter: int, keyLen: nat) returns (key: Bytes)
    ensures key == DerivedKey(prf, password, salt, Rounds(iter), keyLen)
  {
    var numBlocks := BlockCount(keyLen);
    key := [];
    for i := 1 to numBlocks + 1
      invariant key == Blocks(prf, password, salt, Rounds(iter), i - 1)
    {
      var u := prf(password, salt + Counter(i));
      var t := new Byte[HASH_LEN](n requires 0 <= n < HASH_LEN => u[n]);
      assert t[..] == Block(prf, password, salt, 1, i);
      var j := 1;
      while j < iter
        invariant 1 <= j <= Rounds(iter)
        invariant u == U(prf, password, salt, i, j) && t[..] == Block(prf, password, salt, j, i)
      {
        u := prf(password, u);
        XorInto(t, u);
        BlockStep(prf, password, salt, j, i);
        j := j + 1;
      }
      key := key + t[..];
    }
    key := key[..keyLen];
  }

  // ---------- what the derived key is ----------

  lemma CounterByShifts(i: nat)
    ensures Counter(i) == [i / 0x100 / 0x100 / 0x100 % 256, i / 0x100 / 0x100 % 256, i / 0x100 % 256, i % 256]
  {
    assert i / 0x1_0000 == i / 0x100 / 0x100;
    assert i / 0x100_0000 == i / 0x1_0000 / 0x100;
  }

  /** Below 2^32 the counter of the loop is INT (i), and no other four octets are. */
  lemma CounterIsInt(i: nat, c: Bytes)
    requires i < 0x1_0000_0000
    ensures IsInt32Encoding(c, i) <==> c == Counter(i)
  {
    CounterByShifts(i);
    var a := i / 0x100;
    var b := a / 0x100;
    var d := b / 0x100;
    assert d < 0x100;
    assert i == ((d * 0x100 + b % 0x100) * 0x100 + a % 0x100) * 0x100 + i % 0x100;
    if IsInt32Encoding(c, i) {
      assert c[3] == i % 0x100 && (c[0] as int * 0x100 + c[1]) * 0x100 + c[2] == a;
      assert c[2] == a % 0x100 && c[0] as int * 0x100 + c[1] == b;
      assert c[1] == b % 0x100 && c[0] == d;
    }
  }

  /** At 2^32 blocks the loop's counter repeats, which is why the RFC stops there. */
  lemma CounterRepeats(i: nat)
    ensures Counter(i + 0x1_0000_0000) == Counter(i)
  {
    var k := i + 0x1_0000_0000;
    CounterByShifts(i);
    CounterByShifts(k);
    assert k / 0x100 == i / 0x100 + 0x100_0000;
    assert k / 0x100 / 0x100 == i / 0x100 / 0x100 + 0x1_0000;
    assert k / 0x100 / 0x100 / 0x100 == i / 0x100 / 0x100 / 0x100 + 0x100;
  }

  lemma {:induction false} BlocksAt(prf: Prf, password: Bytes, salt: Bytes, c: nat, l: nat, n: nat)
    requires n < l * HASH_LEN
    ensures Blocks(prf, password, salt, c, l)[n] == UXorOctet(prf, password, salt, n / HASH_LEN + 1, c, n % HASH_LEN)
  {
    if n < (l - 1) * HASH_LEN {
      BlocksAt(prf, password, salt, c, l - 1, n);
    }
  }

  /** Octet by octet: octet n of the key is octet n mod 32 of the exclusive or of the U's of block
      n div 32 + 1, whatever length is asked for. */
  lemma DerivedOctet(prf: Prf, password: Bytes, salt: Bytes, c: nat, dkLen: nat, n: nat)
    requires n < dkLen
    ensures DerivedKey(prf, password, salt, c, dkLen)[n]
         == UXorOctet(prf, password, salt, n / HASH_LEN + 1, c, n % HASH_LEN)
  {
    BlocksAt(prf, password, salt, c, BlockCount(dkLen), n);
  }

  /** A shorter key is a prefix of a longer one. */
  lemma ShorterKeyIsPrefix(prf: Prf, password: Bytes, salt: Bytes, c: nat, short: nat, long: nat)
    requires short <= long
    ensures DerivedKey(prf, password, salt, c, short) <= DerivedKey(prf, password, salt, c, long)
  {
    forall n | 0 <= n < short
      ensures DerivedKey(prf, password, salt, c, short)[n] == DerivedKey(prf, password, salt, c, long)[n]
    {
      DerivedOctet(prf, password, salt, c, short, n);
      DerivedOctet(prf, password, salt, c, long, n);
    }
  }

  /** One round: the key is what the function makes of the password and of the salt with the first counter. A second
      round adds what it makes of that. */
  lemma FirstRounds(prf: Prf, password: Bytes, salt: Bytes)
    ensures var u := prf(password, salt + [0, 0, 0, 1]);
            && DerivedKey(prf, password, salt, 1, 32) == u
            && DerivedKey(prf, password, salt, 2, 32) == XorBytes(u, prf(password, u))
  {
    var u := prf(password, salt + [0, 0, 0, 1]);
    assert Counter(1) == [0, 0, 0, 1];
    assert U(prf, password, salt, 1, 1) == u && U(prf, password, salt, 1, 2) == prf(password, u);
    forall n | 0 <= n < 32
      ensures DerivedKey(prf, password, salt, 1, 32)[n] == u[n]
      ensures DerivedKey(prf, password, salt, 2, 32)[n] == XorBytes(u, prf(password, u))[n]
    {
      DerivedOctet(prf, password, salt, 1, 32, n);
      DerivedOctet(prf, password, salt, 2, 32, n);
    }
  }

  /** The second block starts from the second counter. */
  lemma SecondBlock(prf: Prf, password: Bytes, salt: Bytes)
    ensures DerivedKey(prf, password, salt, 1, 64) == prf(password, salt + [0, 0, 0, 1]) + prf(password, salt + [0, 0, 0, 2])
  {
    assert Counter(1) == [0, 0, 0, 1] && Counter(2) == [0, 0, 0, 2];
    forall n | 0 <= n < 64
      ensures DerivedKey(prf, password, salt, 1, 64)[n] == (prf(password, salt + [0, 0, 0, 1]) + prf(password, salt + [0, 0, 0, 2]))[n]
    {
      DerivedOctet(prf, password, salt, 1, 64, n);
    }
  }
}
