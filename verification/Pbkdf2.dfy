/** The loops of `service/password.go` against PBKDF2 of section 5.2 of RFC 8018, for any 32-octet PRF. */
module Pbkdf2 {
  type Octet = bv8
  type Octets = seq<Octet>
  type Prf = (Octets, Octets) -> Octets

  const H_LEN := 32
  const MAX_BLOCKS := 0xffff_ffff

  ghost predicate IsPrf(prf: Prf) {
    forall key, text :: |prf(key, text)| == H_LEN
  }

  // ---- the standard

  /** A number below 2^32 in base 256, most significant digit first. */
  function Base256(i: nat): (d: seq<nat>)
    ensures |d| == 4 && forall k :: 0 <= k < 4 ==> d[k] < 0x100
  {
    [i / 0x100_0000 % 0x100, i / 0x1_0000 % 0x100, i / 0x100 % 0x100, i % 0x100]
  }

  lemma Base256IsPositional(i: nat)
    requires i <= MAX_BLOCKS
    ensures var d := Base256(i); i == 0x100_0000 * d[0] + 0x1_0000 * d[1] + 0x100 * d[2] + d[3]
  {
  }

  /** INT (i): four octets, most significant first. */
  function Int4(i: nat): Octets {
    var d := Base256(i);
    [d[0] as Octet, d[1] as Octet, d[2] as Octet, d[3] as Octet]
  }

  function Xor(a: Octets, b: Octets): (r: Octets)
    requires |a| == |b|
    ensures |r| == |a|
  {
    seq(|a|, i requires 0 <= i < |a| => a[i] ^ b[i])
  }

  /** U_j, with j counted from 1. */
  function U(prf: Prf, password: Octets, salt: Octets, i: nat, j: nat): Octets {
    if j <= 1 then prf(password, salt + Int4(i)) else prf(password, U(prf, password, salt, i, j - 1))
  }

  /** F (P, S, c, i) = U_1 xor … xor U_c. */
  ghost function F(prf: Prf, password: Octets, salt: Octets, c: nat, i: nat): (r: Octets)
    requires IsPrf(prf)
    ensures |r| == H_LEN
  {
    if c <= 1 then U(prf, password, salt, i, 1)
    else Xor(F(prf, password, salt, c - 1, i), U(prf, password, salt, i, c))
  }

  /** T_1 || … || T_n. */
  ghost function Blocks(prf: Prf, password: Octets, salt: Octets, c: nat, n: nat): (r: Octets)
    requires IsPrf(prf)
    ensures |r| == n * H_LEN
  {
    if n == 0 then [] else Blocks(prf, password, salt, c, n - 1) + F(prf, password, salt, c, n)
  }

  function BlockCount(length: nat): nat {
    (length + H_LEN - 1) / H_LEN
  }

  ghost function DerivedKey(prf: Prf, password: Octets, salt: Octets, c: nat, length: nat): (r: Octets)
    requires IsPrf(prf)
    ensures |r| == length
  {
    Blocks(prf, password, salt, c, BlockCount(length))[..length]
  }

  lemma {:induction false} BlocksPrefix(prf: Prf, password: Octets, salt: Octets, c: nat, n: nat, m: nat)
    requires IsPrf(prf) && n <= m
    ensures Blocks(prf, password, salt, c, n) <= Blocks(prf, password, salt, c, m)
    decreases m - n
  {
    if n < m { BlocksPrefix(prf, password, salt, c, n, m - 1); }
  }

  /** A shorter key is a prefix of a longer one. */
  lemma ShorterIsPrefix(prf: Prf, password: Octets, salt: Octets, c: nat, short: nat, long: nat)
    requires IsPrf(prf) && short <= long
    ensures DerivedKey(prf, password, salt, c, short) <= DerivedKey(prf, password, salt, c, long)
  {
    BlocksPrefix(prf, password, salt, c, BlockCount(short), BlockCount(long));
  }

  lemma {:induction false} BlockOctet(prf: Prf, password: Octets, salt: Octets, c: nat, n: nat, k: nat)
    requires IsPrf(prf) && k < n * H_LEN
    ensures Blocks(prf, password, salt, c, n)[k] == F(prf, password, salt, c, k / H_LEN + 1)[k % H_LEN]
    decreases n
  {
    if k < (n - 1) * H_LEN {
      BlockOctet(prf, password, salt, c, n - 1, k);
    } else {
      InLastBlock(n - 1, k);
    }
  }

  lemma InLastBlock(n: nat, k: nat)
    requires n * H_LEN <= k < (n + 1) * H_LEN
    ensures k / H_LEN == n && k % H_LEN == k - n * H_LEN
  {
  }

  /** Octet k of the key is octet k mod 32 of block k / 32 + 1, for any length. */
  lemma KeyOctet(prf: Prf, password: Octets, salt: Octets, c: nat, length: nat, k: nat)
    requires IsPrf(prf) && k < length
    ensures DerivedKey(prf, password, salt, c, length)[k] == F(prf, password, salt, c, k / H_LEN + 1)[k % H_LEN]
  {
    BlockOctet(prf, password, salt, c, BlockCount(length), k);
  }

  /** The first block after one and after two iterations, written out. */
  lemma FirstBlock(prf: Prf, password: Octets, salt: Octets, k: nat)
    requires IsPrf(prf) && k < H_LEN
    ensures var once := prf(password, salt + [0, 0, 0, 1]);
            && F(prf, password, salt, 1, 1) == once
            && F(prf, password, salt, 2, 1)[k] == once[k] ^ prf(password, once)[k]
  {
    assert Int4(1) == [0, 0, 0, 1];
  }

  // ---- the code

  /** One block: the inner loops, with the exclusive or in place. */
  method Block(prf: Prf, password: Octets, salt: Octets, iterations: nat, block: nat) returns (t: array<Octet>)
    requires IsPrf(prf)
    ensures fresh(t) && t[..] == F(prf, password, salt, iterations, block)
  {
    var u := prf(password, salt + Int4(block));
    t := new Octet[|u|](k requires 0 <= k < |u| => u[k]);
    assert t[..] == u;
    var i := 1;
    while i < iterations
      invariant 1 <= i && (i == 1 || i <= iterations)
      invariant u == U(prf, password, salt, block, i)
      invariant fresh(t) && t[..] == F(prf, password, salt, i, block)
    {
      u := prf(password, u);
      ghost var before := t[..];
      var j := 0;
      while j < t.Length
        invariant 0 <= j <= t.Length == |before| == |u|
        invariant forall k :: 0 <= k < j ==> t[k] == before[k] ^ u[k]
        invariant forall k :: j <= k < t.Length ==> t[k] == before[k]
      {
        t[j] := t[j] ^ u[j];
        j := j + 1;
      }
      assert t[..] == Xor(before, u);
      i := i + 1;
    }
  }

  /** The block counter is a uint32. */
  function NextBlock(block: nat): nat {
    if block == MAX_BLOCKS then 0 else block + 1
  }

  lemma BlockCountIs(length: nat, n: nat)
    requires length <= n * H_LEN && (n > 0 ==> (n - 1) * H_LEN < length)
    ensures n == BlockCount(length)
  {
  }

  /** `pbkdf2SHA256`. The standard's limit on the length is where the block counter would wrap. */
  method Pbkdf2Sha256(prf: Prf, password: Octets, salt: Octets, iterations: nat, keyLength: nat) returns (key: Octets)
    requires IsPrf(prf)
    ensures |key| == keyLength
    ensures keyLength <= MAX_BLOCKS * H_LEN ==> key == DerivedKey(prf, password, salt, iterations, keyLength)
  {
    var result: Octets := [];
    var block := 1;
    ghost var n := 0;
    while |result| < keyLength
      invariant |result| == n * H_LEN && (n > 0 ==> (n - 1) * H_LEN < keyLength)
      invariant n < MAX_BLOCKS ==> block == n + 1
      invariant n <= MAX_BLOCKS ==> result == Blocks(prf, password, salt, iterations, n)
      decreases keyLength - |result|
    {
      var t := Block(prf, password, salt, iterations, block);
      result := result + t[..];
      n := n + 1;
      block := NextBlock(block);
    }
    BlockCountIs(keyLength, n);
    return result[..keyLength];
  }
}
