// codex-rs/agent-identity/src/lib.rs: deriving a Curve25519 secret key from a digest,
// with the clamping of section 5 of RFC 7748.

module AgentIdentity {
  /** A byte string read as a little-endian integer. */
  function LittleEndian(bytes: seq<bv8>): nat {
    if bytes == [] then 0 else bytes[0] as nat + 256 * LittleEndian(bytes[1..])
  }

  function Pow256(n: nat): nat {
    if n == 0 then 1 else 256 * Pow256(n - 1)
  }

  /** The clamped bytes. */
  function Clamped(key: seq<bv8>): (r: seq<bv8>)
    requires |key| == 32
    ensures |r| == 32
  {
    var top := (key[31] & 127) | 64;
    key[0 := key[0] & 248][31 := top]
  }

  function Pow2(n: nat): nat {
    if n == 0 then 1 else 2 * Pow2(n - 1)
  }

  lemma {:induction false} Pow256IsPow2(n: nat)
    ensures Pow256(n) == Pow2(8 * n)
  {
    if n > 0 {
      Pow256IsPow2(n - 1);
      var k := 8 * (n - 1);
      assert Pow2(k + 2) == 2 * Pow2(k + 1) == 4 * Pow2(k);
      assert Pow2(k + 4) == 2 * Pow2(k + 3) == 16 * Pow2(k);
      assert Pow2(k + 6) == 2 * Pow2(k + 5) == 64 * Pow2(k);
      assert Pow2(k + 8) == 2 * Pow2(k + 7) == 256 * Pow2(k);
    }
  }

  lemma HighPowers() returns (q: nat)
    ensures q == Pow256(30) && Pow2(254) == 64 * (256 * q) && Pow2(255) == 128 * (256 * q)
  {
    q := Pow256(30);
    assert Pow256(31) == 256 * q;
    Pow256IsPow2(31);
    assert Pow2(250) == 2 * Pow2(249) == 4 * Pow2(248);
    assert Pow2(252) == 2 * Pow2(251) == 16 * Pow2(248);
    assert Pow2(254) == 2 * Pow2(253) == 64 * Pow2(248);
  }

  lemma Regroup(p: nat, x: nat)
    ensures 256 * (p * x) == (256 * p) * x
  {
  }

  /** The step of `LittleEndianSnoc`, on integers. */
  lemma Shift(b: nat, l: nat, p: nat, x: nat)
    ensures b + 256 * (l + p * x) == (b + 256 * l) + (256 * p) * x
  {
    Regroup(p, x);
  }

  lemma {:induction false} LittleEndianSnoc(bytes: seq<bv8>, b: bv8)
    ensures LittleEndian(bytes + [b]) == LittleEndian(bytes) + Pow256(|bytes|) * (b as nat)
    ensures LittleEndian(bytes) < Pow256(|bytes|)
  {
    var all := bytes + [b];
    if bytes == [] {
      assert all[1..] == [] && all[0] == b;
      assert LittleEndian(all) == b as nat;
    } else {
      var rest := bytes[1..];
      assert all[1..] == rest + [b] && all[0] == bytes[0];
      LittleEndianSnoc(rest, b);
      Shift(bytes[0] as nat, LittleEndian(rest), Pow256(|rest|), b as nat);
      assert Pow256(|bytes|) == 256 * Pow256(|rest|);
    }
  }

  lemma LowBits(b: bv8)
    ensures (b & 248) as nat == b as nat - b as nat % 8
  {
  }

  lemma HighBits(b: bv8)
    ensures ((b & 127) | 64) as nat == 64 + b as nat % 64
  {
  }

  /** A 32-byte integer by its lowest byte, the 30 bytes between, and its highest byte. */
  lemma Split(key: seq<bv8>)
    requires |key| == 32
    ensures LittleEndian(key[1..31]) < Pow256(30)
    ensures LittleEndian(key) == key[0] as nat + 256 * LittleEndian(key[1..31]) + Pow256(31) * (key[31] as nat)
  {
    var low, mid := key[..31], key[1..31];
    assert key == low + [key[31]] && low[1..] == mid;
    LittleEndianSnoc(low, key[31]);
    LittleEndianSnoc(mid, key[31]);
  }

  lemma ByteParts(a: bv8, b: bv8)
    ensures (a & 248) as nat % 8 == 0
    ensures 64 <= ((b & 127) | 64) as nat < 128
  {
    LowBits(a);
    HighBits(b);
  }

  /** The parts of a clamped key, as integers. */
  lemma ClampedParts(key: seq<bv8>, q: nat) returns (eighth: nat, mid: nat, top: nat)
    requires |key| == 32 && q == Pow256(30)
    ensures eighth < 32 && mid < q && 64 <= top < 128
    ensures LittleEndian(Clamped(key)) == 8 * eighth + 256 * mid + (256 * q) * top
  {
    var r := Clamped(key);
    Split(r);
    assert Pow256(31) == 256 * q;
    ByteParts(key[0], key[31]);
    eighth, mid, top := r[0] as nat / 8, LittleEndian(r[1..31]), r[31] as nat;
  }

  lemma TimesBounds(p: nat, top: nat)
    requires 64 <= top < 128
    ensures 64 * p <= p * top <= 127 * p
  {
    assert p * top == 64 * p + p * (top - 64) == 127 * p - p * (127 - top);
  }

  lemma EightTimes(k: nat)
    ensures 8 * k % 8 == 0
  {
  }

  lemma ScalarRange(eighth: nat, mid: nat, q: nat, top: nat)
    requires eighth < 32 && mid < q && 64 <= top < 128
    ensures var v := 8 * eighth + 256 * mid + (256 * q) * top;
            v % 8 == 0 && 64 * (256 * q) <= v < 128 * (256 * q)
  {
    TimesBounds(256 * q, top);
    Regroup(q, top);
    EightTimes(eighth + 32 * mid + 32 * (q * top));
  }

  /** Every clamped key is a valid scalar: a multiple of 8 in [2^254, 2^255). */
  lemma ClampedIsScalar(key: seq<bv8>)
    requires |key| == 32
    ensures LittleEndian(Clamped(key)) % 8 == 0
    ensures Pow2(254) <= LittleEndian(Clamped(key)) < Pow2(255)
  {
    var q := HighPowers();
    var eighth, mid, top := ClampedParts(key, q);
    ScalarRange(eighth, mid, q, top);
  }

  lemma ByteKept(a: bv8, b: bv8)
    ensures (a & 248) & 248 == a & 248
    ensures (((b & 127) | 64) & 127) | 64 == (b & 127) | 64
  {
  }

  /** Clamping is idempotent: it only forces the five bits, and forcing them again changes nothing. */
  lemma ClampedIdempotent(key: seq<bv8>)
    requires |key| == 32
    ensures Clamped(Clamped(key)) == Clamped(key)
  {
    ByteKept(key[0], key[31]);
  }

  /**
   * By value, clamping clears the three lowest bits, replaces the two highest by 01, and keeps the
   * other 251 bits of the key where they were.
   */
  lemma ClampedKeepsTheRest(key: seq<bv8>, low: nat, top: nat)
    requires |key| == 32 && low == key[0] as nat && top == key[31] as nat
    ensures LittleEndian(Clamped(key)) ==
            (low - low % 8) + 256 * LittleEndian(key[1..31]) + Pow256(31) * (64 + top % 64)
  {
    var r := Clamped(key);
    Split(r);
    LowBits(key[0]);
    HighBits(key[31]);
    assert r[1..31] == key[1..31];
    assert r[31] as nat == 64 + top % 64;
  }

  /** `curve25519_secret_key_from_signing_key`, from the SHA-512 digest of the signing key on. */
  method Curve25519SecretKey(digest: seq<bv8>) returns (secretKey: array<bv8>)
    requires |digest| == 64
    ensures fresh(secretKey) && secretKey[..] == Clamped(digest[..32])
  {
    secretKey := new bv8[32](i requires 0 <= i < 32 => digest[i]);
    secretKey[0] := secretKey[0] & 248;
    secretKey[31] := secretKey[31] & 127;
    secretKey[31] := secretKey[31] | 64;
  }
}
