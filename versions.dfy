/** Version numbers: the `Version` record, its packing into a Vulkan API
    version word (`VK_MAKE_API_VERSION` with variant 0) and the
    `VK_API_VERSION_MAJOR/MINOR/PATCH` decoders used when a preferred device
    reports a version that is too low.  The packed word is a 32-bit unsigned
    integer, modelled as an `int` in [0, 2^32), so `<` and `>=` on it are the
    unsigned comparisons the device selectors perform; `|`, `<<`, `>>` and
    `&` are written out on such integers. */
module Versions {

  const Two32: int := 0x1_0000_0000

  /** A `uint32_t` value. */
  type Word = x: int | 0 <= x < 0x1_0000_0000

  datatype Version = Version(major: int, minor: int, patch: int)

  function Pow2(k: nat): (r: nat)
    ensures r >= 1
  {
    if k == 0 then 1 else 2 * Pow2(k - 1)
  }

  /** Bitwise or of two naturals. */
  function BitOr(a: nat, b: nat): nat
    decreases a + b
  {
    if a == 0 then b
    else if b == 0 then a
    else 2 * BitOr(a / 2, b / 2) + (if a % 2 == 1 || b % 2 == 1 then 1 else 0)
  }

  /** C conversion of an `int` to `uint32_t`: reduction modulo 2^32. */
  function U32(x: int): (r: Word)
    ensures 0 <= x < Two32 ==> r == x
  {
    x % Two32
  }

  /** `x << k` on a `uint32_t`: the bits shifted past bit 31 are lost. */
  function Shl(x: Word, k: nat): Word
  {
    (x * Pow2(k)) % Two32
  }

  /** `VK_MAKE_API_VERSION(0, major, minor, patch)`: each component is
      converted to `uint32_t`, major is shifted to bit 22 and minor to bit
      12, and the three fields and the zero variant (bit 29) are or-ed. */
  function Make(v: Version): Word
  {
    Pow2Values();
    BitOrBound(Shl(0, 29), Shl(U32(v.major), 22), 32);
    BitOrBound(BitOr(Shl(0, 29), Shl(U32(v.major), 22)), Shl(U32(v.minor), 12), 32);
    BitOrBound(BitOr(BitOr(Shl(0, 29), Shl(U32(v.major), 22)), Shl(U32(v.minor), 12)), U32(v.patch), 32);
    BitOr(BitOr(BitOr(Shl(0, 29), Shl(U32(v.major), 22)), Shl(U32(v.minor), 12)), U32(v.patch))
  }

  /** `VK_API_VERSION_MAJOR`: `(version >> 22) & 0x7F`. */
  function ApiMajor(w: Word): int { (w / Pow2(22)) % 128 }

  /** `VK_API_VERSION_MINOR`: `(version >> 12) & 0x3FF`. */
  function ApiMinor(w: Word): int { (w / Pow2(12)) % 1024 }

  /** `VK_API_VERSION_PATCH`: `version & 0xFFF`. */
  function ApiPatch(w: Word): int { w % 4096 }

  /** The component ranges inside which packing loses nothing. */
  predicate InRange(v: Version)
  {
    0 <= v.major < 128 && 0 <= v.minor < 1024 && 0 <= v.patch < 4096
  }

  /** Lexicographic order on (major, minor, patch). */
  predicate LexGe(a: Version, b: Version)
  {
    a.major > b.major
    || (a.major == b.major && a.minor > b.minor)
    || (a.major == b.major && a.minor == b.minor && a.patch >= b.patch)
  }

  // The defaults of `Configurator::Constants`.
  const DefaultName: string := "unknown"
  const DefaultVulkanVersion: Version := Version(1, 2, 0)
  const DefaultVersion: Version := Version(0, 0, 0)

  /** Or-ing numbers below 2^k stays below 2^k. */
  lemma {:induction false} BitOrBound(a: nat, b: nat, k: nat)
    requires a < Pow2(k) && b < Pow2(k)
    ensures BitOr(a, b) < Pow2(k)
    decreases a + b
  {
    if a != 0 && b != 0 {
      assert k > 0;
      BitOrBound(a / 2, b / 2, k - 1);
    }
  }

  /** Or-ing a multiple of 2^k with a number below 2^k is addition: the
      fields of a packed version do not overlap. */
  lemma {:induction false} BitOrDisjoint(q: nat, b: nat, k: nat)
    requires b < Pow2(k)
    ensures BitOr(q * Pow2(k), b) == q * Pow2(k) + b
    decreases k
  {
    if k == 0 {
      assert b == 0;
    } else {
      var p := Pow2(k - 1);
      var a := q * Pow2(k);
      assert a == 2 * (q * p);
      BitOrDisjoint(q, b / 2, k - 1);
      if a != 0 && b != 0 {
        assert a / 2 == q * p && a % 2 == 0;
        assert BitOr(a, b) == 2 * BitOr(q * p, b / 2) + b % 2;
      }
    }
  }

  lemma Pow2Values()
    ensures Pow2(12) == 4096 && Pow2(22) == 4194304 && Pow2(29) == 536870912
    ensures Pow2(32) == Two32
  {
    assert Pow2(4) == 16;
    assert Pow2(8) == 256;
    assert Pow2(12) == 4096;
    assert Pow2(16) == 65536;
    assert Pow2(20) == 1048576;
    assert Pow2(22) == 4194304;
    assert Pow2(26) == 67108864;
    assert Pow2(29) == 536870912;
  }

  /** The packing of in-range components is the sum of the shifted fields. */
  lemma ShlExact(x: Word, k: nat, c: nat)
    requires Pow2(k) == c && x * c < Two32
    ensures Shl(x, k) == x * c
  {
  }

  /** Or-ing the three shifted fields, given their shifted values. */
  lemma OrFields(major: nat, minor: nat, patch: nat)
    requires minor < 1024 && patch < 4096
    requires Pow2(12) == 4096 && Pow2(22) == 4194304
    ensures BitOr(BitOr(BitOr(0, major * 4194304), minor * 4096), patch)
            == major * 4194304 + minor * 4096 + patch
  {
    assert BitOr(0, major * 4194304) == major * 4194304;
    BitOrDisjoint(major, minor * 4096, 22);
    assert major * 4194304 + minor * 4096 == (major * 1024 + minor) * 4096;
    BitOrDisjoint(major * 1024 + minor, patch, 12);
  }

  lemma MakeFields(v: Version)
    requires InRange(v)
    ensures Make(v) == v.major * 4194304 + v.minor * 4096 + v.patch
  {
    Pow2Values();
    ShlExact(0, 29, 536870912);
    ShlExact(U32(v.major), 22, 4194304);
    ShlExact(U32(v.minor), 12, 4096);
    OrFields(v.major, v.minor, v.patch);
  }

  /** The decoders recover each in-range component of `Make(v)`. */
  lemma DecodeMake(v: Version)
    ensures InRange(v) ==>
      ApiMajor(Make(v)) == v.major && ApiMinor(Make(v)) == v.minor && ApiPatch(Make(v)) == v.patch
  {
    if InRange(v) {
      MakeFields(v);
      Pow2Values();
      var w := Make(v);
      assert w / 4194304 == v.major;
      assert w / 4096 == v.major * 1024 + v.minor;
    }
  }

  /** Within the ranges, comparing packed words is comparing versions
      lexicographically; the `apiVersion >=` tests of the selectors rely
      on this. */
  lemma MakeMonotone(a: Version, b: Version)
    requires InRange(a) && InRange(b)
    ensures Make(a) >= Make(b) <==> LexGe(a, b)
  {
    MakeFields(a);
    MakeFields(b);
  }

  /** The default requested API version packs to 0x402000 (1.2.0) and the
      default application version to 0. */
  lemma DefaultVersionsPacked()
    ensures Make(DefaultVulkanVersion) == 0x402000
    ensures Make(DefaultVersion) == 0
  {
    MakeFields(DefaultVulkanVersion);
    MakeFields(DefaultVersion);
  }
}
