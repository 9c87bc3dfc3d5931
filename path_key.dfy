/** The key deriver of the DYAD wrapper: gen_path_key in
    src/wrapper/wrapper.c. A path becomes `depth` hash buckets written as
    lower-case hexadecimal, each followed by '.', and then the path itself.
    MurmurHash3 is not modelled: the 128-bit hash is a parameter. */
module PathKeys {
  import opened Options

  /** C's uint32_t. */
  type uint32 = x: int | 0 <= x < 0x1_0000_0000

  const UINT32_MODULUS: int := 0x1_0000_0000

  /** The four 32-bit words MurmurHash3_x64_128 writes to its output. */
  type Hash128 = (bv32, bv32, bv32, bv32)

  /** MurmurHash3_x64_128 over the bytes of a path with a given seed. */
  type HashFn = (string, uint32) -> Hash128

  /** The ten primes gen_path_key adds to its seed, one per level, cycling. */
  const SEEDS: seq<uint32> :=
    [104677, 104681, 104683, 104693, 104701, 104707, 104711, 104717, 104723, 104729]

  /** The value the seed starts from. */
  const SEED_BASE: uint32 := 57

  function Min(a: int, b: int): int {
    if a < b then a else b
  }

  // ---------------------------------------------------------------------
  // Seeds

  /** The seed after `k` levels: each level adds the next prime, with the
      wrap-around of a uint32_t addition. Level d hashes with Seed(d + 1). */
  function Seed(k: nat): uint32 {
    if k == 0 then SEED_BASE else (Seed(k - 1) + SEEDS[(k - 1) % 10]) % UINT32_MODULUS
  }

  lemma SeedStep(d: nat)
    ensures Seed(d + 1) == (Seed(d) + SEEDS[d % 10]) % UINT32_MODULUS
  {
  }

  /** The unbounded sum of the first `k` primes of the cycle. */
  function SeedSum(k: nat): nat {
    if k == 0 then 0 else SeedSum(k - 1) + SEEDS[(k - 1) % 10]
  }

  lemma {:induction false} SeedIsWrappedSum(k: nat)
    ensures Seed(k) == (SEED_BASE + SeedSum(k)) % UINT32_MODULUS
  {
    if k > 0 {
      SeedIsWrappedSum(k - 1);
      var a := SEED_BASE + SeedSum(k - 1);
      var s := SEEDS[(k - 1) % 10];
      assert a % UINT32_MODULUS + s == a + s - (a / UINT32_MODULUS) * UINT32_MODULUS;
      ModShift(a + s, a / UINT32_MODULUS);
    }
  }

  lemma ModShift(x: int, q: int)
    ensures (x - q * UINT32_MODULUS) % UINT32_MODULUS == x % UINT32_MODULUS
  {
  }

  lemma {:induction false} SeedSumBound(k: nat)
    ensures SeedSum(k) <= 104729 * k
  {
    if k > 0 {
      SeedSumBound(k - 1);
    }
  }

  /** For the first 41000 levels the seed never wraps: it is exactly
      57 plus the sum of the primes used so far. */
  lemma SeedWithoutWrap(k: nat)
    requires k <= 41000
    ensures Seed(k) == SEED_BASE + SeedSum(k)
  {
    SeedIsWrappedSum(k);
    SeedSumBound(k);
  }

  // ---------------------------------------------------------------------
  // Buckets

  /** hash[0] ^ hash[1] ^ hash[2] ^ hash[3]. */
  function Fold(h: Hash128): uint32 {
    (h.0 ^ h.1 ^ h.2 ^ h.3) as int
  }

  /** The bucket of level d: the folded hash reduced modulo the width. */
  function BinAt(path: string, d: nat, width: uint32, hash: HashFn): (bin: uint32)
    requires width > 0
    ensures bin < width
  {
    Fold(hash(path, Seed(d + 1))) % width
  }

  /** Whether the key's modulo is defined: every level reduces a hash
      modulo the width, so a zero width is harmless only when there is no
      level at all; otherwise C leaves the division undefined. */
  predicate ModuloDefined(depth: nat, width: uint32) {
    depth == 0 || width > 0
  }

  /** The buckets of all levels, in order. */
  function Bins(path: string, depth: nat, width: uint32, hash: HashFn): (bins: seq<uint32>)
    requires ModuloDefined(depth, width)
    ensures |bins| == depth
    ensures forall d :: 0 <= d < depth ==> bins[d] == BinAt(path, d, width, hash) < width
  {
    seq(depth, d requires 0 <= d < depth => BinAt(path, d, width, hash))
  }

  // ---------------------------------------------------------------------
  // Hexadecimal, as printf's "%x" writes it

  const HEX_DIGITS: string := "0123456789abcdef"

  predicate IsHexDigit(c: char) {
    ('0' <= c <= '9') || ('a' <= c <= 'f')
  }

  predicate AllHex(s: string) {
    forall i :: 0 <= i < |s| ==> IsHexDigit(s[i])
  }

  function DigitValue(c: char): (v: nat)
    requires IsHexDigit(c)
    ensures v < 16 && HEX_DIGITS[v] == c
  {
    if '0' <= c <= '9' then (c - '0') as int else (c - 'a') as int + 10
  }

  /** "%x" of n: lower-case digits, most significant first, no leading zero. */
  function Hex(n: nat): string
    decreases n
  {
    if n < 16 then [HEX_DIGITS[n]] else Hex(n / 16) + [HEX_DIGITS[n % 16]]
  }

  /** Reads a string of hexadecimal digits back as a number. */
  function ParseHex(s: string): nat
    requires AllHex(s)
  {
    if s == [] then 0 else ParseHex(s[..|s| - 1]) * 16 + DigitValue(s[|s| - 1])
  }

  lemma HexDigitValue(v: nat)
    requires v < 16
    ensures IsHexDigit(HEX_DIGITS[v]) && DigitValue(HEX_DIGITS[v]) == v
  {
  }

  /** "%x" writes at least one digit, only hexadecimal digits, never a '.',
      and no leading zero unless the number is zero. */
  lemma {:induction false} HexWellFormed(n: nat)
    ensures |Hex(n)| >= 1 && AllHex(Hex(n)) && '.' !in Hex(n)
    ensures Hex(n)[0] == '0' <==> n == 0
    decreases n
  {
    if n < 16 {
      HexDigitValue(n);
    } else {
      HexWellFormed(n / 16);
      HexDigitValue(n % 16);
      assert Hex(n)[0] == Hex(n / 16)[0];
    }
  }

  /** Reading the digits back gives the number that was printed. */
  lemma {:induction false} HexRoundTrip(n: nat)
    ensures AllHex(Hex(n)) && ParseHex(Hex(n)) == n
    decreases n
  {
    HexWellFormed(n);
    HexDigitValue(n % 16);
    if n >= 16 {
      HexRoundTrip(n / 16);
      assert Hex(n)[..|Hex(n)| - 1] == Hex(n / 16);
    }
  }

  function Pow16(k: nat): nat {
    if k == 0 then 1 else 16 * Pow16(k - 1)
  }

  /** A number below 16^k takes at most k digits. */
  lemma {:induction false} HexLength(n: nat, k: nat)
    requires 1 <= k && n < Pow16(k)
    ensures |Hex(n)| <= k
    decreases k
  {
    if n >= 16 {
      HexLength(n / 16, k - 1);
    }
  }

  /** A uint32_t bucket is printed with at most eight digits. */
  lemma HexOfUint32(n: uint32)
    ensures 1 <= |Hex(n)| <= 8
  {
    assert Pow16(8) == UINT32_MODULUS;
    HexLength(n, 8);
    HexWellFormed(n);
  }

  // ---------------------------------------------------------------------
  // The key

  /** One level of the key: "%x." of its bucket. */
  function Segment(bin: nat): string {
    Hex(bin) + ['.']
  }

  /** The segments of a list of buckets, concatenated. */
  function Render(bins: seq<nat>): string {
    if bins == [] then [] else Segment(bins[0]) + Render(bins[1..])
  }

  /** The registry key of a path: one segment per level, then the path. */
  function PathKey(path: string, depth: nat, width: uint32, hash: HashFn): string
    requires ModuloDefined(depth, width)
  {
    Render(Bins(path, depth, width, hash)) + path
  }

  lemma {:induction false} RenderAppend(a: seq<nat>, b: seq<nat>)
    ensures Render(a + b) == Render(a) + Render(b)
  {
    if a == [] {
      assert a + b == b;
    } else {
      var ab := a + b;
      assert ab[0] == a[0] && ab[1..] == a[1..] + b;
      RenderAppend(a[1..], b);
      var head, rest := Segment(a[0]), Render(a[1..]);
      assert Render(ab) == head + (rest + Render(b));
      assert Render(a) == head + rest;
    }
  }

  /** Rendering the first d + 1 buckets extends the rendering of the first d
      by one segment. */
  lemma {:induction false} RenderStep(bins: seq<nat>, d: nat)
    requires d < |bins|
    ensures Render(bins[..d + 1]) == Render(bins[..d]) + Segment(bins[d])
  {
    assert bins[..d + 1] == bins[..d] + [bins[d]];
    RenderAppend(bins[..d], [bins[d]]);
  }

  /** Rendering splits at any level. */
  lemma {:induction false} RenderSplit(bins: seq<nat>, d: nat)
    requires d <= |bins|
    ensures Render(bins) == Render(bins[..d]) + Render(bins[d..])
  {
    var front, back := bins[..d], bins[d..];
    assert bins == front + back;
    RenderAppend(front, back);
    assert Render(bins) == Render(front + back);
  }

  /** A rendered key prefix never holds a NUL, so a C string reads all of it. */
  lemma {:induction false} RenderHasNoNul(bins: seq<nat>)
    ensures '\0' !in Render(bins)
  {
    if bins != [] {
      HexWellFormed(bins[0]);
      RenderHasNoNul(bins[1..]);
    }
  }

  /** Each bucket of a uint32_t takes between two and nine characters. */
  lemma {:induction false} RenderLength(bins: seq<nat>)
    requires forall i :: 0 <= i < |bins| ==> bins[i] < UINT32_MODULUS
    ensures 2 * |bins| <= |Render(bins)| <= 9 * |bins|
  {
    if bins != [] {
      HexOfUint32(bins[0]);
      RenderLength(bins[1..]);
    }
  }

  /** The key of a path is at most nine characters per level longer than the
      path, and at least two. */
  lemma PathKeyLength(path: string, depth: nat, width: uint32, hash: HashFn)
    requires ModuloDefined(depth, width)
    ensures |path| + 2 * depth <= |PathKey(path, depth, width, hash)| <= |path| + 9 * depth
  {
    RenderLength(Bins(path, depth, width, hash));
  }

  // ---------------------------------------------------------------------
  // Reading a key back

  /** The index of the first '.' of s, if any. */
  function DotIndex(s: string): (r: Option<nat>)
    ensures r.Some? ==> r.value < |s| && s[r.value] == '.' && '.' !in s[..r.value]
    ensures r.None? ==> '.' !in s
  {
    if s == [] then None
    else if s[0] == '.' then Some(0)
    else match DotIndex(s[1..])
      case None => None
      case Some(i) =>
        assert s[..i + 1] == [s[0]] + s[1..][..i];
        Some(i + 1)
  }

  /** Splits a key into `depth` buckets and the path that follows them. */
  function ParseKey(key: string, depth: nat): Option<(seq<nat>, string)> {
    if depth == 0 then Some(([], key))
    else match DotIndex(key)
      case None => None
      case Some(i) =>
        if i == 0 || !AllHex(key[..i]) then None
        else match ParseKey(key[i + 1..], depth - 1)
          case None => None
          case Some(parsed) => Some(([ParseHex(key[..i])] + parsed.0, parsed.1))
  }

  lemma DotAfterHex(n: nat, rest: string)
    ensures DotIndex(Segment(n) + rest) == Some(|Hex(n)|)
  {
    HexWellFormed(n);
    var s := Segment(n) + rest;
    assert s[|Hex(n)|] == '.';
    assert s[..|Hex(n)|] == Hex(n);
  }

  /** One segment in front of a text adds its bucket in front of what the
      text parses to. */
  lemma ParseSegment(b: nat, tail: string, depth: nat)
    ensures ParseKey(Segment(b) + tail, depth + 1)
         == match ParseKey(tail, depth)
            case None => None
            case Some(parsed) => Some(([b] + parsed.0, parsed.1))
  {
    var key := Segment(b) + tail;
    DotAfterHex(b, tail);
    HexWellFormed(b);
    HexRoundTrip(b);
    var i := |Hex(b)|;
    assert key[..i] == Hex(b);
    assert key[i + 1..] == tail;
  }

  lemma Associate(x: string, y: string, z: string)
    ensures (x + y) + z == x + (y + z)
  {
  }

  /** Rendered buckets followed by any text parse back to those buckets and
      that text. */
  lemma {:induction false} RenderParses(bins: seq<nat>, rest: string)
    ensures ParseKey(Render(bins) + rest, |bins|) == Some((bins, rest))
  {
    if bins == [] {
      assert Render(bins) + rest == rest;
    } else {
      var b := bins[0];
      var tail := Render(bins[1..]) + rest;
      Associate(Segment(b), Render(bins[1..]), rest);
      assert Render(bins) + rest == Segment(b) + tail;
      RenderParses(bins[1..], rest);
      assert ParseKey(tail, |bins| - 1) == Some((bins[1..], rest));
      ParseSegment(b, tail, |bins| - 1);
      assert ParseKey(Segment(b) + tail, |bins|) == Some(([b] + bins[1..], rest));
      assert [b] + bins[1..] == bins;
    }
  }

  /** A key reads back to its buckets, each below the width, and to the
      unchanged path. */
  lemma PathKeyDecodes(path: string, depth: nat, width: uint32, hash: HashFn)
    requires ModuloDefined(depth, width)
    ensures ParseKey(PathKey(path, depth, width, hash), depth)
         == Some((Bins(path, depth, width, hash), path))
  {
    RenderParses(Bins(path, depth, width, hash), path);
  }

  /** Two paths with the same key are the same path, whatever the hash does:
      the verbatim suffix disambiguates any bucket collision. */
  lemma PathKeyInjective(p1: string, p2: string, depth: nat, width: uint32, h1: HashFn, h2: HashFn)
    requires ModuloDefined(depth, width)
    requires PathKey(p1, depth, width, h1) == PathKey(p2, depth, width, h2)
    ensures p1 == p2
    ensures Bins(p1, depth, width, h1) == Bins(p2, depth, width, h2)
  {
    PathKeyDecodes(p1, depth, width, h1);
    PathKeyDecodes(p2, depth, width, h2);
  }

  // ---------------------------------------------------------------------
  // The C routine, over a bounded character buffer

  /** The buffer b with t written over it from index off on. */
  function Splice(b: seq<char>, off: nat, t: seq<char>): (r: seq<char>)
    requires off + |t| <= |b|
    ensures |r| == |b|
  {
    b[..off] + t + b[off + |t|..]
  }

  /** A buffer that was `orig` and now holds the C string `text`: the text,
      its NUL, and the untouched rest of `orig`. */
  function Terminated(text: string, orig: seq<char>): (r: seq<char>)
    requires |text| < |orig|
    ensures |r| == |orig|
  {
    text + ['\0'] + orig[|text| + 1..]
  }

  /** The key cut to what a buffer of len characters holds besides its NUL. */
  function Cut(key: string, len: nat): string
    requires len > 0
  {
    key[..Min(|key|, len - 1)]
  }

  /** Printing at the NUL of a C string extends that string. */
  lemma SpliceTerminated(text: string, t: string, orig: seq<char>)
    requires |text| + |t| < |orig|
    ensures Splice(Terminated(text, orig), |text|, t + ['\0']) == Terminated(text + t, orig)
  {
    var b := Terminated(text, orig);
    assert b[..|text|] == text;
    assert b[|text| + |t| + 1..] == orig[|text| + |t| + 1..];
  }

  /** snprintf (buf + off, size, ...) where `s` is the formatted text: it
      writes at most size - 1 characters of s and a terminating NUL, nothing
      when size is 0, and returns the length of the whole text. */
  method SnPrintf(buf: array<char>, off: nat, size: nat, s: string) returns (n: nat)
    requires off + size <= buf.Length
    modifies buf
    ensures n == |s|
    ensures size == 0 ==> buf[..] == old(buf[..])
    ensures size > 0 ==> buf[..] == Splice(old(buf[..]), off, s[..Min(|s|, size - 1)] + ['\0'])
  {
    n := |s|;
    if size == 0 {
      return;
    }
    var k := Min(|s|, size - 1);
    var i := 0;
    while i < k
      invariant 0 <= i <= k
      invariant forall j :: 0 <= j < off ==> buf[j] == old(buf[j])
      invariant forall j :: 0 <= j < i ==> buf[off + j] == s[j]
      invariant forall j :: off + i <= j < buf.Length ==> buf[j] == old(buf[j])
    {
      buf[off + i] := s[i];
      i := i + 1;
    }
    buf[off + k] := '\0';
  }

  /** gen_path_key (str, path_key, len, depth, width). The buffer ends up
      holding the key cut to len - 1 characters as a C string; the result is
      0 exactly when the whole key and its NUL fit in len characters, and -1
      otherwise or when there is no buffer, which is then left alone. The
      path is a C string, and the width may be zero only when no level is
      computed: its modulo is undefined in C. */
  method GenPathKey(str: string, pathKey: array?<char>, len: nat, depth: uint32,
                    width: uint32, hash: HashFn) returns (rc: int)
    requires '\0' !in str
    requires pathKey != null && len > 0 ==> ModuloDefined(depth as nat, width)
    requires pathKey != null ==> len <= pathKey.Length
    modifies pathKey
    ensures rc == 0 || rc == -1
    ensures pathKey == null || len == 0 ==> rc == -1
    ensures pathKey != null && len == 0 ==> pathKey[..] == old(pathKey[..])
    ensures pathKey != null && len > 0 ==>
      && (rc == 0 <==> |PathKey(str, depth, width, hash)| < len)
      && pathKey[..] == Terminated(Cut(PathKey(str, depth, width, hash), len), old(pathKey[..]))
  {
    if pathKey == null || len == 0 {
      return -1;
    }
    ghost var orig := pathKey[..];
    pathKey[0] := '\0';
    assert pathKey[..] == Terminated([], orig);
    var cx, fits := WriteLevels(str, pathKey, len, depth, width, hash, orig);
    if !fits {
      return -1;
    }
    ghost var bins := Bins(str, depth, width, hash);
    var n := SnPrintf(pathKey, cx, len - cx, str);
    AfterPath(Render(bins), str, len, orig, pathKey[..]);
    if cx + n >= len {
      return -1;
    }
    return 0;
  }

  /** The loop of gen_path_key: one "%x." segment per level at the cursor
      cx. It either writes every segment, leaving them as a C string, or
      stops at the first that does not fit, leaving the key cut to len - 1
      characters. */
  method WriteLevels(str: string, pathKey: array<char>, len: nat, depth: uint32, width: uint32,
                     hash: HashFn, ghost orig: seq<char>) returns (cx: nat, fits: bool)
    requires ModuloDefined(depth as nat, width) && 0 < len <= pathKey.Length == |orig|
    requires pathKey[..] == Terminated([], orig)
    modifies pathKey
    ensures fits ==> cx == |Render(Bins(str, depth, width, hash))| < len
    ensures fits ==> pathKey[..] == Terminated(Render(Bins(str, depth, width, hash)), orig)
    ensures !fits ==> |PathKey(str, depth, width, hash)| >= len
    ensures !fits ==> pathKey[..] == Terminated(Cut(PathKey(str, depth, width, hash), len), orig)
  {
    ghost var bins := Bins(str, depth, width, hash);
    var seed: uint32 := SEED_BASE;
    cx := 0;
    var d: uint32 := 0;
    while d < depth
      invariant d <= depth
      invariant seed == Seed(d)
      invariant cx == |Render(bins[..d])| < len
      invariant pathKey[..] == Terminated(Render(bins[..d]), orig)
    {
      var n;
      seed, n := WriteLevel(str, pathKey, len, cx, d, seed, depth, width, hash, bins, orig);
      if cx + n >= len {
        return cx + n, false;
      }
      cx := cx + n;
      d := d + 1;
    }
    assert bins[..d] == bins;
    fits := true;
  }

  /** One iteration of the loop of gen_path_key: the seed of level d, its
      bucket, and "%x." printed at the cursor. */
  method WriteLevel(str: string, pathKey: array<char>, len: nat, cx: nat, d: uint32, seed: uint32,
                    depth: uint32, width: uint32, hash: HashFn, ghost bins: seq<nat>, ghost orig: seq<char>)
    returns (next: uint32, n: nat)
    requires width > 0 && d < depth && seed == Seed(d)
    requires bins == Bins(str, depth, width, hash)
    requires len <= pathKey.Length == |orig|
    requires cx == |Render(bins[..d])| < len
    requires pathKey[..] == Terminated(Render(bins[..d]), orig)
    modifies pathKey
    ensures next == Seed(d as nat + 1)
    ensures cx + n == |Render(bins[..d + 1])|
    ensures cx + n < len ==> pathKey[..] == Terminated(Render(bins[..d + 1]), orig)
    ensures cx + n >= len ==>
      |Render(bins) + str| >= len && pathKey[..] == Terminated(Cut(Render(bins) + str, len), orig)
  {
    ghost var before := pathKey[..];
    next := (seed + SEEDS[d % 10]) % UINT32_MODULUS;
    var bin := Fold(hash(str, next)) % width;
    ghost var seg := Segment(bins[d]);
    assert Segment(bin) == seg by {
      LevelBin(str, depth as nat, width, hash, d as nat, next);
    }
    n := SnPrintf(pathKey, cx, len - cx, Segment(bin));
    AfterLevel(bins, d as nat, str, len, orig, pathKey[..]);
  }

  /** The seed and bucket the loop computes at level d are those of the
      key's specification. */
  lemma LevelBin(str: string, depth: nat, width: uint32, hash: HashFn, d: nat, seed: uint32)
    requires width > 0 && d < depth
    requires seed == (Seed(d) + SEEDS[d % 10]) % UINT32_MODULUS
    ensures seed == Seed(d + 1)
    ensures Fold(hash(str, seed)) % width == Bins(str, depth, width, hash)[d]
  {
    SeedStep(d);
  }

  /** The buffer after printing the segment of level d at the cursor: either
      the segments of levels 0..d as a C string, or, when they do not fit,
      the key cut to len - 1 characters. */
  lemma AfterLevel(bins: seq<nat>, d: nat, str: string, len: nat, orig: seq<char>, after: seq<char>)
    requires d < |bins| && |Render(bins[..d])| < len <= |orig|
    requires
      var text, seg := Render(bins[..d]), Segment(bins[d]);
      after == Splice(Terminated(text, orig), |text|, seg[..Min(|seg|, len - |text| - 1)] + ['\0'])
    ensures |Render(bins[..d + 1])| == |Render(bins[..d])| + |Segment(bins[d])|
    ensures |Render(bins[..d + 1])| < len ==> after == Terminated(Render(bins[..d + 1]), orig)
    ensures |Render(bins[..d + 1])| >= len ==>
      |Render(bins) + str| >= len && after == Terminated(Cut(Render(bins) + str, len), orig)
  {
    var text, seg := Render(bins[..d]), Segment(bins[d]);
    var k := Min(|seg|, len - |text| - 1);
    RenderStep(bins, d);
    SpliceTerminated(text, seg[..k], orig);
    if |text| + |seg| >= len {
      KeyCut(bins, d, str, len);
      assert text + seg[..k] == (text + seg)[..len - 1];
    } else {
      assert seg[..k] == seg;
    }
  }

  /** The buffer after printing the path at the cursor: the whole key as a
      C string, or the key cut to len - 1 characters when it does not fit. */
  lemma AfterPath(text: string, str: string, len: nat, orig: seq<char>, after: seq<char>)
    requires |text| < len <= |orig|
    requires after == Splice(Terminated(text, orig), |text|, str[..Min(|str|, len - |text| - 1)] + ['\0'])
    ensures after == Terminated(Cut(text + str, len), orig)
  {
    var k := Min(|str|, len - |text| - 1);
    SpliceTerminated(text, str[..k], orig);
    if |text| + |str| >= len {
      assert text + str[..k] == (text + str)[..len - 1];
    } else {
      assert str[..k] == str;
    }
  }

  /** When the segments written so far plus the next one do not fit, the key
      cut to len - 1 characters is a cut of those segments. */
  lemma KeyCut(bins: seq<nat>, d: nat, str: string, len: nat)
    requires d < |bins| && 0 < len <= |Render(bins[..d + 1])|
    ensures |Render(bins) + str| >= len
    ensures (Render(bins) + str)[..len - 1] == Render(bins[..d + 1])[..len - 1]
  {
    RenderSplit(bins, d + 1);
  }
}
