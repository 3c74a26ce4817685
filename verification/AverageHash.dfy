/** internal/imageproc/worker.go: the 8x8 average hash. */
module AverageHash {

  /** RGBA() yields 16-bit channels. */
  type Channel = c: nat | c < 0x1_0000 witness 0

  datatype Pixel = Pixel(r: Channel, g: Channel, b: Channel)

  /** A decoded image: its bounds, and the pixels within them. */
  datatype Picture = Picture(minX: int, minY: int, width: int, height: int, at: (int, int) --> Pixel) {
    predicate Inside(x: int, y: int) {
      minX <= x < minX + width && minY <= y < minY + height
    }

    ghost predicate Valid() {
      width > 0 && height > 0 && forall x, y :: Inside(x, y) ==> at.requires(x, y)
    }
  }

  function Gray(p: Pixel): nat {
    (299 * p.r + 587 * p.g + 114 * p.b) / 1000
  }

  function SampleX(p: Picture, x: nat): int {
    p.minX + (x * p.width + p.width / 2) / 8
  }

  function SampleY(p: Picture, y: nat): int {
    p.minY + (y * p.height + p.height / 2) / 8
  }

  /** The weights of ITU-R BT.601: full red, green and blue, and every gray of its own brightness. */
  lemma GrayOfPrimaries(c: Channel)
    ensures Gray(Pixel(65535, 0, 0)) == 19594 && Gray(Pixel(0, 65535, 0)) == 38469 && Gray(Pixel(0, 0, 65535)) == 7470
    ensures Gray(Pixel(c, c, c)) == c
  {
  }

  /** Sample column x is the middle of the x-th of eight equal strips, rounded down to a pixel; rows likewise. */
  lemma SampleCentred(p: Picture, x: nat, y: nat)
    ensures 0 <= (2 * x + 1) * p.width - 16 * (SampleX(p, x) - p.minX) < 16
    ensures 0 <= (2 * y + 1) * p.height - 16 * (SampleY(p, y) - p.minY) < 16
  {
  }

  /** All 64 sample points lie within the bounds, however small the picture. */
  lemma SampleInside(p: Picture, x: nat, y: nat)
    requires p.width > 0 && p.height > 0 && x < 8 && y < 8
    ensures p.Inside(SampleX(p, x), SampleY(p, y))
  {
    WithinEighths(p.width, x);
    WithinEighths(p.height, y);
  }

  lemma WithinEighths(n: int, k: nat)
    requires n > 0 && k < 8
    ensures 0 <= (k * n + n / 2) / 8 < n
  {
    assert 0 <= k * n <= 7 * n;
  }

  function SampleAt(p: Picture, i: nat): nat
    requires p.Valid() && i < 64
  {
    SampleInside(p, i % 8, i / 8);
    Gray(p.at(SampleX(p, i % 8), SampleY(p, i / 8)))
  }

  /** The gray values row by row. */
  function Samples(p: Picture): (vs: seq<nat>)
    requires p.Valid()
    ensures |vs| == 64
  {
    seq(64, i requires 0 <= i < 64 => SampleAt(p, i))
  }

  function Sum(vs: seq<nat>): nat {
    if vs == [] then 0 else Sum(vs[..|vs| - 1]) + vs[|vs| - 1]
  }

  function Mean(vs: seq<nat>): nat {
    Sum(vs) / 64
  }

  // ---------------------------------------------------------------- words and bits

  function Pow2(n: nat): nat
    ensures Pow2(n) > 0
  {
    if n == 0 then 1 else 2 * Pow2(n - 1)
  }

  predicate Bit(word: nat, k: nat) {
    word / Pow2(k) % 2 == 1
  }

  /** word |= 1 << k. */
  function SetBit(word: nat, k: nat): nat {
    if Bit(word, k) then word else word + Pow2(k)
  }

  /** The bits of the samples, the first the most significant. */
  function Packed(vs: seq<nat>, mean: nat): nat {
    if vs == [] then 0 else 2 * Packed(vs[..|vs| - 1], mean) + if vs[|vs| - 1] >= mean then 1 else 0
  }

  lemma AtLeast(t: int, d: int)
    requires t >= 1 && d > 0
    ensures t * d >= d
  {
    assert t * d == d + (t - 1) * d;
  }

  lemma SmallMultiple(t: int, d: int)
    requires d > 0 && -d < t * d < d
    ensures t == 0
  {
    if t >= 1 {
      AtLeast(t, d);
    } else if t <= -1 {
      AtLeast(-t, d);
    }
  }

  lemma SameQuotient(p: int, s: int, q: int, r: int, d: int)
    requires 0 <= s < d && 0 <= r < d && p * d + s == q * d + r
    ensures p == q
  {
    assert (q - p) * d == q * d - p * d;
    SmallMultiple(q - p, d);
  }

  lemma Quotient(w: nat, d: nat, q: nat, r: nat)
    requires r < d && w == q * d + r
    ensures w / d == q
  {
    SameQuotient(w / d, w % d, q, r, d);
  }

  /** Setting a bit below all bits set so far appends it to the packed word. */
  lemma AppendBit(high: nat, k: nat)
    ensures SetBit(high * Pow2(k + 1), k) == (2 * high + 1) * Pow2(k)
    ensures high * Pow2(k + 1) == (2 * high) * Pow2(k)
  {
    var b := Pow2(k);
    assert high * Pow2(k + 1) == (2 * high) * b;
    Quotient((2 * high) * b, b, 2 * high, 0);
    assert (2 * high + 1) * b == (2 * high) * b + b;
  }

  /** Dropping the low bits of a packed word leaves the word of the earlier samples. */
  lemma {:induction false} PackedPrefix(vs: seq<nat>, mean: nat, m: nat)
    requires m <= |vs|
    ensures Packed(vs, mean) / Pow2(m) == Packed(vs[..|vs| - m], mean)
    decreases m
  {
    if m == 0 {
      assert vs[..|vs|] == vs;
    } else {
      var front := vs[..|vs| - 1];
      PackedPrefix(front, mean, m - 1);
      assert front[..|front| - (m - 1)] == vs[..|vs| - m];
      HalfFirst(Packed(vs, mean), Pow2(m - 1));
    }
  }

  lemma HalfFirst(w: nat, b: nat)
    requires b > 0
    ensures w / (2 * b) == w / 2 / b
  {
    var h := w / 2;
    var q := h / b;
    assert h == q * b + h % b;
    assert w == 2 * (q * b) + 2 * (h % b) + w % 2;
    assert 2 * (h % b) + w % 2 < 2 * b;
    Quotient(w, 2 * b, q, 2 * (h % b) + w % 2);
  }

  /** Bit 63-i of the hash is set exactly when sample i is at least the mean. */
  lemma PackedBit(vs: seq<nat>, mean: nat, i: nat)
    requires |vs| == 64 && i < 64
    ensures Bit(Packed(vs, mean), 63 - i) <==> vs[i] >= mean
  {
    PackedPrefix(vs, mean, 63 - i);
    assert vs[..64 - (63 - i)] == vs[..i + 1];
    assert vs[..i + 1][..i] == vs[..i];
  }

  lemma {:induction false} PackedFits(vs: seq<nat>, mean: nat)
    ensures Packed(vs, mean) < Pow2(|vs|)
  {
    if vs != [] {
      PackedFits(vs[..|vs| - 1], mean);
    }
  }

  // ---------------------------------------------------------------- the hash

  function Hash(p: Picture): nat
    requires p.Valid()
  {
    Packed(Samples(p), Mean(Samples(p)))
  }

  lemma SampleIs(p: Picture, x: nat, y: nat)
    requires p.Valid() && x < 8 && y < 8
    ensures p.Inside(SampleX(p, x), SampleY(p, y))
    ensures Samples(p)[8 * y + x] == Gray(p.at(SampleX(p, x), SampleY(p, y)))
  {
    SampleInside(p, x, y);
    assert (8 * y + x) % 8 == x && (8 * y + x) / 8 == y;
  }

  lemma SumNone(vs: seq<nat>)
    ensures Sum(vs[..0]) == 0
  {
  }

  lemma SumMore(vs: seq<nat>, i: nat)
    requires i < |vs|
    ensures Sum(vs[..i + 1]) == Sum(vs[..i]) + vs[i]
  {
    assert vs[..i + 1][..i] == vs[..i];
  }

  lemma PackedNone(vs: seq<nat>, mean: nat)
    ensures Packed(vs[..0], mean) == 0
  {
  }

  lemma PackMore(vs: seq<nat>, mean: nat, idx: nat)
    requires |vs| == 64 && idx < 64
    ensures var w := Packed(vs[..idx], mean) * Pow2(64 - idx);
            Packed(vs[..idx + 1], mean) * Pow2(63 - idx) == if vs[idx] >= mean then SetBit(w, 63 - idx) else w
  {
    AppendBit(Packed(vs[..idx], mean), 63 - idx);
    assert vs[..idx + 1][..idx] == vs[..idx];
  }

  /** The sampling loops: 64 gray values and their total. */
  method SampleAll(p: Picture) returns (values: array<nat>, total: nat)
    requires p.Valid()
    ensures fresh(values) && values.Length == 64 && values[..] == Samples(p) && total == Sum(Samples(p))
  {
    hide SampleX, SampleY, Gray, Samples, Sum, Picture.Inside;
    values := new nat[64];
    total := 0;
    ghost var vs := Samples(p);
    SumNone(vs);
    for y := 0 to 8
      invariant forall i :: 0 <= i < 8 * y ==> values[i] == vs[i]
      invariant total == Sum(vs[..8 * y])
    {
      for x := 0 to 8
        invariant forall i :: 0 <= i < 8 * y + x ==> values[i] == vs[i]
        invariant total == Sum(vs[..8 * y + x])
      {
        var i := 8 * y + x;
        SampleIs(p, x, y);
        SumMore(vs, i);
        var gray := Gray(p.at(SampleX(p, x), SampleY(p, y)));
        values[i] := gray;
        total := total + gray;
      }
    }
    assert vs[..64] == vs;
    assert values[..] == vs;
  }

  /** The packing loop. */
  method PackBits(values: array<nat>, mean: nat) returns (bits: nat)
    requires values.Length == 64
    ensures bits == Packed(values[..], mean)
  {
    hide Packed, SetBit;
    bits := 0;
    ghost var vs := values[..];
    PackedNone(vs, mean);
    for idx := 0 to 64
      invariant bits == Packed(vs[..idx], mean) * Pow2(64 - idx)
    {
      PackMore(vs, mean, idx);
      if values[idx] >= mean {
        bits := SetBit(bits, 63 - idx);
      }
    }
    assert vs[..64] == vs;
  }

  /** perceptualHash of a picture that decodes and is not empty. */
  method PerceptualBits(p: Picture) returns (bits: nat)
    requires p.Valid()
    ensures bits == Hash(p) && bits < Pow2(64)
    ensures forall i :: 0 <= i < 64 ==> (Bit(bits, 63 - i) <==> Samples(p)[i] >= Mean(Samples(p)))
  {
    var values, total := SampleAll(p);
    bits := PackBits(values, total / 64);
    ghost var vs := Samples(p);
    PackedFits(vs, Mean(vs));
    forall i | 0 <= i < 64 ensures Bit(bits, 63 - i) <==> vs[i] >= Mean(vs) {
      PackedBit(vs, Mean(vs), i);
    }
  }

  lemma {:induction false} AllBelow(vs: seq<nat>, mean: nat)
    requires mean > 0 && forall i :: 0 <= i < |vs| ==> vs[i] < mean
    ensures Sum(vs) <= |vs| * (mean - 1)
  {
    if vs != [] {
      AllBelow(vs[..|vs| - 1], mean);
      assert |vs| * (mean - 1) == (|vs| - 1) * (mean - 1) + (mean - 1);
    }
  }

  lemma {:induction false} PackedZero(vs: seq<nat>, mean: nat)
    requires Packed(vs, mean) == 0
    ensures forall i :: 0 <= i < |vs| ==> vs[i] < mean
  {
    if vs != [] {
      PackedZero(vs[..|vs| - 1], mean);
    }
  }

  /** Some sample is at least the mean, so the hash is never zero. */
  lemma HashNotZero(p: Picture)
    requires p.Valid()
    ensures Hash(p) != 0
  {
    var vs := Samples(p);
    if Hash(p) == 0 {
      PackedZero(vs, Mean(vs));
      assert vs[0] < Mean(vs);
      AllBelow(vs, Mean(vs));
    }
  }

  /** `q` is `p` with `c` added to every channel of every pixel. */
  ghost predicate Brighter(p: Picture, q: Picture, c: nat)
    requires p.Valid() && q.Valid()
  {
    && p.minX == q.minX && p.minY == q.minY && p.width == q.width && p.height == q.height
    && forall x, y :: p.Inside(x, y) ==> Shifted(p.at(x, y), q.at(x, y), c)
  }

  predicate Shifted(a: Pixel, b: Pixel, c: nat) {
    b.r == a.r + c && b.g == a.g + c && b.b == a.b + c
  }

  /** The weights sum to 1000. */
  lemma GrayShifts(a: Pixel, b: Pixel, c: nat)
    requires Shifted(a, b, c)
    ensures Gray(b) == Gray(a) + c
  {
  }

  lemma {:induction false} SumShifts(vs: seq<nat>, ws: seq<nat>, c: nat)
    requires |ws| == |vs| && forall i :: 0 <= i < |vs| ==> ws[i] == vs[i] + c
    ensures Sum(ws) == Sum(vs) + |vs| * c
  {
    if vs != [] {
      SumShifts(vs[..|vs| - 1], ws[..|ws| - 1], c);
      assert |vs| * c == (|vs| - 1) * c + c;
    }
  }

  lemma {:induction false} PackedShifts(vs: seq<nat>, ws: seq<nat>, c: nat, mean: nat)
    requires |ws| == |vs| && forall i :: 0 <= i < |vs| ==> ws[i] == vs[i] + c
    ensures Packed(ws, mean + c) == Packed(vs, mean)
  {
    if vs != [] {
      PackedShifts(vs[..|vs| - 1], ws[..|ws| - 1], c, mean);
    }
  }

  /** Adding one constant to all channels, without overflow, leaves the hash unchanged. */
  lemma BrightnessInvariant(p: Picture, q: Picture, c: nat)
    requires p.Valid() && q.Valid() && Brighter(p, q, c)
    ensures Hash(q) == Hash(p)
  {
    var vs, ws := Samples(p), Samples(q);
    forall i | 0 <= i < 64 ensures ws[i] == vs[i] + c {
      SampleInside(p, i % 8, i / 8);
      GrayShifts(p.at(SampleX(p, i % 8), SampleY(p, i / 8)), q.at(SampleX(p, i % 8), SampleY(p, i / 8)), c);
    }
    SumShifts(vs, ws, c);
    assert Mean(ws) == Mean(vs) + c;
    PackedShifts(vs, ws, c, Mean(vs));
  }
}
