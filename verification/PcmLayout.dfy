/**
 The sample memory filled by generate_sine of pcm.c: interleaved channels,
 physical sample widths, either byte order, signed or unsigned. The sample
 values themselves are arbitrary integers.
 */
module PcmLayout {
  import opened Basics

  // ----- arithmetic

  lemma DoubleFactor(x: int, y: int)
    ensures 2 * (x * y) == (2 * x) * y
  {
  }

  lemma {:induction false} Pow2Add(a: nat, b: nat)
    ensures Pow2(a + b) == Pow2(a) * Pow2(b)
  {
    if a > 0 {
      Pow2Add(a - 1, b);
      DoubleFactor(Pow2(a - 1), Pow2(b));
    }
  }

  /** `n * d` by repeated addition, as the pointers of the source move. */
  function Times(n: nat, d: nat): nat { if n == 0 then 0 else Times(n - 1, d) + d }

  lemma {:induction false} TimesIsProduct(n: nat, d: nat)
    ensures Times(n, d) == n * d
  {
    if n > 0 {
      TimesIsProduct(n - 1, d);
      MulMinus(d, n, 1);
    }
  }

  lemma {:induction false} TimesAdd(a: nat, b: nat, d: nat)
    ensures Times(a + b, d) == Times(a, d) + Times(b, d)
  {
    if b > 0 {
      TimesAdd(a, b - 1, d);
    }
  }

  lemma TimesMono(a: nat, b: nat, d: nat)
    requires a <= b
    ensures Times(a, d) <= Times(b, d)
  {
    TimesAdd(a, b - a, d);
  }

  /** Adding a multiple of the modulus changes nothing. */
  lemma ModPlusMultiple(v: int, d: int, k: int)
    requires d > 0
    ensures (v + d * k) % d == v % d
  {
    var q, r := v / d, v % d;
    assert v + d * k == d * (q + k) + r by {
      assert v == d * q + r;
      assert d * (q + k) == d * q + d * k;
    }
    DivModUnique(v + d * k, d, q + k, r);
  }

  lemma MulAssoc(a: int, b: int, c: int)
    ensures a * (b * c) == (a * b) * c
  {
  }

  lemma MulMono(m: int, a: int, b: int)
    requires m >= 0 && a <= b
    ensures m * a <= m * b
  {
  }

  lemma Recombine(m: int, k: int, q: int, r: int, q2: int, r2: int)
    requires m > 0 && k > 0 && q == k * q2 + r2 && 0 <= r < m && 0 <= r2 < k
    ensures m * k > 0 && m * q + r == (m * k) * q2 + (m * r2 + r)
    ensures 0 <= m * r2 + r < m * k
  {
    MulMinus(m, q, r2);
    MulAssoc(m, k, q2);
    MulMono(m, r2 + 1, k);
    MulMono(m, 0, r2);
    MulMinus(m, r2 + 1, 1);
  }

  lemma ModSplit(v: int, m: int, k: int)
    requires m > 0 && k > 0
    ensures m * k > 0
    ensures v % (m * k) == v % m + m * ((v / m) % k)
  {
    var q, r := v / m, v % m;
    Recombine(m, k, q, r, q / k, q % k);
    DivModUnique(v, m * k, q / k, m * (q % k) + r);
  }

  // ----- formats

  /** Significant and physical bits of a sample, byte order, signedness. */
  datatype Format = Format(bits: nat, physBits: nat, bigEndian: bool, unsigned: bool) {
    predicate Valid() { 8 <= bits <= physBits && physBits % 8 == 0 }
    function Bps(): nat { bits / 8 }
    function Phys(): nat { physBits / 8 }
  }

  /** `v ^ (1 << b)` in two's complement. */
  function FlipBit(v: int, b: nat): int {
    if (v / Pow2(b)) % 2 == 1 then v - Pow2(b) else v + Pow2(b)
  }

  /** The value that is packed for sample `res`. */
  function Adjusted(f: Format, res: int): int
    requires f.Valid()
  {
    if f.unsigned then FlipBit(res, f.bits - 1) else res
  }

  /** `(v >> i * 8) & 0xff` with an arithmetic shift. */
  function ByteOf(v: int, i: nat): Byte { (v / Pow2(8 * i)) % 256 }

  /** The significance of the j-th physical byte of a sample. */
  function Rank(f: Format, j: nat): int
    requires j < f.Phys()
  {
    if f.bigEndian then f.Phys() - 1 - j else j
  }

  /** The value of a little-endian list of bytes. */
  function Decode(bytes: seq<Byte>): nat {
    if bytes == [] then 0 else Decode(bytes[..|bytes| - 1]) + bytes[|bytes| - 1] * Pow2(8 * (|bytes| - 1))
  }

  function Packed(v: int, n: nat): seq<Byte> { seq(n, i requires 0 <= i => ByteOf(v, i)) }

  lemma Pow2Eight()
    ensures Pow2(8) == 256
  {
  }

  lemma DecodeStep(v: int, n: nat)
    requires n > 0
    ensures Decode(Packed(v, n)) == Decode(Packed(v, n - 1)) + ByteOf(v, n - 1) * Pow2(8 * (n - 1))
  {
    assert Packed(v, n)[..n - 1] == Packed(v, n - 1);
  }

  lemma ModStep(v: int, n: nat)
    requires n > 0
    ensures v % Pow2(8 * n) == v % Pow2(8 * (n - 1)) + Pow2(8 * (n - 1)) * ByteOf(v, n - 1)
  {
    Pow2Add(8 * (n - 1), 8);
    Pow2Eight();
    ModSplit(v, Pow2(8 * (n - 1)), 256);
  }

  /** The low bytes of a value decode to the value modulo their range. */
  lemma {:induction false} DecodePacked(v: int, n: nat)
    ensures Decode(Packed(v, n)) == v % Pow2(8 * n)
  {
    if n > 0 {
      DecodePacked(v, n - 1);
      DecodeStep(v, n);
      ModStep(v, n);
    }
  }

  /** Flipping the top bit adds half the range ... */
  lemma FlipTopBit(v: int, b: nat)
    ensures FlipBit(v, b) % Pow2(b + 1) == (v + Pow2(b)) % Pow2(b + 1)
  {
    var p := Pow2(b);
    if (v / p) % 2 == 1 {
      ModPlusMultiple(v - p, 2 * p, 1);
    }
  }

  /** ... and leaves every lower range alone. */
  lemma FlipAbove(v: int, b: nat, n: nat)
    requires n <= b
    ensures FlipBit(v, b) % Pow2(n) == v % Pow2(n)
  {
    Pow2Add(n, b - n);
    var p: int := Pow2(b - n);
    var k := if (v / Pow2(b)) % 2 == 1 then -p else p;
    assert FlipBit(v, b) == v + Pow2(n) * k;
    ModPlusMultiple(v, Pow2(n), k);
  }

  /** What a reader of the stored bytes gets back: the sample modulo the stored range; for
      unsigned formats of whole bytes, offset by half the range; and when the width is not
      a whole number of bytes the sign flip falls outside the stored bytes. */
  lemma StoredValue(f: Format, res: int)
    requires f.Valid()
    ensures f.Bps() == f.bits / 8
    ensures Decode(Packed(Adjusted(f, res), f.Bps()))
            == if f.unsigned && f.bits % 8 == 0 then (res + Pow2(f.bits - 1)) % Pow2(f.bits)
               else res % Pow2(8 * (f.bits / 8))
    ensures f.bits % 8 == 0 ==> 8 * (f.bits / 8) == f.bits
  {
    DecodePacked(Adjusted(f, res), f.Bps());
    if f.unsigned {
      if f.bits % 8 == 0 {
        FlipTopBit(res, f.bits - 1);
      } else {
        FlipAbove(res, f.bits - 1, 8 * f.Bps());
      }
    }
  }

  /** The stored bytes hold the sample offset by half their range. */
  ghost predicate IsOffset(f: Format, res: int)
    requires f.Valid()
  {
    var n := 8 * f.Bps();
    Decode(Packed(Adjusted(f, res), f.Bps())) == (res + Pow2(n - 1)) % Pow2(n)
  }

  lemma WholeBytesOffset(f: Format, res: int)
    requires f.Valid() && f.unsigned && f.bits % 8 == 0
    ensures IsOffset(f, res)
  {
    StoredValue(f, res);
  }

  lemma PartBytesDoNot(f: Format)
    requires f.Valid() && f.unsigned && f.bits % 8 != 0
    ensures Decode(Packed(Adjusted(f, 0), f.Bps())) == 0 && !IsOffset(f, 0)
  {
    var n := 8 * f.Bps();
    StoredValue(f, 0);
    SmallMod(0, Pow2(n));
    SmallMod(Pow2(n - 1), Pow2(n));
  }

  /** An unsigned format offsets every sample exactly when its width is a whole number of
      bytes; otherwise silence, the sample 0, is stored as 0 and not as the middle. */
  lemma OffsetIff(f: Format)
    requires f.Valid() && f.unsigned
    ensures (forall res :: IsOffset(f, res)) <==> f.bits % 8 == 0
    ensures f.bits % 8 != 0 ==> Decode(Packed(Adjusted(f, 0), f.Bps())) == 0 && !IsOffset(f, 0)
  {
    if f.bits % 8 == 0 {
      forall res ensures IsOffset(f, res) {
        WholeBytesOffset(f, res);
      }
    } else {
      PartBytesDoNot(f);
    }
  }

  lemma SmallMod(v: nat, d: nat)
    requires v < d
    ensures v % d == v
  {
  }

  /** For one: silence in unsigned 20 bit samples of three bytes. */
  lemma TwentyBitSilence(f: Format)
    requires f.bits == 20 && f.physBits == 24 && f.unsigned
    ensures !IsOffset(f, 0) && Decode(Packed(Adjusted(f, 0), f.Bps())) == 0
  {
    OffsetIff(f);
  }

  // ----- the interleaved memory

  /** The number of interleaved samples before frame `frame`. */
  function Units(channels: nat, frame: nat): nat { Times(frame, channels) }

  /** The first byte of a sample. */
  function Start(f: Format, unit: nat): nat { Times(unit, f.Phys()) }

  /** The bytes of the memory belong to samples in turn: what byte `p` should hold once
      the samples from frame `offset` up to sample number `hi` are written. */
  function Image(f: Format, channels: nat, offset: nat, hi: nat, sample: nat -> int, was: Byte, p: nat): Byte
    requires f.Valid() && channels > 0
  {
    var unit, j := p / f.Phys(), p % f.Phys();
    if Units(channels, offset) <= unit < hi && unit / channels >= offset && Rank(f, j) < f.Bps()
    then ByteOf(Adjusted(f, sample(unit / channels - offset)), Rank(f, j))
    else was
  }

  /** Byte `p` belongs to sample number `unit` exactly when it lies in its physical bytes. */
  lemma UnitOf(f: Format, p: nat, unit: nat)
    requires f.Valid()
    ensures p / f.Phys() == unit <==> Start(f, unit) <= p < Start(f, unit) + f.Phys()
    ensures p / f.Phys() == unit ==> p % f.Phys() == p - Start(f, unit)
  {
    TimesIsProduct(unit, f.Phys());
    if Start(f, unit) <= p < Start(f, unit) + f.Phys() {
      DivModUnique(p, f.Phys(), unit, p - Start(f, unit));
    }
  }

  lemma UnitFrame(channels: nat, frame: nat, chn: nat)
    requires chn < channels
    ensures (Units(channels, frame) + chn) / channels == frame
  {
    TimesIsProduct(frame, channels);
    DivModUnique(Units(channels, frame) + chn, channels, frame, chn);
  }

  lemma UnitInside(f: Format, channels: nat, frame: nat, limit: nat, chn: nat)
    requires chn < channels && frame < limit
    ensures Units(channels, frame) + chn < Units(channels, limit)
    ensures Start(f, Units(channels, frame) + chn) + f.Phys() <= Start(f, Units(channels, limit))
  {
    TimesMono(frame + 1, limit, channels);
    TimesMono(Units(channels, frame) + chn + 1, Units(channels, limit), f.Phys());
  }

  /** The inner loops: the significant bytes of one sample, in either byte order. */
  method PackSample(mem: array<Byte>, f: Format, at: nat, v: int)
    requires f.Valid() && at + f.Phys() <= mem.Length
    modifies mem
    ensures forall p :: 0 <= p < mem.Length ==> mem[p] == PackedByte(f, at, v, old(mem[p]), p)
    // the low bytes of the value, as many as the format has whole bytes, and nothing else
    ensures forall i :: 0 <= i < f.physBits / 8 ==>
              var p := at + if f.bigEndian then f.physBits / 8 - 1 - i else i;
              mem[p] == if i < f.bits / 8 then (v / Pow2(8 * i)) % 256 else old(mem[p])
    ensures forall p :: 0 <= p < mem.Length && !(at <= p < at + f.physBits / 8) ==> mem[p] == old(mem[p])
  {
    ghost var was := mem[..];
    for i := 0 to f.Bps()
      invariant forall p :: 0 <= p < mem.Length ==>
                  mem[p] == if at <= p < at + f.Phys() && Rank(f, p - at) < i then ByteOf(v, Rank(f, p - at)) else was[p]
    {
      if f.bigEndian {
        mem[at + f.Phys() - 1 - i] := ByteOf(v, i);
      } else {
        mem[at + i] := ByteOf(v, i);
      }
    }
  }

  /** What byte `p` holds after the sample at `at` is packed. */
  function PackedByte(f: Format, at: nat, v: int, was: Byte, p: nat): Byte {
    if at <= p < at + f.Phys() && Rank(f, p - at) < f.Bps() then ByteOf(v, Rank(f, p - at)) else was
  }

  /** Packing the next sample on top of an image extends the image by one sample. */
  lemma ImageStep(f: Format, channels: nat, offset: nat, k: nat, chn: nat, sample: nat -> int, was: Byte, now: Byte, p: nat)
    requires f.Valid() && chn < channels
    requires now == Image(f, channels, offset, Units(channels, offset + k) + chn, sample, was, p)
    ensures var unit := Units(channels, offset + k) + chn;
            Image(f, channels, offset, unit + 1, sample, was, p)
            == PackedByte(f, Start(f, unit), Adjusted(f, sample(k)), now, p)
  {
    UnitOf(f, p, Units(channels, offset + k) + chn);
    UnitFrame(channels, offset + k, chn);
    TimesMono(offset, offset + k, channels);
  }

  /** Every byte of the memory shows the image up to sample number `hi`. */
  ghost predicate Shows(mem: seq<Byte>, f: Format, channels: nat, offset: nat, hi: nat, sample: nat -> int, was: seq<Byte>)
    requires f.Valid() && channels > 0 && |was| == |mem|
  {
    forall p :: 0 <= p < |mem| ==> mem[p] == Image(f, channels, offset, hi, sample, was[p], p)
  }

  lemma ImageGrows(f: Format, channels: nat, offset: nat, k: nat, chn: nat, sample: nat -> int,
                   was: seq<Byte>, before: seq<Byte>, after: seq<Byte>)
    requires f.Valid() && chn < channels && |was| == |before| == |after|
    requires Shows(before, f, channels, offset, Units(channels, offset + k) + chn, sample, was)
    requires forall p :: 0 <= p < |after| ==>
               after[p] == PackedByte(f, Start(f, Units(channels, offset + k) + chn), Adjusted(f, sample(k)), before[p], p)
    ensures Shows(after, f, channels, offset, Units(channels, offset + k) + chn + 1, sample, was)
  {
    forall p | 0 <= p < |after|
      ensures after[p] == Image(f, channels, offset, Units(channels, offset + k) + chn + 1, sample, was[p], p)
    {
      ImageStep(f, channels, offset, k, chn, sample, was[p], before[p], p);
    }
  }

  /** The channel pointers at the start of a frame. */
  ghost predicate PointsAt(samples: seq<nat>, f: Format, first: nat) {
    forall c :: 0 <= c < |samples| ==> samples[c] == Start(f, first + c)
  }

  /** One frame: the same sample on every channel, the channel pointers moving on. */
  method PutFrame(mem: array<Byte>, f: Format, channels: nat, offset: nat, k: nat, sample: nat -> int,
                  samples: seq<nat>, step: nat, ghost was: seq<Byte>) returns (next: seq<nat>)
    requires f.Valid() && channels > 0 && |samples| == channels && |was| == mem.Length && step == Start(f, channels)
    requires PointsAt(samples, f, Units(channels, offset + k))
    requires Start(f, Units(channels, offset + k + 1)) <= mem.Length
    requires Shows(mem[..], f, channels, offset, Units(channels, offset + k), sample, was)
    modifies mem
    ensures |next| == channels && PointsAt(next, f, Units(channels, offset + k + 1))
    ensures Shows(mem[..], f, channels, offset, Units(channels, offset + k + 1), sample, was)
  {
    var res := Adjusted(f, sample(k));
    next := samples;
    ghost var first := Units(channels, offset + k);
    for chn := 0 to channels
      invariant |next| == channels
      invariant forall c :: chn <= c < channels ==> next[c] == samples[c]
      invariant forall c :: 0 <= c < chn ==> next[c] == samples[c] + step
      invariant Shows(mem[..], f, channels, offset, first + chn, sample, was)
    {
      ghost var before := mem[..];
      UnitInside(f, channels, offset + k, offset + k + 1, chn);
      PackSample(mem, f, next[chn], res);
      ImageGrows(f, channels, offset, k, chn, sample, was, before, mem[..]);
      next := next[chn := next[chn] + step];
    }
    assert first + channels == Units(channels, offset + k + 1);
    forall c | 0 <= c < channels ensures next[c] == Start(f, Units(channels, offset + k + 1) + c) {
      TimesAdd(first + c, channels, f.Phys());
    }
  }

  /** Where the i-th least significant byte of a sample lies: samples of `physBits / 8` bytes,
      one per channel in each frame. */
  function At(f: Format, channels: nat, frame: nat, chn: nat, i: nat): nat
    requires i < f.physBits / 8
  {
    (frame * channels + chn) * (f.physBits / 8) + if f.bigEndian then f.physBits / 8 - 1 - i else i
  }

  lemma AtIs(f: Format, channels: nat, frame: nat, chn: nat, i: nat)
    requires f.Valid() && i < f.physBits / 8
    ensures f.Phys() == f.physBits / 8
    ensures At(f, channels, frame, chn, i)
            == Start(f, Units(channels, frame) + chn) + if f.bigEndian then f.Phys() - 1 - i else i
  {
    TimesIsProduct(frame, channels);
    TimesIsProduct(frame * channels + chn, f.Phys());
  }

  /** Byte `i` of the sample `v` in its place: among its low `bits / 8` bytes the value's, else as it was. */
  ghost predicate HoldsByte(mem: seq<Byte>, was: seq<Byte>, f: Format, channels: nat, frame: nat, chn: nat, i: nat, v: int)
    requires i < f.physBits / 8 && |mem| == |was|
  {
    var p := At(f, channels, frame, chn, i);
    p < |mem| && mem[p] == if i < f.bits / 8 then (v / Pow2(8 * i)) % 256 else was[p]
  }

  /** The sample of a frame in its place on channel `chn`. */
  ghost predicate HoldsSample(mem: seq<Byte>, was: seq<Byte>, f: Format, channels: nat, frame: nat, chn: nat, v: int)
    requires |mem| == |was|
  {
    forall i: nat :: i < f.physBits / 8 ==> HoldsByte(mem, was, f, channels, frame, chn, i, v)
  }

  /** The k-th sample generated, in the k-th frame from `offset`. */
  ghost predicate HoldsFrame(mem: seq<Byte>, was: seq<Byte>, f: Format, channels: nat, offset: nat, k: nat, chn: nat, sample: nat -> int)
    requires f.Valid() && |mem| == |was|
  {
    HoldsSample(mem, was, f, channels, offset + k, chn, Adjusted(f, sample(k)))
  }

  /** Byte `p` lies before or after the `count` frames from `offset`. */
  predicate Outside(f: Format, channels: nat, offset: nat, count: nat, p: nat) {
    p < offset * channels * (f.physBits / 8) || p >= (offset + count) * channels * (f.physBits / 8)
  }

  /** `count` frames from `offset` hold their samples on every channel, and no byte before or
      after them has changed. */
  ghost predicate Filled(mem: seq<Byte>, was: seq<Byte>, f: Format, channels: nat, offset: nat, count: nat, sample: nat -> int)
    requires f.Valid() && |mem| == |was|
  {
    && (forall k: nat, chn: nat :: k < count && chn < channels ==>
         HoldsFrame(mem, was, f, channels, offset, k, chn, sample))
    && (forall p: nat :: p < |mem| && Outside(f, channels, offset, count, p) ==> mem[p] == was[p])
  }

  lemma ShownByte(f: Format, channels: nat, offset: nat, count: nat, sample: nat -> int,
                  was: seq<Byte>, mem: seq<Byte>, k: nat, chn: nat, i: nat)
    requires f.Valid() && k < count && chn < channels && |was| == |mem| && i < f.physBits / 8
    requires Start(f, Units(channels, offset + count)) <= |mem|
    requires Shows(mem, f, channels, offset, Units(channels, offset + count), sample, was)
    ensures HoldsByte(mem, was, f, channels, offset + k, chn, i, Adjusted(f, sample(k)))
  {
    UnitInside(f, channels, offset + k, offset + count, chn);
    AtIs(f, channels, offset + k, chn, i);
    var p := At(f, channels, offset + k, chn, i);
    assert mem[p] == Image(f, channels, offset, Units(channels, offset + count), sample, was[p], p);
    StoredByte(f, channels, offset, Units(channels, offset + count), sample, was[p], k, chn, i);
  }

  lemma ShownSample(f: Format, channels: nat, offset: nat, count: nat, sample: nat -> int,
                    was: seq<Byte>, mem: seq<Byte>, k: nat, chn: nat)
    requires f.Valid() && k < count && chn < channels && |was| == |mem|
    requires Start(f, Units(channels, offset + count)) <= |mem|
    requires Shows(mem, f, channels, offset, Units(channels, offset + count), sample, was)
    ensures HoldsFrame(mem, was, f, channels, offset, k, chn, sample)
  {
    var frame, v := offset + k, Adjusted(f, sample(k));
    forall i: nat | i < f.physBits / 8 ensures HoldsByte(mem, was, f, channels, frame, chn, i, v) {
      ShownByte(f, channels, offset, count, sample, was, mem, k, chn, i);
    }
  }

  lemma ShownOutside(f: Format, channels: nat, offset: nat, count: nat, sample: nat -> int, was: Byte, p: nat)
    requires f.Valid() && channels > 0 && Outside(f, channels, offset, count, p)
    ensures Image(f, channels, offset, Units(channels, offset + count), sample, was, p) == was
  {
    ProductStart(f, channels, offset);
    ProductStart(f, channels, offset + count);
    var unit := p / f.Phys();
    UnitOf(f, p, unit);
    if Units(channels, offset) <= unit {
      TimesMono(Units(channels, offset), unit, f.Phys());
    }
    if unit < Units(channels, offset + count) {
      TimesMono(unit + 1, Units(channels, offset + count), f.Phys());
    }
  }

  lemma ShownIsFilled(f: Format, channels: nat, offset: nat, count: nat, sample: nat -> int, was: seq<Byte>, mem: seq<Byte>)
    requires f.Valid() && channels > 0 && |was| == |mem| && Start(f, Units(channels, offset + count)) <= |mem|
    requires Shows(mem, f, channels, offset, Units(channels, offset + count), sample, was)
    ensures Filled(mem, was, f, channels, offset, count, sample)
  {
    forall k: nat, chn: nat | k < count && chn < channels
      ensures HoldsFrame(mem, was, f, channels, offset, k, chn, sample)
    {
      ShownSample(f, channels, offset, count, sample, was, mem, k, chn);
    }
    forall p: nat | p < |mem| && Outside(f, channels, offset, count, p) ensures mem[p] == was[p] {
      assert mem[p] == Image(f, channels, offset, Units(channels, offset + count), sample, was[p], p);
      ShownOutside(f, channels, offset, count, sample, was[p], p);
    }
  }

  lemma ProductStart(f: Format, channels: nat, frame: nat)
    ensures Start(f, Units(channels, frame)) == frame * channels * (f.physBits / 8)
  {
    TimesIsProduct(frame, channels);
    TimesIsProduct(frame * channels, f.Phys());
  }

  /** generate_sine on the interleaved areas set up in main: aborts on a frame that is not a
      multiple of 16 bits, and otherwise fills exactly the significant bytes of the
      samples of `count` frames from `offset`. */
  method GenerateSine(mem: array<Byte>, f: Format, channels: nat, offset: nat, count: nat, sample: nat -> int)
    returns (ok: bool)
    requires f.Valid() && channels > 0 && Start(f, Units(channels, offset + count)) <= mem.Length
    modifies mem
    ensures ok <==> (channels * f.physBits) % 16 == 0
    ensures !ok ==> mem[..] == old(mem[..])
    ensures ok ==> Shows(mem[..], f, channels, offset, Units(channels, offset + count), sample, old(mem[..]))
    ensures ok ==> Filled(mem[..], old(mem[..]), f, channels, offset, count, sample)
  {
    ok := (channels * f.physBits) % 16 == 0;
    if !ok {
      return;
    }
    ghost var was := mem[..];
    var step := StepBytes(f, channels);
    var samples := StartPointers(f, channels, offset, step);
    for k := 0 to count
      invariant |samples| == channels && PointsAt(samples, f, Units(channels, offset + k))
      invariant Shows(mem[..], f, channels, offset, Units(channels, offset + k), sample, was)
    {
      TimesMono(offset + k + 1, offset + count, channels);
      TimesMono(Units(channels, offset + k + 1), Units(channels, offset + count), f.Phys());
      samples := PutFrame(mem, f, channels, offset, k, sample, samples, step, was);
    }
    ShownIsFilled(f, channels, offset, count, sample, was, mem[..]);
  }

  /** `areas[chn].step / 8`. */
  method StepBytes(f: Format, channels: nat) returns (step: nat)
    requires f.Valid()
    ensures step == Start(f, channels)
  {
    step := channels * f.physBits / 8;
    TimesIsProduct(channels, f.Phys());
    assert f.physBits == 8 * f.Phys();
    MulAssoc(channels, 8, f.Phys());
    assert channels * f.physBits == 8 * (channels * f.Phys());
  }

  /** The pointer set-up loop: `first / 8`, moved on by `offset` frames. */
  method StartPointers(f: Format, channels: nat, offset: nat, step: nat) returns (samples: seq<nat>)
    requires f.Valid() && step == Start(f, channels)
    ensures |samples| == channels && PointsAt(samples, f, Units(channels, offset))
  {
    samples := [];
    for chn := 0 to channels
      invariant |samples| == chn && PointsAt(samples, f, Units(channels, offset))
    {
      StartOf(f, channels, offset, chn);
      samples := samples + [chn * f.physBits / 8 + offset * step];
    }
  }

  lemma StartOf(f: Format, channels: nat, offset: nat, chn: nat)
    requires f.Valid()
    ensures chn * f.physBits / 8 + offset * Start(f, channels) == Start(f, Units(channels, offset) + chn)
  {
    TimesAdd(Units(channels, offset), chn, f.Phys());
    TimesIsProduct(chn, f.Phys());
    TimesIsProduct(Units(channels, offset), f.Phys());
    TimesIsProduct(offset, channels);
    TimesIsProduct(channels, f.Phys());
    MulAssoc(offset, channels, f.Phys());
    assert f.physBits == 8 * f.Phys();
    assert chn * f.physBits == 8 * (chn * f.Phys());
  }

  /** The stored bytes of a sample, least significant first. */
  function StoredBytes(mem: seq<Byte>, f: Format, unit: nat): (r: seq<Byte>)
    requires f.Valid() && Start(f, unit) + f.Phys() <= |mem|
  {
    seq(f.Bps(), i requires 0 <= i < f.Bps() => mem[Start(f, unit) + if f.bigEndian then f.Phys() - 1 - i else i])
  }

  lemma StoredByte(f: Format, channels: nat, offset: nat, hi: nat, sample: nat -> int, was: Byte, k: nat, chn: nat, i: nat)
    requires f.Valid() && chn < channels && i < f.Phys() && Units(channels, offset + k) + chn < hi
    ensures var p := Start(f, Units(channels, offset + k) + chn) + if f.bigEndian then f.Phys() - 1 - i else i;
            Image(f, channels, offset, hi, sample, was, p) == if i < f.Bps() then ByteOf(Adjusted(f, sample(k)), i) else was
  {
    var unit := Units(channels, offset + k) + chn;
    UnitOf(f, Start(f, unit) + if f.bigEndian then f.Phys() - 1 - i else i, unit);
    UnitFrame(channels, offset + k, chn);
    TimesMono(offset, offset + k, channels);
  }

  /** Reading back channel `chn` of the k-th generated frame gives the sample: modulo the
      stored range, offset by half of it for unsigned formats of whole bytes. */
  lemma ReadBack(f: Format, channels: nat, offset: nat, count: nat, sample: nat -> int,
                 was: seq<Byte>, mem: seq<Byte>, k: nat, chn: nat)
    requires f.Valid() && k < count && chn < channels && |was| == |mem|
    requires Start(f, Units(channels, offset + count)) <= |mem|
    requires Shows(mem, f, channels, offset, Units(channels, offset + count), sample, was)
    ensures Start(f, Units(channels, offset + k) + chn) + f.Phys() <= |mem|
    ensures |StoredBytes(mem, f, Units(channels, offset + k) + chn)| == f.bits / 8
    ensures Decode(StoredBytes(mem, f, Units(channels, offset + k) + chn))
            == if f.bits % 8 != 0 then sample(k) % Pow2(8 * (f.bits / 8))
               else if f.unsigned then (sample(k) + Pow2(f.bits - 1)) % Pow2(f.bits)
               else sample(k) % Pow2(f.bits)
  {
    var unit := Units(channels, offset + k) + chn;
    UnitInside(f, channels, offset + k, offset + count, chn);
    StoredIsPacked(f, channels, offset, count, sample, was, mem, k, chn);
    StoredValue(f, sample(k));
  }

  lemma StoredIsPacked(f: Format, channels: nat, offset: nat, count: nat, sample: nat -> int,
                       was: seq<Byte>, mem: seq<Byte>, k: nat, chn: nat)
    requires f.Valid() && k < count && chn < channels && |was| == |mem|
    requires Start(f, Units(channels, offset + k) + chn) + f.Phys() <= |mem|
    requires Shows(mem, f, channels, offset, Units(channels, offset + count), sample, was)
    ensures StoredBytes(mem, f, Units(channels, offset + k) + chn) == Packed(Adjusted(f, sample(k)), f.Bps())
  {
    var unit := Units(channels, offset + k) + chn;
    UnitInside(f, channels, offset + k, offset + count, chn);
    forall i | 0 <= i < f.Bps() ensures StoredBytes(mem, f, unit)[i] == ByteOf(Adjusted(f, sample(k)), i) {
      var p := Start(f, unit) + if f.bigEndian then f.Phys() - 1 - i else i;
      StoredByte(f, channels, offset, Units(channels, offset + count), sample, was[p], k, chn, i);
    }
  }
}
