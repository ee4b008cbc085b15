/** WAV amplitude scaling: a chunk walker over hostile sizes and an in-place
    rewrite of the 16-bit samples of the first data chunk. */
module Wav {
  import opened Prelude

  // --------------------------------------------------------------- numbers

  function U16(lo: byte, hi: byte): int {
    lo as int + 256 * (hi as int)
  }

  function U32(bytes: seq<byte>, at: nat): nat
    requires at + 4 <= |bytes|
  {
    bytes[at] as int + 256 * (bytes[at + 1] as int) + 65536 * (bytes[at + 2] as int) + 16777216 * (bytes[at + 3] as int)
  }

  /** `i16::from_le_bytes`. */
  function I16(lo: byte, hi: byte): (r: int)
    ensures -32768 <= r < 32768
  {
    var u := U16(lo, hi);
    if u >= 32768 then u - 65536 else u
  }

  /** `i16::to_le_bytes`, low and high byte. */
  function Low(v: int): byte
    requires -32768 <= v < 32768
  {
    (v % 256) as byte
  }

  function High(v: int): byte
    requires -32768 <= v < 32768
  {
    ((if v < 0 then v + 65536 else v) / 256) as byte
  }

  lemma SampleRoundTrip(v: int)
    requires -32768 <= v < 32768
    ensures I16(Low(v), High(v)) == v
  {
    var u := if v < 0 then v + 65536 else v;
    assert u % 256 == v % 256;
    assert u == 256 * (u / 256) + u % 256;
  }

  function Exact(k: int): real { k as real }

  function At(fl: real -> real, x: real): real { fl(x) }

  /** Single-precision rounding, known only by what IEEE 754 promises in the range
      the scaler uses: it is monotone, exact on 16-bit integers, and off by at most
      half a unit in the last place. */
  ghost predicate SinglePrecision(fl: real -> real) {
    && (forall x: real, y: real :: -40000.0 <= x <= y <= 40000.0 ==> At(fl, x) <= At(fl, y))
    && (forall k: int :: -40000 <= k <= 40000 ==> At(fl, Exact(k)) == Exact(k))
    && (forall x: real :: 0.001 <= x <= 40000.0 ==> Near(At(fl, x), x))
    && (forall x: real :: -40000.0 <= x <= -0.001 ==> Near(-At(fl, x), -x))
  }

  predicate Near(y: real, x: real) {
    x - x / 16777216.0 <= y <= x + x / 16777216.0
  }

  /** `f32::round`: to the nearest integer, halves away from zero. */
  function Round(x: real): int {
    if x >= 0.0 then (x + 0.5).Floor else -((-x + 0.5).Floor)
  }

  function Clamp(v: int): int {
    if v < -32768 then -32768 else if v > 32767 then 32767 else v
  }

  /** A product of reals under a name of its own, so that facts about it are
      facts about one term. */
  function Times(a: real, b: real): real { a * b }

  function Gain(fl: real -> real, volume: nat): real {
    fl(Percent(volume))
  }

  function Percent(volume: nat): real { volume as real / 100.0 }

  /** `sample as f32 * gain` with `gain = volume as f32 / 100.0`, both rounded. */
  function Product(fl: real -> real, volume: nat, sample: int): real {
    fl(Times(Exact(sample), Gain(fl, volume)))
  }

  /** `(sample as f32 * gain).round()`. */
  function Scaled(fl: real -> real, volume: nat, sample: int): int {
    Round(Product(fl, volume, sample))
  }

  // ------------------------------------------------------ real arithmetic

  lemma TimesMonotone(m: real, a: real, b: real)
    requires 0.0 <= m && a <= b
    ensures Times(m, a) <= Times(m, b)
  {
    assert m * (b - a) >= 0.0;
  }

  lemma TimesUnit(m: real)
    ensures Times(m, 0.0) == 0.0 && Times(m, 1.0) == m && Times(0.0, m) == 0.0
  {
  }

  lemma TimesNegative(a: real, b: real)
    ensures Times(-a, b) == -Times(a, b)
  {
  }

  lemma TimesSum(m: real, a: real, b: real)
    ensures Times(m, a + b) == Times(m, a) + Times(m, b)
    ensures Times(m, a - b) == Times(m, a) - Times(m, b)
  {
  }

  lemma TimesBounds(m: real, g: real)
    requires 0.0 <= g <= 1.0 && 0.0 <= m
    ensures 0.0 <= Times(m, g) <= m
  {
    TimesMonotone(m, 0.0, g);
    TimesMonotone(m, g, 1.0);
    TimesUnit(m);
  }

  lemma SmallTimes(m: real, e: real)
    requires 0.0 <= m <= 32768.0 && 0.0 <= e <= 0.0000001
    ensures 0.0 <= Times(m, e) <= 0.004
  {
    TimesMonotone(m, e, 0.0000001);
    TimesMonotone(m, 0.0, e);
    TimesUnit(m);
    assert Times(m, 0.0000001) == m * 0.0000001;
  }

  /** Two relative errors of 2^-24 on a magnitude below 2^15 stay below 1/100. */
  lemma TwoRoundings(m: real, v: real, g: real, p: real)
    requires 1.0 <= m <= 32768.0 && 0.01 <= v <= 1.0 && 0.0 <= g <= 1.0
    requires Near(g, v) && Near(p, Times(m, g))
    ensures Times(m, v) - 0.01 <= p <= Times(m, v) + 0.01
  {
    var e := v / 16777216.0;
    TimesMonotone(m, v - e, g);
    TimesMonotone(m, g, v + e);
    TimesSum(m, v, e);
    SmallTimes(m, e);
    TimesBounds(m, g);
  }

  lemma TimesAtLeast(m: real, v: real, g: real)
    requires 1.0 <= m && 0.01 <= v <= 1.0 && Near(g, v)
    ensures 0.001 <= Times(m, g)
  {
    TimesMonotone(m, 0.009, g);
    assert Times(m, 0.009) == m * 0.009;
  }

  lemma RoundFacts(x: real, k: int)
    ensures x - 0.5 <= Round(x) as real <= x + 0.5
    ensures x <= k as real ==> Round(x) <= k
    ensures x >= k as real ==> Round(x) >= k
  {
  }

  /** Halves are rounded away from zero. */
  lemma RoundHalf(n: nat)
    ensures Round(n as real + 0.5) == n + 1 && Round(-(n as real + 0.5)) == -(n + 1)
  {
  }

  lemma RoundMonotone(x: real, y: real)
    requires x <= y
    ensures Round(x) <= Round(y)
  {
  }

  // --------------------------------------------------- using the roundings

  lemma Rounds(fl: real -> real, x: real, y: real)
    requires SinglePrecision(fl) && -40000.0 <= x <= y <= 40000.0
    ensures fl(x) <= fl(y)
  {
    assert At(fl, x) <= At(fl, y);
  }

  lemma RoundsExactly(fl: real -> real, k: int)
    requires SinglePrecision(fl) && -40000 <= k <= 40000
    ensures fl(Exact(k)) == Exact(k)
  {
    assert At(fl, Exact(k)) == Exact(k);
  }

  lemma RoundsNear(fl: real -> real, x: real)
    requires SinglePrecision(fl) && 0.001 <= x <= 40000.0
    ensures Near(fl(x), x) && Near(-fl(-x), x)
  {
    assert Near(At(fl, x), x) && Near(-At(fl, -x), -(-x));
  }

  lemma GainBounds(fl: real -> real, volume: nat)
    requires SinglePrecision(fl) && volume < 100
    ensures 0.0 <= Gain(fl, volume) <= 1.0
    ensures volume > 0 ==> 0.01 <= Percent(volume) <= 1.0 && Near(Gain(fl, volume), Percent(volume))
    ensures volume == 0 ==> Gain(fl, volume) == 0.0
  {
    var v := Percent(volume);
    RoundsExactly(fl, 0);
    RoundsExactly(fl, 1);
    Rounds(fl, 0.0, v);
    Rounds(fl, v, 1.0);
    if volume > 0 {
      RoundsNear(fl, v);
    }
  }

  /** A rounded value between zero and an exact bound stays there. */
  lemma RoundsWithin(fl: real -> real, x: real, k: int)
    requires SinglePrecision(fl) && -32768 <= k < 32768
    ensures 0.0 <= x <= Exact(k) ==> 0.0 <= fl(x) <= Exact(k)
    ensures Exact(k) <= x <= 0.0 ==> Exact(k) <= fl(x) <= 0.0
  {
    RoundsExactly(fl, 0);
    RoundsExactly(fl, k);
    if 0.0 <= x <= Exact(k) {
      Rounds(fl, 0.0, x);
      Rounds(fl, x, Exact(k));
    }
    if Exact(k) <= x <= 0.0 {
      Rounds(fl, Exact(k), x);
      Rounds(fl, x, 0.0);
    }
  }

  lemma SignedTimes(sample: int, g: real)
    requires 0.0 <= g <= 1.0
    ensures 0 <= sample ==> 0.0 <= Times(Exact(sample), g) <= Exact(sample)
    ensures sample <= 0 ==> Exact(sample) <= Times(Exact(sample), g) <= 0.0
  {
    if sample >= 0 {
      TimesBounds(Exact(sample), g);
    }
    if sample <= 0 {
      TimesBounds(-Exact(sample), g);
      TimesNegative(Exact(sample), g);
    }
  }

  lemma ProductInRange(fl: real -> real, volume: nat, sample: int)
    requires SinglePrecision(fl) && volume < 100 && -32768 <= sample < 32768
    ensures 0 <= sample ==> 0.0 <= Product(fl, volume, sample) <= Exact(sample)
    ensures sample <= 0 ==> Exact(sample) <= Product(fl, volume, sample) <= 0.0
  {
    GainBounds(fl, volume);
    SignedTimes(sample, Gain(fl, volume));
    RoundsWithin(fl, Times(Exact(sample), Gain(fl, volume)), sample);
  }

  lemma PositiveError(fl: real -> real, m: real, v: real, g: real)
    requires SinglePrecision(fl) && 1.0 <= m <= 32768.0 && 0.01 <= v <= 1.0 && 0.0 <= g <= 1.0 && Near(g, v)
    ensures Times(m, v) - 0.01 <= fl(Times(m, g)) <= Times(m, v) + 0.01
    ensures Times(m, v) - 0.01 <= -fl(-Times(m, g)) <= Times(m, v) + 0.01
  {
    TimesAtLeast(m, v, g);
    TimesBounds(m, g);
    RoundsNear(fl, Times(m, g));
    TwoRoundings(m, v, g, fl(Times(m, g)));
    TwoRoundings(m, v, g, -fl(-Times(m, g)));
  }

  /** The whole error of the two roundings stays under a hundredth. */
  lemma ProductError(fl: real -> real, volume: nat, sample: int)
    requires SinglePrecision(fl) && volume < 100 && -32768 <= sample < 32768
    ensures var exact := Times(Exact(sample), Percent(volume));
      exact - 0.01 <= Product(fl, volume, sample) <= exact + 0.01
  {
    var v, g := Percent(volume), Gain(fl, volume);
    GainBounds(fl, volume);
    if volume == 0 || sample == 0 {
      RoundsExactly(fl, 0);
      TimesUnit(Exact(sample));
      TimesUnit(g);
      TimesUnit(v);
    } else if sample > 0 {
      PositiveError(fl, Exact(sample), v, g);
    } else {
      PositiveError(fl, -Exact(sample), v, g);
      TimesNegative(Exact(sample), g);
      TimesNegative(Exact(sample), v);
    }
  }

  lemma {:induction false} CastProduct(a: int, b: nat)
    ensures Times(Exact(a), b as real) == Exact(a * b)
  {
    if b == 0 {
      TimesUnit(Exact(a));
    } else {
      CastProduct(a, b - 1);
      TimesSum(Exact(a), (b - 1) as real, 1.0);
      TimesUnit(Exact(a));
      assert a * b == a * (b - 1) + a;
    }
  }

  lemma ExactValue(sample: int, volume: nat)
    ensures 100.0 * Times(Exact(sample), Percent(volume)) == Exact(sample * volume)
  {
    CastProduct(sample, volume);
    assert Exact(sample) * (volume as real / 100.0) == (Exact(sample) * volume as real) / 100.0;
  }

  // ---------------------------------------------------------- one sample

  /** Each scaled sample keeps its sign, never grows, is within one of the exact
      value and fits in sixteen bits, so the clamp never bites. */
  lemma SampleScaled(fl: real -> real, volume: nat, sample: int)
    requires SinglePrecision(fl) && volume < 100 && -32768 <= sample < 32768
    ensures var r := Scaled(fl, volume, sample);
      && (0 <= sample ==> 0 <= r <= sample) && (sample <= 0 ==> sample <= r <= 0)
      && -100 < 100 * r - sample * volume < 100
      && Clamp(r) == r
  {
    ProductInRange(fl, volume, sample);
    ProductError(fl, volume, sample);
    ExactValue(sample, volume);
    RoundFacts(Product(fl, volume, sample), sample);
    RoundFacts(Product(fl, volume, sample), 0);
    WithinOne(Product(fl, volume, sample), Times(Exact(sample), Percent(volume)), sample * volume);
  }

  lemma WithinOne(p: real, exact: real, n: int)
    requires exact - 0.01 <= p <= exact + 0.01 && 100.0 * exact == Exact(n)
    ensures -100 < 100 * Round(p) - n < 100
  {
    RoundFacts(p, 0);
  }

  /** What a sample becomes at a volume: from one hundred on, itself. */
  function Level(fl: real -> real, volume: nat, sample: int): int {
    if volume >= 100 then sample else Scaled(fl, volume, sample)
  }

  /** Louder is never quieter: magnitudes are monotone in the volume. */
  lemma SampleMonotone(fl: real -> real, low: nat, high: nat, sample: int)
    requires SinglePrecision(fl) && low <= high && -32768 <= sample < 32768
    ensures 0 <= sample ==> Level(fl, low, sample) <= Level(fl, high, sample)
    ensures sample <= 0 ==> Level(fl, high, sample) <= Level(fl, low, sample)
  {
    if high < 100 {
      ScaledMonotone(fl, low, high, sample);
    } else if low < 100 {
      SampleScaled(fl, low, sample);
    }
  }

  lemma ScaledMonotone(fl: real -> real, low: nat, high: nat, sample: int)
    requires SinglePrecision(fl) && low <= high < 100 && -32768 <= sample < 32768
    ensures 0 <= sample ==> Scaled(fl, low, sample) <= Scaled(fl, high, sample)
    ensures sample <= 0 ==> Scaled(fl, high, sample) <= Scaled(fl, low, sample)
  {
    var a, b := Gain(fl, low), Gain(fl, high);
    GainBounds(fl, low);
    GainBounds(fl, high);
    Rounds(fl, Percent(low), Percent(high));
    SignedTimes(sample, a);
    SignedTimes(sample, b);
    if sample >= 0 {
      TimesMonotone(Exact(sample), a, b);
      Rounds(fl, Times(Exact(sample), a), Times(Exact(sample), b));
      RoundMonotone(Product(fl, low, sample), Product(fl, high, sample));
    }
    if sample <= 0 {
      TimesMonotone(-Exact(sample), a, b);
      TimesNegative(Exact(sample), a);
      TimesNegative(Exact(sample), b);
      Rounds(fl, Times(Exact(sample), b), Times(Exact(sample), a));
      RoundMonotone(Product(fl, high, sample), Product(fl, low, sample));
    }
  }

  // ---------------------------------------------------------- the chunks

  const RIFF: seq<byte> := [82, 73, 70, 70]
  const WAVE: seq<byte> := [87, 65, 86, 69]
  const FMT: seq<byte> := [102, 109, 116, 32]
  const DATA: seq<byte> := [100, 97, 116, 97]

  /** What the walk has found: the last `fmt ` chunk's format and width, and the
      first data chunk's range. */
  datatype Layout = Layout(format: int, bits: int, data: Option<(nat, nat)>)

  predicate HasHeader(bytes: seq<byte>) {
    |bytes| >= 12 && bytes[0..4] == RIFF && bytes[8..12] == WAVE
  }

  /** One chunk header at `pos`: its id, its body and its claimed size. */
  predicate IsFormat(bytes: seq<byte>, pos: nat)
    requires pos + 8 <= |bytes|
  {
    bytes[pos..pos + 4] == FMT && U32(bytes, pos + 4) >= 16 && pos + 24 <= |bytes|
  }

  /** Where the next chunk starts: a chunk of odd size is followed by a pad byte. */
  function NextChunk(bytes: seq<byte>, pos: nat): (next: nat)
    requires pos + 8 <= |bytes|
    ensures next >= pos + 8
  {
    var size := U32(bytes, pos + 4);
    pos + 8 + size + size % 2
  }

  /** The body of the data chunk at `pos`, cut off at the end of the file. */
  function DataRange(bytes: seq<byte>, pos: nat): (nat, nat)
    requires pos + 8 <= |bytes|
  {
    (pos + 8, Min(pos + 8 + U32(bytes, pos + 4), |bytes|))
  }

  function FormatAt(bytes: seq<byte>, pos: nat): int
    requires pos + 24 <= |bytes|
  {
    U16(bytes[pos + 8], bytes[pos + 9])
  }

  function BitsAt(bytes: seq<byte>, pos: nat): int
    requires pos + 24 <= |bytes|
  {
    U16(bytes[pos + 22], bytes[pos + 23])
  }

  function Min(a: nat, b: nat): nat { if a <= b then a else b }

  function Walk(bytes: seq<byte>, pos: nat, format: int, bits: int): Layout
    decreases |bytes| - pos
  {
    if pos + 8 > |bytes| then Layout(format, bits, None)
    else if IsFormat(bytes, pos) then Walk(bytes, NextChunk(bytes, pos), FormatAt(bytes, pos), BitsAt(bytes, pos))
    else if bytes[pos..pos + 4] == DATA then Layout(format, bits, Some(DataRange(bytes, pos)))
    else Walk(bytes, NextChunk(bytes, pos), format, bits)
  }

  /** The range of samples to scale, if the file is 16-bit PCM with a data chunk. */
  function Samples(bytes: seq<byte>): Option<(nat, nat)> {
    if !HasHeader(bytes) then None
    else
      var layout := Walk(bytes, 12, 0, 0);
      if layout.format != 1 || layout.bits != 16 then None else layout.data
  }

  lemma {:induction false} WalkRange(bytes: seq<byte>, pos: nat, format: int, bits: int)
    ensures var d := Walk(bytes, pos, format, bits).data;
      d.Some? ==> pos + 8 <= d.value.0 <= d.value.1 <= |bytes|
    decreases |bytes| - pos
  {
    if pos + 8 <= |bytes| {
      if IsFormat(bytes, pos) {
        WalkRange(bytes, NextChunk(bytes, pos), FormatAt(bytes, pos), BitsAt(bytes, pos));
      } else if bytes[pos..pos + 4] != DATA {
        WalkRange(bytes, NextChunk(bytes, pos), format, bits);
      }
    }
  }

  // --------------------------------------------------------- the rewrite

  /** The start of the whole sample that byte `i` of the range belongs to. */
  function SampleStart(start: nat, i: nat): nat
    requires start <= i
  {
    start + (i - start) / 2 * 2
  }

  function NewSampleValue(fl: real -> real, volume: nat, bytes: seq<byte>, k: nat): int
    requires k + 1 < |bytes|
  {
    Clamp(Scaled(fl, volume, I16(bytes[k], bytes[k + 1])))
  }

  function NewLow(fl: real -> real, volume: nat, bytes: seq<byte>, k: nat): byte
    requires k + 1 < |bytes|
  {
    Low(NewSampleValue(fl, volume, bytes, k))
  }

  function NewHigh(fl: real -> real, volume: nat, bytes: seq<byte>, k: nat): byte
    requires k + 1 < |bytes|
  {
    High(NewSampleValue(fl, volume, bytes, k))
  }

  /** Byte `i` of the result: bytes of whole 16-bit samples are rewritten, every
      other byte is kept. */
  function NewByte(fl: real -> real, volume: nat, bytes: seq<byte>, start: nat, end: nat, i: nat): byte
    requires i < |bytes| && start <= end <= |bytes|
  {
    if start <= i && SampleStart(start, i) + 1 < end then
      var k := SampleStart(start, i);
      if i == k then NewLow(fl, volume, bytes, k) else NewHigh(fl, volume, bytes, k)
    else bytes[i]
  }

  function Rescaled(fl: real -> real, volume: nat, bytes: seq<byte>): seq<byte> {
    if volume >= 100 || Samples(bytes).None? then bytes
    else
      var (start, end) := Samples(bytes).value;
      WalkRange(bytes, 12, 0, 0);
      seq(|bytes|, i requires 0 <= i < |bytes| => NewByte(fl, volume, bytes, start, end, i))
  }

  /** The walk as the program runs it. */
  method FindSamples(bytes: seq<byte>) returns (data: Option<(nat, nat)>)
    ensures data == Samples(bytes)
  {
    if |bytes| < 12 || bytes[0..4] != RIFF || bytes[8..12] != WAVE {
      return None;
    }
    var layout := WalkChunks(bytes);
    if layout.format != 1 || layout.bits != 16 {
      return None;
    }
    return layout.data;
  }

  /** The walk itself, up to the data chunk. */
  method WalkChunks(bytes: seq<byte>) returns (layout: Layout)
    ensures layout == Walk(bytes, 12, 0, 0)
  {
    var format, bits := 0, 0;
    var pos := 12;
    while pos + 8 <= |bytes|
      invariant pos >= 12
      invariant Walk(bytes, 12, 0, 0) == Walk(bytes, pos, format, bits)
      decreases |bytes| - pos
    {
      var size := U32(bytes, pos + 4);
      var body := pos + 8;
      if bytes[pos..pos + 4] == FMT && size >= 16 && body + 16 <= |bytes| {
        format := U16(bytes[body], bytes[body + 1]);
        bits := U16(bytes[body + 14], bytes[body + 15]);
      } else if bytes[pos..pos + 4] == DATA {
        return Layout(format, bits, Some((body, Min(body + size, |bytes|))));
      }
      pos := body + size + size % 2;
    }
    return Layout(format, bits, None);
  }

  /** `scale_wav_pcm16`: rewrite a copy of the buffer in place. */
  method ScaleWav(fl: real -> real, bytes: seq<byte>, volume: nat) returns (out: array<byte>)
    ensures fresh(out) && out[..] == Rescaled(fl, Min(volume, 100), bytes)
  {
    out := new byte[|bytes|](i requires 0 <= i < |bytes| => bytes[i]);
    assert out[..] == bytes;
    var capped := Min(volume, 100);
    if capped >= 100 {
      return;
    }
    var data := FindSamples(bytes);
    if data.Some? {
      ScaleSamples(fl, capped, bytes, data.value.0, data.value.1, out);
    }
  }

  method ScaleSamples(fl: real -> real, volume: nat, bytes: seq<byte>, start: nat, end: nat, out: array<byte>)
    requires volume < 100 && Samples(bytes) == Some((start, end)) && out[..] == bytes
    modifies out
    ensures out[..] == Rescaled(fl, volume, bytes)
  {
    WalkRange(bytes, 12, 0, 0);
    ghost var target := Rescaled(fl, volume, bytes);
    HeadKept(fl, volume, bytes, start, end);
    forall done: nat | start + 2 * done + 1 < end
      ensures Goal(fl, volume, bytes, target, start, done)
    {
      NewSample(fl, volume, bytes, start, end, done);
    }
    ghost var done := SampleLoop(fl, volume, bytes, start, end, target, out);
    TailKept(fl, volume, bytes, start, end, done);
  }

  ghost predicate Goal(fl: real -> real, volume: nat, bytes: seq<byte>, target: seq<byte>, start: nat, done: nat) {
    var i := start + 2 * done;
    i + 1 < |bytes| && Holds(target, i, NewLow(fl, volume, bytes, i), NewHigh(fl, volume, bytes, i))
  }

  method SampleLoop(fl: real -> real, volume: nat, bytes: seq<byte>, start: nat, end: nat,
                    ghost target: seq<byte>, out: array<byte>)
    returns (ghost done: nat)
    requires start <= end <= |bytes| && Spliced(target, bytes, start, out[..])
    requires forall n: nat :: start + 2 * n + 1 < end ==> Goal(fl, volume, bytes, target, start, n)
    modifies out
    ensures end - 1 <= start + 2 * done <= end && Spliced(target, bytes, start + 2 * done, out[..])
  {
    var i := start;
    done := 0;
    while i + 1 < end
      invariant start <= i <= end && i == start + 2 * done
      invariant Spliced(target, bytes, i, out[..])
    {
      ghost var before := out[..];
      assert Goal(fl, volume, bytes, target, start, done);
      ScaleOne(fl, volume, bytes, i, out);
      SpliceTwo(target, bytes, i, NewLow(fl, volume, bytes, i), NewHigh(fl, volume, bytes, i), before, out[..]);
      i, done := i + 2, done + 1;
    }
  }

  /** The buffer part-way: rewritten before `i`, untouched from there on. */
  predicate Spliced(target: seq<byte>, bytes: seq<byte>, i: nat, now: seq<byte>) {
    i <= |bytes| == |target| && now == target[..i] + bytes[i..]
  }

  predicate Holds(target: seq<byte>, i: nat, low: byte, high: byte) {
    i + 1 < |target| && target[i] == low && target[i + 1] == high
  }

  /** Exactly the two bytes of one sample have been written. */
  predicate Replaced(before: seq<byte>, i: nat, low: byte, high: byte, after: seq<byte>) {
    i + 1 < |before| && after == before[i := low][i + 1 := high]
  }

  lemma SpliceTwo(target: seq<byte>, bytes: seq<byte>, i: nat, low: byte, high: byte, before: seq<byte>,
                  after: seq<byte>)
    requires Spliced(target, bytes, i, before) && i + 1 < |bytes|
    requires Holds(target, i, low, high) && Replaced(before, i, low, high, after)
    ensures Spliced(target, bytes, i + 2, after)
  {
  }

  lemma RescaledByte(fl: real -> real, volume: nat, bytes: seq<byte>, start: nat, end: nat, i: nat)
    requires volume < 100 && Samples(bytes) == Some((start, end)) && start <= end <= |bytes| && i < |bytes|
    ensures |Rescaled(fl, volume, bytes)| == |bytes|
    ensures Rescaled(fl, volume, bytes)[i] == NewByte(fl, volume, bytes, start, end, i)
  {
  }

  lemma RescaledLength(fl: real -> real, volume: nat, bytes: seq<byte>)
    ensures |Rescaled(fl, volume, bytes)| == |bytes|
  {
  }

  lemma HeadKept(fl: real -> real, volume: nat, bytes: seq<byte>, start: nat, end: nat)
    requires volume < 100 && Samples(bytes) == Some((start, end)) && start <= end <= |bytes|
    ensures |Rescaled(fl, volume, bytes)| == |bytes|
    ensures Rescaled(fl, volume, bytes)[..start] + bytes[start..] == bytes
  {
    RescaledLength(fl, volume, bytes);
    forall i | 0 <= i < start ensures Rescaled(fl, volume, bytes)[i] == bytes[i] {
      RescaledByte(fl, volume, bytes, start, end, i);
    }
    SamePrefix(Rescaled(fl, volume, bytes), bytes, start);
  }

  lemma SamePrefix(a: seq<byte>, b: seq<byte>, n: nat)
    requires |a| == |b| && n <= |a| && forall i :: 0 <= i < n ==> a[i] == b[i]
    ensures a[..n] + b[n..] == b && a[..n] == b[..n]
  {
  }

  /** One turn of the sample loop. */
  method ScaleOne(fl: real -> real, volume: nat, bytes: seq<byte>, i: nat, out: array<byte>)
    requires i + 1 < |bytes| == out.Length
    modifies out
    ensures Replaced(old(out[..]), i, NewLow(fl, volume, bytes, i), NewHigh(fl, volume, bytes, i), out[..])
  {
    var v := Clamp(Scaled(fl, volume, I16(bytes[i], bytes[i + 1])));
    out[i] := Low(v);
    out[i + 1] := High(v);
  }

  lemma TailKept(fl: real -> real, volume: nat, bytes: seq<byte>, start: nat, end: nat, done: nat)
    requires volume < 100 && Samples(bytes) == Some((start, end)) && start <= end <= |bytes|
    requires end - 1 <= start + 2 * done <= end
    ensures var n := start + 2 * done;
      Rescaled(fl, volume, bytes) == Rescaled(fl, volume, bytes)[..n] + bytes[n..]
  {
    forall j | start + 2 * done <= j < |bytes| ensures NewByte(fl, volume, bytes, start, end, j) == bytes[j] {
      SampleStartBeyond(start, done, j);
    }
  }

  lemma NewSample(fl: real -> real, volume: nat, bytes: seq<byte>, start: nat, end: nat, done: nat)
    requires start + 2 * done + 1 < end <= |bytes|
    requires volume < 100 && Samples(bytes) == Some((start, end))
    ensures Goal(fl, volume, bytes, Rescaled(fl, volume, bytes), start, done)
  {
    SampleStartAt(start, done);
  }

  lemma SampleStartAt(start: nat, done: nat)
    ensures var i := start + 2 * done; SampleStart(start, i) == i && SampleStart(start, i + 1) == i
  {
  }

  lemma SampleStartBeyond(start: nat, done: nat, j: nat)
    requires start + 2 * done <= j
    ensures SampleStart(start, j) >= start + 2 * done
  {
  }

  // ------------------------------------------------------- the guarantees

  /** The chunk walk reads nothing at or after the data chunk's body, so two
      buffers that agree before it have the same layout. */
  lemma {:induction false} WalkReadsPrefix(a: seq<byte>, b: seq<byte>, pos: nat, format: int, bits: int, start: nat)
    requires |a| == |b| && Walk(a, pos, format, bits).data.Some?
    requires Walk(a, pos, format, bits).data.value.0 == start && start <= |a| && a[..start] == b[..start]
    ensures Walk(b, pos, format, bits) == Walk(a, pos, format, bits)
    decreases |a| - pos
  {
    if pos + 8 <= |a| {
      WalkRange(a, pos, format, bits);
      SameHeader(a, b, pos, start);
      var next := NextChunk(a, pos);
      if IsFormat(a, pos) {
        WalkRange(a, next, FormatAt(a, pos), BitsAt(a, pos));
        SameFormat(a, b, pos, start);
        WalkReadsPrefix(a, b, next, FormatAt(a, pos), BitsAt(a, pos), start);
      } else if a[pos..pos + 4] != DATA {
        WalkReadsPrefix(a, b, next, format, bits, start);
      }
    }
  }

  lemma SameHeader(a: seq<byte>, b: seq<byte>, pos: nat, start: nat)
    requires |a| == |b| && pos + 8 <= start <= |a| && a[..start] == b[..start]
    ensures a[pos..pos + 4] == b[pos..pos + 4] && U32(a, pos + 4) == U32(b, pos + 4)
    ensures NextChunk(a, pos) == NextChunk(b, pos) && DataRange(a, pos) == DataRange(b, pos)
  {
    assert forall i :: 0 <= i < start ==> a[i] == a[..start][i] == b[..start][i] == b[i];
  }

  lemma SameFormat(a: seq<byte>, b: seq<byte>, pos: nat, start: nat)
    requires |a| == |b| && pos + 24 <= start <= |a| && a[..start] == b[..start]
    ensures FormatAt(a, pos) == FormatAt(b, pos) && BitsAt(a, pos) == BitsAt(b, pos)
  {
    assert forall i :: 0 <= i < start ==> a[i] == a[..start][i] == b[..start][i] == b[i];
  }

  /** Byte `i` belongs to a whole 16-bit sample of the first data chunk: not to
      another chunk, nor is it the odd byte a data chunk may end with. */
  predicate InWholeSample(bytes: seq<byte>, i: nat) {
    Samples(bytes).Some? &&
    var (start, end) := Samples(bytes).value;
    start <= i && SampleStart(start, i) + 1 < end
  }

  /** Scaling keeps the length and every byte outside the whole samples of the
      first data chunk, and the result parses to the same format and data range. */
  lemma ScalingKeepsLayout(fl: real -> real, volume: nat, bytes: seq<byte>)
    ensures var out := Rescaled(fl, volume, bytes);
      && |out| == |bytes|
      && Samples(out) == Samples(bytes)
      && (forall i :: 0 <= i < |bytes| && !InWholeSample(bytes, i) ==> out[i] == bytes[i])
  {
    WalkRange(bytes, 12, 0, 0);
    if volume < 100 && Samples(bytes).Some? {
      var (start, end) := Samples(bytes).value;
      var out := Rescaled(fl, volume, bytes);
      assert out[..start] == bytes[..start];
      assert forall i :: 0 <= i < 12 ==> out[i] == out[..start][i] == bytes[..start][i] == bytes[i];
      assert out[0..4] == bytes[0..4] && out[8..12] == bytes[8..12];
      WalkReadsPrefix(bytes, out, 12, 0, 0, start);
    }
  }

  /** The sample at `k` reads back from `out` as the input's sample at this volume:
      same sign, no larger, within one of the exact product. */
  predicate ReadsBack(fl: real -> real, volume: nat, bytes: seq<byte>, out: seq<byte>, k: nat) {
    k + 1 < |bytes| == |out| &&
    var before, after := I16(bytes[k], bytes[k + 1]), I16(out[k], out[k + 1]);
    && after == Level(fl, volume, before)
    && (0 <= before ==> 0 <= after <= before) && (before <= 0 ==> before <= after <= 0)
    && -100 < 100 * after - before * Min(volume, 100) < 100
  }

  /** Every whole sample of the result, the `n`th at `k`, is the scaled sample of the
      input. */
  lemma ScalingSamples(fl: real -> real, volume: nat, bytes: seq<byte>, out: seq<byte>, n: nat, k: nat)
    requires SinglePrecision(fl) && Samples(bytes).Some? && out == Rescaled(fl, volume, bytes)
    requires k == Samples(bytes).value.0 + 2 * n && k + 1 < Samples(bytes).value.1
    ensures ReadsBack(fl, volume, bytes, out, k)
  {
    SamplesRange(bytes);
    var (start, end) := Samples(bytes).value;
    if volume < 100 {
      ScaledReadBack(fl, volume, bytes, out, start, end, n, k);
    } else {
      ReadBackKept(fl, volume, bytes, k);
    }
  }

  lemma SamplesRange(bytes: seq<byte>)
    ensures Samples(bytes).Some? ==> 20 <= Samples(bytes).value.0 <= Samples(bytes).value.1 <= |bytes|
  {
    WalkRange(bytes, 12, 0, 0);
  }

  lemma ScaledReadBack(fl: real -> real, volume: nat, bytes: seq<byte>, out: seq<byte>, start: nat, end: nat, n: nat,
                       k: nat)
    requires SinglePrecision(fl) && volume < 100
    requires Samples(bytes) == Some((start, end)) && out == Rescaled(fl, volume, bytes)
    requires k == start + 2 * n && k + 1 < end <= |bytes|
    ensures ReadsBack(fl, volume, bytes, out, k)
  {
    ScaledInOutput(fl, volume, bytes, out, start, end, n, k);
    ReadBackScaled(fl, volume, bytes, out, k);
  }

  lemma ScaledInOutput(fl: real -> real, volume: nat, bytes: seq<byte>, out: seq<byte>, start: nat, end: nat, n: nat,
                       k: nat)
    requires volume < 100 && Samples(bytes) == Some((start, end)) && out == Rescaled(fl, volume, bytes)
    requires k == start + 2 * n && k + 1 < end <= |bytes|
    ensures k + 1 < |bytes| == |out| && Holds(out, k, NewLow(fl, volume, bytes, k), NewHigh(fl, volume, bytes, k))
  {
    RescaledLength(fl, volume, bytes);
    NewSample(fl, volume, bytes, start, end, n);
  }

  lemma ReadBackKept(fl: real -> real, volume: nat, bytes: seq<byte>, k: nat)
    requires volume >= 100 && k + 1 < |bytes|
    ensures ReadsBack(fl, volume, bytes, bytes, k)
  {
  }

  lemma ReadBackScaled(fl: real -> real, volume: nat, bytes: seq<byte>, out: seq<byte>, k: nat)
    requires SinglePrecision(fl) && volume < 100 && k + 1 < |bytes| == |out|
    requires Holds(out, k, NewLow(fl, volume, bytes, k), NewHigh(fl, volume, bytes, k))
    ensures ReadsBack(fl, volume, bytes, out, k)
  {
    var before := I16(bytes[k], bytes[k + 1]);
    SampleScaled(fl, volume, before);
    SampleRoundTrip(Scaled(fl, volume, before));
  }
}
