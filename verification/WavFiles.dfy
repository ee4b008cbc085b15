/** The chunk walk against the files it is for: a RIFF file printed chunk by chunk, with
    every odd body padded, and where its samples are. */
module WavFiles {
  import opened Prelude
  import opened Wav

  function Ascii(s: string): seq<byte> {
    seq(|s|, i requires 0 <= i < |s| => (s[i] as int % 256) as byte)
  }

  /** A 32-bit size, least byte first. */
  function Size(n: nat): (r: seq<byte>)
    ensures |r| == 4
  {
    [(n % 256) as byte, (n / 256 % 256) as byte, (n / 65536 % 256) as byte, (n / 16777216 % 256) as byte]
  }

  /** A chunk, and the byte that pads its body if that is odd. */
  datatype Chunk = Chunk(id: seq<byte>, body: seq<byte>, pad: byte)

  predicate Plain(c: Chunk) {
    |c.id| == 4 && c.id != Ascii("data") && |c.body| < 0x1_0000_0000
  }

  function Printed(c: Chunk): seq<byte> {
    c.id + Size(|c.body|) + c.body + if |c.body| % 2 == 1 then [c.pad] else []
  }

  function PrintedAll(cs: seq<Chunk>): seq<byte> {
    if cs == [] then [] else Printed(cs[0]) + PrintedAll(cs[1..])
  }

  /** A format chunk that is complete: its format and its width. */
  function FormatOf(c: Chunk): Option<(int, int)> {
    if c.id == Ascii("fmt ") && |c.body| >= 16 then
      Some((c.body[0] as int + 256 * (c.body[1] as int), c.body[14] as int + 256 * (c.body[15] as int)))
    else None
  }

  /** The last one decides. */
  function LastFormat(cs: seq<Chunk>, before: (int, int)): (int, int) {
    if cs == [] then before else LastFormat(cs[1..], FormatOf(cs[0]).GetOr(before))
  }

  ghost predicate AllPlain(cs: seq<Chunk>) {
    forall c :: c in cs ==> Plain(c)
  }

  /** Everything up to the data chunk; no size of the whole is checked. */
  function Before(size: seq<byte>, cs: seq<Chunk>): seq<byte> {
    Ascii("RIFF") + size + Ascii("WAVE") + PrintedAll(cs)
  }

  // ------------------------------------------------------------- one chunk

  lemma SizeRead(n: nat, bytes: seq<byte>, at: nat)
    requires n < 0x1_0000_0000 && at + 4 <= |bytes| && bytes[at..at + 4] == Size(n)
    ensures U32(bytes, at) == n
  {
    var s := bytes[at..at + 4];
    assert bytes[at] == s[0] && bytes[at + 1] == s[1] && bytes[at + 2] == s[2] && bytes[at + 3] == s[3];
    FourDigits(n);
  }

  lemma FourDigits(n: nat)
    requires n < 0x1_0000_0000
    ensures n % 256 + 256 * (n / 256 % 256) + 65536 * (n / 65536 % 256) + 16777216 * (n / 16777216 % 256) == n
  {
    assert n / 256 / 256 == n / 65536 && n / 65536 / 256 == n / 16777216;
  }

  /** `part` stands at `at` in `bytes`. */
  predicate Stands(bytes: seq<byte>, at: nat, part: seq<byte>) {
    at + |part| <= |bytes| && bytes[at..at + |part|] == part
  }

  lemma StandsSplit(bytes: seq<byte>, at: nat, a: seq<byte>, b: seq<byte>)
    requires Stands(bytes, at, a + b)
    ensures Stands(bytes, at, a) && Stands(bytes, at + |a|, b)
  {
    assert bytes[at..at + |a|] == (a + b)[..|a|];
    assert bytes[at + |a|..at + |a| + |b|] == (a + b)[|a|..];
  }

  lemma StandsAt(bytes: seq<byte>, at: nat, part: seq<byte>, i: nat)
    requires Stands(bytes, at, part) && i < |part|
    ensures bytes[at + i] == part[i]
  {
    assert bytes[at..at + |part|][i] == part[i];
  }

  lemma ChunkParts(bytes: seq<byte>, pos: nat, c: Chunk)
    requires Plain(c) && Stands(bytes, pos, Printed(c))
    ensures pos + 8 + |c.body| <= |bytes| && bytes[pos..pos + 4] == c.id && U32(bytes, pos + 4) == |c.body|
    ensures Stands(bytes, pos + 8, c.body)
  {
    var pad := if |c.body| % 2 == 1 then [c.pad] else [];
    StandsSplit(bytes, pos, c.id + Size(|c.body|) + c.body, pad);
    StandsSplit(bytes, pos, c.id + Size(|c.body|), c.body);
    StandsSplit(bytes, pos, c.id, Size(|c.body|));
    SizeRead(|c.body|, bytes, pos + 4);
  }

  lemma Names()
    ensures Ascii("fmt ") == FMT && Ascii("data") == DATA && Ascii("RIFF") == RIFF && Ascii("WAVE") == WAVE
  {
  }

  lemma FormatFound(bytes: seq<byte>, pos: nat, c: Chunk)
    requires Plain(c) && Stands(bytes, pos, Printed(c))
    ensures pos + 8 <= |bytes| && (IsFormat(bytes, pos) <==> FormatOf(c).Some?)
    ensures IsFormat(bytes, pos) ==> FormatOf(c) == Some((FormatAt(bytes, pos), BitsAt(bytes, pos)))
  {
    Names();
    ChunkParts(bytes, pos, c);
    if |c.body| >= 16 {
      StandsAt(bytes, pos + 8, c.body, 0);
      StandsAt(bytes, pos + 8, c.body, 1);
      StandsAt(bytes, pos + 8, c.body, 14);
      StandsAt(bytes, pos + 8, c.body, 15);
    }
  }

  lemma NextFound(bytes: seq<byte>, pos: nat, c: Chunk)
    requires Plain(c) && Stands(bytes, pos, Printed(c))
    ensures pos + 8 <= |bytes| && bytes[pos..pos + 4] != DATA && NextChunk(bytes, pos) == pos + |Printed(c)|
  {
    Names();
    ChunkParts(bytes, pos, c);
  }

  /** The walk steps over a chunk that is not data, pad byte and all. */
  lemma WalkOver(bytes: seq<byte>, pos: nat, c: Chunk, found: (int, int), next: nat, now: (int, int), layout: Layout)
    requires Plain(c) && Stands(bytes, pos, Printed(c)) && next == pos + |Printed(c)|
    requires now == FormatOf(c).GetOr(found) && Walk(bytes, next, now.0, now.1) == layout
    ensures Walk(bytes, pos, found.0, found.1) == layout
  {
    FormatFound(bytes, pos, c);
    NextFound(bytes, pos, c);
  }

  lemma {:induction false} WalkOverAll(bytes: seq<byte>, pos: nat, cs: seq<Chunk>, found: (int, int), end: nat,
                                       last: (int, int), layout: Layout)
    requires AllPlain(cs) && Stands(bytes, pos, PrintedAll(cs)) && end == pos + |PrintedAll(cs)|
    requires last == LastFormat(cs, found) && Walk(bytes, end, last.0, last.1) == layout
    ensures Walk(bytes, pos, found.0, found.1) == layout
    decreases |cs|
  {
    if cs != [] {
      var c, rest := cs[0], cs[1..];
      assert c in cs;
      StandsSplit(bytes, pos, Printed(c), PrintedAll(rest));
      var next, now := pos + |Printed(c)|, FormatOf(c).GetOr(found);
      WalkOverAll(bytes, next, rest, now, end, last, layout);
      WalkOver(bytes, pos, c, found, next, now, layout);
    }
  }

  // ------------------------------------------------------------ whole files

  lemma HeaderStands(bytes: seq<byte>, size: seq<byte>, cs: seq<Chunk>)
    requires |size| == 4 && Stands(bytes, 0, Before(size, cs))
    ensures HasHeader(bytes) && |Before(size, cs)| == 12 + |PrintedAll(cs)| && Stands(bytes, 12, PrintedAll(cs))
  {
    Names();
    StandsSplit(bytes, 0, Ascii("RIFF") + size + Ascii("WAVE"), PrintedAll(cs));
    StandsSplit(bytes, 0, Ascii("RIFF") + size, Ascii("WAVE"));
    StandsSplit(bytes, 0, Ascii("RIFF"), size);
  }

  /** The samples, once the walk has come as far as the chunks before the data. */
  lemma SamplesBefore(bytes: seq<byte>, size: seq<byte>, cs: seq<Chunk>, end: nat, last: (int, int), layout: Layout)
    requires |size| == 4 && AllPlain(cs) && Stands(bytes, 0, Before(size, cs)) && end == |Before(size, cs)|
    requires last == LastFormat(cs, (0, 0)) && Walk(bytes, end, last.0, last.1) == layout
    ensures Samples(bytes) == if layout.format != 1 || layout.bits != 16 then None else layout.data
  {
    HeaderStands(bytes, size, cs);
    WalkOverAll(bytes, 12, cs, (0, 0), end, last, layout);
  }

  function Data(n: nat, rest: seq<byte>): seq<byte> {
    Ascii("data") + Size(n) + rest
  }

  lemma DataFound(bytes: seq<byte>, pos: nat, n: nat, rest: seq<byte>)
    requires n < 0x1_0000_0000 && Stands(bytes, pos, Data(n, rest)) && |bytes| == pos + 8 + |rest|
    ensures bytes[pos..pos + 4] == DATA
    ensures DataRange(bytes, pos) == (pos + 8, pos + 8 + if n <= |rest| then n else |rest|)
    ensures !IsFormat(bytes, pos)
  {
    Names();
    StandsSplit(bytes, pos, Ascii("data") + Size(n), rest);
    StandsSplit(bytes, pos, Ascii("data"), Size(n));
    SizeRead(n, bytes, pos + 4);
  }

  /** Whatever chunks stand before the data, with bodies of any length, the samples of a
      PCM file of sixteen bits are the body of its data chunk, cut off where the file
      ends; a file of another format or width has none. `n` is the size the data chunk
      claims, `rest` all that follows it, and `start` where that stands. */
  lemma SamplesOfFile(file: seq<byte>, size: seq<byte>, cs: seq<Chunk>, n: nat, rest: seq<byte>, start: nat)
    requires |size| == 4 && AllPlain(cs) && n < 0x1_0000_0000
    requires file == Before(size, cs) + Data(n, rest) && start == |Before(size, cs)| + 8
    ensures Samples(file) ==
      if LastFormat(cs, (0, 0)) == (1, 16) then Some((start, start + if n <= |rest| then n else |rest|)) else None
  {
    DataStands(Before(size, cs), Data(n, rest));
    SamplesAt(file, size, cs, n, rest, start - 8, LastFormat(cs, (0, 0)));
  }

  lemma DataStands(before: seq<byte>, data: seq<byte>)
    ensures Stands(before + data, 0, before) && Stands(before + data, |before|, data)
  {
  }

  lemma SamplesAt(bytes: seq<byte>, size: seq<byte>, cs: seq<Chunk>, n: nat, rest: seq<byte>, end: nat,
                  last: (int, int))
    requires |size| == 4 && AllPlain(cs) && n < 0x1_0000_0000 && last == LastFormat(cs, (0, 0))
    requires Stands(bytes, 0, Before(size, cs)) && end == |Before(size, cs)|
    requires Stands(bytes, end, Data(n, rest)) && |bytes| == end + 8 + |rest|
    ensures Samples(bytes) ==
      if last == (1, 16) then Some((end + 8, end + 8 + if n <= |rest| then n else |rest|)) else None
  {
    DataFound(bytes, end, n, rest);
    var layout := Layout(last.0, last.1, Some(DataRange(bytes, end)));
    WalkData(bytes, end, last, layout);
    SamplesBefore(bytes, size, cs, end, last, layout);
  }

  lemma WalkData(bytes: seq<byte>, pos: nat, found: (int, int), layout: Layout)
    requires pos + 8 <= |bytes| && bytes[pos..pos + 4] == DATA && !IsFormat(bytes, pos)
    requires layout == Layout(found.0, found.1, Some(DataRange(bytes, pos)))
    ensures Walk(bytes, pos, found.0, found.1) == layout
  {
  }

  /** At volume zero every whole sample of such a file is silent. */
  lemma SilentAtZero(fl: real -> real, file: seq<byte>, out: seq<byte>, size: seq<byte>, cs: seq<Chunk>, n: nat,
                     rest: seq<byte>, start: nat, i: nat, k: nat)
    requires SinglePrecision(fl) && out == Rescaled(fl, 0, file)
    requires |size| == 4 && AllPlain(cs) && n < 0x1_0000_0000 && LastFormat(cs, (0, 0)) == (1, 16)
    requires file == Before(size, cs) + Data(n, rest) && start == |Before(size, cs)| + 8
    requires k == start + 2 * i && 2 * i + 1 < n && 2 * i + 1 < |rest|
    ensures k + 1 < |out| && I16(out[k], out[k + 1]) == 0
  {
    SamplesOfFile(file, size, cs, n, rest, start);
    SilentAt(fl, file, out, start, start + if n <= |rest| then n else |rest|, i, k);
  }

  lemma SilentAt(fl: real -> real, bytes: seq<byte>, out: seq<byte>, start: nat, end: nat, i: nat, k: nat)
    requires SinglePrecision(fl) && out == Rescaled(fl, 0, bytes) && Samples(bytes) == Some((start, end))
    requires k == start + 2 * i && k + 1 < end
    ensures k + 1 < |out| && I16(out[k], out[k + 1]) == 0
  {
    ScalingSamples(fl, 0, bytes, out, i, k);
    SilentSample(fl, bytes, out, k);
  }

  lemma SilentSample(fl: real -> real, bytes: seq<byte>, out: seq<byte>, k: nat)
    requires ReadsBack(fl, 0, bytes, out, k)
    ensures k + 1 < |out| && I16(out[k], out[k + 1]) == 0
  {
  }

  /** A file without a data chunk has no samples, even if it ends in the middle of a
      chunk header. */
  lemma NoDataNoSamples(size: seq<byte>, cs: seq<Chunk>, rest: seq<byte>)
    requires |size| == 4 && AllPlain(cs) && |rest| < 8
    ensures Samples(Before(size, cs) + rest) == None
  {
    var before, last := Before(size, cs), LastFormat(cs, (0, 0));
    var bytes := before + rest;
    assert Stands(bytes, 0, before);
    SamplesBefore(bytes, size, cs, |before|, last, Layout(last.0, last.1, None));
  }

  /** Nor has a file that does not start as a RIFF file of type WAVE. */
  lemma NotWaveNoSamples(bytes: seq<byte>)
    requires |bytes| < 12 || bytes[..4] != Ascii("RIFF") || bytes[8..12] != Ascii("WAVE")
    ensures Samples(bytes) == None
  {
    Names();
    if |bytes| >= 12 {
      assert bytes[0..4] == bytes[..4];
    }
  }
}
