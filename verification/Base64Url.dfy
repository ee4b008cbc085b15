/** The unpadded URL-safe base64 that names a server in a session link, against the
    decoder of section 5 of RFC 4648. */
module Base64Url {
  import opened Prelude

  const UPPER: string := "ABCDEFGHIJKLMNOPQRSTUVWXYZ"
  const LOWER: string := "abcdefghijklmnopqrstuvwxyz"
  const DIGITS: string := "0123456789"
  const ALPHABET: string := UPPER + LOWER + DIGITS + "-_"

  type Sextet = v: nat | v < 64

  function Symbol(v: Sextet): char {
    ALPHABET[v]
  }

  /** The value of a symbol, by the ranges of RFC 4648 rather than by the table. */
  function Digit(c: char): Option<nat> {
    if 'A' <= c <= 'Z' then Some((c - 'A') as nat)
    else if 'a' <= c <= 'z' then Some((c - 'a') as nat + 26)
    else if '0' <= c <= '9' then Some((c - '0') as nat + 52)
    else if c == '-' then Some(62)
    else if c == '_' then Some(63)
    else None
  }

  lemma UpperAt(s: string, v: nat)
    requires s == UPPER && v < 26
    ensures s[v] == 'A' + v as char
  {
  }

  lemma LowerAt(s: string, v: nat)
    requires s == LOWER && v < 26
    ensures s[v] == 'a' + v as char
  {
  }

  lemma DigitAt(s: string, v: nat)
    requires s == DIGITS && v < 10
    ensures s[v] == '0' + v as char
  {
  }

  /** What the table holds, by ranges. */
  function Ranged(v: Sextet): char {
    if v < 26 then 'A' + v as char
    else if v < 52 then 'a' + (v - 26) as char
    else if v < 62 then '0' + (v - 52) as char
    else if v == 62 then '-' else '_'
  }

  lemma SymbolRanged(v: Sextet)
    ensures Symbol(v) == Ranged(v)
  {
    var upper, lower, digits := UPPER, LOWER, DIGITS;
    var s := upper + lower + digits + "-_";
    assert |upper| == 26 && |lower| == 26 && |digits| == 10;
    if v < 26 {
      UpperAt(upper, v);
      assert s[v] == upper[v];
    } else if v < 52 {
      LowerAt(lower, v - 26);
      assert s[v] == lower[v - 26];
    } else if v < 62 {
      DigitAt(digits, v - 52);
      assert s[v] == digits[v - 52];
    }
  }

  lemma DigitRange(c: char)
    requires Digit(c).Some?
    ensures Digit(c).value < 64 && Ranged(Digit(c).value) == c
  {
  }

  // ----------------------------------------------------------------- chunks

  /** `(b0 << 16) | (b1 << 8) | b2`; the three bytes do not overlap. */
  function Word(b0: byte, b1: byte, b2: byte): nat {
    b0 as nat * 65536 + b1 as nat * 256 + b2 as nat
  }

  function ByteAt(chunk: seq<byte>, i: nat): byte {
    if i < |chunk| then chunk[i] else 0
  }

  function WordOf(chunk: seq<byte>): nat {
    Word(ByteAt(chunk, 0), ByteAt(chunk, 1), ByteAt(chunk, 2))
  }

  /** The six-bit groups of a chunk: one more than it has bytes. */
  function Sextets(chunk: seq<byte>): (r: seq<Sextet>)
    requires 1 <= |chunk| <= 3
    ensures |r| == |chunk| + 1
  {
    var n := WordOf(chunk);
    [n / 262144 % 64, n / 4096 % 64]
    + (if |chunk| > 1 then [n / 64 % 64] else [])
    + (if |chunk| > 2 then [n % 64] else [])
  }

  function EncodeChunk(chunk: seq<byte>): string
    requires 1 <= |chunk| <= 3
  {
    MapSeq(Sextets(chunk), Symbol)
  }

  /** `bytes.chunks(3)`: the next chunk. */
  function Chunk(bytes: seq<byte>): (c: seq<byte>)
    requires bytes != []
    ensures 1 <= |c| <= 3 && |c| <= |bytes|
  {
    if |bytes| > 3 then bytes[..3] else bytes
  }

  function Encode(bytes: seq<byte>): string {
    if bytes == [] then ""
    else
      var chunk := Chunk(bytes);
      EncodeChunk(chunk) + Encode(bytes[|chunk|..])
  }

  /** `base64_url`: the symbols are pushed onto one string. */
  method EncodeInOrder(bytes: seq<byte>) returns (out: string)
    ensures out == Encode(bytes)
  {
    out := "";
    var at := 0;
    while at < |bytes|
      invariant 0 <= at <= |bytes|
      invariant out + Encode(bytes[at..]) == Encode(bytes)
    {
      var chunk := Chunk(bytes[at..]);
      var more := PushChunk(out, chunk);
      EncodeStep(bytes, at, chunk, out, at + |chunk|, more);
      out, at := more, at + |chunk|;
    }
  }

  method PushChunk(before: string, chunk: seq<byte>) returns (out: string)
    requires 1 <= |chunk| <= 3
    ensures out == before + EncodeChunk(chunk)
  {
    var n := WordOf(chunk);
    out := before + [Symbol(n / 262144 % 64)];
    out := out + [Symbol(n / 4096 % 64)];
    if |chunk| > 1 {
      out := out + [Symbol(n / 64 % 64)];
    }
    if |chunk| > 2 {
      out := out + [Symbol(n % 64)];
    }
    SymbolsOf(chunk, n);
  }

  lemma SymbolsOf(chunk: seq<byte>, n: nat)
    requires 1 <= |chunk| <= 3 && n == WordOf(chunk)
    ensures EncodeChunk(chunk) ==
      [Symbol(n / 262144 % 64), Symbol(n / 4096 % 64)]
      + (if |chunk| > 1 then [Symbol(n / 64 % 64)] else [])
      + (if |chunk| > 2 then [Symbol(n % 64)] else [])
  {
  }

  lemma {:induction false} EncodeStep(bytes: seq<byte>, at: nat, chunk: seq<byte>, out: string, next: nat,
                                      more: string)
    requires at < |bytes| && chunk == Chunk(bytes[at..]) && next == at + |chunk|
    requires out + Encode(bytes[at..]) == Encode(bytes) && more == out + EncodeChunk(chunk)
    ensures more + Encode(bytes[next..]) == Encode(bytes)
  {
    assert bytes[at..][|chunk|..] == bytes[next..];
    Regroup(out, EncodeChunk(chunk), Encode(bytes[next..]));
  }

  // ---------------------------------------------------------------- decoding

  function Value(c: char): Sextet {
    var d := Digit(c).GetOr(0);
    if d < 64 then d else 0
  }

  /** Two, three or four sextets back to bytes, with no stray bits left over. */
  function Assemble(d: seq<Sextet>): Option<seq<byte>> {
    if |d| < 2 || |d| > 4 then None
    else
      var d0: nat, d1: nat := d[0], d[1];
      var first := (d0 * 4 + d1 / 16) as byte;
      if |d| == 2 then
        if d1 % 16 == 0 then Some([first]) else None
      else
        var d2: nat := d[2];
        var second := (d1 % 16 * 16 + d2 / 4) as byte;
        if |d| == 3 then
          if d2 % 4 == 0 then Some([first, second]) else None
        else
          var d3: nat := d[3];
          Some([first, second, (d2 % 4 * 64 + d3) as byte])
  }

  predicate Legal(c: char) { Digit(c).Some? }

  function DecodeChunk(s: string): Option<seq<byte>> {
    if Filter(s, Legal) == s then Assemble(MapSeq(s, Value)) else None
  }

  function Decode(s: string): Option<seq<byte>> {
    if s == "" then Some([])
    else if |s| <= 4 then DecodeChunk(s)
    else
      var first, rest := DecodeChunk(s[..4]), Decode(s[4..]);
      if first.Some? && rest.Some? then Some(first.value + rest.value) else None
  }

  /** The four sextets of a word, byte by byte. */
  lemma WordSextets(b0: byte, b1: byte, b2: byte)
    ensures var n := Word(b0, b1, b2);
      && n / 262144 % 64 == b0 as nat / 4
      && n / 4096 % 64 == b0 as nat % 4 * 16 + b1 as nat / 16
      && n / 64 % 64 == b1 as nat % 16 * 4 + b2 as nat / 64
      && n % 64 == b2 as nat % 64
  {
    var n := Word(b0, b1, b2);
    var x, y, z := b0 as nat, b1 as nat, b2 as nat;
    Divide(n, 262144, x / 4, x % 4 * 65536 + y * 256 + z);
    Divide(n, 4096, x * 16 + y / 16, y % 16 * 256 + z);
    Divide(n, 64, x * 1024 + y * 4 + z / 64, z % 64);
    Divide(x * 16 + y / 16, 64, x / 4, x % 4 * 16 + y / 16);
    Divide(x * 1024 + y * 4 + z / 64, 64, x * 16 + y / 16, y % 16 * 4 + z / 64);
  }

  lemma Divide(n: nat, d: nat, q: nat, r: nat)
    requires n == d * q + r && r < d
    ensures n / d == q && n % d == r
  {
    var e := n / d;
    assert n == d * e + n % d;
    if e < q {
      AtLeastOne(d, q - e);
    } else if e > q {
      AtLeastOne(d, e - q);
    }
  }

  lemma AtLeastOne(d: nat, k: nat)
    requires k >= 1
    ensures d * k >= d
  {
  }

  // ------------------------------------------------------------- round trips

  lemma SextetsOf(chunk: seq<byte>)
    requires 1 <= |chunk| <= 3
    ensures var b0, b1, b2 := ByteAt(chunk, 0) as nat, ByteAt(chunk, 1) as nat, ByteAt(chunk, 2) as nat;
      Sextets(chunk) ==
        [b0 / 4, b0 % 4 * 16 + b1 / 16] + (if |chunk| > 1 then [b1 % 16 * 4 + b2 / 64] else [])
        + (if |chunk| > 2 then [b2 % 64] else [])
  {
    WordSextets(ByteAt(chunk, 0), ByteAt(chunk, 1), ByteAt(chunk, 2));
  }

  /** Joining two digits and taking them apart again. */
  lemma TwoDigits(high: nat, low: nat, d: nat)
    requires low < d
    ensures (d * high + low) / d == high && (d * high + low) % d == low
  {
    Divide(d * high + low, d, high, low);
  }

  lemma AssembleAt(d: seq<Sextet>, chunk: seq<byte>)
    requires 1 <= |chunk| <= 3 && |d| == |chunk| + 1
    requires d[0] as nat == chunk[0] as nat / 4
    requires d[1] as nat == chunk[0] as nat % 4 * 16 + ByteAt(chunk, 1) as nat / 16
    requires |chunk| > 1 ==> d[2] as nat == chunk[1] as nat % 16 * 4 + ByteAt(chunk, 2) as nat / 64
    requires |chunk| > 2 ==> d[3] as nat == chunk[2] as nat % 64
    ensures Assemble(d) == Some(chunk)
  {
    TwoDigits(chunk[0] as nat % 4, ByteAt(chunk, 1) as nat / 16, 16);
    TwoDigits(ByteAt(chunk, 1) as nat % 16, ByteAt(chunk, 2) as nat / 64, 4);
    assert d[0] as nat * 4 + d[1] as nat / 16 == chunk[0] as nat;
    assert chunk ==
      if |chunk| == 1 then [chunk[0]]
      else if |chunk| == 2 then [chunk[0], chunk[1]]
      else [chunk[0], chunk[1], chunk[2]];
    if |chunk| > 1 {
      assert d[1] as nat % 16 * 16 + d[2] as nat / 4 == chunk[1] as nat;
    }
    if |chunk| > 2 {
      assert d[2] as nat % 4 * 64 + d[3] as nat == chunk[2] as nat;
    }
  }

  lemma SextetsAssemble(chunk: seq<byte>)
    requires 1 <= |chunk| <= 3
    ensures Assemble(Sextets(chunk)) == Some(chunk)
  {
    SextetsOf(chunk);
    AssembleAt(Sextets(chunk), chunk);
  }

  lemma AssembleSextets(d: seq<Sextet>)
    requires Assemble(d).Some?
    ensures 1 <= |Assemble(d).value| <= 3 && |d| == |Assemble(d).value| + 1
    ensures Sextets(Assemble(d).value) == d
  {
    var e := Sextets(Assemble(d).value);
    SextetsOf(Assemble(d).value);
    TwoDigits(d[0], d[1] as nat / 16, 4);
    if |d| == 2 {
      assert e[0] == d[0] && e[1] == d[1];
    } else {
      TwoDigits(d[1] as nat % 16, d[2] as nat / 4, 16);
      if |d| == 3 {
        assert e[0] == d[0] && e[1] == d[1] && e[2] == d[2];
      } else {
        TwoDigits(d[2] as nat % 4, d[3], 64);
        assert e[0] == d[0] && e[1] == d[1] && e[2] == d[2] && e[3] == d[3];
      }
    }
  }

  lemma SymbolFacts(v: Sextet)
    ensures Value(Symbol(v)) == v && Legal(Symbol(v)) && Unescaped(Symbol(v))
  {
    SymbolRanged(v);
  }

  /** Nothing a path segment must escape, and no `+`, `/` or padding. */
  predicate Unescaped(c: char) { c !in "+/=?#&%" }

  lemma ValueSymbol(d: seq<Sextet>)
    ensures DecodeChunk(MapSeq(d, Symbol)) == Assemble(d)
  {
    var s := MapSeq(d, Symbol);
    forall c | c in s ensures Legal(c) {
      var i :| 0 <= i < |s| && s[i] == c;
      SymbolFacts(d[i]);
    }
    FilterAll(s, Legal);
    ValuesBack(d);
  }

  lemma ValuesBack(d: seq<Sextet>)
    ensures MapSeq(MapSeq(d, Symbol), Value) == d
  {
    forall i | 0 <= i < |d| ensures Value(Symbol(d[i])) == d[i] {
      SymbolFacts(d[i]);
    }
  }

  lemma SymbolValue(s: string)
    requires Filter(s, Legal) == s
    ensures MapSeq(MapSeq(s, Value), Symbol) == s
  {
    forall i | 0 <= i < |s| ensures Symbol(Value(s[i])) == s[i] {
      assert s[i] in Filter(s, Legal);
      DigitRange(s[i]);
      SymbolRanged(Value(s[i]));
    }
  }

  lemma ChunkRoundTrip(chunk: seq<byte>)
    requires 1 <= |chunk| <= 3
    ensures DecodeChunk(EncodeChunk(chunk)) == Some(chunk) && |EncodeChunk(chunk)| == |chunk| + 1
  {
    ValueSymbol(Sextets(chunk));
    SextetsAssemble(chunk);
  }

  lemma ChunkCanonical(s: string)
    requires DecodeChunk(s).Some?
    ensures 1 <= |DecodeChunk(s).value| <= 3 && |s| == |DecodeChunk(s).value| + 1
    ensures EncodeChunk(DecodeChunk(s).value) == s
  {
    AssembleSextets(MapSeq(s, Value));
    SymbolValue(s);
  }

  /** Decoding gives back every byte string that was encoded. */
  lemma {:induction false} DecodeEncode(bytes: seq<byte>)
    ensures Decode(Encode(bytes)) == Some(bytes)
  {
    if bytes != [] {
      var chunk := Chunk(bytes);
      var rest := bytes[|chunk|..];
      ChunkRoundTrip(chunk);
      DecodeEncode(rest);
      assert bytes == chunk + rest;
      var first, others := EncodeChunk(chunk), Encode(rest);
      if rest == [] {
        assert first + others == first;
      } else {
        assert (first + others)[..4] == first && (first + others)[4..] == others;
      }
    }
  }

  /** And a text decodes only if it is the encoding of what it decodes to: each byte
      string has one encoding and every other text is rejected. */
  lemma {:induction false} EncodeDecode(s: string, bytes: seq<byte>)
    ensures Decode(s) == Some(bytes) <==> s == Encode(bytes)
  {
    DecodeEncode(bytes);
    if Decode(s) == Some(bytes) && s != "" {
      if |s| <= 4 {
        ChunkCanonical(s);
        assert EncodeChunk(bytes) + Encode([]) == EncodeChunk(bytes);
      } else {
        var first, rest := DecodeChunk(s[..4]).value, Decode(s[4..]).value;
        ChunkCanonical(s[..4]);
        EncodeDecode(s[4..], rest);
        EncodeAfterThree(first, rest);
        assert s == s[..4] + s[4..];
      }
    }
  }

  lemma EncodeAfterThree(first: seq<byte>, rest: seq<byte>)
    requires |first| == 3
    ensures Encode(first + rest) == EncodeChunk(first) + Encode(rest)
  {
    assert Chunk(first + rest) == first && (first + rest)[3..] == rest;
  }

  /** Four symbols for three bytes, rounded up and not padded, all of them from the
      URL-safe alphabet. */
  lemma {:induction false} EncodedShape(bytes: seq<byte>)
    ensures |Encode(bytes)| == (4 * |bytes| + 2) / 3
    ensures forall c :: c in Encode(bytes) ==> Legal(c) && Unescaped(c)
  {
    if bytes != [] {
      var chunk := Chunk(bytes);
      EncodedShape(bytes[|chunk|..]);
      ChunkShape(chunk);
    }
  }

  lemma ChunkShape(chunk: seq<byte>)
    requires 1 <= |chunk| <= 3
    ensures |EncodeChunk(chunk)| == |chunk| + 1
    ensures forall c :: c in EncodeChunk(chunk) ==> Legal(c) && Unescaped(c)
  {
    forall c | c in EncodeChunk(chunk) ensures Legal(c) && Unescaped(c) {
      var i :| 0 <= i < |EncodeChunk(chunk)| && EncodeChunk(chunk)[i] == c;
      SymbolFacts(Sextets(chunk)[i]);
    }
  }
}
