/** Percent coding and the `token` lookup in a query string, over bytes. */
module Query {
  import opened Prelude

  const AMPERSAND: byte := 38
  const PERCENT: byte := 37
  const PLUS: byte := 43
  const EQUALS: byte := 61
  const SPACE: byte := 32
  const TOKEN: seq<byte> := [116, 111, 107, 101, 110]

  // --------------------------------------------------------------- decoding

  function HexValue(b: byte): (r: Option<byte>)
    ensures r.Some? ==> r.value < 16
  {
    if 48 <= b <= 57 then Some(b - 48)
    else if 97 <= b <= 102 then Some(b - 97 + 10)
    else if 65 <= b <= 70 then Some(b - 65 + 10)
    else None
  }

  /** A `%` followed by two more bytes, both hexadecimal. */
  predicate Escaped(s: seq<byte>) {
    |s| > 2 && s[0] == PERCENT && HexValue(s[1]).Some? && HexValue(s[2]).Some?
  }

  function Decoded(s: seq<byte>): seq<byte> {
    if s == [] then []
    else if Escaped(s) then [HexValue(s[1]).value * 16 + HexValue(s[2]).value] + Decoded(s[3..])
    else [if s[0] == PLUS then SPACE else s[0]] + Decoded(s[1..])
  }

  /** `percent_decode`, up to its final conversion to text. */
  method PercentDecode(input: seq<byte>) returns (out: seq<byte>)
    ensures out == Decoded(input)
  {
    out := [];
    var i := 0;
    while i < |input|
      invariant 0 <= i <= |input|
      invariant out + Decoded(input[i..]) == Decoded(input)
    {
      DecodeStep(input, i);
      if input[i] == PERCENT && i + 2 < |input| {
        var hi, lo := HexValue(input[i + 1]), HexValue(input[i + 2]);
        if hi.Some? && lo.Some? {
          Regroup(out, [hi.value * 16 + lo.value], Decoded(input[i + 3..]));
          out := out + [hi.value * 16 + lo.value];
          i := i + 3;
          continue;
        }
        Regroup(out, [PERCENT], Decoded(input[i + 1..]));
        out := out + [PERCENT];
        i := i + 1;
      } else if input[i] == PLUS {
        Regroup(out, [SPACE], Decoded(input[i + 1..]));
        out := out + [SPACE];
        i := i + 1;
      } else {
        Regroup(out, [input[i]], Decoded(input[i + 1..]));
        out := out + [input[i]];
        i := i + 1;
      }
    }
  }

  lemma {:induction false} DecodeStep(input: seq<byte>, i: nat)
    requires i < |input|
    ensures Decoded(input[i..]) ==
      if input[i] == PERCENT && i + 2 < |input| && HexValue(input[i + 1]).Some? && HexValue(input[i + 2]).Some?
      then [HexValue(input[i + 1]).value * 16 + HexValue(input[i + 2]).value] + Decoded(input[i + 3..])
      else [if input[i] == PLUS then SPACE else input[i]] + Decoded(input[i + 1..])
  {
    assert input[i..][1..] == input[i + 1..];
    if i + 2 < |input| {
      assert input[i..][3..] == input[i + 3..];
    }
  }

  // --------------------------------------------------------------- encoding

  predicate Unreserved(b: byte) {
    65 <= b <= 90 || 97 <= b <= 122 || 48 <= b <= 57 || b == 45 || b == 95 || b == 46 || b == 126
  }

  /** The upper-case hexadecimal digit. */
  function Hex(v: byte): byte
    requires v < 16
  {
    if v < 10 then 48 + v else 55 + v
  }

  function EncodeByte(b: byte): seq<byte> {
    if Unreserved(b) then [b] else [PERCENT, Hex(b / 16), Hex(b % 16)]
  }

  function Encoded(s: seq<byte>): seq<byte> {
    if s == [] then [] else EncodeByte(s[0]) + Encoded(s[1..])
  }

  /** `encode_component`. */
  method EncodeComponent(value: seq<byte>) returns (out: seq<byte>)
    ensures out == Encoded(value)
  {
    out := [];
    var i := 0;
    while i < |value|
      invariant 0 <= i <= |value|
      invariant out + Encoded(value[i..]) == Encoded(value)
    {
      var b := value[i];
      EncodeStep(value, i, out);
      if Unreserved(b) {
        out := out + [b];
      } else {
        ghost var before := out;
        out := out + [PERCENT];
        out := out + [Hex(b / 16)];
        out := out + [Hex(b % 16)];
        assert out == before + EncodeByte(b);
      }
      i := i + 1;
    }
  }

  lemma {:induction false} EncodeStep(value: seq<byte>, i: nat, out: seq<byte>)
    requires i < |value|
    ensures (out + EncodeByte(value[i])) + Encoded(value[i + 1..]) == out + Encoded(value[i..])
  {
    assert value[i..][1..] == value[i + 1..];
    Regroup(out, EncodeByte(value[i]), Encoded(value[i + 1..]));
  }

  lemma HexRoundTrip(b: byte)
    ensures HexValue(Hex(b / 16)) == Some(b / 16) && HexValue(Hex(b % 16)) == Some(b % 16)
    ensures b / 16 * 16 + b % 16 == b
  {
  }

  lemma DecodeByte(b: byte, rest: seq<byte>)
    ensures Decoded(EncodeByte(b) + rest) == [b] + Decoded(rest)
  {
    var s := EncodeByte(b) + rest;
    if Unreserved(b) {
      assert s[1..] == rest;
    } else {
      HexRoundTrip(b);
      assert s[3..] == rest;
    }
  }

  /** What is percent-encoded decodes to itself, whatever bytes it holds. */
  lemma {:induction false} DecodeEncoded(s: seq<byte>)
    ensures Decoded(Encoded(s)) == s
  {
    if s != [] {
      DecodeByte(s[0], Encoded(s[1..]));
      DecodeEncoded(s[1..]);
    }
  }

  /** The encoding is made of unreserved bytes and `%` alone, so it cannot end a
      pair, a path segment or a query. */
  lemma {:induction false} EncodedBytes(s: seq<byte>)
    ensures forall b :: b in Encoded(s) ==> Unreserved(b) || b == PERCENT
  {
    if s != [] {
      EncodedBytes(s[1..]);
    }
  }

  // ------------------------------------------- byte by byte, in characters

  /** A letter, a digit, or one of four marks. */
  predicate Plain(c: char) {
    'A' <= c <= 'Z' || 'a' <= c <= 'z' || '0' <= c <= '9' || c == '-' || c == '_' || c == '.' || c == '~'
  }

  /** The hexadecimal digit of a value below sixteen. */
  predicate UpperDigit(c: char, v: nat) {
    (v < 10 && c as int == '0' as int + v) || (10 <= v < 16 && c as int == 'A' as int + v - 10)
  }

  predicate LowerDigit(c: char, v: nat) {
    10 <= v < 16 && c as int == 'a' as int + v - 10
  }

  /** A plain byte is encoded as itself, every other one as `%` and two upper-case
      hexadecimal digits. */
  lemma EncodedByte(b: byte)
    ensures Plain(b as char) ==> EncodeByte(b) == [b]
    ensures !Plain(b as char) ==>
      && |EncodeByte(b)| == 3 && EncodeByte(b)[0] as char == '%'
      && UpperDigit(EncodeByte(b)[1] as char, b as nat / 16) && UpperDigit(EncodeByte(b)[2] as char, b as nat % 16)
  {
  }

  predicate HexDigit(c: char, v: nat) {
    UpperDigit(c, v) || LowerDigit(c, v)
  }

  lemma HexExactly(b: byte, v: nat)
    ensures HexValue(b).Some? && HexValue(b).value as nat == v <==> HexDigit(b as char, v)
  {
  }

  predicate IsHex(c: char) {
    '0' <= c <= '9' || 'a' <= c <= 'f' || 'A' <= c <= 'F'
  }

  lemma HexOnly(b: byte)
    ensures HexValue(b).Some? <==> IsHex(b as char)
  {
  }

  /** Two hexadecimal digits of either case after a `%` are one byte. */
  lemma DecodedEscape(s: seq<byte>, high: nat, low: nat)
    requires |s| > 2 && s[0] as char == '%' && HexDigit(s[1] as char, high) && HexDigit(s[2] as char, low)
    ensures 16 * high + low < 256 && Decoded(s) == [(16 * high + low) as byte] + Decoded(s[3..])
  {
    HexExactly(s[1], high);
    HexExactly(s[2], low);
    assert Escaped(s);
  }

  /** Any other `%` stays, a `+` is a blank, and every other byte is itself. */
  lemma DecodedOther(s: seq<byte>)
    requires s != []
    requires s[0] as char != '%' || |s| <= 2 || !IsHex(s[1] as char) || !IsHex(s[2] as char)
    ensures Decoded(s) == [if s[0] as char == '+' then ' ' as byte else s[0]] + Decoded(s[1..])
  {
    if |s| > 2 {
      HexOnly(s[1]);
      HexOnly(s[2]);
    }
    assert !Escaped(s);
  }

  lemma TokenText()
    ensures |TOKEN| == 5 && forall i :: 0 <= i < 5 ==> TOKEN[i] as char == "token"[i]
    ensures AMPERSAND as char == '&' && EQUALS as char == '='
  {
    assert TOKEN[0] as char == 't' && TOKEN[1] as char == 'o' && TOKEN[2] as char == 'k';
    assert TOKEN[3] as char == 'e' && TOKEN[4] as char == 'n';
  }

  // ---------------------------------------------------- what decoding keeps

  /** No `+` and no complete escape anywhere. */
  predicate Literal(s: seq<byte>) {
    s == [] || (s[0] != PLUS && !Escaped(s) && Literal(s[1..]))
  }

  lemma {:induction false} DecodedShorter(s: seq<byte>)
    ensures |Decoded(s)| <= |s|
  {
    if s != [] {
      DecodedShorter(s[1..]);
      if Escaped(s) {
        DecodedShorter(s[3..]);
      }
    }
  }

  /** Decoding leaves a text alone exactly when there is nothing in it to decode. */
  lemma {:induction false} DecodedIsIdentity(s: seq<byte>)
    ensures Decoded(s) == s <==> Literal(s)
  {
    if s != [] {
      DecodedIsIdentity(s[1..]);
      assert s == [s[0]] + s[1..];
      if Escaped(s) {
        DecodedShorter(s[3..]);
      } else {
        assert Decoded(s)[1..] == Decoded(s[1..]);
      }
    }
  }

  // ----------------------------------------------------------- the lookup

  function KeyOf(pair: seq<byte>): seq<byte> {
    Split(pair, EQUALS)[0]
  }

  /** What `splitn(2, '=')` yields second: everything after the first `=`. */
  function ValueOf(pair: seq<byte>): (v: Option<seq<byte>>)
  {
    if pair == [] then None
    else if pair[0] == EQUALS then Some(pair[1..])
    else ValueOf(pair[1..])
  }

  /** The first pair whose key is `token` decides, even if it has no value. */
  function FirstToken(pairs: seq<seq<byte>>): Option<seq<byte>> {
    if pairs == [] then None
    else if KeyOf(pairs[0]) == TOKEN then
      match ValueOf(pairs[0])
      case Some(v) => Some(Decoded(v))
      case None => None
    else FirstToken(pairs[1..])
  }

  function TokenIn(query: Option<seq<byte>>): Option<seq<byte>> {
    match query
    case Some(q) => FirstToken(Split(q, AMPERSAND))
    case None => None
  }

  /** `token_from_query`. */
  method TokenFromQuery(query: Option<seq<byte>>) returns (token: Option<seq<byte>>)
    ensures token == TokenIn(query)
  {
    if query.None? {
      return None;
    }
    var pairs := Split(query.value, AMPERSAND);
    for i := 0 to |pairs|
      invariant FirstToken(pairs) == FirstToken(pairs[i..])
    {
      assert pairs[i..][1..] == pairs[i + 1..];
      if KeyOf(pairs[i]) == TOKEN {
        var v := ValueOf(pairs[i]);
        if v.None? {
          return None;
        }
        var decoded := PercentDecode(v.value);
        return Some(decoded);
      }
    }
    return None;
  }

  // -------------------------------------------------------------- theorems

  lemma {:induction false} PairParts(key: seq<byte>, value: seq<byte>)
    requires EQUALS !in key
    ensures KeyOf(key + [EQUALS] + value) == key && ValueOf(key + [EQUALS] + value) == Some(value)
  {
    SplitJoin(key, value, EQUALS);
    SplitFree(key, EQUALS);
    ValueAfter(key, value);
  }

  lemma {:induction false} ValueAfter(key: seq<byte>, value: seq<byte>)
    requires EQUALS !in key
    ensures ValueOf(key + [EQUALS] + value) == Some(value)
  {
    var pair := key + [EQUALS] + value;
    if key == [] {
      assert pair[1..] == value;
    } else {
      ValueAfter(key[1..], value);
      assert pair[1..] == key[1..] + [EQUALS] + value;
    }
  }

  /** What may stand before the token pair: nothing, or pairs of other keys and `&`. */
  ghost predicate Before(prefix: seq<byte>) {
    prefix == [] ||
    (prefix[|prefix| - 1] == AMPERSAND &&
     forall pair :: pair in Split(prefix[..|prefix| - 1], AMPERSAND) ==> KeyOf(pair) != TOKEN)
  }

  /** What may stand after it: nothing, or `&` and anything at all. */
  predicate After(suffix: seq<byte>) {
    suffix == [] || suffix[0] == AMPERSAND
  }

  function TokenPair(value: seq<byte>): seq<byte> {
    TOKEN + [EQUALS] + value
  }

  lemma {:induction false} FirstTokenSkips(before: seq<seq<byte>>, pairs: seq<seq<byte>>)
    requires forall pair :: pair in before ==> KeyOf(pair) != TOKEN
    ensures FirstToken(before + pairs) == FirstToken(pairs)
  {
    if before == [] {
      assert before + pairs == pairs;
    } else {
      assert before[0] in before;
      assert (before + pairs)[1..] == before[1..] + pairs;
      FirstTokenSkips(before[1..], pairs);
    }
  }

  lemma SplitsAfter(pair: seq<byte>, suffix: seq<byte>)
    requires AMPERSAND !in pair && After(suffix)
    ensures Split(pair + suffix, AMPERSAND)[0] == pair
  {
    SplitFree(pair, AMPERSAND);
    if suffix == [] {
      assert pair + suffix == pair;
    } else {
      SplitJoin(pair, suffix[1..], AMPERSAND);
      assert pair + suffix == pair + [AMPERSAND] + suffix[1..];
    }
  }

  /** The search skips everything before the token pair. */
  lemma {:induction false} SearchReaches(prefix: seq<byte>, pair: seq<byte>, suffix: seq<byte>)
    requires Before(prefix)
    ensures TokenIn(Some(prefix + pair + suffix)) == FirstToken(Split(pair + suffix, AMPERSAND))
  {
    var tail := pair + suffix;
    Regroup(prefix, pair, suffix);
    if prefix == [] {
      assert prefix + tail == tail;
    } else {
      var before := prefix[..|prefix| - 1];
      assert prefix == before + [AMPERSAND];
      SplitJoin(before, tail, AMPERSAND);
      FirstTokenSkips(Split(before, AMPERSAND), Split(tail, AMPERSAND));
    }
  }

  /** A value without `&` is found and decoded, whatever surrounds its pair. */
  lemma TokenFound(prefix: seq<byte>, value: seq<byte>, suffix: seq<byte>)
    requires Before(prefix) && After(suffix) && AMPERSAND !in value
    ensures TokenIn(Some(prefix + TokenPair(value) + suffix)) == Some(Decoded(value))
  {
    PairParts(TOKEN, value);
    SplitsAfter(TokenPair(value), suffix);
    SearchReaches(prefix, TokenPair(value), suffix);
  }

  /** A percent-encoded token always comes back. */
  lemma TokenRoundTrip(prefix: seq<byte>, token: seq<byte>, suffix: seq<byte>)
    requires Before(prefix) && After(suffix)
    ensures TokenIn(Some(prefix + TokenPair(Encoded(token)) + suffix)) == Some(token)
  {
    EncodedBytes(token);
    TokenFound(prefix, Encoded(token), suffix);
    DecodeEncoded(token);
  }

  lemma {:induction false} FirstAt(s: seq<byte>, b: byte) returns (i: nat)
    requires b in s
    ensures i < |s| && s[i] == b && b !in s[..i]
  {
    if s[0] == b {
      i := 0;
    } else {
      var k := FirstAt(s[1..], b);
      i := k + 1;
      assert s[..i] == [s[0]] + s[1..][..k];
    }
  }

  /** A value with an `&` is cut there. */
  lemma TokenCut(prefix: seq<byte>, head: seq<byte>, tail: seq<byte>, suffix: seq<byte>)
    requires Before(prefix) && AMPERSAND !in head
    ensures TokenIn(Some(prefix + TokenPair(head + [AMPERSAND] + tail) + suffix)) == Some(Decoded(head))
  {
    var rest := [AMPERSAND] + tail + suffix;
    TokenFound(prefix, head, rest);
    assert prefix + TokenPair(head + [AMPERSAND] + tail) + suffix == prefix + TokenPair(head) + rest;
  }

  /** A token pasted in unencoded comes back exactly when it has no `+`, no escape and
      no `&`. */
  lemma RawTokenKept(prefix: seq<byte>, token: seq<byte>, suffix: seq<byte>)
    requires Before(prefix) && After(suffix)
    ensures TokenIn(Some(prefix + TokenPair(token) + suffix)) == Some(token) <==>
            Literal(token) && AMPERSAND !in token
  {
    if AMPERSAND in token {
      var i := FirstAt(token, AMPERSAND);
      TokenCut(prefix, token[..i], token[i + 1..], suffix);
      assert token == token[..i] + [AMPERSAND] + token[i + 1..];
      DecodedShorter(token[..i]);
    } else {
      TokenFound(prefix, token, suffix);
      DecodedIsIdentity(token);
    }
  }

  /** A `token` key without a value ends the search: a later `token=...` is not
      looked at. */
  lemma BareTokenEndsSearch(prefix: seq<byte>, suffix: seq<byte>)
    requires Before(prefix) && After(suffix)
    ensures TokenIn(Some(prefix + TOKEN + suffix)) == None
  {
    SplitFree(TOKEN, EQUALS);
    SplitsAfter(TOKEN, suffix);
    NoValue(TOKEN);
    SearchReaches(prefix, TOKEN, suffix);
  }

  lemma {:induction false} NoValue(pair: seq<byte>)
    requires EQUALS !in pair
    ensures ValueOf(pair).None?
  {
    if pair != [] {
      NoValue(pair[1..]);
    }
  }
}
