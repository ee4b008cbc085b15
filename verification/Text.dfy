/** The text operations the pipeline relies on. Trimming and string order are
    written out; what depends on tables outside the repository (the Unicode
    White_Space set, RFC 3339 parsing and printing, lower-casing, path splitting)
    are the fields of a `Library`, so every theorem holds for whatever they are. */
module Text {
  import opened Prelude

  datatype Library = Library(
    isSpace: char -> bool,             // char::is_whitespace
    parse: string -> Option<int>,      // DateTime::parse_from_rfc3339, as nanoseconds
    render: int -> string,             // DateTime::to_rfc3339
    lower: string -> string,           // str::to_lowercase
    fileName: string -> Option<string> // Path::file_name
  )

  /** What the libraries promise: printing a time loses nothing, the empty string
      is not a time, a blank is white space and a letter is not. */
  ghost predicate Lawful(lib: Library) {
    && lib.parse("") == None
    && (forall t: int :: lib.parse(lib.render(t)) == Some(t))
    && lib.isSpace(' ') && !lib.isSpace('S')
  }

  lemma PrintedTime(lib: Library, t: int)
    requires Lawful(lib)
    ensures lib.parse(lib.render(t)) == Some(t)
  {
  }

  function TrimStart(lib: Library, s: string): string {
    if s != [] && lib.isSpace(s[0]) then TrimStart(lib, s[1..]) else s
  }

  function TrimEnd(lib: Library, s: string): string {
    if s != [] && lib.isSpace(s[|s| - 1]) then TrimEnd(lib, s[..|s| - 1]) else s
  }

  function Trim(lib: Library, s: string): string {
    TrimEnd(lib, TrimStart(lib, s))
  }

  predicate Trimmed(lib: Library, s: string) {
    s == [] || (!lib.isSpace(s[0]) && !lib.isSpace(s[|s| - 1]))
  }

  lemma {:induction false} TrimStartCharacter(lib: Library, s: string)
    ensures var r := TrimStart(lib, s); |r| <= |s| && (r == [] || !lib.isSpace(r[0]))
  {
    if s != [] && lib.isSpace(s[0]) {
      TrimStartCharacter(lib, s[1..]);
    }
  }

  lemma {:induction false} TrimEndCharacter(lib: Library, s: string)
    ensures var r := TrimEnd(lib, s); r <= s && (r == [] || !lib.isSpace(r[|r| - 1]))
  {
    if s != [] && lib.isSpace(s[|s| - 1]) {
      TrimEndCharacter(lib, s[..|s| - 1]);
    }
  }

  /** `Trim` returns a trimmed string, and only changes strings that are not. */
  lemma TrimCharacter(lib: Library, s: string)
    ensures Trimmed(lib, Trim(lib, s))
    ensures Trimmed(lib, s) <==> Trim(lib, s) == s
  {
    var t := TrimStart(lib, s);
    TrimStartCharacter(lib, s);
    TrimEndCharacter(lib, t);
    var r := TrimEnd(lib, t);
    if r != [] {
      assert r[0] == t[0];
    }
  }

  ghost predicate AllSpace(lib: Library, s: string) {
    forall c :: c in s ==> lib.isSpace(c)
  }

  lemma {:induction false} TrimStartAt(lib: Library, s: string) returns (i: nat)
    ensures i <= |s| && TrimStart(lib, s) == s[i..] && AllSpace(lib, s[..i])
  {
    i := 0;
    if s != [] && lib.isSpace(s[0]) {
      var k := TrimStartAt(lib, s[1..]);
      i := k + 1;
      assert s[..i] == [s[0]] + s[1..][..k] && s[i..] == s[1..][k..];
    }
  }

  lemma {:induction false} TrimEndAt(lib: Library, s: string) returns (j: nat)
    ensures j <= |s| && TrimEnd(lib, s) == s[..j] && AllSpace(lib, s[j..])
  {
    j := |s|;
    if s != [] && lib.isSpace(s[|s| - 1]) {
      j := TrimEndAt(lib, s[..|s| - 1]);
      assert s[j..] == s[..|s| - 1][j..] + [s[|s| - 1]] && s[..j] == s[..|s| - 1][..j];
    }
  }

  /** Trimming cuts white space off both ends, all of it and nothing else. */
  lemma TrimExactly(lib: Library, s: string) returns (i: nat, j: nat)
    ensures i <= j <= |s| && Trim(lib, s) == s[i..j]
    ensures AllSpace(lib, s[..i]) && AllSpace(lib, s[j..]) && Trimmed(lib, s[i..j])
  {
    i := TrimStartAt(lib, s);
    var k := TrimEndAt(lib, s[i..]);
    j := i + k;
    assert s[i..][..k] == s[i..j] && s[i..][k..] == s[j..];
    TrimCharacter(lib, s);
  }

  function CharPrefix(s: string, n: nat): string {
    Take(s, n)
  }

  function HarnessBadge(lib: Library, harness: string): string {
    var trimmed := Trim(lib, harness);
    if trimmed == "" then "" else lib.lower(Take(trimmed, 2))
  }

  function ProjectShortName(lib: Library, path: string): string {
    if path == "" then "unknown" else lib.fileName(path).GetOr(path)
  }

  /** `Option::map(str::trim).filter(non-empty)`, the clean-up applied to every
      optional text field a producer sends. */
  function Clean(lib: Library, s: Option<string>): Option<string> {
    if s.Some? && Trim(lib, s.value) != "" then Some(Trim(lib, s.value)) else None
  }

  lemma CleanTwice(lib: Library, s: Option<string>)
    ensures Clean(lib, Clean(lib, s)) == Clean(lib, s)
    ensures Clean(lib, s).Some? ==> Trimmed(lib, Clean(lib, s).value)
  {
    if s.Some? {
      TrimCharacter(lib, s.value);
      TrimCharacter(lib, Trim(lib, s.value));
    }
  }

  /** Rust's `Ord for str`: byte order of UTF-8, which is code point order. */
  predicate StringLe(a: string, b: string) {
    a == [] || (b != [] && (a[0] < b[0] || (a[0] == b[0] && StringLe(a[1..], b[1..]))))
  }

  lemma {:induction false} StringLeTotal(a: string, b: string)
    ensures StringLe(a, b) || StringLe(b, a)
    ensures StringLe(a, b) && StringLe(b, a) ==> a == b
  {
    if a != [] && b != [] {
      StringLeTotal(a[1..], b[1..]);
      assert a == [a[0]] + a[1..] && b == [b[0]] + b[1..];
    }
  }

  lemma {:induction false} StringLeTransitive(a: string, b: string, c: string)
    requires StringLe(a, b) && StringLe(b, c)
    ensures StringLe(a, c)
  {
    if a != [] && a[0] == b[0] && b[0] == c[0] {
      StringLeTransitive(a[1..], b[1..], c[1..]);
    }
  }
}
