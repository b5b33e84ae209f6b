/**
 * The pieces of Go's strings, unicode, sort and fmt packages that the client relies on:
 * strings.TrimSpace, unicode.IsSpace, the byte order sort.Strings uses, and %d.
 */
module Text {

  /** A byte of an HTTP body. */
  type byte = b: int | 0 <= b < 256

  /** unicode.IsSpace: the Latin-1 white space and the rest of Unicode's White_Space. */
  predicate IsSpace(c: char) {
    var n := c as int;
    (9 <= n <= 13) || n == 0x20 || n == 0x85 || n == 0xA0 || n == 0x1680
    || (0x2000 <= n <= 0x200A) || n == 0x2028 || n == 0x2029 || n == 0x202F
    || n == 0x205F || n == 0x3000
  }

  /** The ASCII white space that strings.TrimSpace strips byte by byte. */
  predicate IsAsciiSpace(b: byte) {
    (9 <= b <= 13) || b == 0x20
  }

  /** The length of the run of white space at the front of s. */
  function Leading<T>(s: seq<T>, space: T -> bool): (k: nat)
    ensures k <= |s|
    ensures forall i :: 0 <= i < k ==> space(s[i])
    ensures k < |s| ==> !space(s[k])
  {
    if |s| > 0 && space(s[0]) then 1 + Leading(s[1..], space) else 0
  }

  /** The index at which the run of white space at the back of s starts. */
  function Trailing<T>(s: seq<T>, space: T -> bool): (k: nat)
    ensures k <= |s|
    ensures forall i :: k <= i < |s| ==> space(s[i])
    ensures 0 < k ==> !space(s[k - 1])
  {
    if |s| > 0 && space(s[|s| - 1]) then Trailing(s[..|s| - 1], space) else |s|
  }

  /** s without its leading and trailing white space. */
  function Trim<T>(s: seq<T>, space: T -> bool): (r: seq<T>)
    ensures |r| <= |s|
    ensures r == [] <==> forall i :: 0 <= i < |s| ==> space(s[i])
    ensures r != [] ==> !space(r[0]) && !space(r[|r| - 1])
  {
    var lo := Leading(s, space);
    var t := s[lo..];
    var hi := Trailing(t, space);
    assert forall i :: 0 <= i < |t| ==> t[i] == s[lo + i];
    t[..hi]
  }

  /** The trimmed string is the middle of s: only white space is cut, and only at the ends. */
  lemma TrimIsMiddle<T>(s: seq<T>, space: T -> bool)
    ensures exists lo, hi ::
              && 0 <= lo <= hi <= |s| && Trim(s, space) == s[lo..hi]
              && (forall i :: 0 <= i < lo ==> space(s[i]))
              && (forall i :: hi <= i < |s| ==> space(s[i]))
  {
    var lo := Leading(s, space);
    var t := s[lo..];
    var hi := Trailing(t, space);
    assert Trim(s, space) == s[lo..lo + hi];
    assert forall i :: lo + hi <= i < |s| ==> s[i] == t[i - lo];
  }

  /** Trimming leaves s alone exactly when s neither starts nor ends with white space. */
  lemma TrimFixpoint<T>(s: seq<T>, space: T -> bool)
    ensures Trim(s, space) == s <==> (s == [] || (!space(s[0]) && !space(s[|s| - 1])))
  {
    if s != [] && !space(s[0]) && !space(s[|s| - 1]) {
      assert Leading(s, space) == 0;
      assert s[0..] == s;
      assert Trailing(s, space) == |s|;
    }
  }

  /** Trimming twice is trimming once. */
  lemma TrimIdempotent<T>(s: seq<T>, space: T -> bool)
    ensures Trim(Trim(s, space), space) == Trim(s, space)
  {
    TrimFixpoint(Trim(s, space), space);
  }

  /** strings.TrimSpace. */
  function TrimSpace(s: string): string {
    Trim(s, IsSpace)
  }

  /** A string that TrimSpace reduces to "". */
  predicate IsBlank(s: string) {
    forall i :: 0 <= i < |s| ==> IsSpace(s[i])
  }

  /**
   * Each byte read as the character with the same code. Go's string(b) keeps the UTF-8
   * bytes instead; the two agree on ASCII bodies.
   */
  function AsText(b: seq<byte>): (s: string)
    ensures |s| == |b|
    ensures forall i :: 0 <= i < |b| ==> s[i] as int == b[i]
  {
    seq(|b|, i requires 0 <= i < |b| => b[i] as char)
  }

  predicate IsAscii(b: seq<byte>) {
    forall i :: 0 <= i < |b| ==> b[i] < 0x80
  }

  lemma {:induction false} LeadingAsText(b: seq<byte>)
    requires IsAscii(b)
    ensures Leading(AsText(b), IsSpace) == Leading(b, IsAsciiSpace)
    decreases |b|
  {
    if |b| > 0 {
      assert AsText(b)[1..] == AsText(b[1..]);
      LeadingAsText(b[1..]);
    }
  }

  lemma {:induction false} TrailingAsText(b: seq<byte>)
    requires IsAscii(b)
    ensures Trailing(AsText(b), IsSpace) == Trailing(b, IsAsciiSpace)
    decreases |b|
  {
    if |b| > 0 {
      assert AsText(b)[..|b| - 1] == AsText(b[..|b| - 1]);
      TrailingAsText(b[..|b| - 1]);
    }
  }

  /** Reading bytes as text commutes with taking a slice. */
  lemma AsTextSlice(b: seq<byte>, lo: nat, hi: nat)
    requires lo <= hi <= |b|
    ensures AsText(b)[lo..hi] == AsText(b[lo..hi])
  {
  }

  /** On an ASCII body, trimming the bytes and then reading them as text is strings.TrimSpace. */
  lemma TrimAsciiBody(b: seq<byte>)
    requires IsAscii(b)
    ensures AsText(Trim(b, IsAsciiSpace)) == TrimSpace(AsText(b))
  {
    var lo := Leading(b, IsAsciiSpace);
    LeadingAsText(b);
    var t := b[lo..];
    var hi := Trailing(t, IsAsciiSpace);
    TrailingAsText(t);
    AsTextSlice(b, lo, |b|);
    AsTextSlice(t, 0, hi);
    assert b[lo..|b|] == t && t[0..hi] == t[..hi];
    assert AsText(b)[lo..|b|] == AsText(b)[lo..];
    assert Trim(b, IsAsciiSpace) == t[..hi];
    assert TrimSpace(AsText(b)) == AsText(b)[lo..][..hi];
  }

  /** The order sort.Strings puts keys in: lexicographic, a proper prefix first. */
  predicate Less(a: string, b: string) {
    if a == [] then b != []
    else if b == [] then false
    else a[0] < b[0] || (a[0] == b[0] && Less(a[1..], b[1..]))
  }

  lemma {:induction false} LessIrreflexive(a: string)
    ensures !Less(a, a)
  {
    if a != [] {
      LessIrreflexive(a[1..]);
    }
  }

  lemma {:induction false} LessTransitive(a: string, b: string, c: string)
    requires Less(a, b) && Less(b, c)
    ensures Less(a, c)
  {
    if a != [] && a[0] == b[0] && b[0] == c[0] {
      LessTransitive(a[1..], b[1..], c[1..]);
    }
  }

  lemma {:induction false} LessTotal(a: string, b: string)
    requires a != b
    ensures Less(a, b) || Less(b, a)
  {
    if a != [] && b != [] && a[0] == b[0] {
      assert a == [a[0]] + a[1..] && b == [b[0]] + b[1..];
      LessTotal(a[1..], b[1..]);
    }
  }

  lemma LessAsymmetric(a: string, b: string)
    requires Less(a, b)
    ensures !Less(b, a)
  {
    if Less(b, a) {
      LessTransitive(a, b, a);
      LessIrreflexive(a);
    }
  }

  /** fmt's %d for a non-negative number. */
  function Digits(n: nat): (s: string)
    ensures |s| > 0
    ensures forall i :: 0 <= i < |s| ==> '0' <= s[i] <= '9'
  {
    if n < 10 then ["0123456789"[n]] else Digits(n / 10) + ["0123456789"[n % 10]]
  }

  /** fmt's %d. */
  function Decimal(n: int): string {
    if n < 0 then "-" + Digits(-n) else Digits(n)
  }
}
