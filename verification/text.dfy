/**
 * The pieces of Python's string and path library that the transcription
 * front-end relies on: `str.strip()`, `str.rfind`, `os.path.basename`,
 * `os.path.splitext` (POSIX flavour) and the decimal rendering of an `int`
 * inside an f-string.
 */
module Text {

  /** Python's `str.isspace()` for a single character. */
  predicate IsSpace(c: char) {
    || c == ' ' || c == '\t' || c == '\n' || c == '\r' || c == '\U{B}' || c == '\U{C}'
    || ('\U{1C}' <= c <= '\U{1F}')
    || c == '\U{85}' || c == '\U{A0}' || c == '\U{1680}'
    || ('\U{2000}' <= c <= '\U{200A}')
    || c == '\U{2028}' || c == '\U{2029}' || c == '\U{202F}' || c == '\U{205F}' || c == '\U{3000}'
  }

  /** The number of whitespace characters `s` starts with. */
  function LeadingSpaces(s: string): (n: nat)
    ensures n <= |s|
    ensures forall k :: 0 <= k < n ==> IsSpace(s[k])
    ensures n < |s| ==> !IsSpace(s[n])
  {
    if s != [] && IsSpace(s[0]) then 1 + LeadingSpaces(s[1..]) else 0
  }

  /** The number of whitespace characters `s` ends with. */
  function TrailingSpaces(s: string): (n: nat)
    ensures n <= |s|
    ensures forall k :: |s| - n <= k < |s| ==> IsSpace(s[k])
    ensures n < |s| ==> !IsSpace(s[|s| - n - 1])
  {
    if s != [] && IsSpace(s[|s| - 1]) then 1 + TrailingSpaces(s[..|s| - 1]) else 0
  }

  /**
   * Python's `s.strip()`: the slice of `s` left after removing the leading
   * and the trailing whitespace; it neither starts nor ends with whitespace.
   */
  function Strip(s: string): (r: string)
    ensures LeadingSpaces(s) + |r| <= |s|
    ensures r == s[LeadingSpaces(s)..LeadingSpaces(s) + |r|]
    ensures forall k :: LeadingSpaces(s) + |r| <= k < |s| ==> IsSpace(s[k])
    ensures r != [] ==> !IsSpace(r[0]) && !IsSpace(r[|r| - 1])
  {
    var i := LeadingSpaces(s);
    var j := if i == |s| then |s| else |s| - TrailingSpaces(s);
    s[i..j]
  }

  /** Stripping is idempotent. */
  lemma StripIdempotent(s: string)
    ensures Strip(Strip(s)) == Strip(s)
  {
    var r := Strip(s);
    assert LeadingSpaces(r) == 0;
    assert TrailingSpaces(r) == 0;
  }

  /** Python's `s.rfind(c)`: the last index of `c` in `s`, or -1. */
  function LastIndex(s: string, c: char): (r: int)
    ensures -1 <= r < |s|
    ensures r >= 0 ==> s[r] == c
    ensures forall k :: r < k < |s| ==> s[k] != c
  {
    if s == [] then -1
    else if s[|s| - 1] == c then |s| - 1
    else LastIndex(s[..|s| - 1], c)
  }

  /** `LastIndex` is determined by its contract. */
  lemma LastIndexIs(s: string, c: char, i: int)
    requires -1 <= i < |s|
    requires i >= 0 ==> s[i] == c
    requires forall k :: i < k < |s| ==> s[k] != c
    ensures LastIndex(s, c) == i
  {
  }

  /** POSIX `os.path.basename(p)`: everything after the last '/'. */
  function Basename(p: string): (r: string)
    ensures |r| <= |p| && r == p[|p| - |r|..]
    ensures '/' !in r
    ensures |r| < |p| ==> p[|p| - |r| - 1] == '/'
  {
    var r := p[LastIndex(p, '/') + 1..];
    assert forall k :: 0 <= k < |r| ==> r[k] == p[LastIndex(p, '/') + 1 + k];
    r
  }

  predicate AllDots(s: string) {
    forall k :: 0 <= k < |s| ==> s[k] == '.'
  }

  /**
   * The root part of POSIX `os.path.splitext(p)`: the extension is cut at
   * the last '.' when it lies in the last path component and that component
   * has a character other than '.' before it (leading dots do not start an
   * extension); otherwise the path has no extension.
   */
  function SplitExtRoot(p: string): (root: string)
    ensures |root| <= |p| && root == p[..|root|]
  {
    var sep := LastIndex(p, '/');
    var dot := LastIndex(p, '.');
    var cut := if dot > sep && !AllDots(p[sep + 1..dot]) then dot else |p|;
    p[..cut]
  }

  /** The extension part of POSIX `os.path.splitext(p)`. */
  function SplitExtExt(p: string): (ext: string)
    ensures |ext| <= |p| && ext == p[|p| - |ext|..]
    ensures ext != [] ==> ext[0] == '.'
  {
    p[|SplitExtRoot(p)|..]
  }

  /** Cutting `s` after its last `c` does not move the last `c`. */
  lemma {:induction false} LastIndexOfPrefix(s: string, c: char, n: nat)
    requires LastIndex(s, c) < n <= |s|
    ensures LastIndex(s[..n], c) == LastIndex(s, c)
    decreases |s| - n
  {
    if n < |s| {
      assert s[..n] == s[..n + 1][..n];
      LastIndexOfPrefix(s, c, n + 1);
      assert s[..n + 1][n] == s[n] != c;
    } else {
      assert s[..n] == s;
    }
  }

  /** Where `splitext` cuts: at the last '.' when it starts an extension, otherwise nowhere. */
  lemma SplitExtCut(p: string)
    ensures var sep, dot := LastIndex(p, '/'), LastIndex(p, '.');
      if dot > sep && !AllDots(p[sep + 1..dot]) then SplitExtRoot(p) == p[..dot] && SplitExtExt(p) == p[dot..]
      else SplitExtRoot(p) == p && SplitExtExt(p) == []
  {
    assert p[..|p|] == p;
  }

  /** From the last '.', when it follows the last '/', there is no further '.' or '/'. */
  lemma ExtAfterLastDot(p: string)
    requires LastIndex(p, '.') > LastIndex(p, '/')
    ensures var ext := p[LastIndex(p, '.')..];
      ext[0] == '.' && '.' !in ext[1..] && '/' !in ext
  {
    var dot := LastIndex(p, '.');
    var ext := p[dot..];
    assert forall k :: 0 <= k < |ext| ==> ext[k] == p[dot + k];
  }

  /** Cutting at the last '.' after the last '/' leaves that component's stem as the base name. */
  lemma StemIsBasename(p: string)
    requires LastIndex(p, '.') > LastIndex(p, '/')
    ensures Basename(p[..LastIndex(p, '.')]) == p[LastIndex(p, '/') + 1..LastIndex(p, '.')]
  {
    LastIndexOfPrefix(p, '/', LastIndex(p, '.'));
  }

  /** Root and extension put back together give the path. */
  lemma SplitExtJoin(p: string)
    ensures SplitExtRoot(p) + SplitExtExt(p) == p
  {
    var root := SplitExtRoot(p);
    assert p[..|root|] + p[|root|..] == p;
  }

  /** A non-empty extension is one '.' followed by no '.' or '/'. */
  lemma SplitExtShape(p: string)
    ensures var ext := SplitExtExt(p);
      ext == [] || (ext[0] == '.' && '.' !in ext[1..] && '/' !in ext)
  {
    SplitExtCut(p);
    if SplitExtExt(p) != [] {
      ExtAfterLastDot(p);
    }
  }

  /** When an extension is split off, the root's last component keeps a character other than '.'. */
  lemma SplitExtStem(p: string)
    ensures SplitExtExt(p) != [] ==> !AllDots(Basename(SplitExtRoot(p)))
  {
    SplitExtCut(p);
    if SplitExtExt(p) != [] {
      StemIsBasename(p);
    }
  }

  /**
   * `splitext` loses nothing: root and extension put back together give the
   * path; a non-empty extension is one '.' followed by no '.' or '/', and
   * the root's last component then still has a character other than '.'.
   */
  lemma SplitExtParts(p: string)
    ensures SplitExtRoot(p) + SplitExtExt(p) == p
    ensures var ext := SplitExtExt(p);
      ext == [] || (ext[0] == '.' && '.' !in ext[1..] && '/' !in ext)
    ensures SplitExtExt(p) != [] ==> !AllDots(Basename(SplitExtRoot(p)))
  {
    SplitExtJoin(p);
    SplitExtShape(p);
    SplitExtStem(p);
  }

  /** A '.' in the component after `sep` lies at or before the last '.', so its stem is a prefix of the last one's. */
  lemma StemPrefix(p: string, sep: int, d: int)
    requires -1 <= sep < d < |p| && p[d] == '.'
    requires AllDots(p[sep + 1..LastIndex(p, '.')])
    ensures AllDots(p[sep + 1..d])
  {
    var stem := p[sep + 1..LastIndex(p, '.')];
    var part := p[sep + 1..d];
    assert d <= LastIndex(p, '.');
    forall k | 0 <= k < |part|
      ensures part[k] == '.'
    {
      assert part[k] == stem[k];
    }
  }

  /**
   * `splitext` splits off nothing only when every '.' of the last path
   * component has nothing but '.' before it in that component: a
   * component with an extension always loses it.
   */
  lemma SplitExtKeepsWholeOnlyWithoutExtension(p: string)
    ensures SplitExtExt(p) == [] ==>
      forall d :: LastIndex(p, '/') < d < |p| && p[d] == '.' ==> AllDots(p[LastIndex(p, '/') + 1..d])
  {
    var sep := LastIndex(p, '/');
    if SplitExtExt(p) == [] {
      assert |SplitExtRoot(p)| == |p|;
      forall d | sep < d < |p| && p[d] == '.'
        ensures AllDots(p[sep + 1..d])
      {
        StemPrefix(p, sep, d);
      }
    }
  }

  function Digit(d: nat): char
    requires d < 10
  {
    "0123456789"[d]
  }

  /** The decimal rendering Python's f-string gives a non-negative `int`. */
  function Decimal(n: nat): (s: string)
    ensures s != []
    ensures forall k :: 0 <= k < |s| ==> '0' <= s[k] <= '9'
    ensures s[0] == '0' ==> n == 0
    decreases n
  {
    if n < 10 then [Digit(n)] else Decimal(n / 10) + [Digit(n % 10)]
  }

  /** The number a string of decimal digits denotes. */
  function DigitsValue(s: string): nat
    requires forall k :: 0 <= k < |s| ==> '0' <= s[k] <= '9'
  {
    if s == [] then 0 else 10 * DigitsValue(s[..|s| - 1]) + (s[|s| - 1] as int - '0' as int)
  }

  /** Reading back the rendered count gives the count. */
  lemma {:induction false} DecimalRoundTrip(n: nat)
    ensures DigitsValue(Decimal(n)) == n
    decreases n
  {
    if n >= 10 {
      DecimalRoundTrip(n / 10);
      var s := Decimal(n);
      assert s[..|s| - 1] == Decimal(n / 10);
    }
  }

  /** Different counts are rendered differently. */
  lemma DecimalInjective(m: nat, n: nat)
    ensures Decimal(m) == Decimal(n) ==> m == n
  {
    DecimalRoundTrip(m);
    DecimalRoundTrip(n);
  }
}
