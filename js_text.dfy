/**
 * The two JavaScript text operations the search form relies on:
 * `String.prototype.trim` and the question `isNaN(parseFloat(s))`, both as
 * ECMA-262 defines them. The value parseFloat computes is not modelled, only
 * whether it is a number.
 */
module JsText {

  /** ECMA-262 WhiteSpace and LineTerminator code points, which trim and parseFloat skip. */
  predicate IsWhiteSpace(c: char)
  {
    || c == '\t' || c == '\n' || c == '\U{B}' || c == '\U{C}' || c == '\r'
    || c == ' ' || c == '\U{A0}' || c == '\U{1680}' || ('\U{2000}' <= c <= '\U{200A}')
    || c == '\U{2028}' || c == '\U{2029}' || c == '\U{202F}' || c == '\U{205F}'
    || c == '\U{3000}' || c == '\U{FEFF}'
  }

  /** Every character of `s` from index `lo` up to `hi` is white space. */
  predicate BlankBetween(s: string, lo: int, hi: int)
  {
    forall i :: lo <= i < hi && 0 <= i < |s| ==> IsWhiteSpace(s[i])
  }

  predicate IsBlank(s: string)
  {
    BlankBetween(s, 0, |s|)
  }

  /** Drops leading white space: what is left is a suffix that starts with a non-blank. */
  function TrimStart(s: string): (r: string)
    ensures |r| <= |s| && r == s[|s| - |r|..]
    ensures BlankBetween(s, 0, |s| - |r|)
    ensures r != [] ==> !IsWhiteSpace(r[0])
  {
    if s != [] && IsWhiteSpace(s[0]) then TrimStart(s[1..]) else s
  }

  /** Drops trailing white space: what is left is a prefix that ends with a non-blank. */
  function TrimEnd(s: string): (r: string)
    ensures |r| <= |s| && r == s[..|r|]
    ensures BlankBetween(s, |r|, |s|)
    ensures r != [] ==> !IsWhiteSpace(r[|r| - 1])
  {
    if s != [] && IsWhiteSpace(s[|s| - 1]) then TrimEnd(s[..|s| - 1]) else s
  }

  /** `s.trim()`. */
  function Trim(s: string): string
  {
    TrimEnd(TrimStart(s))
  }

  /** The number of leading white space characters `s.trim()` drops. */
  function LeadingBlanks(s: string): (n: nat)
    ensures n <= |s|
  {
    |s| - |TrimStart(s)|
  }

  /** `s.trim()` is a contiguous part of `s`, starting after its leading blanks. */
  lemma TrimIsInnerSlice(s: string)
    ensures LeadingBlanks(s) + |Trim(s)| <= |s|
    ensures Trim(s) == s[LeadingBlanks(s)..LeadingBlanks(s) + |Trim(s)|]
  {
    var a := LeadingBlanks(s);
    var t := TrimStart(s);
    var r := TrimEnd(t);
    assert r == Trim(s);
    PrefixOfSuffix(s, a, t, r);
  }

  /** A prefix of the suffix starting at `a` is the slice of `s` starting at `a`. */
  lemma PrefixOfSuffix(s: string, a: nat, t: string, r: string)
    requires a <= |s| && t == s[a..]
    requires |r| <= |t| && r == t[..|r|]
    ensures a + |r| <= |s| && r == s[a..a + |r|]
  {
    SliceOfSuffix(s, a, |r|);
  }

  /** What `s.trim()` drops on either side is white space. */
  lemma TrimDropsOnlyBlanks(s: string)
    ensures BlankBetween(s, 0, LeadingBlanks(s))
    ensures BlankBetween(s, LeadingBlanks(s) + |Trim(s)|, |s|)
  {
    var a := LeadingBlanks(s);
    var t := TrimStart(s);
    assert t == s[a..];
    SuffixBlank(s, a, t, |Trim(s)|);
  }

  /** Neither end of a non-empty `s.trim()` is white space. */
  lemma TrimEndsAreNotBlank(s: string)
    requires Trim(s) != []
    ensures !IsWhiteSpace(Trim(s)[0]) && !IsWhiteSpace(Trim(s)[|Trim(s)| - 1])
  {
    assert Trim(s)[0] == TrimStart(s)[0];
  }

  lemma SliceOfSuffix(s: string, a: nat, n: nat)
    requires a + n <= |s|
    ensures s[a..][..n] == s[a..a + n]
  {
  }

  /** Blanks at the end of a suffix are blanks at the end of the whole. */
  lemma SuffixBlank(s: string, a: nat, t: string, k: nat)
    requires a <= |s| && t == s[a..] && k <= |t|
    requires BlankBetween(t, k, |t|)
    ensures BlankBetween(s, a + k, |s|)
  {
    forall i | a + k <= i < |s| ensures IsWhiteSpace(s[i]) {
      assert s[i] == t[i - a];
    }
  }

  /** `s.trim()` is empty exactly when `s` is all white space, the address check's test. */
  lemma TrimEmptyIffBlank(s: string)
    ensures Trim(s) == [] <==> IsBlank(s)
  {
    TrimIsInnerSlice(s);
    TrimDropsOnlyBlanks(s);
    if Trim(s) != [] {
      TrimEndsAreNotBlank(s);
      assert Trim(s)[0] == s[LeadingBlanks(s)];
    }
  }

  predicate IsDecimalDigit(c: char)
  {
    '0' <= c <= '9'
  }

  /** `u` begins with an unsigned StrDecimalLiteral: "Infinity", a digit, or a point and a digit. */
  predicate StartsUnsignedDecimal(u: string)
  {
    || (|u| >= 8 && u[..8] == "Infinity")
    || (|u| >= 1 && IsDecimalDigit(u[0]))
    || (|u| >= 2 && u[0] == '.' && IsDecimalDigit(u[1]))
  }

  /**
   * `!isNaN(parseFloat(s))`: after leading white space and an optional sign,
   * some prefix of the rest is a decimal literal.
   */
  predicate ParsesAsNumber(s: string)
  {
    var t := TrimStart(s);
    if t != [] && (t[0] == '+' || t[0] == '-') then StartsUnsignedDecimal(t[1..])
    else StartsUnsignedDecimal(t)
  }

  /** Text that parses as a number is not blank, in particular not empty. */
  lemma NumberTextIsNotBlank(s: string)
    requires ParsesAsNumber(s)
    ensures !IsBlank(s) && s != []
  {
    var t := TrimStart(s);
    assert t != [];
    assert t[0] == s[|s| - |t|];
  }
}
