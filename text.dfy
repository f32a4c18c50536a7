/**
 * The Python 2 byte-string operations the resolver relies on:
 * `str.upper()` and `str.split(None, 1)`.
 */
module Text {

  /** `str.isspace()` on one character of a byte string: space, \t, \n, \v, \f, \r. */
  predicate IsSpace(c: char)
  {
    c == ' ' || c == '\t' || c == '\n' || c == '\r' || c as int == 11 || c as int == 12
  }

  predicate AllSpace(s: string) { forall i :: 0 <= i < |s| ==> IsSpace(s[i]) }

  predicate NoSpace(s: string) { forall i :: 0 <= i < |s| ==> !IsSpace(s[i]) }

  predicate IsLower(c: char) { 'a' <= c <= 'z' }

  predicate NoLower(s: string) { forall i :: 0 <= i < |s| ==> !IsLower(s[i]) }

  /** `str.upper()` on one character in the C locale: only the letters a-z change. */
  function UpperChar(c: char): (u: char)
    ensures !IsLower(u)
    ensures u == c <==> !IsLower(c)
    ensures IsLower(c) ==> 'A' <= u <= 'Z' && u as int == c as int - 32
  {
    if IsLower(c) then (c as int - 32) as char else c
  }

  /** `str.upper()`: the same length, no letter a-z left, each character upper-cased in place. */
  function Upper(s: string): (r: string)
    ensures |r| == |s| && NoLower(r)
    ensures forall i :: 0 <= i < |s| ==> r[i] == UpperChar(s[i])
  {
    seq(|s|, i requires 0 <= i < |s| => UpperChar(s[i]))
  }

  /** Upper-casing twice is upper-casing once. */
  lemma UpperIdempotent(s: string)
    ensures Upper(Upper(s)) == Upper(s)
  {
    UpperFixedPoints(Upper(s));
  }

  /** `upper()` leaves a string unchanged exactly when it has no letter a-z. */
  lemma UpperFixedPoints(s: string)
    ensures Upper(s) == s <==> NoLower(s)
  {
    if NoLower(s) {
      assert forall i :: 0 <= i < |s| ==> Upper(s)[i] == s[i];
    }
  }

  /** The index of the first character at or after `i` that is not whitespace, or `|s|`. */
  function SpaceEnd(s: string, i: nat): (j: nat)
    requires i <= |s|
    ensures i <= j <= |s|
    ensures forall k :: i <= k < j ==> IsSpace(s[k])
    ensures j < |s| ==> !IsSpace(s[j])
    decreases |s| - i
  {
    if i < |s| && IsSpace(s[i]) then SpaceEnd(s, i + 1) else i
  }

  /** The index of the first whitespace character at or after `i`, or `|s|`. */
  function TokenEnd(s: string, i: nat): (j: nat)
    requires i <= |s|
    ensures i <= j <= |s|
    ensures forall k :: i <= k < j ==> !IsSpace(s[k])
    ensures j < |s| ==> IsSpace(s[j])
    decreases |s| - i
  {
    if i < |s| && !IsSpace(s[i]) then TokenEnd(s, i + 1) else i
  }

  /**
   * `s.split(None, 1)`: the first whitespace-separated token and, when
   * anything but whitespace follows it, the rest of the string with its
   * leading whitespace removed (trailing whitespace is kept).
   */
  function SplitOnce(s: string): (r: seq<string>)
    ensures |r| <= 2
    ensures forall i :: 0 <= i < |r| ==> r[i] != []
    ensures |r| >= 1 ==> NoSpace(r[0])
    ensures |r| == 2 ==> !IsSpace(r[1][0])
    ensures r == [] <==> AllSpace(s)
  {
    var a := SpaceEnd(s, 0);
    if a == |s| then []
    else
      var b := TokenEnd(s, a);
      var c := SpaceEnd(s, b);
      if c == |s| then [s[a..b]] else [s[a..b], s[c..]]
  }

  /**
   * What a two-part split came from: leading whitespace, the key, at least
   * one whitespace character, and the value running to the end of `s`.
   */
  lemma SplitOnceParts(s: string)
    requires |SplitOnce(s)| == 2
    ensures var r := SplitOnce(s);
      var lead := s[..SpaceEnd(s, 0)];
      var sep := s[SpaceEnd(s, 0) + |r[0]|..|s| - |r[1]|];
      s == lead + r[0] + sep + r[1]
      && AllSpace(lead) && AllSpace(sep) && sep != []
  {
    var a := SpaceEnd(s, 0);
    var b := TokenEnd(s, a);
    var c := SpaceEnd(s, b);
    assert SplitOnce(s) == [s[a..b], s[c..]];
    assert s == s[..a] + s[a..b] + s[b..c] + s[c..];
  }

  lemma {:induction false} SpaceEndOfSpace(s: string, i: nat, j: nat)
    requires i <= j <= |s|
    requires forall k :: i <= k < j ==> IsSpace(s[k])
    requires j < |s| ==> !IsSpace(s[j])
    ensures SpaceEnd(s, i) == j
    decreases j - i
  {
    if i < j {
      SpaceEndOfSpace(s, i + 1, j);
    }
  }

  lemma {:induction false} TokenEndOfToken(s: string, i: nat, j: nat)
    requires i <= j <= |s|
    requires forall k :: i <= k < j ==> !IsSpace(s[k])
    requires j < |s| ==> IsSpace(s[j])
    ensures TokenEnd(s, i) == j
    decreases j - i
  {
    if i < j {
      TokenEndOfToken(s, i + 1, j);
    }
  }

  /** A single token, with no whitespace around it, does not split. */
  lemma SplitOnceOfToken(s: string)
    requires s != [] && NoSpace(s)
    ensures SplitOnce(s) == [s]
  {
    SpaceEndOfSpace(s, 0, 0);
    TokenEndOfToken(s, 0, |s|);
    SpaceEndOfSpace(s, |s|, |s|);
    assert s[0..|s|] == s;
  }

  /**
   * Conversely, a key and a value joined by whitespace split back into
   * exactly that key and that value.
   */
  lemma SplitOnceOfJoin(lead: string, key: string, sep: string, value: string)
    requires AllSpace(lead) && AllSpace(sep) && sep != []
    requires key != [] && NoSpace(key)
    requires value != [] && !IsSpace(value[0])
    ensures SplitOnce(lead + key + sep + value) == [key, value]
  {
    var s := lead + key + sep + value;
    var a, b, c := |lead|, |lead| + |key|, |lead| + |key| + |sep|;
    assert s[a] == key[0];
    SpaceEndOfSpace(s, 0, a);
    assert forall k :: a <= k < b ==> s[k] == key[k - a];
    assert s[b] == sep[0];
    TokenEndOfToken(s, a, b);
    assert forall k :: b <= k < c ==> s[k] == sep[k - b];
    assert s[c] == value[0];
    SpaceEndOfSpace(s, b, c);
    assert s[a..b] == key;
    assert s[c..] == value;
  }
}
