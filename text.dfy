/** The string primitives the screens use: trim(), toLowerCase(), startsWith() and includes(). */
module Text {

  /** JavaScript's white space and line terminators: what String.prototype.trim removes and
      what the regular-expression class \s matches (the two sets coincide). */
  predicate IsSpace(c: char) {
    || c == '\t' || c == '\n' || c == '\U{B}' || c == '\U{C}' || c == '\r' || c == ' '
    || c == '\U{A0}' || c == '\U{1680}' || ('\U{2000}' <= c <= '\U{200A}')
    || c == '\U{2028}' || c == '\U{2029}' || c == '\U{202F}' || c == '\U{205F}'
    || c == '\U{3000}' || c == '\U{FEFF}'
  }

  /** The upper-case letters whose lower-case form this model knows: A-Z and the Latin-1
      capitals U+00C0..U+00DE (except the multiplication sign U+00D7). */
  predicate IsUpper(c: char) {
    ('A' <= c <= 'Z') || ('\U{C0}' <= c <= '\U{DE}' && c != '\U{D7}')
  }

  function LowerChar(c: char): (d: char)
    ensures !IsUpper(d)
    ensures !IsUpper(c) ==> d == c
    ensures IsSpace(d) <==> IsSpace(c)
    ensures (d == '@') <==> (c == '@')
    ensures (d == '.') <==> (c == '.')
  {
    if IsUpper(c) then (c as int + 32) as char else c
  }

  /** String.prototype.toLowerCase, character by character. */
  function Lower(s: string): (r: string)
    ensures |r| == |s|
    ensures forall k :: 0 <= k < |s| ==> r[k] == LowerChar(s[k])
  {
    seq(|s|, k requires 0 <= k < |s| => LowerChar(s[k]))
  }

  /** The character table of toLowerCase: no upper-case letter survives, every other character
      is kept, and each known capital moves to its small letter 32 code points further on. */
  lemma LowerTable(s: string)
    ensures |Lower(s)| == |s|
    ensures forall k :: 0 <= k < |s| ==> !IsUpper(Lower(s)[k])
    ensures forall k :: 0 <= k < |s| && !IsUpper(s[k]) ==> Lower(s)[k] == s[k]
    ensures forall k :: 0 <= k < |s| && IsUpper(s[k]) ==> Lower(s)[k] as int == s[k] as int + 32
  {
  }

  lemma LowerIdempotent(s: string)
    ensures Lower(Lower(s)) == Lower(s)
  {
  }

  lemma LowerAppend(a: string, b: string)
    ensures Lower(a + b) == Lower(a) + Lower(b)
  {
  }

  /** String.prototype.trimStart. */
  function TrimStart(s: string): (r: string)
    ensures |r| <= |s| && r == s[|s| - |r|..]
    ensures forall k :: 0 <= k < |s| - |r| ==> IsSpace(s[k])
    ensures r == [] || !IsSpace(r[0])
  {
    if s != [] && IsSpace(s[0]) then TrimStart(s[1..]) else s
  }

  /** String.prototype.trimEnd. */
  function TrimEnd(s: string): (r: string)
    ensures |r| <= |s| && r == s[..|r|]
    ensures forall k :: |r| <= k < |s| ==> IsSpace(s[k])
    ensures r == [] || !IsSpace(r[|r| - 1])
  {
    if s != [] && IsSpace(s[|s| - 1]) then TrimEnd(s[..|s| - 1]) else s
  }

  /** `r` stands at position `i` of `s`, with only white space before and after it. */
  predicate SurroundedBySpace(s: string, r: string, i: int) {
    && 0 <= i <= |s| - |r| && s[i..i + |r|] == r
    && (forall k :: 0 <= k < i ==> IsSpace(s[k]))
    && (forall k :: i + |r| <= k < |s| ==> IsSpace(s[k]))
  }

  /** String.prototype.trim: `r` is the slice of `s` left after removing its leading and
      trailing white space. */
  function Trim(s: string): (r: string)
    ensures |r| <= |s|
    ensures exists i :: SurroundedBySpace(s, r, i)
    ensures r == [] || (!IsSpace(r[0]) && !IsSpace(r[|r| - 1]))
  {
    var t := TrimStart(s);
    var r := TrimEnd(t);
    TrimBothSurrounded(s, t, r);
    r
  }

  lemma TrimBothSurrounded(s: string, t: string, r: string)
    requires |t| <= |s| && t == s[|s| - |t|..] && forall k :: 0 <= k < |s| - |t| ==> IsSpace(s[k])
    requires |r| <= |t| && r == t[..|r|] && forall k :: |r| <= k < |t| ==> IsSpace(t[k])
    ensures SurroundedBySpace(s, r, |s| - |t|)
  {
    var i := |s| - |t|;
    assert t == s[i..];
    assert r == t[..|r|];
    assert s[i..i + |r|] == r;
    forall k | i + |r| <= k < |s|
      ensures IsSpace(s[k])
    {
      assert s[k] == t[k - i];
    }
  }

  /** A string of white space only trims to the empty string, and only such a string does. */
  lemma TrimEmptyIffBlank(s: string)
    ensures Trim(s) == [] <==> forall k :: 0 <= k < |s| ==> IsSpace(s[k])
  {
    var r := Trim(s);
    var i :| SurroundedBySpace(s, r, i);
    assert forall k :: 0 <= k < |r| ==> r[k] == s[i + k];
  }

  /** A string that neither starts nor ends with white space is its own trim. */
  lemma TrimUnpadded(s: string)
    requires s == [] || (!IsSpace(s[0]) && !IsSpace(s[|s| - 1]))
    ensures Trim(s) == s
  {
    assert TrimStart(s) == s;
    assert TrimEnd(s) == s;
  }

  lemma TrimIdempotent(s: string)
    ensures Trim(Trim(s)) == Trim(s)
  {
    TrimUnpadded(Trim(s));
  }

  /** The trim of a string is the one unpadded slice with only white space around it. */
  lemma TrimUnique(s: string, r: string, i: int)
    requires SurroundedBySpace(s, r, i)
    requires r == [] || (!IsSpace(r[0]) && !IsSpace(r[|r| - 1]))
    ensures Trim(s) == r
  {
    var t := Trim(s);
    var j :| SurroundedBySpace(s, t, j);
    TrimEmptyIffBlank(s);
    if r != [] {
      assert s[i] == r[0];
      if t != [] {
        assert s[j] == t[0];
        assert i == j;
        assert s[i + |r| - 1] == r[|r| - 1];
        assert s[j + |t| - 1] == t[|t| - 1];
        assert |r| == |t|;
      }
    }
  }

  /** Padding a string with a space on each side does not change its trim. */
  lemma TrimPadded(s: string)
    ensures Trim(" " + s + " ") == Trim(s)
  {
    var r := Trim(s);
    var i :| SurroundedBySpace(s, r, i);
    PaddedSurround(s, r, i);
    TrimUnique(" " + s + " ", r, i + 1);
  }

  lemma PaddedSurround(s: string, r: string, i: int)
    requires SurroundedBySpace(s, r, i)
    ensures SurroundedBySpace(" " + s + " ", r, i + 1)
  {
    var p := " " + s + " ";
    assert forall k :: 0 <= k < |s| ==> p[k + 1] == s[k];
    assert p[i + 1..i + 1 + |r|] == s[i..i + |r|];
    forall k | 0 <= k < i + 1
      ensures IsSpace(p[k])
    {
      if k > 0 { assert p[k] == s[k - 1]; }
    }
    forall k | i + 1 + |r| <= k < |p|
      ensures IsSpace(p[k])
    {
      if k < |p| - 1 { assert p[k] == s[k - 1]; }
    }
  }

  /** String.prototype.startsWith. */
  predicate StartsWith(s: string, prefix: string) {
    |prefix| <= |s| && s[..|prefix|] == prefix
  }

  lemma StartsWithSelf(s: string)
    ensures StartsWith(s, s)
  {
  }

  /** `t` occurs in `s` at position `i`. */
  predicate MatchAt(s: string, t: string, i: int) {
    0 <= i <= |s| - |t| && s[i..i + |t|] == t
  }

  /** String.prototype.includes: `t` occurs in `s` at some position. */
  predicate Contains(s: string, t: string) {
    exists i :: 0 <= i <= |s| - |t| && MatchAt(s, t, i)
  }

  lemma StartsWithContains(s: string, t: string)
    requires StartsWith(s, t)
    ensures Contains(s, t)
  {
    assert MatchAt(s, t, 0);
  }

  lemma ContainsEmpty(s: string)
    ensures Contains(s, "")
  {
    assert MatchAt(s, "", 0);
  }

  lemma ContainsSelf(s: string)
    ensures Contains(s, s)
  {
    assert MatchAt(s, s, 0);
  }

  /** A string `t` cannot occur in `s` when two adjacent characters of `t` never stand
      next to each other in `s`. Used to show that a message does not contain a keyword. */
  lemma NoPairNoMatch(s: string, t: string, k: nat)
    requires k + 1 < |t|
    requires forall j :: 0 <= j < |s| - 1 ==> !(s[j] == t[k] && s[j + 1] == t[k + 1])
    ensures !Contains(s, t)
  {
    forall i | 0 <= i <= |s| - |t|
      ensures !MatchAt(s, t, i)
    {
      assert s[i..i + |t|][k] == s[i + k] && s[i..i + |t|][k + 1] == s[i + k + 1];
    }
  }

  /** A string `t` cannot occur in `s` when one of its characters does not occur in `s`. */
  lemma NoCharNoMatch(s: string, t: string, k: nat)
    requires k < |t|
    requires forall j :: 0 <= j < |s| ==> s[j] != t[k]
    ensures !Contains(s, t)
  {
    forall i | 0 <= i <= |s| - |t|
      ensures !MatchAt(s, t, i)
    {
      assert s[i..i + |t|][k] == s[i + k];
    }
  }

  /** The order Array.prototype.sort uses by default on strings: character by character, a
      proper prefix first. */
  predicate Less(a: string, b: string)
    decreases |a|
  {
    if a == [] then b != []
    else if b == [] then false
    else if a[0] != b[0] then a[0] < b[0]
    else Less(a[1..], b[1..])
  }

  lemma {:induction false} LessIrreflexive(a: string)
    ensures !Less(a, a)
    decreases |a|
  {
    if a != [] {
      LessIrreflexive(a[1..]);
    }
  }

  lemma {:induction false} LessTransitive(a: string, b: string, c: string)
    requires Less(a, b) && Less(b, c)
    ensures Less(a, c)
    decreases |a|
  {
    if a != [] && a[0] == b[0] && b[0] == c[0] {
      LessTransitive(a[1..], b[1..], c[1..]);
    }
  }

  lemma {:induction false} LessTotal(a: string, b: string)
    requires a != b
    ensures Less(a, b) || Less(b, a)
    decreases |a|
  {
    if a != [] && b != [] && a[0] == b[0] {
      assert a == [a[0]] + a[1..] && b == [b[0]] + b[1..];
      LessTotal(a[1..], b[1..]);
    }
  }
}
