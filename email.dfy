/** The e-mail address check shared by registration and password recovery: the regular
    expression ^[^\s@]+@[^\s@]+\.[^\s@]+$ tested against the text as typed. */
module Email {
  import opened Text

  /** A character of the class [^\s@]. */
  predicate Plain(c: char) {
    !IsSpace(c) && c != '@'
  }

  predicate AllPlain(s: string) {
    forall k :: 0 <= k < |s| ==> Plain(s[k])
  }

  /** `s` splits as [^\s@]+ '@' [^\s@]+ '.' [^\s@]+ with the '@' at `at` and the '.' at `dot`. */
  predicate ShapeAt(s: string, at: int, dot: int) {
    && 0 < at && at + 1 < dot && dot + 1 < |s|
    && s[at] == '@' && s[dot] == '.'
    && AllPlain(s[..at]) && AllPlain(s[at + 1..])
  }

  /** The regular expression accepts `s`: some split of `s` fits the pattern. */
  predicate MatchesEmailPattern(s: string) {
    exists at, dot :: 0 <= at < |s| && 0 <= dot < |s| && ShapeAt(s, at, dot)
  }

  /** The address reading of the pattern: a non-empty local part and a domain, neither with
      white space or '@', and a '.' in the domain that is neither its first nor its last
      character. */
  predicate LocalAndDomain(local: string, domain: string) {
    && |local| > 0 && AllPlain(local) && AllPlain(domain)
    && |domain| >= 3 && '.' in domain[1..|domain| - 1]
  }

  /** The pattern accepts exactly `local '@' domain` with LocalAndDomain, and the '@' of an
      accepted address is its only '@'. */
  lemma EmailPatternIff(s: string)
    ensures MatchesEmailPattern(s) <==>
            exists at :: 0 <= at < |s| && s[at] == '@' && LocalAndDomain(s[..at], s[at + 1..])
    ensures MatchesEmailPattern(s) ==>
            forall at :: 0 <= at < |s| && s[at] == '@' ==> LocalAndDomain(s[..at], s[at + 1..])
  {
    if MatchesEmailPattern(s) {
      var at, dot :| 0 <= at < |s| && 0 <= dot < |s| && ShapeAt(s, at, dot);
      var domain := s[at + 1..];
      assert domain[dot - at - 1] == '.';
      assert domain[1..|domain| - 1][dot - at - 2] == '.';
      assert LocalAndDomain(s[..at], domain);
      assert forall k :: 0 <= k < at ==> s[k] == s[..at][k];
      assert forall k :: at < k < |s| ==> s[k] == s[at + 1..][k - at - 1];
    }
    if exists at :: 0 <= at < |s| && s[at] == '@' && LocalAndDomain(s[..at], s[at + 1..]) {
      var at :| 0 <= at < |s| && s[at] == '@' && LocalAndDomain(s[..at], s[at + 1..]);
      var domain := s[at + 1..];
      var j :| 0 <= j < |domain| - 2 && domain[1..|domain| - 1][j] == '.';
      assert domain[j + 1] == '.';
      assert ShapeAt(s, at, at + 2 + j);
    }
  }

  /** An accepted address contains no white space at all, so trimming it changes nothing:
      the pattern rejects any text with leading or trailing white space. */
  lemma EmailHasNoSpace(s: string)
    requires MatchesEmailPattern(s)
    ensures forall k :: 0 <= k < |s| ==> !IsSpace(s[k])
    ensures Trim(s) == s
  {
    var at, dot :| 0 <= at < |s| && 0 <= dot < |s| && ShapeAt(s, at, dot);
    forall k | 0 <= k < |s|
      ensures !IsSpace(s[k])
    {
      if k < at {
        assert s[..at][k] == s[k];
      } else if k > at {
        assert s[at + 1..][k - at - 1] == s[k];
      }
    }
    TrimUnpadded(s);
  }

  /** Lower-casing an accepted address keeps it accepted. */
  lemma EmailPatternLower(s: string)
    requires MatchesEmailPattern(s)
    ensures MatchesEmailPattern(Lower(s))
  {
    var at, dot :| 0 <= at < |s| && 0 <= dot < |s| && ShapeAt(s, at, dot);
    var l := Lower(s);
    assert l[..at] == Lower(s[..at]);
    assert l[at + 1..] == Lower(s[at + 1..]);
    assert ShapeAt(l, at, dot);
  }
}
