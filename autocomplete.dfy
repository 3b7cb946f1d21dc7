/** The suggestion engine shared by the entry forms: case-insensitive substring suggestions
    over an ordered reference list, the prefix guard on constrained fields, and exact
    case-insensitive membership in an option list. */
module Autocomplete {
  import opened Seqs
  import opened Text

  /** The entries whose key contains the typed text, ignoring case, in reference order. */
  function Suggestions<T>(items: seq<T>, key: T -> string, text: string): (r: seq<T>)
    ensures IsSubsequence(r, items)
    ensures forall k :: 0 <= k < |r| ==> r[k] in items && Contains(Lower(key(r[k])), Lower(text))
    ensures forall k :: 0 <= k < |items| && Contains(Lower(key(items[k])), Lower(text)) ==> items[k] in r
  {
    FilterIsSubsequence(items, (x: T) => Contains(Lower(key(x)), Lower(text)));
    Filter(items, (x: T) => Contains(Lower(key(x)), Lower(text)))
  }

  /** The suggestions repeat each matching entry exactly as often as the reference list does,
      and hold nothing else. */
  lemma SuggestionsCount<T>(items: seq<T>, key: T -> string, text: string)
    ensures forall k :: 0 <= k < |items| ==>
              multiset(Suggestions(items, key, text))[items[k]] ==
              if Contains(Lower(key(items[k])), Lower(text)) then multiset(items)[items[k]] else 0
    ensures forall k :: 0 <= k < |Suggestions(items, key, text)| ==> Suggestions(items, key, text)[k] in items
  {
    FilterMultiset(items, (x: T) => Contains(Lower(key(x)), Lower(text)));
  }

  function Identity(s: string): string {
    s
  }

  /** The keystroke guard: the text is, ignoring case, the beginning of some option. */
  predicate KeystrokeAllowed(options: seq<string>, text: string) {
    exists k :: 0 <= k < |options| && StartsWith(Lower(options[k]), Lower(text))
  }

  /** What a keystroke in a constrained field does: a text that is neither empty nor the
      beginning of an option is rejected; an empty text clears the panel, or shows every option
      when the field lists them all on empty input; anything else suggests the matching
      options. */
  datatype KeystrokeEffect = Rejected | Cleared | ShowAll | Suggest(sugerencias: seq<string>)

  function OptionKeystroke(options: seq<string>, text: string, emptyShowsAll: bool): (e: KeystrokeEffect)
    ensures e == Rejected <==> text != "" && !KeystrokeAllowed(options, text)
    ensures e == Cleared <==> text == "" && !emptyShowsAll
    ensures e == ShowAll <==> text == "" && emptyShowsAll
    ensures e.Suggest? ==> e.sugerencias == Suggestions(options, Identity, text) && IsSubsequence(e.sugerencias, options)
  {
    if text != "" && !KeystrokeAllowed(options, text) then Rejected
    else if text == "" then (if emptyShowsAll then ShowAll else Cleared)
    else Suggest(Suggestions(options, Identity, text))
  }

  /** Exact membership ignoring case. */
  predicate IsOption(options: seq<string>, value: string) {
    exists k :: 0 <= k < |options| && Lower(options[k]) == Lower(value)
  }

  /** Typing an option character by character is never blocked by the guard. */
  lemma TypingAnOptionIsAllowed(options: seq<string>, k: nat, n: nat)
    requires k < |options| && n <= |options[k]|
    ensures KeystrokeAllowed(options, options[k][..n])
  {
    var o := options[k];
    assert Lower(o[..n]) == Lower(o)[..n];
  }

  /** The guard compares lower-cased forms, so a prefix of an option typed in any casing passes
      it too. */
  lemma TypingAnyCasingIsAllowed(options: seq<string>, k: nat, n: nat, t: string)
    requires k < |options| && n <= |options[k]|
    requires Lower(t) == Lower(options[k][..n])
    ensures KeystrokeAllowed(options, t)
  {
    TypingAnOptionIsAllowed(options, k, n);
  }

  /** A value that is an option, ignoring case, passes the guard and suggests that option. */
  lemma OptionPassesGuard(options: seq<string>, value: string, k: nat)
    requires k < |options| && Lower(options[k]) == Lower(value)
    ensures IsOption(options, value)
    ensures KeystrokeAllowed(options, value)
    ensures options[k] in Suggestions(options, Identity, value)
  {
    assert StartsWith(Lower(options[k]), Lower(value));
    ContainsSelf(Lower(value));
  }

  /** A text that does not pass the guard is, ignoring case, none of the options. */
  lemma GuardRejectsNonOptions(options: seq<string>, text: string)
    requires !KeystrokeAllowed(options, text)
    ensures !IsOption(options, text)
  {
    forall k | 0 <= k < |options|
      ensures Lower(options[k]) != Lower(text)
    {
      StartsWithSelf(Lower(text));
    }
  }
}
