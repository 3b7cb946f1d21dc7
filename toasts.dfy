/** The notification hook: the classification of a message as an error or a success when the
    caller gives no type, and the visible/message/type record it shows and hides. */
module Toasts {
  import opened Wrappers
  import opened Text

  const ErrorType: string := "error"
  const SuccessType: string := "success"

  /** A prefix is tested against the message as written, a keyword against its lower-cased
      form. */
  datatype Pattern = Prefix(text: string) | Keyword(text: string)

  predicate PatternMatches(p: Pattern, message: string) {
    match p
    case Prefix(t) => StartsWith(message, t)
    case Keyword(t) => Contains(Lower(message), t)
  }

  const ErrorPatterns: seq<Pattern> := [
    Prefix("X "), Prefix("\U{2717} "), Prefix("\U{274C}"),
    Keyword("error"), Keyword("no se pudo"), Keyword("fallo"), Keyword("conexi\U{F3}n"),
    Keyword("inv\U{E1}"), Keyword("insuficient"), Keyword("obligatori"), Keyword("requerid"),
    Keyword("debes"), Keyword("sin "), Keyword("no hay"), Keyword("no existe"),
    Keyword("no encontrado")
  ]

  const SuccessPatterns: seq<Pattern> := [
    Prefix("\U{2713} "), Prefix("\U{2705}"),
    Keyword("exitoso"), Keyword("agregado"), Keyword("actualizado"), Keyword("completado"),
    Keyword("registrado"), Keyword("enviado"), Keyword("transferencia"), Keyword("aplicados"),
    Keyword("limpiados"), Keyword("recargados")
  ]

  datatype Rule = Rule(pattern: Pattern, kind: string)

  function Tagged(patterns: seq<Pattern>, kind: string): (rules: seq<Rule>)
    ensures |rules| == |patterns|
    ensures forall k :: 0 <= k < |rules| ==> rules[k] == Rule(patterns[k], kind)
  {
    seq(|patterns|, k requires 0 <= k < |patterns| => Rule(patterns[k], kind))
  }

  /** The ordered rule table: the error rules, then the success rules. */
  function Rules(): seq<Rule> {
    Tagged(ErrorPatterns, ErrorType) + Tagged(SuccessPatterns, SuccessType)
  }

  /** The kind of the first rule of `rules` that matches `message`. */
  function FirstMatch(rules: seq<Rule>, message: string): (r: Option<string>)
    ensures r.None? <==> forall k :: 0 <= k < |rules| ==> !PatternMatches(rules[k].pattern, message)
    ensures r.Some? ==> exists k :: 0 <= k < |rules| && PatternMatches(rules[k].pattern, message)
                                    && rules[k].kind == r.value
                                    && forall j :: 0 <= j < k ==> !PatternMatches(rules[j].pattern, message)
  {
    if rules == [] then None
    else if PatternMatches(rules[0].pattern, message) then Some(rules[0].kind)
    else
      var r := FirstMatch(rules[1..], message);
      assert forall k :: 1 <= k < |rules| ==> rules[k] == rules[1..][k - 1];
      r
  }

  /** The type showToast derives when the caller gives none: the first matching rule's, and
      'success' when no rule matches. */
  function Classify(message: string): string {
    match FirstMatch(Rules(), message)
    case Some(kind) => kind
    case None => SuccessType
  }

  /** A truthy explicit type is used as given; otherwise the message is classified. */
  function ResolveType(message: string, explicitType: string): (kind: string)
    ensures explicitType != "" ==> kind == explicitType
    ensures explicitType == "" ==> kind == Classify(message)
  {
    if explicitType != "" then explicitType else Classify(message)
  }

  lemma {:induction false} FirstMatchAppend(a: seq<Rule>, b: seq<Rule>, message: string)
    ensures FirstMatch(a + b, message) ==
            if FirstMatch(a, message).Some? then FirstMatch(a, message) else FirstMatch(b, message)
  {
    if a == [] {
      assert a + b == b;
    } else {
      assert (a + b)[0] == a[0];
      assert (a + b)[1..] == a[1..] + b;
      FirstMatchAppend(a[1..], b, message);
    }
  }

  lemma FirstMatchTagged(patterns: seq<Pattern>, kind: string, message: string)
    ensures FirstMatch(Tagged(patterns, kind), message) ==
            if exists k :: 0 <= k < |patterns| && PatternMatches(patterns[k], message) then Some(kind) else None
  {
    var rules := Tagged(patterns, kind);
    if FirstMatch(rules, message).Some? {
      var k :| 0 <= k < |rules| && PatternMatches(rules[k].pattern, message) && rules[k].kind == FirstMatch(rules, message).value;
      assert PatternMatches(patterns[k], message);
    } else {
      assert forall k :: 0 <= k < |patterns| ==> !PatternMatches(rules[k].pattern, message);
    }
  }

  /** The derived type is 'error' exactly when some error rule matches, whatever success rule
      matches too: error rules take precedence. */
  lemma ClassifyErrorIff(message: string)
    ensures Classify(message) == ErrorType <==>
            exists k :: 0 <= k < |ErrorPatterns| && PatternMatches(ErrorPatterns[k], message)
  {
    FirstMatchAppend(Tagged(ErrorPatterns, ErrorType), Tagged(SuccessPatterns, SuccessType), message);
    FirstMatchTagged(ErrorPatterns, ErrorType, message);
    FirstMatchTagged(SuccessPatterns, SuccessType, message);
  }

  /** A derived type is always 'error' or 'success'. */
  lemma ClassifyIsErrorOrSuccess(message: string)
    ensures Classify(message) == ErrorType || Classify(message) == SuccessType
  {
    FirstMatchAppend(Tagged(ErrorPatterns, ErrorType), Tagged(SuccessPatterns, SuccessType), message);
    FirstMatchTagged(ErrorPatterns, ErrorType, message);
    FirstMatchTagged(SuccessPatterns, SuccessType, message);
  }

  /** None of the error keywords occurs in the lower-cased usage confirmation: each has a
      character, or a pair of adjacent characters, that the confirmation lacks. */
  lemma UsageRecordedHasNoErrorKeyword(l: string)
    requires l == "uso registrado con \U{E9}xito"
    ensures forall k :: 3 <= k < |ErrorPatterns| ==> !Contains(l, ErrorPatterns[k].text)
  {
    UsageRecordedLacksChars(l);
    NoPairNoMatch(l, "error", 1);
    NoPairNoMatch(l, "sin ", 0);
    NoPairNoMatch(l, "no existe", 0);
    NoPairNoMatch(l, "no encontrado", 0);
  }

  lemma UsageRecordedLacksChars(l: string)
    requires l == "uso registrado con \U{E9}xito"
    ensures !Contains(l, "no se pudo") && !Contains(l, "fallo") && !Contains(l, "conexi\U{F3}n")
    ensures !Contains(l, "inv\U{E1}") && !Contains(l, "insuficient") && !Contains(l, "obligatori")
    ensures !Contains(l, "requerid") && !Contains(l, "debes") && !Contains(l, "no hay")
  {
    NoCharNoMatch(l, "no se pudo", 6);
    NoCharNoMatch(l, "fallo", 0);
    NoCharNoMatch(l, "conexi\U{F3}n", 6);
    NoCharNoMatch(l, "inv\U{E1}", 2);
    NoCharNoMatch(l, "insuficient", 4);
    NoCharNoMatch(l, "obligatori", 1);
    NoCharNoMatch(l, "requerid", 2);
    NoCharNoMatch(l, "debes", 2);
    NoCharNoMatch(l, "no hay", 3);
  }

  /** The usage screen's confirmation matches no error rule, so it is shown as a success. */
  lemma ClassifyUsageRecorded()
    ensures Classify("Uso registrado con \U{E9}xito") == SuccessType
  {
    var m := "Uso registrado con \U{E9}xito";
    assert Lower(m) == "uso registrado con \U{E9}xito";
    UsageRecordedHasNoErrorKeyword(Lower(m));
    assert m[0] == 'U';
    assert forall k :: 0 <= k < |ErrorPatterns| ==> !PatternMatches(ErrorPatterns[k], m);
    ClassifyErrorIff(m);
    ClassifyIsErrorOrSuccess(m);
  }

  /** A connection failure message is an error through the keyword 'no se pudo'. */
  lemma ClassifyConnectionFailure()
    ensures Classify("No se pudo conectar al servidor") == ErrorType
  {
    var m := "No se pudo conectar al servidor";
    assert Lower(m) == "no se pudo conectar al servidor";
    assert MatchAt(Lower(m), "no se pudo", 0);
    assert PatternMatches(ErrorPatterns[4], m);
    ClassifyErrorIff(m);
  }

  /** The history screen's "nothing to send" notice comes out as an error, through the
      keyword 'no hay'. */
  lemma ClassifyNothingToSend()
    ensures Classify("No hay registros nuevos para enviar") == ErrorType
  {
    var m := "No hay registros nuevos para enviar";
    assert Lower(m) == "no hay registros nuevos para enviar";
    assert MatchAt(Lower(m), "no hay", 0);
    assert PatternMatches(ErrorPatterns[13], m);
    ClassifyErrorIff(m);
  }

  /** The toast record: shown or hidden, with its message and type. */
  class Toast {
    var visible: bool
    var message: string
    var kind: string

    constructor ()
      ensures !visible && message == "" && kind == SuccessType
    {
      visible, message, kind := false, "", SuccessType;
    }

    /** showToast: the record is replaced as a whole; the new toast is visible. */
    method ShowToast(msg: string, explicitType: string)
      modifies this
      ensures visible && message == msg && kind == ResolveType(msg, explicitType)
    {
      visible, message, kind := true, msg, ResolveType(msg, explicitType);
    }

    /** hideToast: only visibility changes. */
    method HideToast()
      modifies this`visible
      ensures !visible
    {
      visible := false;
    }
  }
}
