/** The password-recovery form: one e-mail field, its checks, and the flag that switches the
    screen to the "e-mail sent" view. */
module PasswordRecovery {
  import opened Wrappers
  import opened Text
  import opened Email

  /** validarEmail: the same pattern registration uses (Email.EmailPatternIff reads it as an
      address). */
  predicate ValidarEmail(email: string) {
    MatchesEmailPattern(email)
  }

  datatype RecoveryError = EmailRequired | EmailInvalid

  /** The checks of handleEnviarRecuperacion, in order: a blank e-mail, then an e-mail as typed
      that the pattern refuses. An accepted e-mail is sent trimmed and lower-cased. */
  function CheckRecovery(email: string): (r: Result<string, RecoveryError>)
    ensures r == Err(EmailRequired) <==> Trim(email) == ""
    ensures r == Err(EmailInvalid) <==> Trim(email) != "" && !ValidarEmail(email)
    ensures r.Ok? <==> ValidarEmail(email)
    ensures r.Ok? ==> r.value == Lower(Trim(email))
  {
    if Trim(email) == "" then Err(EmailRequired)
    else if !ValidarEmail(email) then Err(EmailInvalid)
    else Ok(Lower(Trim(email)))
  }

  /** The address sent is the typed one lower-cased, since an accepted address has no white
      space, and it still matches the pattern. */
  lemma SentAddressMatches(email: string)
    requires CheckRecovery(email).Ok?
    ensures CheckRecovery(email).value == Lower(email)
    ensures MatchesEmailPattern(CheckRecovery(email).value)
  {
    EmailHasNoSpace(email);
    EmailPatternLower(email);
  }

  class ForgotForm {
    var email: string
    var cargando: bool
    var emailEnviado: bool

    constructor ()
      ensures email == "" && !cargando && !emailEnviado
    {
      email, cargando, emailEnviado := "", false, false;
    }

    /** handleEnviarRecuperacion: nothing is sent unless the checks pass; an accepted e-mail is
        sent, the sent view is switched on only when the server accepts the request, and the
        loading flag ends false. */
    method HandleEnviarRecuperacion(serverOk: bool) returns (sent: Option<string>)
      modifies this`cargando, this`emailEnviado
      ensures sent == (if CheckRecovery(old(email)).Ok? then Some(CheckRecovery(old(email)).value) else None)
      ensures emailEnviado == (old(emailEnviado) || (sent.Some? && serverOk))
      ensures sent.Some? ==> !cargando
      ensures sent.None? ==> cargando == old(cargando)
    {
      var check := CheckRecovery(email);
      if check.Err? {
        return None;
      }
      cargando := true;
      sent := Some(check.value);
      if serverOk {
        emailEnviado := true;
      }
      cargando := false;
    }

    /** handleReenviar: the sent view is switched off first, so it stays off unless the new
        request is accepted. */
    method HandleReenviar(serverOk: bool) returns (sent: Option<string>)
      modifies this`cargando, this`emailEnviado
      ensures sent == (if CheckRecovery(old(email)).Ok? then Some(CheckRecovery(old(email)).value) else None)
      ensures emailEnviado == (sent.Some? && serverOk)
    {
      emailEnviado := false;
      sent := HandleEnviarRecuperacion(serverOk);
    }
  }
}
