/** The registration form: four text fields, the ordered checks of validarFormulario and the
    normalised payload of handleRegister. */
module Registration {
  import opened Wrappers
  import opened Text
  import opened Email

  datatype RegistroFields = RegistroFields(nombre: string, email: string, password: string, confirmPassword: string)

  /** The account sent to the server. */
  datatype RegistroPayload = RegistroPayload(nombre: string, correo: string, password: string)

  datatype RegistroError =
    | NameRequired
    | EmailRequired
    | EmailInvalid
    | PasswordRequired
    | PasswordTooShort
    | PasswordMismatch

  /** The minimum password length. */
  const MinPassword := 6

  /** validarFormulario: the first failing check, or None when the form is valid. The name and
      the e-mail must not be blank once trimmed; the e-mail as typed must match the pattern;
      the password must be present, at least six characters long and equal to its
      confirmation. */
  function ValidarFormulario(f: RegistroFields): (r: Option<RegistroError>)
    ensures r == Some(NameRequired) <==> Trim(f.nombre) == ""
    ensures r == Some(EmailRequired) <==> Trim(f.nombre) != "" && Trim(f.email) == ""
    ensures r == Some(EmailInvalid) <==>
              Trim(f.nombre) != "" && Trim(f.email) != "" && !MatchesEmailPattern(f.email)
    ensures r == Some(PasswordRequired) <==>
              Trim(f.nombre) != "" && Trim(f.email) != "" && MatchesEmailPattern(f.email) && f.password == ""
    ensures r == Some(PasswordTooShort) <==>
              Trim(f.nombre) != "" && Trim(f.email) != "" && MatchesEmailPattern(f.email) && f.password != ""
              && |f.password| < MinPassword
    ensures r == Some(PasswordMismatch) <==>
              Trim(f.nombre) != "" && Trim(f.email) != "" && MatchesEmailPattern(f.email)
              && |f.password| >= MinPassword && f.password != f.confirmPassword
    ensures r == None <==>
              Trim(f.nombre) != "" && MatchesEmailPattern(f.email)
              && |f.password| >= MinPassword && f.password == f.confirmPassword
  {
    if Trim(f.nombre) == "" then Some(NameRequired)
    else if Trim(f.email) == "" then Some(EmailRequired)
    else if !MatchesEmailPattern(f.email) then Some(EmailInvalid)
    else if f.password == "" then Some(PasswordRequired)
    else if |f.password| < MinPassword then Some(PasswordTooShort)
    else if f.password != f.confirmPassword then Some(PasswordMismatch)
    else None
  }

  /** The payload handleRegister sends: the trimmed name, the trimmed lower-cased e-mail and the
      password as typed. */
  function Payload(f: RegistroFields): RegistroPayload {
    RegistroPayload(Trim(f.nombre), Lower(Trim(f.email)), f.password)
  }

  /** An e-mail padded with white space is refused as invalid even though it is not blank:
      the emptiness check trims, the pattern does not. */
  lemma PaddedEmailIsRejected(f: RegistroFields)
    requires Trim(f.nombre) != "" && Trim(f.email) != ""
    requires IsSpace(f.email[0]) || IsSpace(f.email[|f.email| - 1])
    ensures ValidarFormulario(f) == Some(EmailInvalid)
  {
    if MatchesEmailPattern(f.email) {
      EmailHasNoSpace(f.email);
    }
  }

  /** The e-mail of a valid form reaches the server lower-cased and still matching the pattern;
      trimming it changes nothing. */
  lemma SentEmailMatches(f: RegistroFields)
    requires ValidarFormulario(f) == None
    ensures Payload(f).correo == Lower(f.email)
    ensures MatchesEmailPattern(Payload(f).correo)
  {
    EmailHasNoSpace(f.email);
    EmailPatternLower(f.email);
  }

  class RegisterForm {
    var nombre: string
    var email: string
    var password: string
    var confirmPassword: string
    var cargando: bool

    function Fields(): RegistroFields
      reads this
    {
      RegistroFields(nombre, email, password, confirmPassword)
    }

    constructor ()
      ensures Fields() == RegistroFields("", "", "", "") && !cargando
    {
      nombre, email, password, confirmPassword := "", "", "", "";
      cargando := false;
    }

    /** handleRegister: nothing is sent unless the form is valid; a valid form sends its payload,
        the four fields are cleared when the server accepts it, and the loading flag ends
        false. */
    method HandleRegister(serverOk: bool) returns (sent: Option<RegistroPayload>)
      modifies this`nombre, this`email, this`password, this`confirmPassword, this`cargando
      ensures sent.None? <==> ValidarFormulario(old(Fields())).Some?
      ensures sent.Some? ==> sent.value == Payload(old(Fields())) && !cargando
      ensures sent.Some? && serverOk ==> nombre == "" && email == "" && password == "" && confirmPassword == ""
      ensures !(sent.Some? && serverOk) ==> Fields() == old(Fields())
      ensures sent.None? ==> cargando == old(cargando)
    {
      if ValidarFormulario(Fields()).Some? {
        return None;
      }
      cargando := true;
      sent := Some(Payload(Fields()));
      if serverOk {
        Limpiar();
      }
      cargando := false;
    }

    /** The reset after an accepted registration. */
    method Limpiar()
      modifies this`nombre, this`email, this`password, this`confirmPassword
      ensures nombre == "" && email == "" && password == "" && confirmPassword == ""
    {
      nombre, email, password, confirmPassword := "", "", "", "";
    }
  }
}
