/**
 * The request validators of the customer routes: `validateCustomerCreate`
 * collects at most one message per field, in the order nome, email, documento,
 * telefone, and throws a `ValidationError` carrying all of them;
 * `validateCustomerId` checks the `:id` route parameter.
 */
module CustomerValidation {
  import opened Wrappers
  import opened JsValue
  import opened Patterns
  import opened Errors

  /** The fields of `req.body` the validator reads. */
  datatype CustomerBody = CustomerBody(nome: Value, email: Value, documento: Value, telefone: Value)

  const NOME_REQUIRED := "Nome é obrigatório"
  const NOME_TOO_SHORT := "Nome deve ter pelo menos 3 caracteres"
  const NOME_TOO_LONG := "Nome deve ter no máximo 100 caracteres"
  const EMAIL_REQUIRED := "Email é obrigatório"
  const EMAIL_INVALID := "Email inválido"
  const DOCUMENTO_REQUIRED := "Documento é obrigatório"
  const DOCUMENTO_INVALID := "Documento deve ser CPF (11 dígitos) ou CNPJ (14 dígitos)"
  const TELEFONE_REQUIRED := "Telefone é obrigatório"
  const TELEFONE_INVALID := "Telefone deve ter 10 ou 11 dígitos"
  const INVALID_DATA := "Dados inválidos"
  const CUSTOMER_ID_INVALID := "ID do cliente inválido"

  /** The message for `nome`: required, then a trimmed length from 3 to 100. */
  function NomeError(v: Value): (r: Option<string>)
    ensures r.None? <==> v.Str? && 3 <= |Trim(v.s)| <= 100
    ensures r == Some(NOME_REQUIRED) <==> !IsFilledString(v)
    ensures r == Some(NOME_TOO_SHORT) <==> IsFilledString(v) && |Trim(v.s)| < 3
    ensures r == Some(NOME_TOO_LONG) <==> IsFilledString(v) && |Trim(v.s)| > 100
  {
    if !IsFilledString(v) then Some(NOME_REQUIRED)
    else if |Trim(v.s)| < 3 then Some(NOME_TOO_SHORT)
    else if |Trim(v.s)| > 100 then Some(NOME_TOO_LONG)
    else None
  }

  /** A valid address is never blank: it contains an `@`. */
  lemma ValidEmailIsFilled(v: Value)
    ensures v.Str? && IsValidEmail(v.s) ==> IsFilledString(v)
  {
    if v.Str? && IsValidEmail(v.s) {
      var s := v.s;
      var at :| 0 < at < |s| && s[at] == '@'
        && (forall j | 0 <= j < |s| && s[j] == '@' :: j == at)
        && (exists d | at + 1 < d < |s| - 1 :: s[d] == '.');
      assert !IsWhitespace(s[at]);
    }
  }

  /** The message for `email`: required, then the email pattern. */
  function EmailError(v: Value): (r: Option<string>)
    ensures r.None? <==> v.Str? && IsValidEmail(v.s)
    ensures r == Some(EMAIL_REQUIRED) <==> !IsFilledString(v)
    ensures r == Some(EMAIL_INVALID) <==> IsFilledString(v) && !IsValidEmail(v.s)
  {
    ValidEmailIsFilled(v);
    if !IsFilledString(v) then Some(EMAIL_REQUIRED)
    else if !IsValidEmail(v.s) then Some(EMAIL_INVALID)
    else None
  }

  /** A string with at least one digit is a filled string. */
  lemma DigitsMakeFilled(v: Value)
    ensures v.Str? && DigitsOnly(v.s) != [] ==> IsFilledString(v)
  {
    if v.Str? && DigitsOnly(v.s) != [] {
      DigitsMakeNonBlank(v.s);
    }
  }

  /** The message for `documento`: required, then 11 (CPF) or 14 (CNPJ) digits once non-digits are stripped. */
  function DocumentoError(v: Value): (r: Option<string>)
    ensures r.None? <==> v.Str? && (|DigitsOnly(v.s)| == 11 || |DigitsOnly(v.s)| == 14)
    ensures r == Some(DOCUMENTO_REQUIRED) <==> !IsFilledString(v)
    ensures r == Some(DOCUMENTO_INVALID) <==> IsFilledString(v) && |DigitsOnly(v.s)| != 11 && |DigitsOnly(v.s)| != 14
  {
    DigitsMakeFilled(v);
    if !IsFilledString(v) then Some(DOCUMENTO_REQUIRED)
    else
      var digits := DigitsOnly(v.s);
      if |digits| != 11 && |digits| != 14 then Some(DOCUMENTO_INVALID) else None
  }

  /** The message for `telefone`: required, then 10 or 11 digits once non-digits are stripped. */
  function TelefoneError(v: Value): (r: Option<string>)
    ensures r.None? <==> v.Str? && 10 <= |DigitsOnly(v.s)| <= 11
    ensures r == Some(TELEFONE_REQUIRED) <==> !IsFilledString(v)
    ensures r == Some(TELEFONE_INVALID) <==> IsFilledString(v) && !(10 <= |DigitsOnly(v.s)| <= 11)
  {
    DigitsMakeFilled(v);
    if !IsFilledString(v) then Some(TELEFONE_REQUIRED)
    else
      var digits := DigitsOnly(v.s);
      if |digits| < 10 || |digits| > 11 then Some(TELEFONE_INVALID) else None
  }

  /** The messages of a customer body, in field order. */
  function CustomerErrors(b: CustomerBody): (r: seq<string>)
    ensures |r| <= 4
  {
    OptList(NomeError(b.nome)) + OptList(EmailError(b.email))
      + OptList(DocumentoError(b.documento)) + OptList(TelefoneError(b.telefone))
  }

  /** A customer body every field of which the validator accepts. */
  predicate AcceptableCustomer(b: CustomerBody) {
    && b.nome.Str? && 3 <= |Trim(b.nome.s)| <= 100
    && b.email.Str? && IsValidEmail(b.email.s)
    && b.documento.Str? && (|DigitsOnly(b.documento.s)| == 11 || |DigitsOnly(b.documento.s)| == 14)
    && b.telefone.Str? && 10 <= |DigitsOnly(b.telefone.s)| <= 11
  }

  /** The body yields no message exactly when every field is acceptable. */
  lemma NoErrorsIffAcceptable(b: CustomerBody)
    ensures CustomerErrors(b) == [] <==> AcceptableCustomer(b)
  {
  }

  /** A body of four missing fields yields the four "required" messages, in field order. */
  lemma EmptyBodyErrors()
    ensures CustomerErrors(CustomerBody(Undefined, Undefined, Undefined, Undefined))
      == [NOME_REQUIRED, EMAIL_REQUIRED, DOCUMENTO_REQUIRED, TELEFONE_REQUIRED]
  {
  }

  /** `validateCustomerCreate`: push one message per failing field, then throw or call `next()`. */
  method ValidateCustomerCreate(b: CustomerBody) returns (r: Outcome<AppError>)
    ensures r.Next? <==> AcceptableCustomer(b)
    ensures r.Throw? ==> r.error == NewError(ValidationErrorClass, Some(INVALID_DATA), None, Some(CustomerErrors(b)))
  {
    var errors: seq<string> := [];
    var e := NomeError(b.nome);
    if e.Some? { errors := errors + [e.value]; }
    assert errors == OptList(NomeError(b.nome));
    e := EmailError(b.email);
    if e.Some? { errors := errors + [e.value]; }
    assert errors == OptList(NomeError(b.nome)) + OptList(EmailError(b.email));
    e := DocumentoError(b.documento);
    if e.Some? { errors := errors + [e.value]; }
    assert errors == OptList(NomeError(b.nome)) + OptList(EmailError(b.email)) + OptList(DocumentoError(b.documento));
    e := TelefoneError(b.telefone);
    if e.Some? { errors := errors + [e.value]; }
    assert errors == CustomerErrors(b);
    NoErrorsIffAcceptable(b);
    if |errors| > 0 {
      return Throw(NewError(ValidationErrorClass, Some(INVALID_DATA), None, Some(errors)));
    }
    r := Next;
  }

  /** `validateCustomerId`: the `:id` parameter must be a UUID. */
  function ValidateCustomerId(id: string): (r: Outcome<AppError>)
    ensures r.Next? <==> IsValidUuid(id)
    ensures r.Throw? ==> r.error.statusCode == 400 && r.error.message == CUSTOMER_ID_INVALID && r.error.errors == []
  {
    if id == "" || !IsValidUuid(id) then Throw(NewError(ValidationErrorClass, Some(CUSTOMER_ID_INVALID), None, None))
    else Next
  }
}
