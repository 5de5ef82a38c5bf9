/**
 * The customer service: its own required-field validation (`validateCustomerData`),
 * and the order of checks `create`, `findById` and `delete` run against the
 * customer store before changing it. The store is a map from id to customer in
 * which no two customers share an email or a documento.
 *
 * The service throws plain `{status, message, errors}` objects, not `AppError`s;
 * a truthy field that is not a string makes `.trim()` throw a `TypeError`.
 */
module CustomerService {
  import opened Wrappers
  import opened JsValue
  import opened Patterns
  import opened Errors
  import opened CustomerValidation

  const NOME_REQUIRED_MSG := "Nome é obrigatório"
  const EMAIL_REQUIRED_MSG := "Email é obrigatório"
  const EMAIL_INVALID_MSG := "Email inválido"
  const DOCUMENTO_REQUIRED_MSG := "Documento é obrigatório"
  const TELEFONE_REQUIRED_MSG := "Telefone é obrigatório"
  const INVALID_DATA_MSG := "Dados inválidos"
  const EMAIL_TAKEN := "Email já cadastrado"
  const DOCUMENTO_TAKEN := "Documento já cadastrado"
  const CUSTOMER_NOT_FOUND := "Cliente não encontrado"

  /** A stored customer. */
  datatype Customer = Customer(id: string, nome: string, email: string, documento: string, telefone: string)

  type Rows = map<string, Customer>

  /** Some field makes `.trim()` throw. */
  predicate AnyTrimThrows(d: CustomerBody) {
    TrimThrows(d.nome) || TrimThrows(d.email) || TrimThrows(d.documento) || TrimThrows(d.telefone)
  }

  /** `!field || field.trim() === ''`, once `.trim()` cannot throw. */
  function RequiredError(v: Value, message: string): (r: Option<string>)
    requires !TrimThrows(v)
    ensures r.None? <==> v.Str? && !IsBlank(v.s)
    ensures r.Some? ==> r.value == message
  {
    if !IsFilledString(v) then Some(message) else None
  }

  /** The email message: required, then the email pattern. */
  function ServiceEmailError(v: Value): (r: Option<string>)
    requires !TrimThrows(v)
    ensures r.None? <==> v.Str? && IsValidEmail(v.s)
    ensures r == Some(EMAIL_REQUIRED_MSG) <==> !IsFilledString(v)
    ensures r == Some(EMAIL_INVALID_MSG) <==> IsFilledString(v) && !IsValidEmail(v.s)
  {
    ValidEmailIsFilled(v);
    if !IsFilledString(v) then Some(EMAIL_REQUIRED_MSG)
    else if !IsValidEmail(v.s) then Some(EMAIL_INVALID_MSG)
    else None
  }

  /** What `validateCustomerData` returns, or the `TypeError` it throws. */
  function CustomerDataErrors(d: CustomerBody): (r: Result<seq<string>, Thrown>)
    ensures r.Err? <==> AnyTrimThrows(d)
    ensures r.Err? ==> r.error == TypeError
    ensures r.Ok? ==> |r.value| <= 4
    ensures r == Ok([]) <==>
      && d.nome.Str? && !IsBlank(d.nome.s)
      && d.email.Str? && IsValidEmail(d.email.s)
      && d.documento.Str? && !IsBlank(d.documento.s)
      && d.telefone.Str? && !IsBlank(d.telefone.s)
  {
    if AnyTrimThrows(d) then Err(TypeError)
    else
      Ok(OptList(RequiredError(d.nome, NOME_REQUIRED_MSG)) + OptList(ServiceEmailError(d.email))
         + OptList(RequiredError(d.documento, DOCUMENTO_REQUIRED_MSG)) + OptList(RequiredError(d.telefone, TELEFONE_REQUIRED_MSG)))
  }

  /** One `if (!field || field.trim() === '') errors.push(message)` step. */
  method CheckRequired(v: Value, message: string, errors: seq<string>) returns (r: Result<seq<string>, Thrown>)
    ensures TrimThrows(v) ==> r == Err(TypeError)
    ensures !TrimThrows(v) ==> r == Ok(errors + OptList(RequiredError(v, message)))
  {
    if !Truthy(v) {
      assert OptList(RequiredError(v, message)) == [message];
      r := Ok(errors + [message]);
    } else if !v.Str? {
      r := Err(TypeError);
    } else if Trim(v.s) == "" {
      assert OptList(RequiredError(v, message)) == [message];
      r := Ok(errors + [message]);
    } else {
      assert OptList(RequiredError(v, message)) == [];
      assert errors + [] == errors;
      r := Ok(errors);
    }
  }

  /** `validateCustomerData`: check the fields in order, pushing messages; `.trim()` on a non-string throws. */
  method ValidateCustomerData(d: CustomerBody) returns (r: Result<seq<string>, Thrown>)
    ensures r == CustomerDataErrors(d)
  {
    r := CheckRequired(d.nome, NOME_REQUIRED_MSG, []);
    if r.Err? {
      return;
    }
    var errors := r.value;
    assert errors == OptList(RequiredError(d.nome, NOME_REQUIRED_MSG));

    if !Truthy(d.email) {
      errors := errors + [EMAIL_REQUIRED_MSG];
    } else if !d.email.Str? {
      return Err(TypeError);
    } else if Trim(d.email.s) == "" {
      errors := errors + [EMAIL_REQUIRED_MSG];
    } else if !IsValidEmail(d.email.s) {
      errors := errors + [EMAIL_INVALID_MSG];
    }
    assert errors == OptList(RequiredError(d.nome, NOME_REQUIRED_MSG)) + OptList(ServiceEmailError(d.email));

    r := CheckRequired(d.documento, DOCUMENTO_REQUIRED_MSG, errors);
    if r.Err? {
      return;
    }
    r := CheckRequired(d.telefone, TELEFONE_REQUIRED_MSG, r.value);
  }

  /** A body the route validator lets through passes the service's own validation. */
  lemma ValidatedBodyPassesService(b: CustomerBody)
    requires AcceptableCustomer(b)
    ensures CustomerDataErrors(b) == Ok([])
  {
    ValidEmailIsFilled(b.email);
    DigitsMakeFilled(b.documento);
    DigitsMakeFilled(b.telefone);
  }

  /** The converse fails: the service accepts a two-letter name and one-digit documento and telefone. */
  lemma ServiceIsLaxerThanValidator()
    ensures var b := CustomerBody(Str("ab"), Str("usuario.nome@dominio.com.br"), Str("1"), Str("1"));
      CustomerDataErrors(b) == Ok([]) && !AcceptableCustomer(b)
  {
    EmailAcceptedExample();
    var ab := "ab";
    assert !IsWhitespace(ab[0]);
    var one := "1";
    assert !IsWhitespace(one[0]);
  }

  /** Emails are unique among the stored customers. */
  predicate EmailTaken(rows: Rows, email: string) {
    exists id | id in rows :: rows[id].email == email
  }

  /** Documentos are unique among the stored customers. */
  predicate DocumentoTaken(rows: Rows, documento: string) {
    exists id | id in rows :: rows[id].documento == documento
  }

  /** Each row is stored under its own id, and no two rows share an email or a documento. */
  predicate WellFormed(rows: Rows) {
    && (forall id | id in rows :: rows[id].id == id)
    && (forall i, j | i in rows && j in rows && i != j :: rows[i].email != rows[j].email)
    && (forall i, j | i in rows && j in rows && i != j :: rows[i].documento != rows[j].documento)
  }

  /** The result of `create` and the store after it. */
  datatype Created = Created(result: Result<Customer, Thrown>, rows: Rows)

  /** `create(customerData)`: validate, then the email check, then the documento check, then insert under `newId`. */
  function CreateCustomer(rows: Rows, d: CustomerBody, newId: string): (c: Created)
    requires newId !in rows
    ensures c.result.Err? ==> c.rows == rows
    ensures CustomerDataErrors(d).Err? ==> c.result == Err(TypeError)
    ensures CustomerDataErrors(d).Ok? && CustomerDataErrors(d).value != [] ==>
      c.result == Err(Plain(400, INVALID_DATA_MSG, Some(CustomerDataErrors(d).value)))
    ensures CustomerDataErrors(d) == Ok([]) && EmailTaken(rows, d.email.s) ==>
      c.result == Err(Plain(409, EMAIL_TAKEN, None))
    ensures CustomerDataErrors(d) == Ok([]) && !EmailTaken(rows, d.email.s) && DocumentoTaken(rows, d.documento.s) ==>
      c.result == Err(Plain(409, DOCUMENTO_TAKEN, None))
    ensures c.result.Ok? <==>
      CustomerDataErrors(d) == Ok([]) && !EmailTaken(rows, d.email.s) && !DocumentoTaken(rows, d.documento.s)
    ensures c.result.Ok? ==>
      && c.result.value == Customer(newId, d.nome.s, d.email.s, d.documento.s, d.telefone.s)
      && c.rows == rows[newId := c.result.value]
  {
    match CustomerDataErrors(d)
    case Err(e) => Created(Err(e), rows)
    case Ok(errs) =>
      if errs != [] then Created(Err(Plain(400, INVALID_DATA_MSG, Some(errs))), rows)
      else if EmailTaken(rows, d.email.s) then Created(Err(Plain(409, EMAIL_TAKEN, None)), rows)
      else if DocumentoTaken(rows, d.documento.s) then Created(Err(Plain(409, DOCUMENTO_TAKEN, None)), rows)
      else
        var c := Customer(newId, d.nome.s, d.email.s, d.documento.s, d.telefone.s);
        Created(Ok(c), rows[newId := c])
  }

  /** `create` keeps emails and documentos unique, and adds at most one customer. */
  lemma CreateKeepsStoreWellFormed(rows: Rows, d: CustomerBody, newId: string)
    requires newId !in rows && WellFormed(rows)
    ensures WellFormed(CreateCustomer(rows, d, newId).rows)
    ensures |CreateCustomer(rows, d, newId).rows| <= |rows| + 1
  {
    var c := CreateCustomer(rows, d, newId);
    if c.result.Ok? {
      var n := c.result.value;
      assert !EmailTaken(rows, n.email) && !DocumentoTaken(rows, n.documento);
    }
  }

  /** A customer whose email is already stored is refused, whatever else is in the body. */
  lemma DuplicateEmailRefused(rows: Rows, d: CustomerBody, newId: string, other: string)
    requires newId !in rows && other in rows
    requires CustomerDataErrors(d) == Ok([]) && d.email == Str(rows[other].email)
    ensures CreateCustomer(rows, d, newId) == Created(Err(Plain(409, EMAIL_TAKEN, None)), rows)
  {
    assert EmailTaken(rows, d.email.s);
  }

  /** The customer store the service works against. */
  class CustomerRepository {
    var rows: Rows

    ghost predicate Valid()
      reads this
    {
      WellFormed(rows)
    }

    constructor()
      ensures Valid() && rows == map[]
    {
      rows := map[];
    }

    /** `customerRepository.findByEmail(email)`: the stored customer with that email, or null. */
    method FindByEmail(email: string) returns (r: Option<Customer>)
      ensures r.Some? ==> r.value in rows.Values && r.value.email == email
      ensures r.None? ==> forall c | c in rows.Values :: c.email != email
    {
      if id :| id in rows && rows[id].email == email {
        r := Some(rows[id]);
      } else {
        r := None;
      }
    }

    /** `customerRepository.findByDocumento(documento)`: the stored customer with that documento, or null. */
    method FindByDocumento(documento: string) returns (r: Option<Customer>)
      ensures r.Some? ==> r.value in rows.Values && r.value.documento == documento
      ensures r.None? ==> forall c | c in rows.Values :: c.documento != documento
    {
      if id :| id in rows && rows[id].documento == documento {
        r := Some(rows[id]);
      } else {
        r := None;
      }
    }

    /** `create(customerData)`, with `newId` the id the store generates. */
    method Create(d: CustomerBody, newId: string) returns (r: Result<Customer, Thrown>)
      requires Valid() && newId !in rows
      modifies this
      ensures Valid()
      ensures Created(r, rows) == CreateCustomer(old(rows), d, newId)
    {
      CreateKeepsStoreWellFormed(rows, d, newId);
      var v := ValidateCustomerData(d);
      if v.Err? {
        return Err(v.error);
      }
      if |v.value| > 0 {
        return Err(Plain(400, INVALID_DATA_MSG, Some(v.value)));
      }
      var existingEmail := FindByEmail(d.email.s);
      if existingEmail.Some? {
        return Err(Plain(409, EMAIL_TAKEN, None));
      }
      var existingDocumento := FindByDocumento(d.documento.s);
      if existingDocumento.Some? {
        return Err(Plain(409, DOCUMENTO_TAKEN, None));
      }
      var c := Customer(newId, d.nome.s, d.email.s, d.documento.s, d.telefone.s);
      rows := rows[newId := c];
      r := Ok(c);
    }

    /** `findById(id)`: the stored customer, or 404 'Cliente não encontrado'. */
    function FindById(id: string): (r: Result<Customer, Thrown>)
      reads this
      ensures r.Ok? <==> id in rows
      ensures r.Ok? ==> r.value == rows[id]
      ensures r.Err? ==> r.error == Plain(404, CUSTOMER_NOT_FOUND, None)
    {
      if id in rows then Ok(rows[id]) else Err(Plain(404, CUSTOMER_NOT_FOUND, None))
    }

    /** `delete(id)`: 404 and nothing removed for an unknown id; otherwise exactly that customer is removed. */
    method Delete(id: string) returns (r: Result<Customer, Thrown>)
      requires Valid()
      modifies this
      ensures Valid()
      ensures r.Ok? <==> id in old(rows)
      ensures r.Err? ==> r.error == Plain(404, CUSTOMER_NOT_FOUND, None) && rows == old(rows)
      ensures r.Ok? ==> r.value == old(rows)[id] && rows == old(rows) - {id}
    {
      r := FindById(id);
      if r.Ok? {
        rows := rows - {id};
      }
    }
  }
}
