/**
 * The charge service: its own validation (`validateChargeData`), the charge record
 * `create` builds and inserts once the customer is known, and the not-found checks
 * of `findById` and `findByCustomerId`. Unlike the customer service it throws
 * `AppError`s (`ValidationError`, `NotFoundError`).
 *
 * `new Date(data_vencimento)` is given as `vencimento`, its time value, `None` for
 * an invalid date.
 */
module ChargeService {
  import opened Wrappers
  import opened JsValue
  import opened Errors
  import opened ChargeValidation
  import opened CustomerService

  const VALOR_REQUIRED_NUMBER := "Valor é obrigatório e deve ser um número"
  const PARCELAS_MIN := "Parcelas deve ser um número maior ou igual a 1"
  const CHARGE_NOT_FOUND := "Cobrança não encontrada"
  const PENDENTE := "PENDENTE"

  /** The `valor` message: a truthy number (so not 0), then positive. */
  function ServiceValorError(v: Value): (r: Option<string>)
    ensures r.None? <==> v.Num? && v.n > 0.0
    ensures r == Some(VALOR_REQUIRED_NUMBER) <==> !v.Num? || v.n == 0.0
    ensures r == Some(VALOR_NOT_POSITIVE) <==> v.Num? && v.n < 0.0
  {
    if !Truthy(v) || !v.Num? then Some(VALOR_REQUIRED_NUMBER)
    else if v.n <= 0.0 then Some(VALOR_NOT_POSITIVE)
    else None
  }

  /** The `metodo_pagamento` message: truthy, then one of the three methods. */
  function ServiceMetodoError(v: Value): (r: Option<string>)
    ensures r.None? <==> IsKnownMethod(v)
    ensures r == Some(METODO_REQUIRED) <==> !Truthy(v)
    ensures r == Some(METODO_INVALID) <==> Truthy(v) && !IsKnownMethod(v)
  {
    if !Truthy(v) then Some(METODO_REQUIRED)
    else if !IsKnownMethod(v) then Some(METODO_INVALID)
    else None
  }

  /** The method-specific messages; each block runs only for its own method. */
  function ServiceMethodErrors(metodo: Value, parcelas: Value, dataVencimento: Value, vencimento: Option<int>): (r: seq<string>)
    ensures !IsKnownMethod(metodo) ==> r == []
    ensures metodo == Str("BOLETO") ==> (r == [] <==> Truthy(dataVencimento) && vencimento.Some?)
    ensures metodo == Str("CARTAO") ==> (r == [] <==> !Truthy(parcelas) || (parcelas.Num? && parcelas.n >= 1.0))
    ensures metodo == Str("PIX") ==> (r == [] <==> !Truthy(parcelas) && !Truthy(dataVencimento))
    ensures |r| <= 2
  {
    (if metodo == Str("BOLETO") then
       OptList(if !Truthy(dataVencimento) then Some(VENCIMENTO_REQUIRED)
               else if vencimento.None? then Some(VENCIMENTO_INVALID)
               else None)
     else [])
    + (if metodo == Str("CARTAO") && Truthy(parcelas) && (!parcelas.Num? || parcelas.n < 1.0) then [PARCELAS_MIN] else [])
    + (if metodo == Str("PIX") then
         OptList(if Truthy(parcelas) then Some(PIX_NO_PARCELAS) else None)
           + OptList(if Truthy(dataVencimento) then Some(PIX_NO_VENCIMENTO) else None)
       else [])
  }

  /** The fields the method-independent checks look at. */
  function FieldErrors(d: ChargeBody): seq<string>
    requires !TrimThrows(d.customerId) && !TrimThrows(d.moeda)
  {
    LeadingErrors(d) + OptList(ServiceMetodoError(d.metodo_pagamento))
  }

  /** What `validateChargeData` returns, or the `TypeError` `.trim()` throws. */
  function ChargeDataErrors(d: ChargeBody, vencimento: Option<int>): (r: Result<seq<string>, Thrown>)
    ensures r.Err? <==> TrimThrows(d.customerId) || TrimThrows(d.moeda)
    ensures r.Err? ==> r.error == TypeError
    ensures r.Ok? ==> |r.value| <= 5
  {
    if TrimThrows(d.customerId) || TrimThrows(d.moeda) then Err(TypeError)
    else Ok(FieldErrors(d) + ServiceMethodErrors(d.metodo_pagamento, d.parcelas, d.data_vencimento, vencimento))
  }

  /** What the service demands of the method-specific fields. */
  predicate ServiceMethodFieldsAcceptable(d: ChargeBody, vencimento: Option<int>) {
    && (d.metodo_pagamento == Str("BOLETO") ==> Truthy(d.data_vencimento) && vencimento.Some?)
    && (d.metodo_pagamento == Str("CARTAO") ==> !Truthy(d.parcelas) || (d.parcelas.Num? && d.parcelas.n >= 1.0))
    && (d.metodo_pagamento == Str("PIX") ==> !Truthy(d.parcelas) && !Truthy(d.data_vencimento))
  }

  /** A charge the service accepts. */
  predicate ServiceAcceptable(d: ChargeBody, vencimento: Option<int>) {
    && d.customerId.Str? && !IsBlank(d.customerId.s)
    && d.valor.Num? && d.valor.n > 0.0
    && d.moeda.Str? && !IsBlank(d.moeda.s)
    && IsKnownMethod(d.metodo_pagamento)
    && ServiceMethodFieldsAcceptable(d, vencimento)
  }

  /** The service returns no message exactly for an acceptable charge. */
  lemma NoServiceErrorsIffAcceptable(d: ChargeBody, vencimento: Option<int>)
    ensures ChargeDataErrors(d, vencimento) == Ok([]) <==> ServiceAcceptable(d, vencimento)
  {
    if !TrimThrows(d.customerId) && !TrimThrows(d.moeda) {
      var m := ServiceMethodErrors(d.metodo_pagamento, d.parcelas, d.data_vencimento, vencimento);
      if IsKnownMethod(d.metodo_pagamento) {
        assert m == [] <==> ServiceMethodFieldsAcceptable(d, vencimento);
      }
    }
  }

  /** The messages about customerId, valor and moeda, in order. */
  function LeadingErrors(d: ChargeBody): (r: seq<string>)
    requires !TrimThrows(d.customerId) && !TrimThrows(d.moeda)
    ensures forall x | x in r :: x == CLIENTE_REQUIRED || x == VALOR_REQUIRED_NUMBER || x == VALOR_NOT_POSITIVE || x == MOEDA_REQUIRED
  {
    var c := OptList(RequiredError(d.customerId, CLIENTE_REQUIRED));
    var v := OptList(ServiceValorError(d.valor));
    var m := OptList(RequiredError(d.moeda, MOEDA_REQUIRED));
    assert forall x | x in c :: x == CLIENTE_REQUIRED;
    assert forall x | x in v :: x == VALOR_REQUIRED_NUMBER || x == VALOR_NOT_POSITIVE;
    assert forall x | x in m :: x == MOEDA_REQUIRED;
    c + v + m
  }

  /** A missing or unknown payment method yields one method message and no method-specific one. */
  lemma UnknownMethodGivesOneMethodError(d: ChargeBody, vencimento: Option<int>)
    requires !IsKnownMethod(d.metodo_pagamento)
    requires ChargeDataErrors(d, vencimento).Ok?
    ensures var errs := ChargeDataErrors(d, vencimento).value;
      |errs| >= 1
      && (errs[|errs| - 1] == METODO_REQUIRED || errs[|errs| - 1] == METODO_INVALID)
      && (forall i | 0 <= i < |errs| - 1 :: errs[i] != METODO_REQUIRED && errs[i] != METODO_INVALID)
  {
    var m := ServiceMetodoError(d.metodo_pagamento);
    assert OptList(m) == [m.value];
    var lead := LeadingErrors(d);
    var errs := ChargeDataErrors(d, vencimento).value;
    assert errs == lead + [m.value];
    // the messages differ already in length
    assert |CLIENTE_REQUIRED| == 21 && |VALOR_REQUIRED_NUMBER| == 40 && |VALOR_NOT_POSITIVE| == 26;
    assert |MOEDA_REQUIRED| == 19 && |METODO_REQUIRED| == 33 && |METODO_INVALID| == 66;
    forall i | 0 <= i < |errs| - 1
      ensures errs[i] != METODO_REQUIRED && errs[i] != METODO_INVALID
    {
      assert errs[i] == lead[i] && lead[i] in lead;
    }
  }

  /** A body the route validator accepts also passes the service's validation. */
  lemma ValidatedChargePassesService(d: ChargeBody, vencimento: Option<int>, today: int)
    requires AcceptableCharge(d, vencimento, today)
    ensures ChargeDataErrors(d, vencimento) == Ok([])
  {
    UuidIsFilled(d.customerId);
    var m := d.metodo_pagamento.s;
    assert m == "PIX" || m == "CARTAO" || m == "BOLETO";
    if m == "PIX" {
      assert IsNullish(d.parcelas) && IsNullish(d.data_vencimento);
    } else if m == "CARTAO" {
      assert IsNullish(d.parcelas) || d.parcelas.n >= 1.0;
    } else {
      assert Truthy(d.data_vencimento) && vencimento.Some?;
    }
    assert ServiceMethodFieldsAcceptable(d, vencimento);
    NoServiceErrorsIffAcceptable(d, vencimento);
  }

  /** The service has no past-date check: a boleto due before today passes it but not the route validator. */
  lemma ServiceSkipsPastDueDate(d: ChargeBody, vencimento: Option<int>, today: int)
    requires ServiceAcceptable(d, vencimento) && d.metodo_pagamento == Str("BOLETO")
    requires vencimento.value < today
    ensures ChargeDataErrors(d, vencimento) == Ok([])
    ensures ChargeErrors(d, vencimento, today) != []
  {
    NoServiceErrorsIffAcceptable(d, vencimento);
    NoChargeErrorsIffAcceptable(d, vencimento, today);
  }

  /** `validateChargeData`: the required checks in order, then the method blocks, pushing messages. */
  method ValidateChargeData(d: ChargeBody, vencimento: Option<int>) returns (r: Result<seq<string>, Thrown>)
    ensures r == ChargeDataErrors(d, vencimento)
  {
    r := CheckRequired(d.customerId, CLIENTE_REQUIRED, []);
    if r.Err? {
      return;
    }
    var errors := r.value;
    ghost var f1 := OptList(RequiredError(d.customerId, CLIENTE_REQUIRED));
    assert errors == f1;
    if !Truthy(d.valor) || !d.valor.Num? {
      errors := errors + [VALOR_REQUIRED_NUMBER];
    } else if d.valor.n <= 0.0 {
      errors := errors + [VALOR_NOT_POSITIVE];
    }
    ghost var f2 := f1 + OptList(ServiceValorError(d.valor));
    assert errors == f2;
    r := CheckRequired(d.moeda, MOEDA_REQUIRED, errors);
    if r.Err? {
      return;
    }
    errors := r.value;
    ghost var f3 := f2 + OptList(RequiredError(d.moeda, MOEDA_REQUIRED));
    assert errors == f3;
    if !Truthy(d.metodo_pagamento) {
      errors := errors + [METODO_REQUIRED];
    } else if !IsKnownMethod(d.metodo_pagamento) {
      errors := errors + [METODO_INVALID];
    }
    assert errors == f3 + OptList(ServiceMetodoError(d.metodo_pagamento));
    assert errors == FieldErrors(d);

    errors := PaymentChecks(d.metodo_pagamento, d.parcelas, d.data_vencimento, vencimento, errors);
    assert errors == FieldErrors(d) + ServiceMethodErrors(d.metodo_pagamento, d.parcelas, d.data_vencimento, vencimento);
    r := Ok(errors);
  }

  /** The BOLETO, CARTAO and PIX blocks of `validateChargeData`, pushing onto `errors`. */
  method PaymentChecks(metodo: Value, parcelas: Value, dataVencimento: Value, vencimento: Option<int>, errors: seq<string>)
    returns (out: seq<string>)
    ensures out == errors + ServiceMethodErrors(metodo, parcelas, dataVencimento, vencimento)
  {
    out := errors;
    if metodo == Str("BOLETO") {
      if !Truthy(dataVencimento) {
        out := out + [VENCIMENTO_REQUIRED];
      } else if vencimento.None? {
        out := out + [VENCIMENTO_INVALID];
      }
    }
    if metodo == Str("CARTAO") {
      if Truthy(parcelas) {
        if !parcelas.Num? || parcelas.n < 1.0 {
          out := out + [PARCELAS_MIN];
        }
      }
    }
    if metodo == Str("PIX") {
      if Truthy(parcelas) {
        out := out + [PIX_NO_PARCELAS];
      }
      if Truthy(dataVencimento) {
        out := out + [PIX_NO_VENCIMENTO];
      }
    }
  }

  /** The record `create` passes to the charge store. */
  datatype ChargeDraft = ChargeDraft(
    customerId: string,
    valor: real,
    moeda: string,
    metodo_pagamento: string,
    status: string,
    data_vencimento: Option<int>,
    parcelas: Option<real>)

  /** A stored charge. */
  datatype Charge = Charge(id: string, draft: ChargeDraft)

  /** `chargeToCreate` for an accepted body: the four copied fields, status PENDENTE, and the method's optional field. */
  function DraftOf(d: ChargeBody, vencimento: Option<int>): (c: ChargeDraft)
    requires ChargeDataErrors(d, vencimento) == Ok([])
    ensures c.status == PENDENTE
    ensures Str(c.customerId) == d.customerId && Num(c.valor) == d.valor
    ensures Str(c.moeda) == d.moeda && Str(c.metodo_pagamento) == d.metodo_pagamento
    ensures c.data_vencimento.Some? <==> d.metodo_pagamento == Str("BOLETO")
    ensures c.data_vencimento.Some? ==> c.data_vencimento == vencimento
    ensures c.parcelas.Some? <==> d.metodo_pagamento == Str("CARTAO") && Truthy(d.parcelas)
    ensures c.parcelas.Some? ==> Num(c.parcelas.value) == d.parcelas && c.parcelas.value >= 1.0
  {
    NoServiceErrorsIffAcceptable(d, vencimento);
    ChargeDraft(
      d.customerId.s, d.valor.n, d.moeda.s, d.metodo_pagamento.s, PENDENTE,
      if d.metodo_pagamento == Str("BOLETO") && Truthy(d.data_vencimento) then vencimento else None,
      if d.metodo_pagamento == Str("CARTAO") && Truthy(d.parcelas) then Some(d.parcelas.n) else None)
  }

  /** Build `chargeToCreate`: the fixed fields, then the optional ones by conditional assignment. */
  method BuildCharge(d: ChargeBody, vencimento: Option<int>) returns (c: ChargeDraft)
    requires ChargeDataErrors(d, vencimento) == Ok([])
    ensures c == DraftOf(d, vencimento)
  {
    NoServiceErrorsIffAcceptable(d, vencimento);
    c := ChargeDraft(d.customerId.s, d.valor.n, d.moeda.s, d.metodo_pagamento.s, PENDENTE, None, None);
    if d.metodo_pagamento == Str("BOLETO") && Truthy(d.data_vencimento) {
      c := c.(data_vencimento := vencimento);
    }
    if d.metodo_pagamento == Str("CARTAO") && Truthy(d.parcelas) {
      c := c.(parcelas := Some(d.parcelas.n));
    }
  }

  type Charges = map<string, Charge>

  /** The result of `create` and the charge store after it. */
  datatype ChargeCreated = ChargeCreated(result: Result<Charge, Thrown>, charges: Charges)

  /** `create(chargeData)`: validate, then look the customer up, then insert under `newId`. */
  function CreateCharge(charges: Charges, customerIds: set<string>, d: ChargeBody, vencimento: Option<int>, newId: string): (c: ChargeCreated)
    requires newId !in charges
    ensures c.result.Err? ==> c.charges == charges
    ensures ChargeDataErrors(d, vencimento).Err? ==> c.result == Err(TypeError)
    ensures ChargeDataErrors(d, vencimento).Ok? && ChargeDataErrors(d, vencimento).value != [] ==>
      c.result == Err(App(Validation(INVALID_DATA, ChargeDataErrors(d, vencimento).value)))
    ensures ChargeDataErrors(d, vencimento) == Ok([]) && d.customerId.s !in customerIds ==>
      c.result == Err(App(NotFound(CUSTOMER_NOT_FOUND)))
    ensures c.result.Ok? <==> ChargeDataErrors(d, vencimento) == Ok([]) && d.customerId.s in customerIds
    ensures c.result.Ok? ==>
      && c.result.value == Charge(newId, DraftOf(d, vencimento))
      && c.charges == charges[newId := c.result.value]
  {
    match ChargeDataErrors(d, vencimento)
    case Err(e) => ChargeCreated(Err(e), charges)
    case Ok(errs) =>
      if errs != [] then ChargeCreated(Err(App(Validation(INVALID_DATA, errs))), charges)
      else if d.customerId.s !in customerIds then ChargeCreated(Err(App(NotFound(CUSTOMER_NOT_FOUND))), charges)
      else
        var c := Charge(newId, DraftOf(d, vencimento));
        ChargeCreated(Ok(c), charges[newId := c])
  }

  /** Every stored charge is keyed by its id and was created pending. */
  predicate ChargesWellFormed(charges: Charges) {
    forall id | id in charges :: charges[id].id == id && charges[id].draft.status == PENDENTE
  }

  /** `create` keeps the charge store well formed and never touches an existing charge. */
  lemma CreateChargeKeepsStoreWellFormed(charges: Charges, customerIds: set<string>, d: ChargeBody, vencimento: Option<int>, newId: string)
    requires newId !in charges && ChargesWellFormed(charges)
    ensures var after := CreateCharge(charges, customerIds, d, vencimento, newId).charges;
      && ChargesWellFormed(after)
      && (forall id | id in charges :: id in after && after[id] == charges[id])
  {
  }

  /** The charge store the service works against. */
  class ChargeRepository {
    var charges: Charges

    ghost predicate Valid()
      reads this
    {
      ChargesWellFormed(charges)
    }

    constructor()
      ensures Valid() && charges == map[]
    {
      charges := map[];
    }

    /** `create(chargeData)`, with `newId` the id the store generates and `customers` the customer store. */
    method Create(d: ChargeBody, vencimento: Option<int>, customers: CustomerRepository, newId: string) returns (r: Result<Charge, Thrown>)
      requires Valid() && newId !in charges
      modifies this
      ensures Valid()
      ensures ChargeCreated(r, charges) == CreateCharge(old(charges), customers.rows.Keys, d, vencimento, newId)
    {
      CreateChargeKeepsStoreWellFormed(charges, customers.rows.Keys, d, vencimento, newId);
      var v := ValidateChargeData(d, vencimento);
      if v.Err? {
        return Err(v.error);
      }
      if |v.value| > 0 {
        return Err(App(Validation(INVALID_DATA, v.value)));
      }
      if customers.FindById(d.customerId.s).Err? {
        return Err(App(NotFound(CUSTOMER_NOT_FOUND)));
      }
      var draft := BuildCharge(d, vencimento);
      var c := Charge(newId, draft);
      charges := charges[newId := c];
      r := Ok(c);
    }

    /** `findById(id)`: the stored charge, or `NotFoundError` 'Cobrança não encontrada'. */
    function FindById(id: string): (r: Result<Charge, Thrown>)
      reads this
      ensures r.Ok? <==> id in charges
      ensures r.Ok? ==> r.value == charges[id]
      ensures r.Err? ==> r.error == App(NotFound(CHARGE_NOT_FOUND)) && r.error.error.statusCode == 404
    {
      if id in charges then Ok(charges[id]) else Err(App(NotFound(CHARGE_NOT_FOUND)))
    }

    /** `findByCustomerId(customerId)`: `NotFoundError` for an unknown customer, else that customer's charges. */
    function FindByCustomerId(customerId: string, customers: CustomerRepository): (r: Result<set<Charge>, Thrown>)
      reads this, customers
      ensures r.Err? <==> customerId !in customers.rows
      ensures r.Err? ==> r.error == App(NotFound(CUSTOMER_NOT_FOUND)) && r.error.error.statusCode == 404
      ensures r.Ok? ==> forall c | c in r.value :: c.draft.customerId == customerId && c in charges.Values
      ensures r.Ok? ==> forall id | id in charges && charges[id].draft.customerId == customerId :: charges[id] in r.value
    {
      if customers.FindById(customerId).Err? then Err(App(NotFound(CUSTOMER_NOT_FOUND)))
      else Ok(set id | id in charges && charges[id].draft.customerId == customerId :: charges[id])
    }
  }
}
