/**
 * The request validators of the charge routes: `validateChargeCreate` collects
 * one message per failing field (customerId, valor, moeda, metodo_pagamento),
 * then, only for a valid payment method, the method-specific checks of
 * `validatePaymentMethod`; `validateChargeId` checks the `:id` route parameter.
 *
 * `new Date(data_vencimento)` is given as `vencimento` (its time value, `None` for
 * an invalid date) and "today at midnight" as `today`.
 */
module ChargeValidation {
  import opened Wrappers
  import opened JsValue
  import opened Patterns
  import opened Errors

  /** The fields of `req.body` the validator reads. */
  datatype ChargeBody = ChargeBody(
    customerId: Value,
    valor: Value,
    moeda: Value,
    metodo_pagamento: Value,
    parcelas: Value,
    data_vencimento: Value)

  const CLIENTE_REQUIRED := "Cliente é obrigatório"
  const CLIENTE_INVALID := "ID do cliente inválido"
  const VALOR_REQUIRED := "Valor é obrigatório"
  const VALOR_NOT_NUMBER := "Valor deve ser um número"
  const VALOR_NOT_POSITIVE := "Valor deve ser maior que 0"
  const VALOR_TOO_LARGE := "Valor máximo excedido"
  const MOEDA_REQUIRED := "Moeda é obrigatória"
  const MOEDA_LENGTH := "Moeda deve ter 3 caracteres (ex: BRL, USD)"
  const METODO_REQUIRED := "Método de pagamento é obrigatório"
  const METODO_INVALID := "Método de pagamento deve ser um dos seguintes: PIX, CARTAO, BOLETO"
  const PIX_NO_PARCELAS := "Pagamento via PIX não aceita parcelas"
  const PIX_NO_VENCIMENTO := "Pagamento via PIX não aceita data de vencimento"
  const PARCELAS_NOT_NUMBER := "Parcelas deve ser um número"
  const PARCELAS_NOT_INTEGER := "Parcelas deve ser um número inteiro"
  const PARCELAS_TOO_FEW := "Parcelas deve ser maior ou igual a 1"
  const PARCELAS_TOO_MANY := "Número máximo de parcelas é 12"
  const VENCIMENTO_REQUIRED := "Data de vencimento é obrigatória para pagamento via boleto"
  const VENCIMENTO_INVALID := "Data de vencimento inválida"
  const VENCIMENTO_PAST := "Data de vencimento não pode ser no passado"
  const BOLETO_NO_PARCELAS := "Pagamento via boleto não aceita parcelas"
  const INVALID_DATA := "Dados inválidos"
  const CHARGE_ID_INVALID := "ID da cobrança inválido"

  /** The largest amount accepted. */
  const MAX_VALOR: real := 999999999.99

  /** `Number.isInteger` */
  predicate IsInteger(x: real) {
    x.Floor as real == x
  }

  /** The payment methods the validator knows. */
  predicate IsKnownMethod(v: Value) {
    v == Str("PIX") || v == Str("CARTAO") || v == Str("BOLETO")
  }

  /** A UUID is never blank. */
  lemma UuidIsFilled(v: Value)
    ensures v.Str? && IsValidUuid(v.s) ==> IsFilledString(v)
  {
    if v.Str? && IsValidUuid(v.s) {
      assert !IsUuidHyphen(0) && !IsWhitespace(v.s[0]);
    }
  }

  /** The message for `customerId`: required, then a UUID. */
  function CustomerIdError(v: Value): (r: Option<string>)
    ensures r.None? <==> v.Str? && IsValidUuid(v.s)
    ensures r == Some(CLIENTE_REQUIRED) <==> !IsFilledString(v)
    ensures r == Some(CLIENTE_INVALID) <==> IsFilledString(v) && !IsValidUuid(v.s)
  {
    UuidIsFilled(v);
    if !IsFilledString(v) then Some(CLIENTE_REQUIRED)
    else if !IsValidUuid(v.s) then Some(CLIENTE_INVALID)
    else None
  }

  /** The message for `valor`: present, a number, positive, at most 999999999.99. */
  function ValorError(v: Value): (r: Option<string>)
    ensures r.None? <==> v.Num? && 0.0 < v.n <= MAX_VALOR
    ensures r == Some(VALOR_REQUIRED) <==> IsNullish(v)
    ensures r == Some(VALOR_NOT_NUMBER) <==> !IsNullish(v) && !v.Num?
    ensures r == Some(VALOR_NOT_POSITIVE) <==> v.Num? && v.n <= 0.0
    ensures r == Some(VALOR_TOO_LARGE) <==> v.Num? && v.n > MAX_VALOR
  {
    if IsNullish(v) then Some(VALOR_REQUIRED)
    else if !v.Num? then Some(VALOR_NOT_NUMBER)
    else if v.n <= 0.0 then Some(VALOR_NOT_POSITIVE)
    else if v.n > MAX_VALOR then Some(VALOR_TOO_LARGE)
    else None
  }

  /** The message for `moeda`: a non-blank string of exactly three characters. */
  function MoedaError(v: Value): (r: Option<string>)
    ensures r.None? <==> v.Str? && !IsBlank(v.s) && |v.s| == 3
    ensures r == Some(MOEDA_REQUIRED) <==> !IsFilledString(v)
    ensures r == Some(MOEDA_LENGTH) <==> IsFilledString(v) && |v.s| != 3
  {
    if !IsFilledString(v) then Some(MOEDA_REQUIRED)
    else if |v.s| != 3 then Some(MOEDA_LENGTH)
    else None
  }

  /** The message for `metodo_pagamento`: a string that is one of PIX, CARTAO, BOLETO. */
  function MetodoError(v: Value): (r: Option<string>)
    ensures r.None? <==> IsKnownMethod(v)
    ensures r == Some(METODO_REQUIRED) <==> !Truthy(v) || !v.Str?
    ensures r == Some(METODO_INVALID) <==> Truthy(v) && v.Str? && !IsKnownMethod(v)
  {
    if !Truthy(v) || !v.Str? then Some(METODO_REQUIRED)
    else if !IsKnownMethod(v) then Some(METODO_INVALID)
    else None
  }

  /** The message for the `parcelas` of a card payment: absent, or an integer from 1 to 12. */
  function CartaoParcelasError(p: Value): (r: Option<string>)
    ensures r.None? <==> IsNullish(p) || (p.Num? && IsInteger(p.n) && 1.0 <= p.n <= 12.0)
    ensures r == Some(PARCELAS_NOT_NUMBER) <==> !IsNullish(p) && !p.Num?
    ensures r == Some(PARCELAS_NOT_INTEGER) <==> p.Num? && !IsInteger(p.n)
    ensures r == Some(PARCELAS_TOO_FEW) <==> p.Num? && IsInteger(p.n) && p.n < 1.0
    ensures r == Some(PARCELAS_TOO_MANY) <==> p.Num? && IsInteger(p.n) && p.n > 12.0
  {
    if IsNullish(p) then None
    else if !p.Num? then Some(PARCELAS_NOT_NUMBER)
    else if !IsInteger(p.n) then Some(PARCELAS_NOT_INTEGER)
    else if p.n < 1.0 then Some(PARCELAS_TOO_FEW)
    else if p.n > 12.0 then Some(PARCELAS_TOO_MANY)
    else None
  }

  /** The message for the due date of a boleto: present, a valid date, not before today's midnight. */
  function BoletoDateError(dataVencimento: Value, vencimento: Option<int>, today: int): (r: Option<string>)
    ensures r.None? <==> Truthy(dataVencimento) && vencimento.Some? && vencimento.value >= today
    ensures r == Some(VENCIMENTO_REQUIRED) <==> !Truthy(dataVencimento)
    ensures r == Some(VENCIMENTO_INVALID) <==> Truthy(dataVencimento) && vencimento.None?
    ensures r == Some(VENCIMENTO_PAST) <==> Truthy(dataVencimento) && vencimento.Some? && vencimento.value < today
  {
    if !Truthy(dataVencimento) then Some(VENCIMENTO_REQUIRED)
    else if vencimento.None? then Some(VENCIMENTO_INVALID)
    else if vencimento.value < today then Some(VENCIMENTO_PAST)
    else None
  }

  /** The messages `validatePaymentMethod` appends for the method `metodo`. */
  function PaymentMethodErrors(metodo: string, parcelas: Value, dataVencimento: Value, vencimento: Option<int>, today: int): (r: seq<string>)
    ensures |r| <= 2
    ensures metodo == "PIX" ==> (r == [] <==> IsNullish(parcelas) && IsNullish(dataVencimento))
    ensures metodo == "CARTAO" ==> r == OptList(CartaoParcelasError(parcelas))
    ensures metodo == "BOLETO" ==>
      (r == [] <==> BoletoDateError(dataVencimento, vencimento, today).None? && IsNullish(parcelas))
    ensures metodo != "PIX" && metodo != "CARTAO" && metodo != "BOLETO" ==> r == []
  {
    if metodo == "PIX" then
      OptList(if !IsNullish(parcelas) then Some(PIX_NO_PARCELAS) else None)
        + OptList(if !IsNullish(dataVencimento) then Some(PIX_NO_VENCIMENTO) else None)
    else if metodo == "CARTAO" then
      OptList(CartaoParcelasError(parcelas))
    else if metodo == "BOLETO" then
      OptList(BoletoDateError(dataVencimento, vencimento, today))
        + OptList(if !IsNullish(parcelas) then Some(BOLETO_NO_PARCELAS) else None)
    else
      []
  }

  /** `validatePaymentMethod(metodo, parcelas, dataVencimento, errors)`: push onto the caller's list. */
  method ValidatePaymentMethod(metodo: string, parcelas: Value, dataVencimento: Value, vencimento: Option<int>, today: int,
                               errors: seq<string>)
    returns (out: seq<string>)
    ensures out == errors + PaymentMethodErrors(metodo, parcelas, dataVencimento, vencimento, today)
  {
    out := errors;
    if metodo == "PIX" {
      if !IsNullish(parcelas) { out := out + [PIX_NO_PARCELAS]; }
      if !IsNullish(dataVencimento) { out := out + [PIX_NO_VENCIMENTO]; }
    } else if metodo == "CARTAO" {
      var e := CartaoParcelasError(parcelas);
      if e.Some? { out := out + [e.value]; }
    } else if metodo == "BOLETO" {
      var e := BoletoDateError(dataVencimento, vencimento, today);
      if e.Some? { out := out + [e.value]; }
      if !IsNullish(parcelas) { out := out + [BOLETO_NO_PARCELAS]; }
    }
  }

  /** The messages of a charge body, in the order the validator pushes them. */
  function ChargeErrors(b: ChargeBody, vencimento: Option<int>, today: int): seq<string> {
    OptList(CustomerIdError(b.customerId)) + OptList(ValorError(b.valor)) + OptList(MoedaError(b.moeda))
      + match MetodoError(b.metodo_pagamento)
        case Some(m) => [m]
        case None => PaymentMethodErrors(b.metodo_pagamento.s, b.parcelas, b.data_vencimento, vencimento, today)
  }

  /** What a payment method demands of `parcelas` and the due date. */
  predicate MethodFieldsAcceptable(b: ChargeBody, vencimento: Option<int>, today: int)
    requires IsKnownMethod(b.metodo_pagamento)
  {
    match b.metodo_pagamento.s
    case "PIX" => IsNullish(b.parcelas) && IsNullish(b.data_vencimento)
    case "CARTAO" => IsNullish(b.parcelas) || (b.parcelas.Num? && IsInteger(b.parcelas.n) && 1.0 <= b.parcelas.n <= 12.0)
    case _ => Truthy(b.data_vencimento) && vencimento.Some? && vencimento.value >= today && IsNullish(b.parcelas)
  }

  /** A charge body every check of which passes. */
  predicate AcceptableCharge(b: ChargeBody, vencimento: Option<int>, today: int) {
    && b.customerId.Str? && IsValidUuid(b.customerId.s)
    && b.valor.Num? && 0.0 < b.valor.n <= MAX_VALOR
    && b.moeda.Str? && !IsBlank(b.moeda.s) && |b.moeda.s| == 3
    && IsKnownMethod(b.metodo_pagamento)
    && MethodFieldsAcceptable(b, vencimento, today)
  }

  /** The body yields no message exactly when it is acceptable. */
  lemma NoChargeErrorsIffAcceptable(b: ChargeBody, vencimento: Option<int>, today: int)
    ensures ChargeErrors(b, vencimento, today) == [] <==> AcceptableCharge(b, vencimento, today)
  {
    if IsKnownMethod(b.metodo_pagamento) {
      var m := b.metodo_pagamento.s;
      var pm := PaymentMethodErrors(m, b.parcelas, b.data_vencimento, vencimento, today);
      assert m == "PIX" || m == "CARTAO" || m == "BOLETO";
      assert pm == [] <==> MethodFieldsAcceptable(b, vencimento, today);
    }
  }

  /** With an unknown payment method, `parcelas`, the due date and the clock play no part. */
  lemma UnknownMethodSkipsMethodChecks(b: ChargeBody, v1: Option<int>, t1: int, parcelas: Value, dataVencimento: Value, v2: Option<int>, t2: int)
    requires !IsKnownMethod(b.metodo_pagamento)
    ensures ChargeErrors(b, v1, t1) == ChargeErrors(b.(parcelas := parcelas, data_vencimento := dataVencimento), v2, t2)
    ensures |ChargeErrors(b, v1, t1)| >= 1
  {
  }

  /** `validateChargeCreate`: push the field messages, run the method checks, then throw or call `next()`. */
  method ValidateChargeCreate(b: ChargeBody, vencimento: Option<int>, today: int) returns (r: Outcome<AppError>)
    ensures r.Next? <==> AcceptableCharge(b, vencimento, today)
    ensures r.Throw? ==> r.error == NewError(ValidationErrorClass, Some(INVALID_DATA), None, Some(ChargeErrors(b, vencimento, today)))
  {
    var errors: seq<string> := [];
    var e := CustomerIdError(b.customerId);
    if e.Some? { errors := errors + [e.value]; }
    assert errors == OptList(CustomerIdError(b.customerId));
    e := ValorError(b.valor);
    if e.Some? { errors := errors + [e.value]; }
    assert errors == OptList(CustomerIdError(b.customerId)) + OptList(ValorError(b.valor));
    e := MoedaError(b.moeda);
    if e.Some? { errors := errors + [e.value]; }
    ghost var fields := OptList(CustomerIdError(b.customerId)) + OptList(ValorError(b.valor)) + OptList(MoedaError(b.moeda));
    assert errors == fields;
    e := MetodoError(b.metodo_pagamento);
    if e.Some? {
      errors := errors + [e.value];
      assert errors == fields + [e.value];
    } else {
      errors := ValidatePaymentMethod(b.metodo_pagamento.s, b.parcelas, b.data_vencimento, vencimento, today, errors);
    }
    assert errors == ChargeErrors(b, vencimento, today);
    NoChargeErrorsIffAcceptable(b, vencimento, today);
    if |errors| > 0 {
      return Throw(NewError(ValidationErrorClass, Some(INVALID_DATA), None, Some(errors)));
    }
    r := Next;
  }

  /** `validateChargeId`: the `:id` parameter must be a UUID. */
  function ValidateChargeId(id: string): (r: Outcome<AppError>)
    ensures r.Next? <==> IsValidUuid(id)
    ensures r.Throw? ==> r.error.statusCode == 400 && r.error.message == CHARGE_ID_INVALID && r.error.errors == []
  {
    if id == "" || !IsValidUuid(id) then Throw(NewError(ValidationErrorClass, Some(CHARGE_ID_INVALID), None, None))
    else Next
  }
}
