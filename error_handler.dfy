/**
 * The Express error handler: a chain of tests on the shape of the thrown value,
 * each producing one JSON error response, and the table of Prisma error codes.
 */
module ErrorHandler {
  import opened Wrappers
  import opened JsValue
  import opened Errors

  /** What the handler can observe of a thrown value. */
  datatype ErrShape =
    /** `err.isOperational` is truthy: an `AppError`. */
    | Operational(statusCode: int, message: string, errors: Option<seq<string>>)
    | NonOperational(
        maybeStatusCode: Option<int>,   // err.statusCode, when set
        message: string,                // err.message
        code: string,                   // err.code, "" when absent
        name: string,                   // err.name
        fieldMessages: Option<seq<string>>, // Object.values(err.errors).map(e => e.message); None when err.errors is nullish
        isSyntaxError: bool,            // err instanceof SyntaxError
        status: Option<int>,            // err.status
        hasBody: bool,                  // 'body' in err
        target: Option<seq<string>>)    // err.meta?.target

  /** The JSON error response: `success`, `message` and the optional fields, with the status line. */
  datatype ErrorResponse = ErrorResponse(
    status: int,
    success: bool,
    message: string,
    errors: Option<seq<string>>,
    code: Option<string>,
    path: Option<string>,
    stack: bool)

  function Reply(status: int, message: string): ErrorResponse {
    ErrorResponse(status, false, message, None, None, None, false)
  }

  /** `err.meta?.target?.[0] || 'campo'` */
  function ConflictField(target: Option<seq<string>>): (f: string)
    ensures f != ""
    ensures target.Some? && |target.value| > 0 && target.value[0] != "" ==> f == target.value[0]
    ensures !(target.Some? && |target.value| > 0 && target.value[0] != "") ==> f == "campo"
  {
    if target.Some? && |target.value| > 0 && target.value[0] != "" then target.value[0] else "campo"
  }

  /** `field.charAt(0).toUpperCase() + field.slice(1)` */
  function Capitalize(f: string): (r: string)
    requires f != ""
    ensures |r| == |f| && r[0] == UpperAscii(f[0]) && r[1..] == f[1..]
  {
    [UpperAscii(f[0])] + f[1..]
  }

  predicate IsKnownPrismaCode(code: string) {
    code == "P2002" || code == "P2025" || code == "P2003" || code == "P2014"
  }

  /** `handlePrismaError`: the Prisma error code decides the status. */
  function HandlePrismaError(code: string, target: Option<seq<string>>, development: bool): (r: ErrorResponse)
    ensures !r.success && r.errors.None? && r.path.None? && !r.stack
    ensures r.status == 409 <==> code == "P2002"
    ensures r.status == 404 <==> code == "P2025"
    ensures r.status == 400 <==> code == "P2003" || code == "P2014"
    ensures r.status == 500 <==> !IsKnownPrismaCode(code)
    ensures r.code.Some? <==> development && !IsKnownPrismaCode(code)
    ensures r.code.Some? ==> r.code.value == code
  {
    if code == "P2002" then
      Reply(409, Capitalize(ConflictField(target)) + " já cadastrado")
    else if code == "P2025" then
      Reply(404, "Registro não encontrado")
    else if code == "P2003" then
      Reply(400, "Referência inválida em relacionamento")
    else if code == "P2014" then
      Reply(400, "Operação violaria restrição de relacionamento")
    else
      Reply(500, "Erro de banco de dados").(code := if development then Some(code) else None)
  }

  /** A unique-constraint violation names the first target field, capitalised; without a target it names "Campo". */
  lemma UniqueViolationMessage(target: Option<seq<string>>, development: bool)
    ensures target.None? ==> HandlePrismaError("P2002", target, development).message == "Campo já cadastrado"
    ensures target == Some(["email"]) ==> HandlePrismaError("P2002", target, development).message == "Email já cadastrado"
    ensures target.Some? && |target.value| > 0 && target.value[0] != "" ==>
      HandlePrismaError("P2002", target, development).message
        == [UpperAscii(target.value[0][0])] + target.value[0][1..] + " já cadastrado"
  {
    assert Capitalize("campo") == "Campo";
    assert Capitalize("email") == "Email";
  }

  /** Falls through every earlier test of `errorHandler`. */
  predicate IsFallback(err: ErrShape) {
    && err.NonOperational?
    && err.code == ""
    && err.name != "ValidationError"
    && !(err.isSyntaxError && err.status == Some(400) && err.hasBody)
  }

  /** A non-operational `ValidationError` without `errors`: `Object.values(err.errors)` throws. */
  predicate ValuesThrows(err: ErrShape) {
    err.NonOperational? && err.code == "" && err.name == "ValidationError" && err.fieldMessages.None?
  }

  /**
   * `errorHandler(err, ...)`, with `development` for `process.env.NODE_ENV === 'development'`:
   * the response it sends, or the `TypeError` the handler itself throws.
   */
  function HandleError(err: ErrShape, development: bool): (r: Result<ErrorResponse, Thrown>)
    ensures r.Err? <==> ValuesThrows(err)
    ensures r.Err? ==> r.error == TypeError
    ensures r.Ok? ==> !r.value.success
    ensures err.Operational? ==>
      r.Ok? && r.value.status == err.statusCode && r.value.message == err.message && r.value.errors == Some(err.errors.GetOr([]))
    ensures err.NonOperational? && err.code != "" ==> r == Ok(HandlePrismaError(err.code, err.target, development))
    ensures err.NonOperational? && err.code == "" && err.name == "ValidationError" && err.fieldMessages.Some? ==>
      r.Ok? && r.value.status == 400 && r.value.message == "Erro de validação" && r.value.errors == err.fieldMessages
    ensures err.NonOperational? && err.code == "" && err.name != "ValidationError"
              && err.isSyntaxError && err.status == Some(400) && err.hasBody ==>
      r == Ok(Reply(400, "JSON inválido no corpo da requisição"))
    ensures IsFallback(err) ==>
      && r.Ok?
      && r.value.status == (if err.maybeStatusCode.Some? && err.maybeStatusCode.value != 0 then err.maybeStatusCode.value else 500)
      && (development ==> r.value.message == err.message)
      && (!development ==> r.value.message == "Erro interno do servidor")
      && r.value.stack == development
  {
    match err
    case Operational(statusCode, message, errors) =>
      Ok(ErrorResponse(statusCode, false, message, Some(errors.GetOr([])), None, None, false))
    case NonOperational(maybeStatusCode, message, code, name, fieldMessages, isSyntaxError, status, hasBody, target) =>
      if code != "" then
        Ok(HandlePrismaError(code, target, development))
      else if name == "ValidationError" then
        if fieldMessages.None? then Err(TypeError)
        else Ok(Reply(400, "Erro de validação").(errors := fieldMessages))
      else if isSyntaxError && status == Some(400) && hasBody then
        Ok(Reply(400, "JSON inválido no corpo da requisição"))
      else
        var s := if maybeStatusCode.Some? && maybeStatusCode.value != 0 then maybeStatusCode.value else 500;
        Ok(Reply(s, if development then message else "Erro interno do servidor").(stack := development))
  }

  /** How the handler sees each value the application throws. */
  function ShapeOf(t: Thrown, message: string): ErrShape {
    match t
    case App(e) => Operational(e.statusCode, e.message, Some(e.errors))
    case Plain(status, msg, errors) => NonOperational(None, msg, "", "", None, false, Some(status), false, None)
    case TypeError => NonOperational(None, message, "", "TypeError", None, false, None, false, None)
  }

  /** An `AppError` is answered with the status code and the errors it was constructed with. */
  lemma AppErrorKeepsItsStatus(c: ErrorClass, message: Option<string>, statusCode: Option<int>, errors: Option<seq<string>>, development: bool)
    requires c != AppErrorClass ==> statusCode.None?
    requires !TakesErrors(c) ==> errors.None?
    ensures var r := HandleError(ShapeOf(App(NewError(c, message, statusCode, errors)), ""), development);
      && r.Ok?
      && r.value.status == (if statusCode.Some? then statusCode.value else ClassStatus(c))
      && r.value.errors == Some(errors.GetOr([]))
  {
  }

  /**
   * The services' plain `{status: 409, ...}` objects carry `status`, not `statusCode`,
   * so the handler answers them with 500, and hides their message outside development.
   */
  lemma PlainErrorsBecomeInternal(status: int, message: string, errors: Option<seq<string>>, development: bool)
    ensures var r := HandleError(ShapeOf(Plain(status, message, errors), ""), development);
      r.Ok? && r.value.status == 500 && (!development ==> r.value.message == "Erro interno do servidor")
  {
  }

  /** A `ValidationError` that reaches the handler without an `errors` object makes the handler itself throw. */
  lemma ValidationErrorWithoutListThrows(message: string, development: bool)
    ensures HandleError(NonOperational(None, message, "", "ValidationError", None, false, None, false, None), development)
      == Err(TypeError)
    ensures HandleError(NonOperational(None, message, "", "ValidationError", Some([message]), false, None, false, None), development)
      == Ok(Reply(400, "Erro de validação").(errors := Some([message])))
  {
  }

  /** `notFoundHandler`: an unknown route is answered with 404 and the request path. */
  function NotFoundHandler(url: string): (r: ErrorResponse)
    ensures r.status == 404 && !r.success && r.message == "Rota não encontrada" && r.path == Some(url)
  {
    Reply(404, "Rota não encontrada").(path := Some(url))
  }
}
