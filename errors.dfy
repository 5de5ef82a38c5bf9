/**
 * The `AppError` hierarchy: every error the application raises on purpose is an
 * `AppError` carrying an HTTP status code, a list of messages and the
 * `isOperational` flag; each subclass fixes the status code and a default message.
 */
module Errors {
  import opened Wrappers

  /** The class an `AppError` was constructed with. */
  datatype ErrorClass =
    | AppErrorClass
    | ValidationErrorClass
    | NotFoundErrorClass
    | ConflictErrorClass
    | UnauthorizedErrorClass
    | ForbiddenErrorClass
    | InternalServerErrorClass

  /** An instance of `AppError` or of one of its subclasses. */
  datatype AppError = AppError(
    cls: ErrorClass,
    message: string,
    statusCode: int,
    errors: seq<string>,
    isOperational: bool)

  /** Everything a service can throw: an `AppError`, a plain `{status, message, errors}` object, or a `TypeError`. */
  datatype Thrown =
    | App(error: AppError)
    | Plain(status: int, message: string, errors: Option<seq<string>>)
    | TypeError

  /** The status code each class passes to `AppError`; for `AppError` itself, its default. */
  function ClassStatus(c: ErrorClass): int {
    match c
    case AppErrorClass => 500
    case ValidationErrorClass => 400
    case NotFoundErrorClass => 404
    case ConflictErrorClass => 409
    case UnauthorizedErrorClass => 401
    case ForbiddenErrorClass => 403
    case InternalServerErrorClass => 500
  }

  /** The message a class uses when none is given (`Error(undefined).message` is empty). */
  function DefaultMessage(c: ErrorClass): string {
    match c
    case AppErrorClass => ""
    case ValidationErrorClass => "Dados inválidos"
    case NotFoundErrorClass => "Recurso não encontrado"
    case ConflictErrorClass => "Conflito de dados"
    case UnauthorizedErrorClass => "Não autorizado"
    case ForbiddenErrorClass => "Acesso negado"
    case InternalServerErrorClass => "Erro interno do servidor"
  }

  /** The class's constructor accepts an `errors` argument. */
  predicate TakesErrors(c: ErrorClass) {
    c == AppErrorClass || c == ValidationErrorClass
  }

  /**
   * `new C(message, ...)`, with `None` for an argument left undefined. Only
   * `AppError` takes a status code, and only `AppError` and `ValidationError` take
   * a list of errors.
   */
  function NewError(c: ErrorClass, message: Option<string>, statusCode: Option<int>, errors: Option<seq<string>>): (e: AppError)
    requires c != AppErrorClass ==> statusCode.None?
    requires !TakesErrors(c) ==> errors.None?
    ensures e.isOperational && e.cls == c
    ensures statusCode.None? ==> e.statusCode == ClassStatus(c)
    ensures statusCode.Some? ==> e.statusCode == statusCode.value
    ensures message.None? ==> e.message == DefaultMessage(c)
    ensures message.Some? ==> e.message == message.value
    ensures errors.None? ==> e.errors == []
    ensures errors.Some? ==> e.errors == errors.value
  {
    AppError(c, message.GetOr(DefaultMessage(c)), statusCode.GetOr(ClassStatus(c)), errors.GetOr([]), true)
  }

  /** `new ValidationError(message, errors)` */
  function Validation(message: string, errors: seq<string>): AppError {
    NewError(ValidationErrorClass, Some(message), None, Some(errors))
  }

  /** `new NotFoundError(message)` */
  function NotFound(message: string): AppError {
    NewError(NotFoundErrorClass, Some(message), None, None)
  }

  /** The status code of each subclass, and that of `AppError` when none is passed. */
  lemma StatusTable(message: Option<string>)
    ensures NewError(AppErrorClass, message, None, None).statusCode == 500
    ensures NewError(ValidationErrorClass, message, None, None).statusCode == 400
    ensures NewError(NotFoundErrorClass, message, None, None).statusCode == 404
    ensures NewError(ConflictErrorClass, message, None, None).statusCode == 409
    ensures NewError(UnauthorizedErrorClass, message, None, None).statusCode == 401
    ensures NewError(ForbiddenErrorClass, message, None, None).statusCode == 403
    ensures NewError(InternalServerErrorClass, message, None, None).statusCode == 500
  {
  }
}
