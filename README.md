# Payments backend: idempotency guard, validators, services and error handling

This project models the core of a small Express/Prisma payments backend with
two resources: customers and charges. The model covers:

- **Idempotency guard** (`Idempotency`). A POST carrying an `Idempotency-Key`
  header is answered from a key → record store when an unexpired record exists.
  Otherwise the request reaches the handler, and on a miss the handler's JSON
  response is captured under the key, where the first writer wins. A sweep
  deletes the expired records and reports how many it deleted. The store is a
  class holding a map. `Guard`, `Capture`, `Sweep` and `Handle` update it in
  place, and each is proved against a pure specification function
  (`GuardSpec`, `CaptureSpec`, `SweepSpec`, `Serve`). The lemmas about those
  functions carry the guarantees: replay, bypass, rejection before any store
  access, first writer wins, the sweep keeps exactly the live records, and a
  retry gets the first response back.
- **Request validators** (`CustomerValidation`, `ChargeValidation`). Each builds
  its list of messages by successive pushes (a method), next to a function
  giving the whole list. Proved: at most one message per field, in field
  order; the request passes exactly when the list is empty; the
  payment-method-specific checks run only for PIX, CARTAO and BOLETO. The email
  and UUID regular expressions are hand-written predicates (`Patterns`). The
  email predicate is proved equivalent to the regex's split into local part,
  `@`, host, `.` and tail. The UUID predicate is proved equivalent to five
  hex groups joined by hyphens.
- **Services** (`CustomerService`, `ChargeService`):
  - Each has its own, laxer validation. Proved: a body the route validator
    accepts also passes the service's validation. The converse fails: the
    customer service accepts a two-letter name, and the charge service has no
    past-date check.
  - `create` runs its checks in a fixed order before inserting into the store.
    Each store is a class over a map, and `create` keeps it well formed:
    customer emails and documentos stay unique, and every charge is created
    `PENDENTE`.
  - The charge record is built with exactly the fields the method calls for.
  - `findById`, `findByCustomerId` and `delete` fail with not-found on a
    missing id, and `delete` then removes nothing.
- **Errors** (`Errors`, `ErrorHandler`):
  - the `AppError` hierarchy, mapping each class to its status code and
    default message;
  - the handler's branch chain from the shape of a thrown value to the JSON
    response, with the Prisma error-code table and the 404 route handler.

JavaScript semantics that the checks depend on are written out in `JsValue`:

- truthiness;
- `typeof`;
- `trim`, over the ECMAScript white-space set;
- `replace(/\D/g, '')`;
- the `TypeError` that `.trim()` throws on a truthy non-string.

The clock ("now", "today at midnight") and the parsed due date
(`new Date(data_vencimento)`) are parameters.

Three details of the idempotency guard that the model follows exactly:

- The guard tests `!idempotencyKey` (src/middlewares/idempotency.js:12). The
  empty string is falsy, so an empty header bypasses the guard rather than
  being rejected (`MissingOrEmptyKeyBypasses`).
- An expired hit deletes its record and calls `next()` before the capture
  wrapper is installed (src/middlewares/idempotency.js:33-37). Nothing is
  stored for that request, and the next retry runs the handler again
  (`ExpiredHitDeletesOnlyThatKey`, `ExpiredRecordIsNotReplaced`).
- The sweep deletes records with `expiresAt` strictly before `now` (`lt`), so
  a record expiring exactly at `now` survives it (`SweepKeepsExactlyLive`). The
  guard's own test `now > expiresAt` agrees with the sweep
  (`SweepThenGuardNeverDeletes`).

Two observations about `errorHandler` (src/middlewares/errorHandler.js) taken
on its own, were a service's error passed to it:

- The customer service throws plain `{status, message}` objects. These have no
  `statusCode` and no `isOperational`, so `errorHandler` would answer them with
  500 and hide the message outside development (`PlainErrorsBecomeInternal`).
- The charge service throws `AppError`s, which `errorHandler` answers with their
  own status (`AppErrorKeepsItsStatus`).

The application's own wiring answers differently. The controllers catch a
service error and answer with `error.status` when it is set
(src/controllers/customerController.js:14-21,
src/controllers/chargeController.js:14-28). That keeps the customer service's
statuses, and answers the charge service's `AppError`s, which carry
`statusCode` but no `status`, with 500. The controllers are not part of this
model.

## Model

| member | source | states |
|---|---|---|
| JsValue.Trim | src/middlewares/customerValidation.js:7 | `trim()` yields the slice of the input left after removing a run of leading and a run of trailing white space; the empty string exactly for a blank input; otherwise a string beginning and ending in a non-white-space character |
| JsValue.DigitsOnly | src/middlewares/customerValidation.js:24 | the digit strip keeps only digits, never lengthens the input, and leaves an all-digit string unchanged |
| JsValue.DigitsKept | src/middlewares/customerValidation.js:24 | the digit strip keeps every digit of the input, each as often as it occurs, and nothing else |
| JsValue.DigitsOnlyAppend | src/middlewares/customerValidation.js:33 | the digit strip distributes over concatenation |
| JsValue.NonDigitIgnored | src/middlewares/customerValidation.js:24 | a mask character (`.`, `-`, `/`, …) inserted anywhere leaves the stripped digits unchanged, so a masked documento or telefone is judged by its digits |
| Patterns.EmailMatchesRegex | src/middlewares/customerValidation.js:46-49 | the email predicate holds exactly when the string splits as non-empty local part, `@`, non-empty host, `.`, non-empty tail, with no white space or further `@` |
| Patterns.EmailAcceptedExample | src/services/customerService.js:28-31 | 'usuario.nome@dominio.com.br' is a valid email |
| Patterns.EmailWithoutDomainDotRejected | src/services/customerService.js:28-31 | 'email@sem-dominio' is rejected |
| Patterns.EmailMissingPartsRejected | src/services/customerService.js:28-31 | '@dominio.com' and 'email@' are rejected |
| Patterns.UuidFromGroups | src/middlewares/customerValidation.js:61-64 | five hex groups of 8, 4, 4, 4 and 12 digits joined by hyphens form a valid UUID |
| Patterns.UuidToGroups | src/middlewares/chargeValidation.js:102-105 | every valid UUID is such a join of five hex groups |
| Patterns.UuidAcceptedExamples | src/middlewares/customerValidation.js:61-64 | a lower-case UUID and its upper-case form are both accepted (the /i flag) |
| Patterns.UuidRejectedExample | src/middlewares/customerValidation.js:61-64 | 'id-invalido' is rejected |
| Errors.NewError | src/utils/errors.js:2-52 | every error is operational; an omitted status code, message or errors list takes the class's status, its default message and [] |
| Errors.StatusTable | src/utils/errors.js:2-52 | AppError 500, ValidationError 400, NotFoundError 404, ConflictError 409, UnauthorizedError 401, ForbiddenError 403, InternalServerError 500 |
| ErrorHandler.ConflictField | src/middlewares/errorHandler.js:55 | the conflicting field is the first target when present and non-empty, else 'campo' |
| ErrorHandler.Capitalize | src/middlewares/errorHandler.js:58 | upper-cases the first character and keeps the rest and the length |
| ErrorHandler.HandlePrismaError | src/middlewares/errorHandler.js:52-86 | 409 exactly for P2002, 404 exactly for P2025, 400 exactly for P2003/P2014, 500 for every other code, with the code exposed exactly in development for unknown codes |
| ErrorHandler.UniqueViolationMessage | src/middlewares/errorHandler.js:54-59 | P2002 names the capitalised first target field, 'Campo' without a target, 'Email' for target email |
| ErrorHandler.HandleError | src/middlewares/errorHandler.js:13-49 | the handler itself throws a TypeError exactly for a non-operational ValidationError without an `errors` object (`Object.values` of a nullish value); otherwise operational errors keep their status and errors ([] when none), and this branch comes first; then Prisma codes, ValidationError 400 'Erro de validação' with the field messages, JSON SyntaxError 400, and the fallback of statusCode or 500 with the message exposed only in development; success is always false |
| ErrorHandler.ValidationErrorWithoutListThrows | src/middlewares/errorHandler.js:25-31 | a ValidationError without `errors` makes the handler throw, and one with a list is answered 400 'Erro de validação' with it |
| ErrorHandler.AppErrorKeepsItsStatus | src/middlewares/errorHandler.js:13-19 | an AppError of any class is answered with the status it was built with and its errors list |
| ErrorHandler.PlainErrorsBecomeInternal | src/middlewares/errorHandler.js:40-49 | a plain `{status, ...}` object is answered with 500, and its message is hidden outside development |
| ErrorHandler.NotFoundHandler | src/middlewares/errorHandler.js:88-94 | an unknown route gets 404 'Rota não encontrada' with the request path |
| Idempotency.KeyError | src/middlewares/idempotency.js:16-22 | a present key fails with a 400 ValidationError exactly when it is blank or longer than 255 characters |
| Idempotency.GuardSpec | src/middlewares/idempotency.js:6-57 | the guard only ever deletes the looked-up key; a replay returns the stored status and body of an unexpired record; arming happens only on a miss with a usable key; rejections are 400 and leave the store alone |
| Idempotency.CaptureSpec | src/middlewares/idempotency.js:59-77 | capture keeps every existing record, adds the key, stores a new key's response with expiry now + 24 h, and grows the store by one exactly when the key was absent |
| Idempotency.SweepSpec | src/middlewares/idempotency.js:79-94 | the sweep only removes records, and keeps a record exactly when it has not expired |
| Idempotency.SweepCount | src/middlewares/idempotency.js:81-89 | the sweep removes exactly the expired keys, and the reported count is the drop in store size |
| Idempotency.NonPostBypasses | src/middlewares/idempotency.js:7-9 | a non-POST passes through unarmed with the store unchanged |
| Idempotency.MissingOrEmptyKeyBypasses | src/middlewares/idempotency.js:11-14 | a missing or empty key passes through unarmed with the store unchanged |
| Idempotency.MalformedKeyRejected | src/middlewares/idempotency.js:16-22 | a non-empty blank or over-long key is rejected with 400 before the store is touched |
| Idempotency.KeyLengthBoundary | src/middlewares/idempotency.js:20-22 | 255 characters are accepted, 256 are rejected |
| Idempotency.FreshHitReplays | src/middlewares/idempotency.js:29-41 | an unexpired hit replays the stored status and body and changes nothing |
| Idempotency.ExpiredHitDeletesOnlyThatKey | src/middlewares/idempotency.js:32-37 | an expired hit deletes only that key's record and passes through without arming the capture |
| Idempotency.MissArmsCapture | src/middlewares/idempotency.js:44-52 | a miss arms the capture for the key and leaves the store alone |
| Idempotency.FirstWriterWins | src/middlewares/idempotency.js:64-76 | capturing a second time under a key leaves the first capture in place (capture is idempotent) |
| Idempotency.SweepKeepsExactlyLive | src/middlewares/idempotency.js:81-87 | a key survives the sweep exactly when it was stored with expiresAt >= now, with its record unchanged |
| Idempotency.SweepThenGuardNeverDeletes | src/middlewares/idempotency.js:32-35 | right after a sweep at `now`, a lookup at `now` never deletes a record |
| Idempotency.RetryReplaysFirstResponse | src/middlewares/idempotency.js:29-50 | a retry before the captured record expires gets the first response, does not run the handler and leaves the store unchanged |
| Idempotency.ExpiredRecordIsNotReplaced | src/middlewares/idempotency.js:32-37 | after an expired hit nothing is stored, so the next retry runs its handler again |
| Idempotency.BypassKeepsStore | src/middlewares/idempotency.js:7-14 | a request the guard does not apply to runs the handler and leaves the store as it was |
| Idempotency.IdempotencyStore.Guard | src/middlewares/idempotency.js:6-42 | the decision and the store after it are those of GuardSpec |
| Idempotency.IdempotencyStore.Capture | src/middlewares/idempotency.js:59-77 | the store after capture is that of CaptureSpec |
| Idempotency.IdempotencyStore.Sweep | src/middlewares/idempotency.js:79-94 | the store after the sweep is SweepSpec's, and the count returned is the number of expired records removed |
| Idempotency.IdempotencyStore.Handle | src/middlewares/idempotency.js:39-52 | a request's response, whether the handler ran, and the store afterwards are those of Serve |
| CustomerValidation.NomeError | src/middlewares/customerValidation.js:7-13 | 'Nome é obrigatório' exactly for a missing, non-string or blank name; too short / too long exactly outside trimmed length 3..100; no message exactly within it |
| CustomerValidation.EmailError | src/middlewares/customerValidation.js:15-19 | required exactly when not a filled string; 'Email inválido' exactly for a filled string failing the pattern |
| CustomerValidation.DocumentoError | src/middlewares/customerValidation.js:21-28 | accepted exactly when a string whose digits number 11 or 14; required exactly when not a filled string; the CPF/CNPJ message exactly for a filled string with another digit count |
| CustomerValidation.TelefoneError | src/middlewares/customerValidation.js:30-37 | accepted exactly when a string whose digits number 10 or 11; required exactly when not a filled string; the 10-or-11-digit message exactly for a filled string with another digit count |
| CustomerValidation.CustomerErrors | src/middlewares/customerValidation.js:5-37 | at most one message per field, four at most |
| CustomerValidation.NoErrorsIffAcceptable | src/middlewares/customerValidation.js:39-43 | the list is empty exactly when every field is acceptable |
| CustomerValidation.EmptyBodyErrors | src/middlewares/customerValidation.js:5-37 | an empty body yields the four 'required' messages in field order |
| CustomerValidation.ValidateCustomerCreate | src/middlewares/customerValidation.js:3-44 | calls next exactly for an acceptable body; otherwise throws ValidationError 'Dados inválidos' (400) carrying the whole list |
| CustomerValidation.ValidateCustomerId | src/middlewares/customerValidation.js:51-59 | passes exactly a UUID; otherwise a 400 'ID do cliente inválido' with no errors list |
| ChargeValidation.CustomerIdError | src/middlewares/chargeValidation.js:7-11 | accepted exactly when a UUID string; 'Cliente é obrigatório' exactly when not a filled string; 'ID do cliente inválido' exactly for a filled string that is not a UUID |
| ChargeValidation.ValorError | src/middlewares/chargeValidation.js:13-21 | one message each for nullish, non-number, <= 0, > 999999999.99; none exactly for 0 < valor <= 999999999.99 |
| ChargeValidation.MoedaError | src/middlewares/chargeValidation.js:23-27 | accepted exactly when a non-blank string of exactly 3 characters; 'obrigatória' exactly when not a filled string; the 3-character message exactly for a filled string of another length |
| ChargeValidation.MetodoError | src/middlewares/chargeValidation.js:29-33 | accepted exactly for PIX, CARTAO, BOLETO; 'obrigatório' exactly for a falsy or non-string value; the 'one of PIX, CARTAO, BOLETO' message exactly for any other truthy string |
| ChargeValidation.CartaoParcelasError | src/middlewares/chargeValidation.js:56-68 | card installments are absent, or an integer from 1 to 12; the non-number, non-integer, below-1 and above-12 messages exactly for those failures |
| ChargeValidation.BoletoDateError | src/middlewares/chargeValidation.js:70-84 | a boleto's due date is accepted exactly when present, valid and not before today's midnight; 'obrigatória' exactly when falsy, 'inválida' exactly for a truthy invalid date, the past-date message exactly for a valid date before today |
| ChargeValidation.PaymentMethodErrors | src/middlewares/chargeValidation.js:45-90 | PIX: no message exactly when parcelas and date are nullish; CARTAO: the installment message; BOLETO: no message exactly with a good date and no parcelas; any other method: none |
| ChargeValidation.ValidatePaymentMethod | src/middlewares/chargeValidation.js:45-90 | appends exactly PaymentMethodErrors to the caller's list |
| ChargeValidation.NoChargeErrorsIffAcceptable | src/middlewares/chargeValidation.js:38-42 | the list is empty exactly when the charge is acceptable, method-specific rules included |
| ChargeValidation.UnknownMethodSkipsMethodChecks | src/middlewares/chargeValidation.js:29-36 | with an invalid method the messages do not depend on parcelas, the date or the clock, and there is at least one |
| ChargeValidation.ValidateChargeCreate | src/middlewares/chargeValidation.js:3-43 | calls next exactly for an acceptable charge; otherwise throws ValidationError 'Dados inválidos' (400) carrying all messages |
| ChargeValidation.ValidateChargeId | src/middlewares/chargeValidation.js:92-100 | passes exactly a UUID; otherwise a 400 'ID da cobrança inválido' |
| CustomerService.RequiredError | src/services/customerService.js:7-9 | no message exactly for a non-blank string; otherwise the field's message |
| CustomerService.ServiceEmailError | src/services/customerService.js:11-15 | a blank email gives only 'Email é obrigatório' (format not checked); a filled malformed one gives 'Email inválido' |
| CustomerService.CustomerDataErrors | src/services/customerService.js:4-26 | throws TypeError exactly when some field is truthy but not a string; otherwise at most four messages, none exactly for a complete valid record |
| CustomerService.CheckRequired | src/services/customerService.js:17-19 | one required-field step: TypeError for a truthy non-string, otherwise appends that field's message |
| CustomerService.ValidateCustomerData | src/services/customerService.js:4-26 | the pushes produce exactly CustomerDataErrors |
| CustomerService.ValidatedBodyPassesService | src/services/customerService.js:4-26 | a body the route validator accepts yields no service message |
| CustomerService.ServiceIsLaxerThanValidator | src/services/customerService.js:7-23 | a body with a two-letter name and one-digit documento and telefone passes the service but not the route validator |
| CustomerService.CreateCustomer | src/services/customerService.js:33-60 | TypeError, then 400 with the list, then 409 email, then 409 documento; only when all pass is exactly one customer inserted with the body's fields; every failure leaves the store unchanged |
| CustomerService.CreateKeepsStoreWellFormed | src/services/customerService.js:43-59 | create keeps emails and documentos unique and adds at most one row |
| CustomerService.DuplicateEmailRefused | src/services/customerService.js:43-49 | a valid body whose email is stored gets 409 'Email já cadastrado' and the store is unchanged |
| CustomerService.CustomerRepository.FindByEmail | src/repositories/customerRepository.js:24-28 | a stored customer with that email, or none exactly when no stored customer has it |
| CustomerService.CustomerRepository.FindByDocumento | src/repositories/customerRepository.js:30-34 | a stored customer with that documento, or none exactly when no stored customer has it |
| CustomerService.CustomerRepository.Create | src/services/customerService.js:33-60 | result and store are those of CreateCustomer, and uniqueness is preserved |
| CustomerService.CustomerRepository.FindById | src/services/customerService.js:66-77 | the stored customer exactly when the id is present, else 404 'Cliente não encontrado' |
| CustomerService.CustomerRepository.Delete | src/services/customerService.js:79-90 | a missing id gives 404 and removes nothing; otherwise exactly that customer is removed and returned |
| ChargeService.ServiceValorError | src/services/chargeService.js:13-17 | accepted exactly for a positive number; zero and non-numbers get 'Valor é obrigatório e deve ser um número', negatives 'Valor deve ser maior que 0' |
| ChargeService.ServiceMetodoError | src/services/chargeService.js:23-28 | accepted exactly for PIX, CARTAO, BOLETO; 'obrigatório' exactly for a falsy value; the 'one of PIX, CARTAO, BOLETO' message exactly for any other truthy value |
| ChargeService.ServiceMethodErrors | src/services/chargeService.js:30-56 | no method-specific message for an unknown method; BOLETO needs a present, valid date (no past-date check); CARTAO's truthy parcelas must be a number >= 1; PIX rejects truthy parcelas or date |
| ChargeService.LeadingErrors | src/services/chargeService.js:9-21 | the customerId, valor and moeda messages are drawn from their four texts |
| ChargeService.ChargeDataErrors | src/services/chargeService.js:6-59 | throws TypeError exactly when customerId or moeda is truthy but not a string; otherwise at most five messages, since only one of the method message and the method-specific messages can occur |
| ChargeService.NoServiceErrorsIffAcceptable | src/services/chargeService.js:6-59 | no message exactly for a charge the service accepts |
| ChargeService.UnknownMethodGivesOneMethodError | src/services/chargeService.js:23-28 | a missing or unknown method gives exactly one method message, last, and no method-specific one |
| ChargeService.ValidatedChargePassesService | src/services/chargeService.js:6-59 | a charge the route validator accepts yields no service message |
| ChargeService.ServiceSkipsPastDueDate | src/services/chargeService.js:30-39 | a boleto due before today passes the service but not the route validator |
| ChargeService.ValidateChargeData | src/services/chargeService.js:6-59 | the pushes produce exactly ChargeDataErrors |
| ChargeService.PaymentChecks | src/services/chargeService.js:30-56 | the method blocks append exactly ServiceMethodErrors |
| ChargeService.DraftOf | src/services/chargeService.js:72-86 | status PENDENTE; customerId, valor, moeda and method copied; a due date exactly for BOLETO; installments exactly for CARTAO with truthy parcelas, and then >= 1 |
| ChargeService.BuildCharge | src/services/chargeService.js:72-86 | the conditional field assignments build exactly DraftOf |
| ChargeService.CreateCharge | src/services/chargeService.js:61-89 | TypeError, then ValidationError with the list, then NotFound 'Cliente não encontrado'; only when all pass is one charge inserted; every failure leaves the store unchanged |
| ChargeService.CreateChargeKeepsStoreWellFormed | src/services/chargeService.js:61-89 | create keeps every charge keyed by its id and PENDENTE, and never alters an existing charge |
| ChargeService.ChargeRepository.Create | src/services/chargeService.js:61-89 | result and store are those of CreateCharge, and the store stays well formed |
| ChargeService.ChargeRepository.FindById | src/services/chargeService.js:95-103 | the stored charge exactly when present, else NotFoundError 404 'Cobrança não encontrada' |
| ChargeService.ChargeRepository.FindByCustomerId | src/services/chargeService.js:105-112 | NotFoundError exactly for an unknown customer; otherwise exactly the stored charges of that customer |

## Left out

- Id generation: the id the database assigns to a new customer or charge is the parameter `newId`, required not to be in use already.
- Prisma and the repositories: the idempotency table, customers and charges are maps held by classes; database failures, `findAll`, `disconnect` and the `include: { customer: true }` join are not modelled.
- `findAll` of both services and the `orderBy: { createdAt: 'desc' }` ordering: `ChargeService.ChargeRepository.FindByCustomerId` returns a set, so the order of the list is not modelled.
- Concurrency: two requests with the same key racing between lookup and capture are not modelled; the model is sequential and the capture is one atomic step (`Handle`).
- The fire-and-forget `.catch` around the capture and the `try/catch` around the lookup: a failing store is not modelled, so `next(error)` on a store failure is not modelled either.
- `Idempotency.IdempotencyStore.Guard`: the header is a string or absent; the `typeof idempotencyKey !== 'string'` test for a non-string header is not modelled.
- The `res.json` wrapping itself and the `JSON.stringify`/`JSON.parse` of the stored body: the body is an opaque string that round-trips unchanged.
- Date handling: `new Date()` parsing, validity and local-time/DST effects of `setHours(+24)` and of "today at midnight"; the clock, today's midnight and the parsed due date are integer parameters, and the TTL is exactly 24 h in milliseconds.
- JavaScript numbers: `valor` and `parcelas` are reals; NaN, infinities and rounding near 999999999.99 are not modelled, and `Number.isInteger` is "has no fractional part".
- Unicode: `toUpperCase` is modelled on ASCII letters only, and string length counts characters, not UTF-16 code units.
- Express wiring: routes, controllers, `app.js`, `server.js`, how a thrown error reaches the error handler, and all `console` logging.
- `ErrorHandler.HandleError`: each entry of `err.errors` is taken to be its `.message`; an entry without one (serialised as null) and an `errors` value that is a string or number are not modelled.
- `process.env.NODE_ENV` is the boolean parameter `development`; the stack trace is only the flag `stack`.
- A request body that is not an object (so that `req.body.x` itself throws) is not modelled.
- The Reaper's schedule: `Sweep` is one call with its own `now`.
