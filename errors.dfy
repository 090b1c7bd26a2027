/**
 * The application's error classes (src/utils/errors.ts) as a table: each
 * class fixes an HTTP status and an `ErrorCode`, and some build their message
 * and details from their arguments.
 */
module Errors {
  import opened Wrappers
  import opened Text

  /** `ErrorCode`: the first five are client errors, the last three server errors. */
  datatype ErrorCode =
    | ValidationCode | NotFoundCode | BadRequestCode | InvalidInputCode | UnauthorizedCode
    | InternalCode | DatabaseCode | ServiceUnavailableCode
  {
    predicate IsClientCode()
    {
      this in {ValidationCode, NotFoundCode, BadRequestCode, InvalidInputCode, UnauthorizedCode}
    }
  }

  /** The string value of each `ErrorCode` member. */
  function CodeName(code: ErrorCode): string
  {
    match code
    case ValidationCode => "VALIDATION_ERROR"
    case NotFoundCode => "NOT_FOUND"
    case BadRequestCode => "BAD_REQUEST"
    case InvalidInputCode => "INVALID_INPUT"
    case UnauthorizedCode => "UNAUTHORIZED"
    case InternalCode => "INTERNAL_ERROR"
    case DatabaseCode => "DATABASE_ERROR"
    case ServiceUnavailableCode => "SERVICE_UNAVAILABLE"
  }

  /** The `AppError` subclasses; `name` is the class name. */
  datatype ErrorClass =
    | ValidationError | NotFoundError | BadRequestError | InvalidInputError
    | DatabaseError | ServiceUnavailableError | UnauthorizedError

  /** A value in a details record; `Undefined` is a key present with value `undefined`. */
  datatype DetailValue = Str(s: string) | Num(n: int) | Undefined

  type Details = map<string, DetailValue>

  datatype AppError = AppError(
    kind: ErrorClass,
    message: string,
    statusCode: int,
    code: ErrorCode,
    details: Option<Details>)

  /** The status each class passes to `AppError`. */
  function StatusOf(kind: ErrorClass): int
  {
    match kind
    case ValidationError => 400
    case NotFoundError => 404
    case BadRequestError => 400
    case InvalidInputError => 400
    case DatabaseError => 500
    case ServiceUnavailableError => 503
    case UnauthorizedError => 401
  }

  /** The code each class passes to `AppError`. */
  function CodeOf(kind: ErrorClass): ErrorCode
  {
    match kind
    case ValidationError => ValidationCode
    case NotFoundError => NotFoundCode
    case BadRequestError => BadRequestCode
    case InvalidInputError => InvalidInputCode
    case DatabaseError => DatabaseCode
    case ServiceUnavailableError => ServiceUnavailableCode
    case UnauthorizedError => UnauthorizedCode
  }

  /** An error whose status and code are the ones its class fixes. */
  predicate Consistent(e: AppError)
  {
    e.statusCode == StatusOf(e.kind) && e.code == CodeOf(e.kind)
  }

  /** Every class with a client code has a 4xx status, and every class with a server code a 5xx one. */
  lemma StatusMatchesCodeGroup(kind: ErrorClass)
    ensures CodeOf(kind).IsClientCode() <==> 400 <= StatusOf(kind) < 500
    ensures !CodeOf(kind).IsClientCode() <==> 500 <= StatusOf(kind) < 600
  {
  }

  /** The code strings are pairwise different, and no two classes share a code. */
  lemma CodesDistinct(c1: ErrorCode, c2: ErrorCode, k1: ErrorClass, k2: ErrorClass)
    ensures CodeName(c1) == CodeName(c2) ==> c1 == c2
    ensures CodeOf(k1) == CodeOf(k2) ==> k1 == k2
  {
    if CodeName(c1) == CodeName(c2) {
      assert CodeName(c1)[..3] == CodeName(c2)[..3];
    }
  }

  function Make(kind: ErrorClass, message: string, details: Option<Details>): (e: AppError)
    ensures Consistent(e) && e.kind == kind && e.message == message && e.details == details
  {
    AppError(kind, message, StatusOf(kind), CodeOf(kind), details)
  }

  function NewValidationError(message: string, details: Option<Details>): (e: AppError)
    ensures Consistent(e) && e.statusCode == 400 && e.code == ValidationCode
    ensures e.message == message && e.details == details
  {
    Make(ValidationError, message, details)
  }

  function NewBadRequestError(message: string, details: Option<Details>): (e: AppError)
    ensures Consistent(e) && e.statusCode == 400 && e.code == BadRequestCode
    ensures e.message == message && e.details == details
  {
    Make(BadRequestError, message, details)
  }

  function NewDatabaseError(message: string, details: Option<Details>): (e: AppError)
    ensures Consistent(e) && e.statusCode == 500 && e.code == DatabaseCode
    ensures e.message == message && e.details == details
  {
    Make(DatabaseError, message, details)
  }

  function NewUnauthorizedError(message: string, details: Option<Details>): (e: AppError)
    ensures Consistent(e) && e.statusCode == 401 && e.code == UnauthorizedCode
    ensures e.message == message && e.details == details
  {
    Make(UnauthorizedError, message, details)
  }

  /** The identifier argument of `NotFoundError`: `string | number`. */
  datatype Identifier = IdText(s: string) | IdNumber(n: int)

  /** JavaScript truthiness: `""` and `0` are falsy. */
  predicate Truthy(id: Option<Identifier>)
  {
    match id
    case None => false
    case Some(IdText(s)) => s != []
    case Some(IdNumber(n)) => n != 0
  }

  function IdentifierText(id: Identifier): string
  {
    match id
    case IdText(s) => s
    case IdNumber(n) => IntToString(n)
  }

  function IdentifierValue(id: Option<Identifier>): DetailValue
  {
    match id
    case None => Undefined
    case Some(IdText(s)) => Str(s)
    case Some(IdNumber(n)) => Num(n)
  }

  /**
   * `new NotFoundError(resource, identifier)`: the identifier appears in the
   * message only when it is truthy; details always hold both keys.
   */
  function NewNotFoundError(resource: string, identifier: Option<Identifier>): (e: AppError)
    ensures Consistent(e) && e.statusCode == 404 && e.code == NotFoundCode
    ensures Truthy(identifier) ==>
              e.message == resource + " with identifier '" + IdentifierText(identifier.value) + "' not found"
    ensures !Truthy(identifier) ==> e.message == resource + " not found"
    ensures e.details == Some(map["resource" := Str(resource), "identifier" := IdentifierValue(identifier)])
  {
    var message :=
      if Truthy(identifier)
      then resource + " with identifier '" + IdentifierText(identifier.value) + "' not found"
      else resource + " not found";
    Make(NotFoundError, message, Some(map["resource" := Str(resource), "identifier" := IdentifierValue(identifier)]))
  }

  /** The identifiers 0 and `""` are dropped from the message, like a missing one. */
  lemma FalsyIdentifiersOmitted(resource: string)
    ensures NewNotFoundError(resource, Some(IdNumber(0))).message == NewNotFoundError(resource, None).message
    ensures NewNotFoundError(resource, Some(IdText(""))).message == NewNotFoundError(resource, None).message
    ensures NewNotFoundError(resource, Some(IdNumber(0))).details != NewNotFoundError(resource, None).details
  {
    assert NewNotFoundError(resource, Some(IdNumber(0))).details.value["identifier"] == Num(0);
  }

  /** `{ ...details }`: spreading `undefined` adds nothing. */
  function Spread(details: Option<Details>): Details
  {
    if details.Some? then details.value else map[]
  }

  /** `new InvalidInputError(message, field, details)`: details `{ field, ...details }`. */
  function NewInvalidInputError(message: string, field: Option<string>, details: Option<Details>): (e: AppError)
    ensures Consistent(e) && e.statusCode == 400 && e.code == InvalidInputCode
    ensures e.message == message && e.details.Some?
    ensures e.details.value.Keys == {"field"} + Spread(details).Keys
  {
    var fieldValue := if field.Some? then Str(field.value) else Undefined;
    Make(InvalidInputError, message, Some(map["field" := fieldValue] + Spread(details)))
  }

  /** A `field` key in the extra details overrides the field argument, because it is spread after it. */
  lemma InvalidInputFieldOverride(message: string, field: Option<string>, details: Option<Details>)
    ensures var d := NewInvalidInputError(message, field, details).details.value;
            (details.Some? && "field" in details.value ==> d["field"] == details.value["field"]) &&
            (!(details.Some? && "field" in details.value) ==>
               d["field"] == (if field.Some? then Str(field.value) else Undefined)) &&
            (forall k :: k in Spread(details) ==> d[k] == Spread(details)[k])
  {
  }

  /** `new ServiceUnavailableError(service, details)`. */
  function NewServiceUnavailableError(service: string, details: Option<Details>): (e: AppError)
    ensures Consistent(e) && e.statusCode == 503 && e.code == ServiceUnavailableCode
    ensures e.message == service + " is currently unavailable"
    ensures e.details.Some? && e.details.value.Keys == {"service"} + Spread(details).Keys
    ensures "service" !in Spread(details) ==> e.details.value["service"] == Str(service)
  {
    Make(ServiceUnavailableError, service + " is currently unavailable",
         Some(map["service" := Str(service)] + Spread(details)))
  }
}
