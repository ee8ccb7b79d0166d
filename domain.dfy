/**
 * Values shared by every component: attribute values, localized messages, API errors,
 * HTTP requests and pages.
 */
module Domain {
  import opened Wrappers

  /** Pagination parameters of a findAll request (Spring `Pageable`, opaque here). */
  datatype Pageable = Pageable(pageNumber: nat, pageSize: nat)

  /** Query filters of a findAll request (Spring `MultiValueMap<String, String>`). */
  type Filters = map<string, seq<string>>

  /**
   * A dynamically typed attribute or context value. `Converted` is what the conversion
   * service produced for a target class; its meaning is left to that service.
   */
  datatype Value =
    | Null
    | Text(text: string)
    | Integer(n: int)
    | Boolean(b: bool)
    | FilterValue(filters: Filters)
    | PageableValue(pageable: Pageable)
    | Converted(target: string, source: Value)

  /** Whether `value.toString()` is the empty string: only the empty text is. */
  predicate ToStringIsEmpty(value: Value) {
    value == Text("")
  }

  /** A localized message: a machine-readable key plus a context for placeholders. */
  datatype I18nMessage = I18nMessage(key: string, context: map<string, string>)

  /**
   * An `ApiException`: an HTTP-like status, the message, and optional details
   * (the validation engine puts its aggregated errors under "errors").
   */
  datatype ApiError = ApiError(status: int, error: I18nMessage, details: map<string, seq<I18nMessage>>)

  /** An error without details, as `new ApiException(status, I18nMessage.of(key, context))`. */
  function Error(status: int, key: string, context: map<string, string>): ApiError
  {
    ApiError(status, I18nMessage(key, context), map[])
  }

  /** The part of an `HttpServletRequest` that the core reads. */
  datatype Request = Request(uri: string, httpMethod: string, headers: map<string, string>)

  /** The request-scoped `TaskExecutionContext`. */
  type Context = map<string, Value>
}
