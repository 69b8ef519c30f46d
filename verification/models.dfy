/** The JSON resources the API returns, mirroring `models/redirect.go`. */
module Models {
  import opened GoStrings

  /** The self link of a redirect. */
  datatype RedirectSelf = RedirectSelf(href: GoString, id: GoString)

  datatype RedirectLinks = RedirectLinks(self: RedirectSelf)

  /** A redirect as returned to clients. */
  datatype Redirect = Redirect(from: GoString, to: GoString, id: GoString, links: RedirectLinks)

  /** One page of the redirect listing. */
  datatype Redirects = Redirects(count: int, items: seq<Redirect>, cursor: GoString, nextCursor: GoString, totalCount: int)

  /** The zero value of the links, as Go leaves them when only `From` and `To` are set. */
  const NoLinks := RedirectLinks(RedirectSelf("", ""))
}

/** The fixed error values of `api/errors.go` and `apierrors/errors.go`. */
module ApiErrors {
  import opened GoStrings

  datatype ApiError =
    | ErrNegativeCount
    | ErrInternal
    | ErrInvalidCount
    | ErrInvalidOrNegativeCursor
    | ErrInvalidBase64Id
    | ErrNotFound
    | ErrInvalidRequestBody
    | ErrIdFromMismatch
    | ErrFromToNotRelative
    | ErrCircularPaths
    | ErrRedis
  {
    /** `err.Error()`. */
    function Message(): GoString {
      match this
      case ErrNegativeCount => NegativeCountText
      case ErrInternal => InternalText
      case ErrInvalidCount => InvalidCountText
      case ErrInvalidOrNegativeCursor => InvalidCursorText
      case ErrInvalidBase64Id => InvalidBase64IdText
      case ErrNotFound => NotFoundText
      case ErrInvalidRequestBody => InvalidRequestBodyText
      case ErrIdFromMismatch => IdFromMismatchText
      case ErrFromToNotRelative => FromToNotRelativeText
      case ErrCircularPaths => CircularPathsText
      case ErrRedis => RedisText
    }
  }

  const NegativeCountText: GoString := "the count must be a positive integer"
  const InternalText: GoString := "internal error"
  const InvalidCountText: GoString := "the count must be an integer giving " + "the requested number of redirects"
  const InvalidCursorText: GoString := "the redirects cursor was invalid. " + "It must be a positive integer"
  const InvalidBase64IdText: GoString := "the base64 id provided is invalid"
  const NotFoundText: GoString := "not found"
  const InvalidRequestBodyText: GoString := "the request body provided is invalid"
  const IdFromMismatchText: GoString := "the 'from' field does not match " + "the base64 id"
  const FromToNotRelativeText: GoString := "'from' and 'to' must be relative " + "paths starting with '/'"
  const CircularPathsText: GoString := "'from' and 'to' cannot be the same"
  const RedisText: GoString := "redis returned an error"
}

/** What a handler writes to its `http.ResponseWriter`. */
module Http {
  import opened GoStrings
  import opened Models

  const StatusOK := 200
  const StatusCreated := 201
  const StatusNoContent := 204
  const StatusBadRequest := 400
  const StatusNotFound := 404
  const StatusInternalServerError := 500

  /** Errors whose text comes from a Go library the model does not reproduce. */
  datatype Library = Base64Decoder | JsonDecoder

  datatype Body =
    | NoBody
      /** `http.Error(w, text, code)`: the text (Go appends a newline). */
    | Text(text: GoString)
      /** `http.Error` with the `Error()` text of a library error. */
    | LibraryError(origin: Library)
    | RedirectJson(redirect: Redirect)
    | RedirectsJson(page: Redirects)

  datatype Response = Response(status: int, body: Body)

  /** `http.Error(w, text, status)`. */
  function Error(status: int, text: GoString): Response {
    Response(status, Text(text))
  }
}
