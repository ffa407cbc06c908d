/** Values shared by the whole cache: the attachment record, the error kinds
    the cache itself reports, the outcome of an HTTP download, and the two
    clean-up constants. Time is an integer count of nanoseconds since Go's
    zero time.Time, so the zero time is 0 and a duration is a difference. */
module CacheTypes {

  datatype Option<+T> = None | Some(value: T)

  /** A value or the error that replaced it (Go's `(T, error)` pair). */
  datatype Result<+T, +E> = Success(value: T) | Failure(error: E)

  newtype byte = x: int | 0 <= x < 256

  /** The zero time.Time, carried by an attachment that was never fetched. */
  const ZeroTime: int := 0

  /** How long an attachment may go unreferenced before Clean drops it: five minutes. */
  const AttachmentLifetime: int := 5 * 60 * 1_000_000_000

  /** Store size above which Clean drops entries regardless of their age. */
  const AttachmentPruneThreshold: nat := 1000

  /** The errors the cache reports itself. Provider failures are passed
      through unchanged and are not listed here. */
  datatype CacheError =
    | Missing                   // an invalidated ID was not cached
    | IOError(cause: string)    // the response body could not be read
    | RequestFailed(cause: string)  // the HTTP request itself failed
    | GetFailed                 // the server answered with a status other than 200

  /** A downloaded attachment: metadata, content, and the time it was last used. */
  datatype Attachment = Attachment(name: string, contentType: string, content: seq<byte>, lastReference: int)

  /** What a message says about an attachment: where to fetch it and how to label it. */
  datatype AttachmentRef = AttachmentRef(url: string, filename: string, contentType: string)

  /** The outcome of `GET url` followed by reading the whole body. */
  datatype HttpResult =
    | TransportError(cause: string)
    | Response(statusCode: int, body: Result<seq<byte>, string>)

  /** The attachment returned when a download fails: labelled, but with no content. */
  function Placeholder(at: AttachmentRef): (a: Attachment)
  {
    Attachment(at.filename, at.contentType, [], ZeroTime)
  }

  /** An attachment unused for strictly longer than the lifetime is stale. */
  predicate Stale(a: Attachment, now: int)
  {
    now - a.lastReference > AttachmentLifetime
  }
}
