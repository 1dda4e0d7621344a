/**
 * What the core takes from the platform: bytes, URLs, the Foundation
 * operations it calls without looking inside, and URLSession data tasks.
 */
module Platform {
  import opened Wrappers
  import opened Text

  newtype byte = x: int | 0 <= x < 256

  /** `Data`. */
  type Bytes = seq<byte>

  /** `URLQueryItem`: a `value` of nil stands for a bare `name` without `=`. */
  datatype QueryItem = QueryItem(name: string, value: Option<string>)

  /**
   * A URL split the way `URLComponents` splits it. An empty `scheme` or `host`
   * stands for nil; `path` is the decoded path; `query` holds the decoded
   * query items in order.
   */
  datatype Url = Url(scheme: string, host: string, port: Option<nat>, path: string, query: seq<QueryItem>)

  /**
   * The Foundation and CryptoKit operations the core calls but whose insides
   * are not part of this model. Each field is one operation; nothing is known
   * about them beyond their types, so every property proved here holds for
   * every implementation of them.
   */
  datatype Foundation = Foundation(
    /** `String(data:encoding: .utf8)`: nil when the bytes are not UTF-8. */
    decodeUtf8: Bytes -> Option<string>,
    /** `Data(s.utf8)`, `s.data(using: .utf8)`. */
    encodeUtf8: string -> Bytes,
    /** `URL.absoluteString`, with Foundation's percent-encoding. */
    absoluteString: Url -> string,
    /** `URL(string:)`. */
    parseUrl: string -> Option<Url>,
    /** `URL(string:relativeTo:)`. */
    resolveUrl: (string, Url) -> Option<Url>,
    /** `URLComponents.url`: nil when the components do not form a valid URL. */
    componentsUrl: Url -> Option<Url>,
    /** `URL.deletingLastPathComponent()`. */
    deletingLastPathComponent: Url -> Url,
    /** `URL.appendingPathComponent(_:)`. */
    appendingPathComponent: (Url, string) -> Url,
    /** `URL.standardized`. */
    standardized: Url -> Url,
    /** `URL.pathExtension`. */
    pathExtension: Url -> string,
    /** `String.removingPercentEncoding`. */
    removingPercentEncoding: string -> Option<string>,
    /** `Double(_: String)`, for finite values. */
    parseDouble: string -> Option<real>,
    /** `String.hashValue`: fixed within one process, seeded per process. */
    hashValue: string -> int,
    /** SHA-256 of the bytes, as lower-case hexadecimal. */
    sha256Hex: Bytes -> string
  )

  /** The states of a `URLSessionTask` that the core observes. */
  datatype TaskState = Running | Suspended | Cancelled

  /**
   * A `URLSessionDataTask` for `url`. `attempt` is the retry attempt whose
   * completion handler the task carries (0 for the first request).
   */
  class DataTask {
    const url: Url
    const attempt: nat
    var state: TaskState

    /** A task that has been created and resumed. */
    constructor (url: Url, attempt: nat)
      ensures this.url == url && this.attempt == attempt && state == Running
    {
      this.url := url;
      this.attempt := attempt;
      state := Running;
    }

    /** `suspend()`: a running task pauses; a cancelled one stays cancelled. */
    method Suspend()
      modifies this
      ensures state == (if old(state) == Running then Suspended else old(state))
    {
      if state == Running {
        state := Suspended;
      }
    }

    /** `resume()`: a suspended task runs again; a cancelled one stays cancelled. */
    method Resume()
      modifies this
      ensures state == (if old(state) == Suspended then Running else old(state))
    {
      if state == Suspended {
        state := Running;
      }
    }

    /** `cancel()`. */
    method Cancel()
      modifies this
      ensures state == Cancelled
    {
      state := Cancelled;
    }
  }
}
