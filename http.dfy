/**
 * The parts of net/http the handlers depend on: status codes, JSON bodies,
 * a response writer whose first written status wins, and the error-to-400
 * wrapper `makeHttpHandleFunc` (api.go).
 */
module Http {
  import opened Wrappers
  import opened Types

  const StatusOK: int := 200
  const StatusBadRequest: int := 400
  const StatusUnauthorized: int := 401
  const StatusForbidden: int := 403
  const StatusInternalServerError: int := 500

  /** The JSON values the service writes. */
  datatype Body =
    | AccountJson(account: AccountView)
    | AccountListJson(accounts: seq<AccountView>)
    | LoginJson(number: Int64, token: string)
    | DeletedJson(deleted: int)
    | ErrorJson(message: string)
    /** An `error` value handed to the JSON encoder: it has no exported fields and encodes as `{}`. */
    | EmptyJson

  /**
   * What has been written to an http.ResponseWriter: the status of the first
   * WriteHeader call, if any, and every body written, in order.
   */
  datatype ResponseWriter = ResponseWriter(header: Option<int>, bodies: seq<Body>) {
    /** WriteJson: a later WriteHeader is ignored, a later body is appended. */
    function WriteJson(status: int, body: Body): ResponseWriter {
      ResponseWriter(if header.Some? then header else Some(status), bodies + [body])
    }

    /** The status the client receives (200 when nothing set one). */
    function Status(): int {
      if header.Some? then header.value else StatusOK
    }
  }

  const NewWriter: ResponseWriter := ResponseWriter(None, [])

  /** A fresh response holding one status and one body. */
  function Reply(status: int, body: Body): ResponseWriter {
    NewWriter.WriteJson(status, body)
  }

  /** Only the first status written reaches the client; both bodies do. */
  lemma FirstStatusWins(w: ResponseWriter, s1: int, b1: Body, s2: int, b2: Body)
    ensures w.WriteJson(s1, b1).WriteJson(s2, b2).Status() == (if w.header.Some? then w.header.value else s1)
    ensures w.WriteJson(s1, b1).WriteJson(s2, b2).bodies == w.bodies + [b1, b2]
  {
  }

  /**
   * makeHttpHandleFunc: when the handler returns an error, its message is
   * written as JSON with status 400 (which only takes effect when the handler
   * set no status of its own).
   */
  function MakeHttpHandleFunc(w: ResponseWriter, err: Option<string>): (w': ResponseWriter)
    ensures err.None? ==> w' == w
    ensures err.Some? ==> w'.bodies == w.bodies + [ErrorJson(err.value)]
    ensures err.Some? && w.header.None? ==> w'.Status() == StatusBadRequest
    ensures err.Some? && w.header.Some? ==> w'.Status() == w.Status()
  {
    if err.Some? then w.WriteJson(StatusBadRequest, ErrorJson(err.value)) else w
  }
}
