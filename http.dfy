/** The shape of a route handler's answer: an HTTP status and a JSON body. */
module Http {
  import opened Wrappers

  /** A handler's response; `P` is the route's own body type. */
  datatype Response<P> = Response(status: nat, body: P)

  /** The bodies the API routes answer with when they do not return data. */
  datatype Body<T> =
    | ErrorBody(error: string)        // `{ error: ... }`
    | MessageBody(message: string)    // `{ message: ... }`
    | DataBody(data: T)               // the query's rows, as returned
    | NoContent                       // `new NextResponse(null, ...)`
    | Unhandled                       // an exception no handler catches: the framework answers 500

  /** What a create handler answered, and the row it stored, if any. */
  datatype Handled<R> = Handled(response: Response<Body<R>>, stored: Option<R>)

  /** The store's answer to an insert: the key it assigned, or the error it
      reported with its message. */
  datatype StoreAnswer<K> = Assigned(key: K) | StoreError(message: string)

  const OK: nat := 200
  const CREATED: nat := 201
  const NO_CONTENT: nat := 204
  const BAD_REQUEST: nat := 400
  const UNAUTHORIZED: nat := 401
  const NOT_FOUND: nat := 404
  const SERVER_ERROR: nat := 500
}
