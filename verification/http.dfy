/** Shapes shared by the route handlers and by the client that calls them:
    awaited calls that may throw, fields of a parsed JSON request body, and
    responses as a status with a body. */
module Http {

  /** The outcome of one awaited call (`getServerSession`, `req.json()`,
      a database call, `fetch`): it either threw or produced a value. */
  datatype Step<+T> = Threw | Done(value: T)

  /** One field destructured from a parsed JSON request body. `NotArray`
      stands for every present value that is not an array, `null` included. */
  datatype Field<+T> = Absent | NotArray | Array(items: seq<T>)

  /** What a handler answers: an HTTP status and a JSON body. */
  datatype Response<+B> = Response(status: int, body: B)

  const StatusOk: int := 200
  const StatusBadRequest: int := 400
  const StatusUnauthorized: int := 401
  const StatusServerError: int := 500

  /** `Response.ok` of the fetch API: the status lies in 200-299. */
  predicate IsOk(status: int) {
    200 <= status <= 299
  }

  /** True when the field is an array of at least `n` elements. */
  predicate IsArrayOfAtLeast<T>(f: Field<T>, n: nat) {
    f.Array? && |f.items| >= n
  }
}
