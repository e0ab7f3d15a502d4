/**
 * The part of the web framework's response the handlers drive: a status code
 * (200 until one is set) and the JSON documents rendered so far. Rendering
 * twice appends a second document to the body; it does not replace the first.
 */
module Web {

  const Ok: int := 200
  const BadRequest: int := 400
  const Unauthorized: int := 401
  const Conflict: int := 409
  const InternalServerError: int := 500

  /** The JSON documents the handlers render. `MeBody` has no password-hash field. */
  datatype Body =
    | ErrorBody(message: string)
    | TokenBody(token: string)
    | MeBody(id: int, username: string, email: string)

  class Response {
    var status: int
    var bodies: seq<Body>

    constructor ()
      ensures status == Ok && bodies == []
    {
      status := Ok;
      bodies := [];
    }

    /** `status_code`: overwrites the status. */
    method SetStatus(code: int)
      modifies this
      ensures status == code && bodies == old(bodies)
    {
      status := code;
    }

    /** `render(Json(..))`: appends one document to the body. */
    method Render(b: Body)
      modifies this
      ensures bodies == old(bodies) + [b] && status == old(status)
    {
      bodies := bodies + [b];
    }
  }
}
