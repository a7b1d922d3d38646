/** `errorResponse.ts` and `response.ts`: the `(status, body)` pairs the backend sends. */
module Responses {
  import opened Common
  import opened Zod

  /** What `res.status(status).json(body)` sends; `res.json(body)` alone sends 200. */
  datatype Response = Response(status: int, body: Json)

  /** The `error: unknown` given to `sendErrorResponse`: a `ZodError`, an `Error` with its
      message, an `Error` thrown by a library whose message text is not modelled, or any
      other value. */
  datatype Thrown =
    | ZodError(issues: seq<ZodIssue>)
    | Error(message: string)
    | LibraryError
    | NotAnError

  /** `sendErrorResponse(res, statusCode, error)`. */
  function SendErrorResponse(statusCode: int, error: Thrown): (r: Response)
    ensures r.status == statusCode
  {
    match error
    case ZodError(issues) => Response(statusCode, JObj([("errors", IssuesJson(issues))]))
    case Error(message) => Response(statusCode, JObj([("message", JStr(message))]))
    case LibraryError => Response(statusCode, JObj([("message", JOpaque)]))
    case NotAnError => Response(statusCode, JObj([("message", JStr(UnknownErrorMessage))]))
  }

  /** `sendError(res, status, message)`. */
  function SendError(status: int, message: string): (r: Response)
    ensures r.status == status
  {
    Response(status, JObj([("success", JBool(false)), ("message", JStr(message))]))
  }

  /** `sendSuccess(res, data, message?)`: an `undefined` message or data is left out of
      the serialised body. */
  function SendSuccess(data: Option<Json>, message: Option<string>): (r: Response)
    ensures r.status == 200 && r.body.JObj? && 1 <= |r.body.fields| <= 3
  {
    Response(200, Stringify([
      ("success", Some(JBool(true))),
      ("message", if message.Some? then Some(JStr(message.value)) else None),
      ("data", data)]))
  }

  /** A ZodError is sent as `{errors: issues}` and nothing else; an Error as
      `{message: error.message}`; any other value as the generic message; the status is
      the one given in every case. */
  lemma ErrorResponseShapes(statusCode: int, error: Thrown)
    ensures var r := SendErrorResponse(statusCode, error);
      && r.status == statusCode
      && (error.ZodError? ==> Get(r.body, "errors") == Some(IssuesJson(error.issues)) && Get(r.body, "message").None?)
      && (error.Error? ==> Get(r.body, "message") == Some(JStr(error.message)) && Get(r.body, "errors").None?)
      && (error.NotAnError? ==> Get(r.body, "message") == Some(JStr(UnknownErrorMessage)))
      && |r.body.fields| == 1
  {
    var r := SendErrorResponse(statusCode, error);
    match error
    case ZodError(issues) =>
      assert r.body.fields == [("errors", IssuesJson(issues))];
      assert "errors" != "message";
    case Error(message) =>
      assert r.body.fields == [("message", JStr(message))];
      assert "errors" != "message";
    case LibraryError =>
    case NotAnError =>
  }

  /** `sendError` keeps the status and sends `{success: false, message}`. */
  lemma SendErrorShape(status: int, message: string)
    ensures var r := SendError(status, message);
      && r.status == status
      && Get(r.body, "success") == Some(JBool(false))
      && Get(r.body, "message") == Some(JStr(message))
  {
    var fields := [("success", JBool(false)), ("message", JStr(message))];
    assert "message"[0] != "success"[0];
    assert fields[..1] == [("success", JBool(false))];
    assert SendError(status, message).body == JObj(fields);
    assert fields[1].0 != "success";
    assert Lookup(fields, "success") == Lookup(fields[..1], "success");
  }

  /** `sendSuccess` always answers 200 with `success: true`, echoes the data unchanged and
      supplies no default message: an absent message is absent from the body. */
  lemma {:induction false} SendSuccessShape(data: Option<Json>, message: Option<string>)
    ensures var r := SendSuccess(data, message);
      && r.status == 200
      && Get(r.body, "success") == Some(JBool(true))
      && Get(r.body, "data") == data
      && (message.Some? ==> Get(r.body, "message") == Some(JStr(message.value)))
      && (message.None? ==> Get(r.body, "message").None?)
  {
    var fields := [
      ("success", Some(JBool(true))),
      ("message", if message.Some? then Some(JStr(message.value)) else None),
      ("data", data)];
    assert fields[0].0 == "success" && fields[1].0 == "message" && fields[2].0 == "data";
    StringifyLookup(fields, "success");
    StringifyLookup(fields, "message");
    StringifyLookup(fields, "data");
  }
}
