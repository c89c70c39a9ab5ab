/** The responses the route handlers send: a status code, the content type
    the handler declares and the body.
 */
module Http {
  import opened Values
  import opened Store

  /** One entry of express-validator's `errors.array()`: the field and its
      message. */
  datatype FieldIssue = FieldIssue(path: string, msg: string)

  datatype Payload =
    | ButtonBody(button: Option<Button>)
    | ButtonList(buttons: seq<Button>)
    | ValidationErrors(errors: seq<FieldIssue>)
    | ErrorBody(error: string)
    | MessageBody(message: string)
    | ScriptBody(text: string)

  datatype Response = Response(status: int, contentType: string, payload: Payload)

  const JsonType: string := "application/json"
  const JavaScriptType: string := "application/javascript"

  /** The body of every 404 the button and script routes send. */
  const ButtonNotFound: string := "Botão não encontrado"

  function Json(status: int, payload: Payload): (r: Response)
    ensures r.status == status && r.contentType == JsonType && r.payload == payload
  {
    Response(status, JsonType, payload)
  }

  function NotFound(): (r: Response)
    ensures r.status == 404 && r.contentType == JsonType && r.payload == ErrorBody(ButtonNotFound)
  {
    Json(404, ErrorBody(ButtonNotFound))
  }
}
