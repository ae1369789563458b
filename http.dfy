/**
 * What an Express handler writes: a status code and a JSON body.
 */
module Http {
  import opened Wrappers
  import opened Json

  datatype Response = Response(status: int, body: Json)

  /** `{error: message}`, the body most image endpoints answer failures with. */
  function ErrorBody(message: string): (r: Json)
    ensures r.JObj? && |r.members| == 1
    ensures Get(r, "error") == Some(JStr(message))
  {
    JObj([Member("error", JStr(message))])
  }

  /** `{message: text}`. */
  function MessageBody(text: string): (r: Json)
    ensures r.JObj? && |r.members| == 1
    ensures Get(r, "message") == Some(JStr(text))
  {
    JObj([Member("message", JStr(text))])
  }

  /** `{errors: [{title: title}]}`, the JSON:API error body of the collection endpoints. */
  function TitledErrors(title: string): (r: Json)
    ensures r.JObj? && |r.members| == 1
    ensures Get(r, "errors") == Some(JArr([JObj([Member("title", JStr(title))])]))
  {
    JObj([Member("errors", JArr([JObj([Member("title", JStr(title))])]))])
  }

  /** `{meta: {message: text}}`. */
  function MetaMessage(text: string): (r: Json)
    ensures r.JObj? && |r.members| == 1
    ensures Get(r, "meta") == Some(MessageBody(text))
  {
    JObj([Member("meta", MessageBody(text))])
  }

  /** `{data: value}`. */
  function DataBody(value: Json): (r: Json)
    ensures r.JObj? && |r.members| == 1
    ensures Get(r, "data") == Some(value)
  {
    JObj([Member("data", value)])
  }
}
