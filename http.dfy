/** The `data` object the server hands to a handler and the arguments a
    handler calls back with. */
module Http {
  import opened JsValues

  /** `{ trimmedPath, queryStringObject, method, headers, payload }`. The
      query string and headers are the parameters present, by name. */
  datatype Request = Request(
    trimmedPath: string,
    query: map<string, string>,
    httpMethod: string,
    headers: map<string, string>,
    payload: Record
  )

  /** `callback(statusCode, payload)`; a missing argument is `undefined`. */
  datatype Reply = Reply(status: Value, payload: Value)

  function StatusOnly(code: int): Reply {
    Reply(Int(code), Undefined)
  }

  /** `callback(code, { Error: message })` */
  function ErrorReply(code: int, message: string): Reply {
    Reply(Int(code), Obj(map["Error" := Str(message)]))
  }

  /** `queryStringObject.get(name)`: the value, or `null` when absent. */
  function QueryParam(query: map<string, string>, name: string): Value {
    if name in query then Str(query[name]) else Null
  }

  /** `typeof headers.token === 'string' ? headers.token : ''` */
  function TokenHeader(headers: map<string, string>): string {
    if "token" in headers then headers["token"] else ""
  }

  predicate HasStatus(reply: Reply, code: int) {
    reply.status == Int(code)
  }
}
