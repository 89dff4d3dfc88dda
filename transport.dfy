/**
 * The HTTP exchanges the models ask for. The server is not modelled: a
 * request is recorded, and what comes back is given to the model as the
 * success value or the error the web layer hands to the callbacks.
 */
module Transport {
  import opened JsValue

  /** One request: the HTTP method, the URL as given and the body. */
  datatype Request = Request(verb: string, url: Value, body: Value)

  function Get(url: Value): Request { Request("GET", url, Undefined) }
  function Post(url: Value, body: Value): Request { Request("POST", url, body) }
  function Put(url: Value, body: Value): Request { Request("PUT", url, body) }
  function Delete(url: Value): Request { Request("DELETE", url, Undefined) }
}
