/**
 * The slice of `net/http` the handlers touch: a response writer whose
 * header map is updated in place, and `http.Redirect`.
 */
module Http {

  const StatusOK := 200
  const StatusFound := 302
  const StatusNotFound := 404
  const StatusInternalServerError := 500

  const LocationKey := "Location"

  /** What a handler produces: its status, the headers it sets itself, and its body. */
  datatype Reply = Reply(status: int, headers: map<string, string>, body: string)

  /** A complete response as the client receives it. */
  datatype Response = Response(status: int, header: map<string, string>, body: string)

  /**
   * An `http.ResponseWriter`: `Header()` is a map that handlers and
   * middleware update in place; the status and body are what was written.
   */
  class ResponseWriter {
    var header: map<string, string>
    var status: int
    var body: string

    /** A fresh writer: no headers, nothing written, so the status is the default 200. */
    constructor ()
      ensures header == map[] && status == StatusOK && body == ""
    {
      header := map[];
      status := StatusOK;
      body := "";
    }

    /** The response this writer holds. */
    function Current(): Response
      reads this
    {
      Response(status, header, body)
    }

    /** `Header().Set(key, value)`: replaces that one header and nothing else. */
    method Set(key: string, value: string)
      modifies this
      ensures header == old(header)[key := value]
      ensures status == old(status) && body == old(body)
    {
      header := header[key := value];
    }

    /** `WriteHeader(code)` followed by `Write(text)`; the headers are left alone. */
    method Write(code: int, text: string)
      modifies this
      ensures header == old(header) && status == code && body == text
    {
      status := code;
      body := text;
    }
  }

  /**
   * `http.Redirect(res, req, url, code)`: sets Location to `url` and writes
   * `code`. The short HTML body it generates is not modelled (empty here).
   */
  method Redirect(res: ResponseWriter, url: string, code: int)
    modifies res
    ensures res.header == old(res.header)[LocationKey := url]
    ensures res.status == code && res.body == ""
  {
    res.Set(LocationKey, url);
    res.Write(code, "");
  }

}
