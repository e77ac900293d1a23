/** The request object the parser fills in (src/http/HttpRequest.cpp). */
module HttpRequests {

  datatype Method = INVALID_METHOD | GET | POST | HEAD | PUT | DELETE
  datatype Version = INVALID_VERSION | HTTP_1_0 | HTTP_1_1

  /** The fields of one HttpRequest object, as a value. */
  datatype Request = Request(
    verb: Method,
    version: Version,
    url: string,
    params: map<string, string>,
    protocol: string,
    headers: map<string, string>,
    body: string)

  const FRESH := Request(INVALID_METHOD, INVALID_VERSION, "", map[], "", map[], "")

  function MethodOf(text: string): Method {
    if text == "GET" then GET
    else if text == "POST" then POST
    else if text == "HEAD" then HEAD
    else if text == "PUT" then PUT
    else if text == "DELETE" then DELETE
    else INVALID_METHOD
  }

  function VersionOf(text: string): Version {
    if text == "1.0" then HTTP_1_0
    else if text == "1.1" then HTTP_1_1
    else INVALID_VERSION
  }

  /** Exactly five texts name a method, each its own, and exactly two a version. */
  lemma NamesAre(text: string)
    ensures MethodOf(text) == GET <==> text == "GET"
    ensures MethodOf(text) == POST <==> text == "POST"
    ensures MethodOf(text) == HEAD <==> text == "HEAD"
    ensures MethodOf(text) == PUT <==> text == "PUT"
    ensures MethodOf(text) == DELETE <==> text == "DELETE"
    ensures MethodOf(text) != INVALID_METHOD <==> text in {"GET", "POST", "HEAD", "PUT", "DELETE"}
    ensures VersionOf(text) == HTTP_1_0 <==> text == "1.0"
    ensures VersionOf(text) == HTTP_1_1 <==> text == "1.1"
    ensures VersionOf(text) != INVALID_VERSION <==> text in {"1.0", "1.1"}
  {
    assert "1.0" != "1.1";
    assert "PUT" != "GET";
    assert "POST" != "HEAD";
  }

  class HttpRequest {
    var verb: Method
    var version: Version
    var url: string
    var params: map<string, string>
    var protocol: string
    var headers: map<string, string>
    var body: string

    function Value(): Request
      reads this
    {
      Request(verb, version, url, params, protocol, headers, body)
    }

    constructor ()
      ensures Value() == FRESH
      ensures verb == INVALID_METHOD && version == INVALID_VERSION && url == protocol == body == ""
      ensures params == headers == map[]
    {
      verb, version, url, params := INVALID_METHOD, INVALID_VERSION, "", map[];
      protocol, headers, body := "", map[], "";
    }

    method SetMethod(text: string)
      modifies this
      ensures Value() == old(Value()).(verb := MethodOf(text))
      ensures verb == INVALID_METHOD <==> text !in {"GET", "POST", "HEAD", "PUT", "DELETE"}
    {
      if text == "GET" {
        verb := GET;
      } else if text == "POST" {
        verb := POST;
      } else if text == "HEAD" {
        verb := HEAD;
      } else if text == "PUT" {
        verb := PUT;
      } else if text == "DELETE" {
        verb := DELETE;
      } else {
        verb := INVALID_METHOD;
      }
    }

    method SetVersion(text: string)
      modifies this
      ensures Value() == old(Value()).(version := VersionOf(text))
      ensures version == INVALID_VERSION <==> text !in {"1.0", "1.1"}
    {
      if text == "1.0" {
        version := HTTP_1_0;
      } else if text == "1.1" {
        version := HTTP_1_1;
      } else {
        version := INVALID_VERSION;
      }
    }

    method SetUrl(text: string)
      modifies this
      ensures Value() == old(Value()).(url := text)
    {
      url := text;
    }

    method SetRequestParams(key: string, value: string)
      modifies this
      ensures Value() == old(Value()).(params := old(params)[key := value])
    {
      params := params[key := value];
    }

    method SetProtocol(text: string)
      modifies this
      ensures Value() == old(Value()).(protocol := text)
    {
      protocol := text;
    }

    method SetHeaders(key: string, value: string)
      modifies this
      ensures Value() == old(Value()).(headers := old(headers)[key := value])
    {
      headers := headers[key := value];
    }

    /** `val` is cleared when the key is missing. */
    method GetHeaders(key: string) returns (found: bool, val: string)
      ensures found == (key in headers)
      ensures val == if key in headers then headers[key] else ""
    {
      if key in headers {
        found, val := true, headers[key];
      } else {
        found, val := false, "";
      }
    }

    method SetBody(text: string)
      modifies this
      ensures Value() == old(Value()).(body := text)
    {
      body := text;
    }
  }
}
