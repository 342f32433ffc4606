/**
 * The slice of Go's net/http that the handlers use: a response writer
 * whose status is fixed by the first write, `http.Error`, and the CORS
 * wrapper both servers install (backend/main.go, backend/cmd/server/main.go).
 */
module Http {
  const Get: string := "GET"
  const Post: string := "POST"
  const Options: string := "OPTIONS"

  const StatusOK: nat := 200
  const StatusBadRequest: nat := 400
  const StatusNotFound: nat := 404
  const StatusMethodNotAllowed: nat := 405
  const StatusInternalServerError: nat := 500

  const ContentType: string := "Content-Type"
  const NoSniff: string := "X-Content-Type-Options"
  const TextPlain: string := "text/plain; charset=utf-8"
  const ApplicationJson: string := "application/json"

  /** The headers enableCors sets on every response. */
  const CorsHeaders: map<string, string> := map[
    "Access-Control-Allow-Origin" := "*",
    "Access-Control-Allow-Methods" := "POST, GET, OPTIONS, PUT, DELETE",
    "Access-Control-Allow-Headers" := "Accept, Content-Type, Content-Length, Accept-Encoding, X-CSRF-Token, Authorization"
  ]

  /** One write to the body: text, or one value written by a JSON encoder. */
  datatype Chunk<T> = TextChunk(text: string) | JsonChunk(value: T)

  /** What a handler answers: an `http.Error`, or 200 with one JSON value. */
  datatype Reply<T> = Failure(status: nat, message: string) | Success(value: T)

  class ResponseWriter<T> {
    var headers: map<string, string>
    /** 0 until the status line is written. */
    var status: nat
    var body: seq<Chunk<T>>

    constructor ()
      ensures headers == map[] && status == 0 && body == []
    {
      headers := map[];
      status := 0;
      body := [];
    }

    /** `w.Header().Set(k, v)` */
    method SetHeader(key: string, value: string)
      modifies this`headers
      ensures headers == old(headers)[key := value]
    {
      headers := headers[key := value];
    }

    /** `w.WriteHeader(code)`: only the first status write counts. */
    method WriteHeader(code: nat)
      requires code > 0
      modifies this`status
      ensures status == if old(status) == 0 then code else old(status)
    {
      if status == 0 {
        status := code;
      }
    }

    /** A body write; without an earlier status it implies 200. */
    method Write(chunk: Chunk<T>)
      modifies this`status, this`body
      ensures status == if old(status) == 0 then StatusOK else old(status)
      ensures body == old(body) + [chunk]
    {
      if status == 0 {
        status := StatusOK;
      }
      body := body + [chunk];
    }

    /** `http.Error(w, message, code)`: plain-text headers, the status, and the message with a newline. */
    method Error(message: string, code: nat)
      requires code > 0
      modifies this
      ensures headers == old(headers)[ContentType := TextPlain][NoSniff := "nosniff"]
      ensures status == if old(status) == 0 then code else old(status)
      ensures body == old(body) + [TextChunk(message + "\n")]
    {
      SetHeader(ContentType, TextPlain);
      SetHeader(NoSniff, "nosniff");
      WriteHeader(code);
      Write(TextChunk(message + "\n"));
    }

    /** The writer, fresh apart from the headers `before`, now shows `reply`. */
    ghost predicate Shows(reply: Reply<T>, before: map<string, string>)
      reads this
    {
      match reply
      case Failure(code, message) =>
        && status == code && body == [TextChunk(message + "\n")]
        && headers == before[ContentType := TextPlain][NoSniff := "nosniff"]
      case Success(value) =>
        && status == StatusOK && body == [JsonChunk(value)]
        && headers == before[ContentType := ApplicationJson]
    }

    /** Write a reply to a writer nothing has been written to yet. */
    method Send(reply: Reply<T>)
      requires status == 0 && body == []
      requires reply.Failure? ==> reply.status > 0
      modifies this
      ensures Shows(reply, old(headers))
    {
      match reply {
        case Failure(code, message) =>
          Error(message, code);
        case Success(value) =>
          SetHeader(ContentType, ApplicationJson);
          Write(JsonChunk(value));
      }
    }

    /**
     * enableCors: set the CORS headers; answer OPTIONS with an empty 200
     * and report whether the request goes on to the wrapped handler.
     */
    method EnableCors(requestMethod: string) returns (forward: bool)
      requires status == 0 && body == []
      modifies this
      ensures headers == old(headers) + CorsHeaders
      ensures forward <==> requestMethod != Options
      ensures !forward ==> status == StatusOK && body == []
      ensures forward ==> status == 0 && body == []
    {
      headers := headers + CorsHeaders;
      if requestMethod == Options {
        WriteHeader(StatusOK);
        return false;
      }
      return true;
    }
  }
}
