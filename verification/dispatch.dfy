/** The four verb methods of MailjetClient. Each builds the URL, then either
    answers with a dry-run body (NOCALL_DEBUG) or makes exactly one transport
    call, with the headers registered at construction, and parses its reply.
    `Outcome.calls` is the log of transport calls the method made. */
module Dispatch {
  import opened Wrappers
  import opened Collaborators
  import Json
  import opened MailjetRequest
  import opened MailjetClient

  datatype Verb = GET | POST | PUT | DELETE {
    predicate IsWrite() { this == POST || this == PUT }
  }

  /** A MailjetResponse: a dry-run one carries a body only, a live one the
      transport's status as well. */
  datatype Response = DryRun(data: Json.Value) | Live(status: int, data: Json.Value)

  /** What a verb method throws: a MailjetException, or an exception it does not
      catch, passed on unchanged. */
  datatype Error = MailjetException(message: string) | Escaped(name: string)

  datatype Outcome = Outcome(result: Result<Response, Error>, calls: seq<Call>)

  const MalformedUrlGet: string := "Internal Exception: Malformed URL"
  const MalformedUrlWrite: string := "Internal Exception: Malformed Url"
  const UnsupportedEncodingMessage: string := "Internal Exception: Unsupported Encoding"

  /** `get` spells its message differently from the other three verbs. */
  function MalformedMessage(v: Verb): string {
    if v == GET then MalformedUrlGet else MalformedUrlWrite
  }

  /** The two catch clauses every verb method has. */
  function Catch(f: Failure, v: Verb): (e: Error)
    ensures f.MalformedUrl? <==> e == MailjetException(MalformedMessage(v))
    ensures f.UnsupportedEncoding? <==> e == MailjetException(UnsupportedEncodingMessage)
    ensures f.Unchecked? <==> e.Escaped?
    ensures f.Unchecked? ==> e.name == f.name
  {
    match f
    case MalformedUrl => MailjetException(MalformedMessage(v))
    case UnsupportedEncoding => MailjetException(UnsupportedEncodingMessage)
    case Unchecked(name) => Escaped(name)
  }

  /** An empty reply body is read as an empty JSON object. */
  function NormaliseBody(text: string): (r: string)
    ensures |r| > 0
    ensures |text| > 0 ==> r == text
    ensures |text| == 0 ==> r == "{}"
  {
    if |text| == 0 then "{}" else text
  }

  /** The JSON object a dry run answers with, for a request whose path built.
      Only `get` reads the query string, and only here. */
  function DryRunBody(v: Verb, url: string, req: Request): (r: Result<Json.Value, Failure>)
    ensures r.Success? ==> r.value.Object? && "url" in r.value.members
    ensures r.Success? ==>
      r.value.members.Keys == if v.IsWrite() then {"url", "payload"} else {"url"}
    ensures r.Success? && v.IsWrite() ==> r.value.members["payload"] == Json.Str(req.body)
    ensures r.Failure? <==> v == GET && req.query.Failure?
  {
    match v
    case GET =>
      (match req.query
       case Success(q) => Success(Json.Object(map["url" := Json.Str(url + q)]))
       case Failure(f) => Failure(f))
    case DELETE => Success(Json.Object(map["url" := Json.Str(url)]))
    case _ => Success(Json.Object(map["url" := Json.Str(url), "payload" := Json.Str(req.body)]))
  }

  /** The transport call a live request makes to `url`. */
  function LiveCall(v: Verb, url: string, req: Request, env: Env): (call: Call)
    ensures call.url == url
    ensures v == GET <==> call.GetCall?
    ensures v == POST <==> call.PostCall?
    ensures v == PUT <==> call.PutCall?
    ensures v == DELETE <==> call.DeleteCall?
    ensures call.GetCall? || call.DeleteCall? ==> call.params == req.filters
    ensures call.PostCall? || call.PutCall? ==>
      call.contentType == req.contentType && call.data == env.bytesOf(req.body)
  {
    match v
    case GET => GetCall(url, req.filters)
    case POST => PostCall(url, req.contentType, env.bytesOf(req.body))
    case PUT => PutCall(url, req.contentType, env.bytesOf(req.body))
    case DELETE => DeleteCall(url, req.filters)
  }

  /** `new MailjetResponse(status, new JSONObject(text))`: the parser's
      answer on a normalised body becomes a live response holding the object
      it read, or the parser's exception escapes unchanged. */
  function ParseReply(status: int, parsed: Result<map<string, Json.Value>, string>)
    : (r: Result<Response, Error>)
    ensures r.Success? <==> parsed.Success?
    ensures r.Success? ==>
      r.value.Live? && r.value.status == status && r.value.data == Json.Object(parsed.value)
    ensures r.Failure? ==> r.error == Escaped(parsed.error)
  {
    match parsed
    case Success(members) => Success(Live(status, Json.Object(members)))
    case Failure(name) => Failure(Escaped(name))
  }

  /** The live half of a verb method, from the transport call on: it succeeds
      only when both the transport and the parser do, and then carries the
      transport's status and the object parsed from the normalised body; a
      transport failure goes through the catch clauses, a parser failure
      escapes. */
  function Complete(env: Env, headers: map<string, string>, v: Verb, call: Call)
    : (r: Result<Response, Error>)
    ensures var reply := env.transport(headers, call);
      r.Success? <==> reply.Success? && env.parse(NormaliseBody(reply.value.body)).Success?
    ensures var reply := env.transport(headers, call);
      r.Success? ==>
        && r.value.Live?
        && r.value.status == reply.value.status
        && r.value.data == Json.Object(env.parse(NormaliseBody(reply.value.body)).value)
    ensures var reply := env.transport(headers, call);
      r.Failure? ==>
        || (reply.Failure? && r.error == Catch(reply.error, v))
        || (reply.Success? && r.error == Escaped(env.parse(NormaliseBody(reply.value.body)).error))
  {
    match env.transport(headers, call)
    case Failure(f) => Failure(Catch(f, v))
    case Success(raw) => ParseReply(raw.status, env.parse(NormaliseBody(raw.body)))
  }

  /** The common shape of the four verb methods. */
  function Send(c: Client, v: Verb, req: Request, env: Env): (o: Outcome)
    ensures o.calls == [] <==> c.debug == NoCallDebug || req.path.Failure?
    ensures |o.calls| <= 1
    ensures |o.calls| == 1 ==>
      req.path.Success? && o.calls[0] == LiveCall(v, BaseUrl + req.path.value, req, env)
    ensures o.result.Success? ==> (o.result.value.DryRun? <==> c.debug == NoCallDebug)
    ensures o.result.Success? ==> o.result.value.data.Object?
    ensures c.debug != NoCallDebug && req.path.Success? ==>
      var reply := env.transport(c.headers, LiveCall(v, BaseUrl + req.path.value, req, env));
      && (reply.Failure? ==> o.result == Failure(Catch(reply.error, v)))
      && (reply.Success? ==>
            o.result == ParseReply(reply.value.status, env.parse(NormaliseBody(reply.value.body))))
    ensures o.result.Failure? && o.result.error.MailjetException? ==>
      o.result.error.message in {MalformedMessage(v), UnsupportedEncodingMessage}
  {
    match req.path
    case Failure(f) => Outcome(Failure(Catch(f, v)), [])
    case Success(path) =>
      var url := BaseUrl + path;
      if c.debug == NoCallDebug then
        match DryRunBody(v, url, req)
        case Failure(f) => Outcome(Failure(Catch(f, v)), [])
        case Success(j) => Outcome(Success(DryRun(j)), [])
      else
        var call := LiveCall(v, url, req, env);
        Outcome(Complete(env, c.headers, v, call), [call])
  }

  /** `get`: the dry-run URL carries the query string; the live call gets the
      filters as a parameter map instead. */
  function Get(c: Client, req: Request, env: Env): (o: Outcome)
    ensures req.path.Failure? ==> o == Outcome(Failure(Catch(req.path.error, GET)), [])
    ensures c.debug == NoCallDebug ==> o.calls == []
    ensures c.debug == NoCallDebug && req.path.Success? && req.query.Success? ==>
      o.result == Success(DryRun(Json.Object(
        map["url" := Json.Str(BaseUrl + req.path.value + req.query.value)])))
    ensures c.debug == NoCallDebug && req.path.Success? && req.query.Failure? ==>
      o.result == Failure(Catch(req.query.error, GET))
    ensures c.debug != NoCallDebug && req.path.Success? ==>
      && o.calls == [GetCall(BaseUrl + req.path.value, req.filters)]
      && o.result == Complete(env, c.headers, GET, o.calls[0])
  {
    Send(c, GET, req, env)
  }

  /** `post`: the dry run echoes URL and payload; the live call sends the
      payload with the request's content type and never the filters. */
  function Post(c: Client, req: Request, env: Env): (o: Outcome)
    ensures req.path.Failure? ==> o == Outcome(Failure(Catch(req.path.error, POST)), [])
    ensures c.debug == NoCallDebug && req.path.Success? ==>
      o == Outcome(Success(DryRun(Json.Object(map["url" := Json.Str(BaseUrl + req.path.value),
                                                  "payload" := Json.Str(req.body)]))), [])
    ensures c.debug != NoCallDebug && req.path.Success? ==>
      && o.calls == [PostCall(BaseUrl + req.path.value, req.contentType, env.bytesOf(req.body))]
      && o.result == Complete(env, c.headers, POST, o.calls[0])
  {
    Send(c, POST, req, env)
  }

  /** `put`: as `post`, with a PUT transport call. */
  function Put(c: Client, req: Request, env: Env): (o: Outcome)
    ensures req.path.Failure? ==> o == Outcome(Failure(Catch(req.path.error, PUT)), [])
    ensures c.debug == NoCallDebug && req.path.Success? ==>
      o == Outcome(Success(DryRun(Json.Object(map["url" := Json.Str(BaseUrl + req.path.value),
                                                  "payload" := Json.Str(req.body)]))), [])
    ensures c.debug != NoCallDebug && req.path.Success? ==>
      && o.calls == [PutCall(BaseUrl + req.path.value, req.contentType, env.bytesOf(req.body))]
      && o.result == Complete(env, c.headers, PUT, o.calls[0])
  {
    Send(c, PUT, req, env)
  }

  /** `delete`: the dry-run URL has no query string, yet the live call still
      passes the filters as parameters. */
  function Delete(c: Client, req: Request, env: Env): (o: Outcome)
    ensures req.path.Failure? ==> o == Outcome(Failure(Catch(req.path.error, DELETE)), [])
    ensures c.debug == NoCallDebug && req.path.Success? ==>
      o == Outcome(Success(DryRun(Json.Object(
        map["url" := Json.Str(BaseUrl + req.path.value)]))), [])
    ensures c.debug != NoCallDebug && req.path.Success? ==>
      && o.calls == [DeleteCall(BaseUrl + req.path.value, req.filters)]
      && o.result == Complete(env, c.headers, DELETE, o.calls[0])
  {
    Send(c, DELETE, req, env)
  }
}
