/** Properties that relate several calls of the verb methods: the dry run
    against the live call, one mode against another, one request against a
    variant of it. */
module DispatchProperties {
  import opened Wrappers
  import opened Collaborators
  import Json
  import opened MailjetRequest
  import opened MailjetClient
  import opened Dispatch

  /** Of the client's mutable state, only `debug == NOCALL_DEBUG` steers a
      verb method: every other mode, out-of-range integers included, takes the
      same live path, and the logger changes nothing that is sent or
      returned. Clients must share their registered headers, since those go
      to the transport with every call. */
  lemma OnlyNoCallSteers(c1: Client, c2: Client, v: Verb, req: Request, env: Env)
    requires (c1.debug == NoCallDebug) == (c2.debug == NoCallDebug)
    requires c1.headers == c2.headers
    ensures Send(c1, v, req, env) == Send(c2, v, req, env)
  {
  }

  /** Any two live modes give the same outcome. */
  lemma LiveModesAgree(c: Client, m1: int, m2: int, v: Verb, req: Request, env: Env)
    requires m1 != NoCallDebug && m2 != NoCallDebug
    ensures Send(SetDebug(c, m1), v, req, env) == Send(SetDebug(c, m2), v, req, env)
    ensures |Send(SetDebug(c, m1), v, req, env).calls| == (if req.path.Success? then 1 else 0)
  {
  }

  /** The dry-run body describes the live call: its `url` is the URL the
      transport receives (plus the query string for `get`) and, for writes,
      its `payload` is the text whose bytes the transport receives. */
  lemma DryRunMirrorsLiveCall(c: Client, v: Verb, req: Request, env: Env)
    requires req.path.Success?
    requires v == GET ==> req.query.Success?
    ensures var dry := Send(SetDebug(c, NoCallDebug), v, req, env);
            var live := Send(SetDebug(c, NoDebug), v, req, env);
      && dry.result.Success? && dry.result.value.DryRun? && dry.calls == []
      && |live.calls| == 1
      && dry.result.value.data.members["url"]
         == Json.Str(live.calls[0].url + (if v == GET then req.query.value else ""))
      && (v.IsWrite() ==>
            env.bytesOf(dry.result.value.data.members["payload"].s) == live.calls[0].data)
      && (!v.IsWrite() ==> live.calls[0].params == req.filters)
  {
  }

  /** `delete` drops the filters from its dry-run URL: requests that differ
      only in their filters give the same dry run but different live calls. */
  lemma DeleteDryRunHidesFilters(c: Client, req: Request, filters: map<string, string>, env: Env)
    requires req.path.Success? && filters != req.filters
    ensures Delete(SetDebug(c, NoCallDebug), req.(filters := filters), env)
         == Delete(SetDebug(c, NoCallDebug), req, env)
    ensures Delete(SetDebug(c, NoDebug), req.(filters := filters), env).calls
         != Delete(SetDebug(c, NoDebug), req, env).calls
  {
  }

  /** `get` shows the query string in its dry-run URL: a different query
      string gives a different dry-run body. */
  lemma GetDryRunShowsQuery(c: Client, req: Request, query: string, env: Env)
    requires req.path.Success? && req.query.Success? && query != req.query.value
    ensures Get(SetDebug(c, NoCallDebug), req.(query := Success(query)), env).result
         != Get(SetDebug(c, NoCallDebug), req, env).result
  {
    var prefix := BaseUrl + req.path.value;
    var r1 := Get(SetDebug(c, NoCallDebug), req.(query := Success(query)), env).result;
    var r2 := Get(SetDebug(c, NoCallDebug), req, env).result;
    assert r1.value.data.members["url"] == Json.Str(prefix + query);
    assert r2.value.data.members["url"] == Json.Str(prefix + req.query.value);
    assert (prefix + query)[|prefix|..] == query;
    assert (prefix + req.query.value)[|prefix|..] == req.query.value;
  }

  /** `post` and `put` read neither the filters nor the query string. */
  lemma WritesIgnoreFiltersAndQuery(c: Client, v: Verb, req: Request,
                                    filters: map<string, string>,
                                    query: Result<string, Failure>, env: Env)
    requires v.IsWrite()
    ensures Send(c, v, req.(filters := filters, query := query), env) == Send(c, v, req, env)
  {
  }

  /** An empty reply body is indistinguishable from a reply body `{}`: two
      transports that differ only there give every verb the same outcome. */
  lemma EmptyBodyReadsAsEmptyObject(c: Client, v: Verb, req: Request,
                                    env1: Env, env2: Env, status: int)
    requires c.debug != NoCallDebug && req.path.Success?
    requires forall t :: env1.bytesOf(t) == env2.bytesOf(t)
    requires forall t :: env1.parse(t) == env2.parse(t)
    requires env1.transport(c.headers, LiveCall(v, BaseUrl + req.path.value, req, env1))
             == Success(Raw(status, ""))
    requires env2.transport(c.headers, LiveCall(v, BaseUrl + req.path.value, req, env2))
             == Success(Raw(status, "{}"))
    ensures Send(c, v, req, env1) == Send(c, v, req, env2)
  {
  }

  /** A non-empty reply body reaches the parser unchanged and the status is the
      transport's own. */
  lemma NonEmptyBodyParsedAsIs(c: Client, v: Verb, req: Request, env: Env,
                               status: int, body: string)
    requires c.debug != NoCallDebug && req.path.Success? && body != ""
    requires env.transport(c.headers, LiveCall(v, BaseUrl + req.path.value, req, env))
             == Success(Raw(status, body))
    ensures Send(c, v, req, env).result == ParseReply(status, env.parse(body))
  {
  }
}
