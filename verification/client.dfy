/** The state of a MailjetClient: credentials, the headers registered with the
    transport, the debug mode and the request logger. */
module MailjetClient {
  import opened Collaborators
  import Auth

  const NoDebug: int := 0
  const VerboseDebug: int := 1
  const NoCallDebug: int := 2

  const BaseUrl: string := "https://api.mailjet.com/v3"
  const Accept: string := "application/json"
  const UserAgent: string := "mailjet-apiv3-java/v3.0.0"

  /** The request logger installed in the transport: the no-op logger the
      constructor installs, or a console logger. */
  datatype Logger = Silent | Console

  datatype Client = Client(
    apiKey: string,
    apiSecret: string,
    debug: int,
    logger: Logger,
    headers: map<string, string>
  )

  /** The constructor: stores the credentials, installs the no-op logger and
      registers the three fixed headers. */
  function New(env: Env, apiKey: string, apiSecret: string): (c: Client)
    ensures c.apiKey == apiKey && c.apiSecret == apiSecret
    ensures c.debug == NoDebug && c.logger == Silent
    ensures c.headers.Keys == {"Accept", "user-agent", "Authorization"}
    ensures c.headers["Accept"] == Accept && c.headers["user-agent"] == UserAgent
    ensures c.headers["Authorization"] == Auth.AuthorizationValue(env, apiKey, apiSecret)
  {
    Client(apiKey, apiSecret, NoDebug, Silent,
           map["Accept" := Accept,
               "user-agent" := UserAgent,
               "Authorization" := Auth.AuthorizationValue(env, apiKey, apiSecret)])
  }

  /** A colon in the key makes two different clients register the same
      headers. */
  lemma ColonKeyClientsShareHeaders(env: Env)
    ensures New(env, "a:b", "c").headers == New(env, "a", "b:c").headers
  {
    Auth.ColonInKeyIsAmbiguous();
  }

  /** setDebug: any integer is stored as it is; only VERBOSE_DEBUG changes the
      logger, and no mode ever puts the no-op logger back. */
  function SetDebug(c: Client, mode: int): (r: Client)
    ensures r.debug == mode
    ensures r.logger == Console <==> mode == VerboseDebug || c.logger == Console
    ensures r.apiKey == c.apiKey && r.apiSecret == c.apiSecret && r.headers == c.headers
  {
    c.(debug := mode, logger := if mode == VerboseDebug then Console else c.logger)
  }
}
