/** The HTTP Basic credentials the client registers at construction, and the
    way a server reads them back (section 2 of RFC 7617: the user-id ends at
    the first colon). */
module Auth {
  import opened Collaborators

  const BasicPrefix: string := "Basic "

  /** The user-pass string `apiKey ":" apiSecret`. */
  function Credentials(apiKey: string, apiSecret: string): string {
    apiKey + ":" + apiSecret
  }

  /** The value of the Authorization header. */
  function AuthorizationValue(env: Env, apiKey: string, apiSecret: string): (h: string)
    ensures |h| >= |BasicPrefix| && h[..|BasicPrefix|] == BasicPrefix
  {
    BasicPrefix + env.base64(env.bytesOf(Credentials(apiKey, apiSecret)))
  }

  /** Index of the first colon of `s`, or |s| when there is none. */
  function FirstColon(s: string): (i: nat)
    ensures i <= |s|
    ensures ':' !in s[..i]
    ensures i < |s| ==> s[i] == ':'
  {
    if s == [] then 0
    else if s[0] == ':' then 0
    else
      var j := FirstColon(s[1..]);
      assert s[..j + 1] == [s[0]] + s[1..][..j];
      j + 1
  }

  /** Splits a user-pass string at its first colon; without a colon the whole
      string is the user-id. */
  function SplitCredentials(userPass: string): (r: (string, string))
    ensures ':' !in r.0
    ensures ':' in userPass ==> Credentials(r.0, r.1) == userPass
    ensures ':' !in userPass ==> r == (userPass, "")
  {
    var i := FirstColon(userPass);
    if i == |userPass| then
      assert userPass[..i] == userPass;
      (userPass, "")
    else
      assert userPass == userPass[..i] + ":" + userPass[i + 1..];
      (userPass[..i], userPass[i + 1..])
  }

  /** Splitting undoes joining whenever the key holds no colon. */
  lemma {:induction false} SplitJoin(apiKey: string, apiSecret: string)
    requires ':' !in apiKey
    ensures SplitCredentials(Credentials(apiKey, apiSecret)) == (apiKey, apiSecret)
  {
    var u := Credentials(apiKey, apiSecret);
    var i := FirstColon(u);
    assert u[|apiKey|] == ':';
    assert u[..|apiKey|] == apiKey;
    // the first colon can be neither inside the key nor past the separator
    assert forall j :: 0 <= j < |apiKey| ==> u[j] == apiKey[j];
    assert forall j :: |apiKey| < j <= |u| ==> u[..j][|apiKey|] == ':';
    assert i == |apiKey|;
    assert u[i + 1..] == apiSecret;
  }

  /** Without the colon-free key the join is ambiguous: two different
      credential pairs give one user-pass string. */
  lemma ColonInKeyIsAmbiguous()
    ensures ("a:b", "c") != ("a", "b:c")
    ensures Credentials("a:b", "c") == Credentials("a", "b:c")
  {
  }

  /** Distinct colon-free keys, or distinct secrets, give distinct user-pass
      strings. */
  lemma CredentialsInjective(k1: string, s1: string, k2: string, s2: string)
    requires ':' !in k1 && ':' !in k2
    requires Credentials(k1, s1) == Credentials(k2, s2)
    ensures k1 == k2 && s1 == s2
  {
    SplitJoin(k1, s1);
    SplitJoin(k2, s2);
  }

  /** A server that can undo Base64 and the byte encoding recovers exactly the
      key and the secret from the header value, provided the key has no colon
      and the default charset encodes this credential string without loss
      (`text` undoes `bytesOf` on it). */
  lemma AuthorizationRoundTrip(env: Env, unbase64: string -> seq<byte>,
                               text: seq<byte> -> string,
                               apiKey: string, apiSecret: string)
    requires var bytes := env.bytesOf(Credentials(apiKey, apiSecret));
      unbase64(env.base64(bytes)) == bytes
    requires text(env.bytesOf(Credentials(apiKey, apiSecret))) == Credentials(apiKey, apiSecret)
    requires ':' !in apiKey
    ensures var h := AuthorizationValue(env, apiKey, apiSecret);
      && h[..|BasicPrefix|] == BasicPrefix
      && SplitCredentials(text(unbase64(h[|BasicPrefix|..]))) == (apiKey, apiSecret)
  {
    var h := AuthorizationValue(env, apiKey, apiSecret);
    var bytes := env.bytesOf(Credentials(apiKey, apiSecret));
    assert h[|BasicPrefix|..] == env.base64(bytes);
    SplitJoin(apiKey, apiSecret);
  }

  /** Two clients send the same Authorization header only when they hold the
      same credentials, provided both keys have no colon and Base64 and the
      default charset encode the two credential strings without loss. */
  lemma AuthorizationDeterminesCredentials(env: Env, unbase64: string -> seq<byte>,
                                           text: seq<byte> -> string,
                                           k1: string, s1: string, k2: string, s2: string)
    requires var bytes := env.bytesOf(Credentials(k1, s1)); unbase64(env.base64(bytes)) == bytes
    requires var bytes := env.bytesOf(Credentials(k2, s2)); unbase64(env.base64(bytes)) == bytes
    requires text(env.bytesOf(Credentials(k1, s1))) == Credentials(k1, s1)
    requires text(env.bytesOf(Credentials(k2, s2))) == Credentials(k2, s2)
    requires ':' !in k1 && ':' !in k2
    requires AuthorizationValue(env, k1, s1) == AuthorizationValue(env, k2, s2)
    ensures k1 == k2 && s1 == s2
  {
    AuthorizationRoundTrip(env, unbase64, text, k1, s1);
    AuthorizationRoundTrip(env, unbase64, text, k2, s2);
  }
}
