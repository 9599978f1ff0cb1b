/** `ValidateSalesforceLoginOrigin` and `BuildSalesforceAuthorizationUrl` of src/oauth_pkce.cpp. */
module AuthorizationUrl {
  import opened Wrappers
  import opened Text
  import opened PercentCoding
  import opened QueryString
  import Base64Url
  import Origins

  // Long literals are written in pieces, whose characters the verifier finds directly.
  const LOGIN: string := "login." + "salesforce" + ".com"
  const TEST: string := "test." + "salesforce" + ".com"
  const CALLBACK: string := "http://" + "localhost:" + "8910" + "/oauth/" + "callback"
  const ENDPOINT: string := "/services" + "/oauth2" + "/authorize"

  // ---------------------------------------------------------------- the origin

  ghost predicate LoginHost(host: string) { host == LOGIN || host == TEST || Origins.MyDomainHost(host) }

  predicate HostChars(s: string) { forall i :: 0 <= i < |s| ==> Origins.LabelChar(s[i]) || s[i] == '.' }

  lemma LoginHostChars(host: string)
    requires LoginHost(host)
    ensures host != "" && HostChars(host)
  {
    if Origins.MyDomainHost(host) {
      Origins.HostNameByLabels(host);
      LabelsHostChars(host);
    } else {
      FixedHostChars();
    }
  }

  lemma LabelsHostChars(host: string)
    requires Origins.Labels(host)
    ensures HostChars(host)
  {
    forall i | 0 <= i < |host| ensures Origins.LabelChar(host[i]) || host[i] == '.' { Origins.LabelsChars(host, i); }
  }

  lemma FixedHostChars()
    ensures HostChars(LOGIN) && HostChars(TEST)
  {}

  /** What the screen forbids, no accepted host contains. */
  lemma HostCharsPlain(host: string)
    requires HostChars(host)
    ensures !ContainsAnyOf(host, "/@:?#\\")
  {}

  method ValidateSalesforceLoginOrigin(origin: string) returns (r: Option<string>)
    ensures r == if StartsWith(origin, Origins.SCHEME) && LoginHost(Origins.HostPart(origin))
                 then Some(Origins.SCHEME + Origins.HostPart(origin)) else None
  {
    if !StartsWith(origin, Origins.SCHEME) { return None; }
    var host := origin[8..];
    if host != "" && host[|host| - 1] == '/' { host := host[..|host| - 1]; }
    if LoginHost(host) {
      LoginHostChars(host);
      HostCharsPlain(host);
    }
    if host == "" || ContainsAnyOf(host, "/@:?#\\") { return None; }
    if host != LOGIN && host != TEST {
      var valid := Origins.ValidMyDomainHost(host);
      if !valid { return None; }
    }
    return Some(Origins.SCHEME + host);
  }

  // ---------------------------------------------------------------- the query

  const RESPONSE_TYPE: string := "response_type"
  const CODE: string := "code"
  const CLIENT_ID: string := "client_id"
  const REDIRECT_URI: string := "redirect_uri"
  const SCOPE: string := "scope"
  const SCOPES: string := "api" + " " + "cdp_query_api"
  const SCOPES_TEXT: string := "api" + "%20" + "cdp_query_api"
  const CHALLENGE: string := "code_challenge"
  const METHOD: string := "code_challenge" + "_method"
  const S256: string := "S256"
  const STATE: string := "state"

  /** Text that encodes to itself. */
  predicate PlainText(s: string) { 0 < |s| <= 64 && forall i :: 0 <= i < |s| ==> Unreserved(s[i]) }

  lemma NamesPlain()
    ensures PlainText(RESPONSE_TYPE) && PlainText(CODE) && PlainText(CLIENT_ID) && PlainText(REDIRECT_URI)
    ensures PlainText(SCOPE) && PlainText(CHALLENGE) && PlainText(METHOD) && PlainText(S256) && PlainText(STATE)
  {}

  lemma ScopesFit()
    ensures AllBytes(SCOPES) && Fits(SCOPES)
  {}

  /** The fields an authorization request carries. */
  function RequestFields(clientId: ByteString, redirect: ByteString, challenge: ByteString, state: ByteString): seq<Pair> {
    NamesPlain();
    ScopesFit();
    [ Pair(RESPONSE_TYPE, CODE), Pair(CLIENT_ID, clientId), Pair(REDIRECT_URI, redirect), Pair(SCOPE, SCOPES),
      Pair(CHALLENGE, challenge), Pair(METHOD, S256), Pair(STATE, state) ]
  }

  /** The query as the program concatenates it, from the encoded values. */
  function QueryText(clientId: string, redirect: string, challenge: string, state: string): string {
    (RESPONSE_TYPE + "=" + CODE) + "&" + (CLIENT_ID + "=" + clientId) + "&" + (REDIRECT_URI + "=" + redirect) + "&"
    + (SCOPE + "=" + SCOPES_TEXT) + "&" + (CHALLENGE + "=" + challenge) + "&" + (METHOD + "=" + S256) + "&"
    + (STATE + "=" + state)
  }

  lemma {:induction false} EncodedPlain(s: ByteString)
    requires forall i :: 0 <= i < |s| ==> Unreserved(s[i])
    ensures Encoded(s) == s
  {
    if s != "" { EncodedPlain(s[1..]); }
  }

  lemma Associate(a: string, b: string, c: string)
    ensures a + (b + c) == a + b + c
  {}

  lemma {:induction false} EncodedConcat(a: ByteString, b: ByteString)
    ensures AllBytes(a + b) && Encoded(a + b) == Encoded(a) + Encoded(b)
  {
    if a == "" {
      assert a + b == b;
    } else {
      EncodedConcat(a[1..], b);
      assert (a + b)[0] == a[0] && (a + b)[1..] == a[1..] + b;
      Associate(EncodedChar(a[0]), Encoded(a[1..]), Encoded(b));
    }
  }

  lemma BlankBetween(a: ByteString, b: ByteString)
    requires PlainText(a) && PlainText(b)
    ensures AllBytes(a + " " + b) && Encoded(a + " " + b) == a + "%20" + b
  {
    EncodedPlain(a);
    EncodedPlain(b);
    EncodedConcat(a, " ");
    EncodedConcat(a + " ", b);
    assert Encoded(" ") == "%20";
  }

  /** The blank between the scopes is all that needs encoding. */
  lemma ScopesEncoded()
    ensures AllBytes(SCOPES) && Encoded(SCOPES) == SCOPES_TEXT
  {
    BlankBetween("api", "cdp_query_api");
  }

  lemma JoinedSeven(a: string, b: string, c: string, d: string, e: string, f: string, g: string)
    ensures Joined([a, b, c, d, e, f, g]) == a + "&" + b + "&" + c + "&" + d + "&" + e + "&" + f + "&" + g
  {
    assert [a, b, c, d, e, f, g][1..] == [b, c, d, e, f, g];
    assert [b, c, d, e, f, g][1..] == [c, d, e, f, g];
    assert [c, d, e, f, g][1..] == [d, e, f, g];
    assert [d, e, f, g][1..] == [e, f, g];
    assert [e, f, g][1..] == [f, g];
    assert [f, g][1..] == [g];
    var two, three, four := f + "&" + g, e + "&" + f + "&" + g, d + "&" + e + "&" + f + "&" + g;
    assert Joined([f, g]) == two;
    assert Joined([e, f, g]) == three;
    assert Joined([d, e, f, g]) == four;
    assert Joined([c, d, e, f, g]) == c + "&" + four;
    assert Joined([b, c, d, e, f, g]) == b + "&" + (c + "&" + four);
    assert Joined([a, b, c, d, e, f, g]) == a + "&" + (b + "&" + (c + "&" + four));
  }

  lemma PlainItem(p: Pair)
    requires PlainText(p.key)
    ensures ItemOf(p) == p.key + "=" + Encoded(p.value)
    ensures PlainText(p.value) ==> ItemOf(p) == p.key + "=" + p.value
  {
    EncodedPlain(p.key);
    if PlainText(p.value) { EncodedPlain(p.value); }
  }

  /** The two ways of writing seven fields agree, whatever the fields. */
  lemma QueryOfSeven(f: seq<Pair>, scopes: string)
    requires |f| == 7 && (forall i :: 0 <= i < 7 ==> PlainText(f[i].key)) && PlainText(f[0].value) && PlainText(f[5].value)
    requires Encoded(f[3].value) == scopes
    ensures Query(f) == (f[0].key + "=" + f[0].value) + "&" + (f[1].key + "=" + Encoded(f[1].value)) + "&"
                      + (f[2].key + "=" + Encoded(f[2].value)) + "&" + (f[3].key + "=" + scopes) + "&"
                      + (f[4].key + "=" + Encoded(f[4].value)) + "&" + (f[5].key + "=" + f[5].value) + "&"
                      + (f[6].key + "=" + Encoded(f[6].value))
  {
    forall i | 0 <= i < 7
      ensures ItemOf(f[i]) == f[i].key + "=" + Encoded(f[i].value)
      ensures PlainText(f[i].value) ==> ItemOf(f[i]) == f[i].key + "=" + f[i].value
    {
      PlainItem(f[i]);
    }
    JoinedSeven(ItemOf(f[0]), ItemOf(f[1]), ItemOf(f[2]), ItemOf(f[3]), ItemOf(f[4]), ItemOf(f[5]), ItemOf(f[6]));
    assert Items(f) == [ItemOf(f[0]), ItemOf(f[1]), ItemOf(f[2]), ItemOf(f[3]), ItemOf(f[4]), ItemOf(f[5]), ItemOf(f[6])];
  }

  lemma QueryOfFields(clientId: ByteString, redirect: ByteString, challenge: ByteString, state: ByteString)
    ensures Query(RequestFields(clientId, redirect, challenge, state))
         == QueryText(Encoded(clientId), Encoded(redirect), Encoded(challenge), Encoded(state))
  {
    NamesPlain();
    ScopesEncoded();
    QueryOfSeven(RequestFields(clientId, redirect, challenge, state), SCOPES_TEXT);
  }

  lemma NamesDistinct()
    ensures |RESPONSE_TYPE| == 13 && |CLIENT_ID| == 9 && |REDIRECT_URI| == 12 && |SCOPE| == 5 && |CHALLENGE| == 14
    ensures |METHOD| == 21 && |STATE| == 5 && SCOPE != STATE
  {
    assert SCOPE[1] == 'c' && STATE[1] == 't';
  }

  lemma FieldsDistinct(clientId: ByteString, redirect: ByteString, challenge: ByteString, state: ByteString)
    ensures DistinctKeys(RequestFields(clientId, redirect, challenge, state))
  {
    NamesDistinct();
  }

  lemma FieldsCarried(f: seq<Pair>)
    requires |f| == 7 && (forall i :: 0 <= i < 7 ==> PlainText(f[i].key) && Fits(f[i].value))
    ensures forall i :: 0 <= i < 7 ==> Carried(f[i])
  {}

  /** Whatever reads such a query finds exactly the fields it was built from. */
  lemma FieldsReadable(clientId: ByteString, redirect: ByteString, challenge: ByteString, state: ByteString)
    requires Fits(clientId) && Fits(redirect) && Fits(challenge) && Fits(state)
    ensures Readable(RequestFields(clientId, redirect, challenge, state))
  {
    NamesPlain();
    ScopesFit();
    FieldsDistinct(clientId, redirect, challenge, state);
    assert Fits(CODE) && Fits(S256);
    FieldsCarried(RequestFields(clientId, redirect, challenge, state));
  }

  /** Concatenates the URL; its query is read back as the fields. */
  method Compose(origin: string, clientId: ByteString, redirect: ByteString, challenge: ByteString, state: ByteString)
    returns (url: string)
    requires Fits(clientId) && Fits(redirect) && Fits(challenge) && Fits(state)
    ensures var fields := RequestFields(clientId, redirect, challenge, state);
            && url == origin + ENDPOINT + "?" + Query(fields)
            && Parsed(Query(fields)).Some? && IsMapOf(Parsed(Query(fields)).value, fields)
  {
    var encodedClient := PercentEncode(clientId);
    var encodedRedirect := PercentEncode(redirect);
    var encodedChallenge := PercentEncode(challenge);
    var encodedState := PercentEncode(state);
    QueryOfFields(clientId, redirect, challenge, state);
    FieldsReadable(clientId, redirect, challenge, state);
    ParsedQuery(RequestFields(clientId, redirect, challenge, state));
    url := origin + ENDPOINT + "?" + QueryText(encodedClient, encodedRedirect, encodedChallenge, encodedState);
  }

  method PlainClientId(clientId: string) returns (ok: bool)
    ensures ok <==> 0 < |clientId| <= 1024 && NoControl(clientId)
  {
    if clientId == "" || |clientId| > 1024 { return false; }
    for i := 0 to |clientId|
      invariant forall j :: 0 <= j < i ==> !IsControl(clientId[j])
    {
      if clientId[i] as int < 0x20 || clientId[i] as int == 0x7f { return false; }
    }
    return true;
  }

  /** The requests the builder accepts. */
  ghost predicate Buildable(loginOrigin: string, clientId: string, challenge: string, state: string, redirect: string) {
    && StartsWith(loginOrigin, Origins.SCHEME) && LoginHost(Origins.HostPart(loginOrigin))
    && 0 < |clientId| <= 1024 && NoControl(clientId)
    && Base64Url.UrlValue(challenge, 1, 128) && Base64Url.UrlValue(state, 1, 128) && redirect == CALLBACK
  }

  lemma UrlValueFits(s: string)
    requires Base64Url.UrlValue(s, 1, 128)
    ensures AllBytes(s) && Fits(s)
  {}

  method BuildSalesforceAuthorizationUrl(loginOrigin: string, clientId: ByteString, challenge: ByteString, state: ByteString,
                                         redirect: ByteString) returns (r: Option<string>)
    ensures r.Some? <==> Buildable(loginOrigin, clientId, challenge, state, redirect)
    ensures r.Some? ==>
              var fields := RequestFields(clientId, redirect, challenge, state);
              && r.value == Origins.SCHEME + Origins.HostPart(loginOrigin) + ENDPOINT + "?" + Query(fields)
              && Parsed(Query(fields)).Some? && IsMapOf(Parsed(Query(fields)).value, fields)
  {
    var origin := ValidateSalesforceLoginOrigin(loginOrigin);
    if origin.None? { return None; }
    var plain := PlainClientId(clientId);
    if !plain { return None; }
    var challengeOk := Base64Url.IsBase64UrlValue(challenge, 1, 128);
    var stateOk := Base64Url.IsBase64UrlValue(state, 1, 128);
    if !challengeOk || !stateOk { return None; }
    if redirect != CALLBACK { return None; }
    UrlValueFits(challenge);
    UrlValueFits(state);
    CallbackFits(redirect);
    var url := Compose(origin.value, clientId, redirect, challenge, state);
    return Some(url);
  }

  lemma CallbackFits(redirect: string)
    requires redirect == CALLBACK
    ensures Fits(redirect)
  {}
}
