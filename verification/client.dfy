/** The SIM API client: URL building, request headers, response interpretation,
    the `code`/`message`/`data` envelope and the six endpoints. Sending a request
    (`urlopen`, including the HTTPError branch that turns an error status into an
    ordinary reply) and `json.loads` are given as a `Transport`. */
module Client {
  import opened Python
  import opened Exceptions
  import opened Codecs
  import opened Auth
  import opened Models

  const DefaultBaseUrl := "https://simapi.sim.lrz.de"
  const DefaultTimeout: real := 10.0

  /** What is handed to `urlopen`: the HTTP method, the full URL, the headers added
      to the request and the timeout. */
  datatype HttpRequest = HttpRequest(verb: string, url: string, headers: map<string, string>, timeout: real)

  /** What `_open` yields: a status, the response headers and the raw body, or
      the reason of a URLError (the server could not be reached). */
  datatype Response =
    | Reply(status: int, headers: map<string, string>, body: seq<byte>)
    | Unreachable(reason: string)

  /** The world outside the client: the network and the JSON parser
      (`None` where `json.loads` raises JSONDecodeError). */
  datatype Transport = Transport(send: HttpRequest -> Response, loads: string -> Option<Json>)

  // ---------------------------------------------------------------------------
  // URLs

  /** The `str()` of each parameter value, as `_build_url` passes them on. */
  function StrPairs(params: seq<(string, Json)>): (r: seq<(string, string)>)
    ensures |r| == |params|
    ensures forall i :: 0 <= i < |params| ==> r[i] == (params[i].0, Str(params[i].1))
  {
    seq(|params|, i requires 0 <= i < |params| => (params[i].0, Str(params[i].1)))
  }

  /** `_build_url`: the base, one '/', the endpoint without its leading slashes,
      and a query string only when there are parameters. */
  function BuildUrl(baseUrl: string, endpoint: string, params: seq<(string, Json)>): string {
    var base := baseUrl + "/" + LStrip(endpoint, '/');
    if params == [] then base else base + "?" + Urlencode(StrPairs(params))
  }

  /** The URL starts with the base, '/' and the endpoint without its leading
      slashes; something follows, starting with '?', exactly when there are
      parameters. */
  lemma BuildUrlShape(baseUrl: string, endpoint: string, params: seq<(string, Json)>)
    ensures var r := BuildUrl(baseUrl, endpoint, params);
            var path := baseUrl + "/" + LStrip(endpoint, '/');
            && |r| >= |path| && r[..|path|] == path
            && (params == [] <==> |r| == |path|)
            && (params != [] ==> r[|path|] == '?')
  {
  }

  /** The text after the last '?' of a URL, where a query string sits. */
  function TextAfterLast(s: string, c: char): (r: Option<string>)
    ensures r.None? <==> c !in s
    ensures r.Some? ==> c !in r.value && |r.value| < |s| && r.value == s[|s| - |r.value|..]
    ensures r.Some? ==> s[|s| - |r.value| - 1] == c
    decreases |s|
  {
    if s == [] then None
    else if s[|s| - 1] == c then Some([])
    else
      var before :- TextAfterLast(s[..|s| - 1], c);
      Some(before + [s[|s| - 1]])
  }

  lemma {:induction false} TextAfterLastOfJoin(prefix: string, c: char, tail: string)
    requires c !in tail
    ensures TextAfterLast(prefix + [c] + tail, c) == Some(tail)
    decreases |tail|
  {
    var s := prefix + [c] + tail;
    if tail != [] {
      var shorter := tail[..|tail| - 1];
      assert s[..|s| - 1] == prefix + [c] + shorter;
      TextAfterLastOfJoin(prefix, c, shorter);
      TextAfterLastStep(s, c, shorter);
      assert shorter + [tail[|tail| - 1]] == tail;
    }
  }

  lemma TextAfterLastStep(s: string, c: char, before: string)
    requires s != [] && s[|s| - 1] != c
    requires TextAfterLast(s[..|s| - 1], c) == Some(before)
    ensures TextAfterLast(s, c) == Some(before + [s[|s| - 1]])
  {
  }

  /** The query string of a URL with parameters reads back as the parameters'
      keys and `str()` values, in order; without parameters nothing is added. */
  lemma QueryRoundTrip(baseUrl: string, endpoint: string, params: seq<(string, Json)>)
    ensures params == [] ==> BuildUrl(baseUrl, endpoint, params) == baseUrl + "/" + LStrip(endpoint, '/')
    ensures params != [] ==>
              var query := TextAfterLast(BuildUrl(baseUrl, endpoint, params), '?');
              query.Some? && ParseQuery(query.value) == Some(StrPairs(params))
  {
    if params != [] {
      var query := Urlencode(StrPairs(params));
      TextAfterLastOfJoin(baseUrl + "/" + LStrip(endpoint, '/'), '?', query);
      UrlencodeRoundTrip(StrPairs(params));
    }
  }

  /** With a base URL that has no trailing slash, as the client keeps it, the
      endpoint is joined with exactly one slash, whatever slashes it starts with. */
  lemma SingleSlashJoin(baseUrl: string, endpoint: string, params: seq<(string, Json)>)
    requires baseUrl == [] || baseUrl[|baseUrl| - 1] != '/'
    ensures var url := BuildUrl(baseUrl, endpoint, params);
            var n := |baseUrl|;
            && |url| > n && url[..n] == baseUrl && url[n] == '/'
            && (n > 0 ==> url[n - 1] != '/')
            && (n + 1 < |url| ==> url[n + 1] != '/')
  {
    var after := UrlAfterBase(baseUrl, endpoint, params);
    SlashJoinShape(baseUrl, after);
  }

  /** What `_build_url` puts after the base URL and its '/' never starts with '/'. */
  lemma UrlAfterBase(baseUrl: string, endpoint: string, params: seq<(string, Json)>) returns (after: string)
    ensures BuildUrl(baseUrl, endpoint, params) == baseUrl + "/" + after
    ensures after == [] || after[0] != '/'
  {
    var rest := LStrip(endpoint, '/');
    if params == [] {
      after := rest;
    } else {
      var encoded := Urlencode(StrPairs(params));
      after := rest + ("?" + encoded);
      Regroup(baseUrl, "/", rest, "?", encoded);
      assert rest == [] ==> after[0] == '?';
    }
  }

  lemma Regroup(a: string, b: string, c: string, d: string, e: string)
    ensures a + b + c + d + e == a + b + (c + (d + e))
  {
  }

  lemma SlashJoinShape(baseUrl: string, after: string)
    requires baseUrl == [] || baseUrl[|baseUrl| - 1] != '/'
    requires after == [] || after[0] != '/'
    ensures var url := baseUrl + "/" + after;
            var n := |baseUrl|;
            && |url| > n && url[..n] == baseUrl && url[n] == '/'
            && (n > 0 ==> url[n - 1] != '/')
            && (n + 1 < |url| ==> url[n + 1] != '/')
  {
    var url := baseUrl + "/" + after;
    assert url[..|baseUrl|] == baseUrl;
    if |baseUrl| + 1 < |url| {
      assert url[|baseUrl| + 1] == after[0];
    }
  }

  // ---------------------------------------------------------------------------
  // Responses

  /** The text of an error body: decoded leniently, dropping what is not UTF-8,
      and "" for an empty body. */
  function BodyText(body: seq<byte>): string {
    if body != [] then Utf8DecodeLenient(body) else ""
  }

  /** The response declares a JSON body. */
  predicate JsonContentType(headers: map<string, string>) {
    "Content-Type" in headers && Contains(headers["Content-Type"], "application/json")
  }

  /** `_extract_error_message`: for a JSON body holding an object, the first
      true value among its "message", its "error" and the text itself; otherwise
      the text, or "Request failed with status N" when the text is empty. The
      message is empty only in one corner: a JSON content type with an empty
      text that the parser reads as an object, which `json.loads` never does. */
  function ExtractErrorMessage(body: seq<byte>, headers: map<string, string>, status: int,
                               loads: string -> Option<Json>): (r: string)
    ensures r == "" ==> JsonContentType(headers) && BodyText(body) == "" &&
                        loads("").Some? && loads("").value.JObj?
  {
    var text := BodyText(body);
    var payload := if JsonContentType(headers) then loads(text) else None;
    if payload.Some? && payload.value.JObj? then
      var m := payload.value.members;
      var v := Or(Or(Get(m, "message"), Get(m, "error")), JStr(text));
      StrEmptyOnlyForEmptyString(v);
      Str(v)
    else if text != "" then text
    else StatusMessagePrefix + IntToString(status)
  }

  const StatusMessagePrefix := "Request failed with status "

  /** A JSON object read from the body gives its "message" when that is true,
      else its "error" when that is true, else the body text. */
  lemma JsonErrorBodyMessage(body: seq<byte>, headers: map<string, string>, status: int,
                             loads: string -> Option<Json>, m: seq<(string, Json)>)
    requires JsonContentType(headers)
    requires loads(BodyText(body)) == Some(JObj(m))
    ensures var r := ExtractErrorMessage(body, headers, status, loads);
            var message := Get(m, "message");
            var error := Get(m, "error");
            && (Truthy(message) ==> r == Str(message))
            && (!Truthy(message) && Truthy(error) ==> r == Str(error))
            && (!Truthy(message) && !Truthy(error) ==> r == BodyText(body))
  {
  }

  /** A JSON content type whose body is not read as an object gives the body
      text, when there is one. */
  lemma NonObjectErrorBodyMessage(body: seq<byte>, headers: map<string, string>, status: int,
                                  loads: string -> Option<Json>)
    requires JsonContentType(headers)
    requires loads(BodyText(body)).None? || !loads(BodyText(body)).value.JObj?
    ensures BodyText(body) != "" ==> ExtractErrorMessage(body, headers, status, loads) == BodyText(body)
  {
  }

  /** Without a JSON content type, the body text is the message whenever it is
      non-empty, whatever bytes the decoding dropped. */
  lemma PlainErrorBodyIsTheMessage(body: seq<byte>, headers: map<string, string>, status: int,
                                   loads: string -> Option<Json>)
    requires !JsonContentType(headers)
    requires BodyText(body) != ""
    ensures ExtractErrorMessage(body, headers, status, loads) == BodyText(body)
  {
  }

  /** In particular, a body that is well-formed UTF-8 is the message as it is. */
  lemma PlainUtf8ErrorBody(body: seq<byte>, headers: map<string, string>, status: int,
                           loads: string -> Option<Json>, text: string)
    requires !JsonContentType(headers)
    requires Utf8Decode(body) == Some(text) && text != ""
    ensures ExtractErrorMessage(body, headers, status, loads) == text
  {
    LenientAgreesWithStrict(body);
    PlainErrorBodyIsTheMessage(body, headers, status, loads);
  }

  /** A body with no text left after decoding (empty, or nothing but bytes that
      are not UTF-8), from which no JSON object is read, is reported by its
      status, which reads back from the message. */
  lemma EmptyErrorBodyNamesTheStatus(body: seq<byte>, headers: map<string, string>, status: int,
                                     loads: string -> Option<Json>)
    requires BodyText(body) == ""
    requires !JsonContentType(headers) || loads("").None? || !loads("").value.JObj?
    ensures var message := ExtractErrorMessage(body, headers, status, loads);
            var n := |StatusMessagePrefix|;
            && |message| > n && message[..n] == StatusMessagePrefix
            && ParseInt(message[n..]) == Some(status)
  {
    IntToStringRoundTrip(status);
    var message := StatusMessagePrefix + IntToString(status);
    assert message[|StatusMessagePrefix|..] == IntToString(status);
  }

  /** `_request_json` once the response is in: an error status raises with the
      extracted message and the status; otherwise the body must be UTF-8 and
      JSON. An unreachable server raises without a status. */
  function Interpret(response: Response, url: string, loads: string -> Option<Json>): (r: Outcome<Json>)
    ensures (r.Err? && r.error.ApiError? && r.error.error.statusCode.Some?) <==>
              response.Reply? && response.status >= 400
    ensures r.Err? && r.error.ApiError? && r.error.error.statusCode.Some? ==>
              r.error.error.statusCode.value == response.status
    ensures r.Ok? <==>
              && response.Reply? && response.status < 400
              && Utf8Decode(response.body).Some?
              && loads(Utf8Decode(response.body).value).Some?
    ensures r.Ok? ==> loads(Utf8Decode(response.body).value) == Some(r.value)
    ensures response.Reply? && response.status >= 400 ==>
              r == Err(ApiError(SimApiError(ExtractErrorMessage(response.body, response.headers, response.status, loads),
                                            Some(response.status))))
    ensures response.Unreachable? ==> r == Fail("Request to " + url + " failed: " + response.reason)
    ensures response.Reply? && response.status < 400 && Utf8Decode(response.body).None? ==>
              r == Err(UnicodeDecodeError)
    ensures response.Reply? && response.status < 400 && Utf8Decode(response.body).Some? &&
            loads(Utf8Decode(response.body).value).None? ==>
              r == Fail("Expected JSON response")
  {
    match response
    case Unreachable(reason) => Fail("Request to " + url + " failed: " + reason)
    case Reply(status, headers, body) =>
      if status >= 400 then
        Err(ApiError(SimApiError(ExtractErrorMessage(body, headers, status, loads), Some(status))))
      else
        match Utf8Decode(body)
        case None => Err(UnicodeDecodeError)
        case Some(text) =>
          match loads(text)
          case None => Fail("Expected JSON response")
          case Some(data) => Ok(data)
  }

  /** An error reply with a JSON content type whose UTF-8 body is an object with
      a non-empty string under "message" raises that message with the status. */
  lemma ErrorStatusCarriesServerMessage(url: string, status: int, headers: map<string, string>, body: seq<byte>,
                                        text: string, members: seq<(string, Json)>, message: string,
                                        loads: string -> Option<Json>)
    requires status >= 400 && JsonContentType(headers)
    requires Utf8Decode(body) == Some(text)
    requires loads(text) == Some(JObj(members))
    requires Get(members, "message") == JStr(message) && message != ""
    ensures Interpret(Reply(status, headers, body), url, loads)
            == Err(ApiError(SimApiError(message, Some(status))))
  {
    LenientAgreesWithStrict(body);
    if body == [] {
      assert text == "";
    }
    JsonErrorBodyMessage(body, headers, status, loads, members);
  }

  // ---------------------------------------------------------------------------
  // The response envelope

  const StructureMessage := "Unexpected response payload structure"
  const MultipleMessage := "Expected exactly one result but received multiple"

  /** `_parse_wrapped_data`: the payload must be an object whose "code" equals 0.
      With `expectSingle` the data must be one object or a list of exactly one
      item; otherwise the data is returned as a list (none becomes [], a single
      value becomes a one-item list). */
  function ParseWrappedData(payload: Json, expectSingle: bool): (r: Outcome<Json>)
    ensures !payload.JObj? ==> r == Fail(StructureMessage)
    ensures r.Ok? ==> payload.JObj? && EqualsZero(Get(payload.members, "code"))
    ensures r.Err? ==> r.error.ApiError? && r.error.error.statusCode.None?
    ensures !expectSingle && r.Ok? ==> r.value.JList?
    ensures !expectSingle ==> (r.Ok? <==> payload.JObj? && EqualsZero(Get(payload.members, "code")))
    ensures payload.JObj? && !EqualsZero(Get(payload.members, "code")) ==>
              r == Fail("API returned error code " + Str(Get(payload.members, "code")) + ": " +
                        Str(Get(payload.members, "message", JStr("Unknown error"))))
    ensures payload.JObj? && EqualsZero(Get(payload.members, "code")) && expectSingle ==>
              var data := Get(payload.members, "data");
              && (r.Ok? <==> data.JObj? || (data.JList? && |data.items| == 1))
              && (r.Ok? && data.JObj? ==> r.value == data)
              && (r.Ok? && data.JList? ==> r.value == data.items[0])
              && (data.JList? && |data.items| != 1 ==> r == Fail(MultipleMessage))
              && (!data.JList? && !data.JObj? ==> r == Fail(StructureMessage))
    ensures payload.JObj? && EqualsZero(Get(payload.members, "code")) && !expectSingle ==>
              var data := Get(payload.members, "data");
              && (data.JNull? ==> r == Ok(JList([])))
              && (data.JList? ==> r == Ok(data))
              && (!data.JNull? && !data.JList? ==> r == Ok(JList([data])))
  {
    match payload
    case JObj(m) =>
      var code := Get(m, "code");
      if !EqualsZero(code) then
        Fail("API returned error code " + Str(code) + ": " + Str(Get(m, "message", JStr("Unknown error"))))
      else
        var data := Get(m, "data");
        if expectSingle then
          (match data
           case JList(items) => if |items| != 1 then Fail(MultipleMessage) else Ok(items[0])
           case JObj(_) => Ok(data)
           case _ => Fail(StructureMessage))
        else
          (match data
           case JNull => Ok(JList([]))
           case JList(_) => Ok(data)
           case _ => Ok(JList([data])))
    case _ => Fail(StructureMessage)
  }

  /** A single result read in single mode is the one-item list read in list mode. */
  lemma SingleIsTheOnlyListItem(payload: Json)
    ensures ParseWrappedData(payload, true).Ok? ==>
              ParseWrappedData(payload, false) == Ok(JList([ParseWrappedData(payload, true).value]))
  {
    if payload.JObj? {
      var data := Get(payload.members, "data");
      if data.JList? && |data.items| == 1 {
        assert data.items == [data.items[0]];
      }
    }
  }

  /** Conversely, a list-mode result of one object is what single mode returns. */
  lemma OneObjectListIsSingle(payload: Json, v: Json)
    requires v.JObj?
    requires ParseWrappedData(payload, false) == Ok(JList([v]))
    ensures ParseWrappedData(payload, true) == Ok(v)
  {
  }

  /** Single mode reads the same object from `"data": [obj]` and `"data": obj`. */
  lemma SingleResultEitherShape(code: Json, message: Json, v: Json)
    requires v.JObj? && EqualsZero(code)
    ensures ParseWrappedData(JObj([("code", code), ("message", message), ("data", JList([v]))]), true) == Ok(v)
    ensures ParseWrappedData(JObj([("code", code), ("message", message), ("data", v)]), true) == Ok(v)
  {
    var m1 := [("code", code), ("message", message), ("data", JList([v]))];
    var m2 := [("code", code), ("message", message), ("data", v)];
    assert Lookup(m1, "code") == Some(code);
    assert Lookup(m1[2..], "data") == Some(JList([v]));
    assert Lookup(m1[1..], "data") == Lookup(m1[2..], "data");
    assert Lookup(m2, "code") == Some(code);
    assert Lookup(m2[2..], "data") == Some(v);
    assert Lookup(m2[1..], "data") == Lookup(m2[2..], "data");
  }

  /** A non-zero code raises with the code and message; a missing code is
      rendered as None and a missing message as "Unknown error". */
  lemma ErrorCodeMessages()
    ensures ParseWrappedData(JObj([("code", JInt(3)), ("message", JStr("denied"))]), false)
            == Fail("API returned error code 3: denied")
    ensures ParseWrappedData(JObj([("data", JList([]))]), false)
            == Fail("API returned error code None: Unknown error")
  {
    NonZeroCodeMessage();
    MissingCodeMessage();
  }

  lemma NonZeroCodeMessage()
    ensures ParseWrappedData(JObj([("code", JInt(3)), ("message", JStr("denied"))]), false)
            == Fail("API returned error code 3: denied")
  {
    var m := [("code", JInt(3)), ("message", JStr("denied"))];
    assert Lookup(m, "code") == Some(JInt(3));
    assert Lookup(m, "message") == Some(JStr("denied"));
    assert Str(JInt(3)) == "3" by {
      assert NatToString(3) == [DigitChar(3)];
    }
    assert "API returned error code " + "3" + ": " + "denied" == "API returned error code 3: denied";
  }

  lemma MissingCodeMessage()
    ensures ParseWrappedData(JObj([("data", JList([]))]), false)
            == Fail("API returned error code None: Unknown error")
  {
    var n := [("data", JList([]))];
    assert Lookup(n, "code") == None && Lookup(n, "message") == None;
    assert "API returned error code " + "None" + ": " + "Unknown error"
        == "API returned error code None: Unknown error";
  }

  /** `[str(item) for item in data]` when `data` is a list, else the error `message`. */
  function StringItems(data: Json, message: string): (r: Outcome<seq<string>>)
    ensures r.Ok? <==> data.JList?
    ensures r.Ok? ==> |r.value| == |data.items| &&
                      forall i :: 0 <= i < |data.items| ==> r.value[i] == Str(data.items[i])
    ensures r.Err? ==> r == Fail(message)
  {
    match data
    case JList(items) => Ok(seq(|items|, i requires 0 <= i < |items| => Str(items[i])))
    case _ => Fail(message)
  }

  const GroupsMessage := "Unexpected response payload for groups endpoint"
  const MembersMessage := "Unexpected response payload for group members endpoint"
  const UserMessage := "Unexpected response payload for user endpoint"

  /** How an endpoint that reads a list of strings answers the outcome `f` of
      its request: the request's error unchanged, else `str()` of each item of a
      list, in order, else the endpoint's `message`. */
  predicate StringsFrom(f: Outcome<Json>, message: string, r: Outcome<seq<string>>) {
    && (f.Err? ==> r == Err(f.error))
    && (r.Ok? <==> f.Ok? && f.value.JList?)
    && (r.Ok? ==> |r.value| == |f.value.items| &&
                  forall i :: 0 <= i < |r.value| ==> r.value[i] == Str(f.value.items[i]))
    && (f.Ok? && !f.value.JList? ==> r == Fail(message))
  }

  /** How an endpoint that reads a list of enveloped records answers the outcome
      `f` of its request: the request's and the envelope's errors unchanged, else
      the conversion of each entry of the envelope's list, in order. */
  predicate ListFrom<T(==)>(f: Outcome<Json>, convert: Json -> Outcome<T>, r: Outcome<seq<T>>) {
    && (f.Err? ==> r.Err? && r.error == f.error)
    && (f.Ok? && ParseWrappedData(f.value, false).Err? ==>
          r.Err? && r.error == ParseWrappedData(f.value, false).error)
    && (r.Ok? ==> f.Ok? && f.value.JObj? && EqualsZero(Get(f.value.members, "code")))
    && (r.Ok? ==>
          var entries := ParseWrappedData(f.value, false).value.items;
          |r.value| == |entries| &&
          forall i :: 0 <= i < |entries| ==> convert(entries[i]).Ok? && r.value[i] == convert(entries[i]).value)
    && (f.Ok? && ParseWrappedData(f.value, false).Ok? ==>
          r == ConvertEach(ParseWrappedData(f.value, false).value.items, convert))
  }

  /** How an endpoint that reads one enveloped record answers the outcome `f` of
      its request: the request's and the envelope's errors unchanged, else the
      conversion of the envelope's one object, sent bare or as the only item of
      a list. */
  predicate SingleFrom<T(==)>(f: Outcome<Json>, convert: Json -> Outcome<T>, r: Outcome<T>) {
    && (f.Err? ==> r == Err(f.error))
    && (f.Ok? && ParseWrappedData(f.value, true).Err? ==> r == Err(ParseWrappedData(f.value, true).error))
    && (f.Ok? && ParseWrappedData(f.value, true).Ok? ==>
          f.value.JObj? && EqualsZero(Get(f.value.members, "code")) &&
          var data := Get(f.value.members, "data");
          (data.JObj? && r == convert(data)) || (data.JList? && |data.items| == 1 && r == convert(data.items[0])))
  }

  // ---------------------------------------------------------------------------
  // Authentication at construction

  /** The Authorization header a new client holds: the Basic header of the netrc
      credentials when netrc is in use (or a path is given) and loading them
      succeeds; none when loading raises FileNotFoundError or ValueError. */
  function InitialAuthHeader(baseUrl: string, netrcPath: Option<string>, useNetrc: bool,
                             env: Environment): (r: Option<string>)
    ensures r.Some? <==> (useNetrc || IsGiven(netrcPath)) && LoadNetrcCredentials(baseUrl, netrcPath, env).Ok?
    ensures r.Some? ==> |r.value| > |BasicPrefix| && r.value[..|BasicPrefix|] == BasicPrefix
    ensures r.Some? ==>
              var (username, password) := LoadNetrcCredentials(baseUrl, netrcPath, env).value;
              Base64Decode(r.value[|BasicPrefix|..]) == Some(Utf8Encode(UserPass(username, password)))
    ensures r.Some? ==>
              var (username, password) := LoadNetrcCredentials(baseUrl, netrcPath, env).value;
              r.value == BuildBasicAuthHeader(username, password)
    ensures r.Some? ==>
              var (username, password) := LoadNetrcCredentials(baseUrl, netrcPath, env).value;
              ':' !in username ==> ParseBasicAuthHeader(r.value) == Some((username, password))
  {
    if useNetrc || IsGiven(netrcPath) then
      match LoadNetrcCredentials(baseUrl, netrcPath, env)
      case Ok((username, password)) =>
        var header := BuildBasicAuthHeader(username, password);
        BasicHeaderRoundTrip(username, password);
        assert |Utf8Encode(UserPass(username, password))| >= 1;
        Some(header)
      case Err(_) => None
    else None
  }

  /** The headers of a request: the defaults, and Authorization when the client
      holds a non-empty header. */
  function HeadersFor(defaults: map<string, string>, authHeader: Option<string>): map<string, string> {
    if authHeader.Some? && authHeader.value != "" then defaults["Authorization" := authHeader.value]
    else defaults
  }

  /** The request headers are the defaults, unchanged except for Authorization,
      plus Authorization with the held value exactly when that value is a
      non-empty text. */
  lemma HeadersForKeys(defaults: map<string, string>, authHeader: Option<string>)
    ensures var r := HeadersFor(defaults, authHeader);
            var authorized := authHeader.Some? && authHeader.value != "";
            && (forall h :: h in r <==> h in defaults || (authorized && h == "Authorization"))
            && (forall h | h in defaults && h != "Authorization" :: r[h] == defaults[h])
            && (authorized ==> "Authorization" in r && r["Authorization"] == authHeader.value)
            && (!authorized ==> r == defaults)
  {
  }

  // ---------------------------------------------------------------------------
  // The client

  class SimApiClient {
    const baseUrl: string
    const timeout: real
    const authHeader: Option<string>
    const defaultHeaders: map<string, string>

    /** The state every client is built in: JSON is the one default header and
        the base URL has no trailing slash. */
    predicate Valid() {
      && defaultHeaders == map["Accept" := "application/json"]
      && (baseUrl == [] || baseUrl[|baseUrl| - 1] != '/')
      && (authHeader.Some? ==> authHeader.value != "")
    }

    /** `SimApiClient(base_url=..., timeout=..., netrc_path=..., use_netrc=...)`,
        with the netrc file and URL parsing read through `env`. */
    constructor(env: Environment, baseUrl: string := DefaultBaseUrl, timeout: real := DefaultTimeout,
                netrcPath: Option<string> := None, useNetrc: bool := true)
      ensures this.baseUrl == RStrip(baseUrl, '/')
      ensures this.timeout == timeout
      ensures this.authHeader == InitialAuthHeader(this.baseUrl, netrcPath, useNetrc, env)
      ensures Valid()
    {
      var base := RStrip(baseUrl, '/');
      this.baseUrl := base;
      this.timeout := timeout;
      this.defaultHeaders := map["Accept" := "application/json"];
      var header: Option<string> := None;
      if useNetrc || IsGiven(netrcPath) {
        var loaded := LoadNetrcCredentials(base, netrcPath, env);
        if loaded.Ok? {
          header := Some(BuildBasicAuthHeader(loaded.value.0, loaded.value.1));
        }
      }
      this.authHeader := header;
    }

    /** The request `_request_json` sends for `endpoint` and `params`. */
    function RequestFor(endpoint: string, params: seq<(string, Json)>): HttpRequest {
      HttpRequest("GET", BuildUrl(baseUrl, endpoint, params), HeadersFor(defaultHeaders, authHeader), timeout)
    }

    /** What `_request_json` returns or raises for `endpoint` and `params`. */
    function Fetch(endpoint: string, params: seq<(string, Json)>, net: Transport): Outcome<Json> {
      var request := RequestFor(endpoint, params);
      Interpret(net.send(request), request.url, net.loads)
    }

    /** Every request asks for JSON, and carries an Authorization header exactly
        when the client holds credentials. */
    lemma RequestHeaders(endpoint: string, params: seq<(string, Json)>)
      requires Valid()
      ensures var headers := RequestFor(endpoint, params).headers;
              && headers.Keys == (if authHeader.Some? then {"Accept", "Authorization"} else {"Accept"})
              && headers["Accept"] == "application/json"
              && (authHeader.Some? ==> headers["Authorization"] == authHeader.value)
    {
      HeadersForKeys(defaultHeaders, authHeader);
      var headers := RequestFor(endpoint, params).headers;
      if authHeader.Some? {
        assert headers.Keys == {"Accept", "Authorization"};
      } else {
        assert headers == defaultHeaders;
      }
    }

    /** `_request_json`: builds the URL, adds the default headers one by one and
        the Authorization header when there is one, sends the request and reads
        the response. */
    method RequestJson(endpoint: string, params: seq<(string, Json)>, net: Transport) returns (r: Outcome<Json>)
      ensures r == Fetch(endpoint, params, net)
    {
      var url := BuildUrl(baseUrl, endpoint, params);
      var headers: map<string, string> := map[];
      var pending := defaultHeaders.Keys;
      while pending != {}
        invariant pending <= defaultHeaders.Keys
        invariant headers.Keys == defaultHeaders.Keys - pending
        invariant forall h | h in headers :: headers[h] == defaultHeaders[h]
        decreases pending
      {
        var h :| h in pending;
        headers := headers[h := defaultHeaders[h]];
        pending := pending - {h};
      }
      assert headers == defaultHeaders;
      if authHeader.Some? && authHeader.value != "" {
        headers := headers["Authorization" := authHeader.value];
      }
      var request := HttpRequest("GET", url, headers, timeout);
      assert request == RequestFor(endpoint, params);
      r := Interpret(net.send(request), url, net.loads);
    }

    // -- the endpoints, as specifications ---------------------------------------

    function Groups(net: Transport): (r: Outcome<seq<string>>)
      ensures StringsFrom(Fetch("/service/AI/groups", [], net), GroupsMessage, r)
    {
      var data :- Fetch("/service/AI/groups", [], net);
      StringItems(data, GroupsMessage)
    }

    function GroupMembers(net: Transport, groupName: string, solve: bool): (r: Outcome<seq<string>>)
      ensures StringsFrom(Fetch("/service/AI/groups/" + groupName + "/members",
                                [("solve", JStr(if solve then "true" else "false"))], net), MembersMessage, r)
    {
      var data :- Fetch("/service/AI/groups/" + groupName + "/members",
                        [("solve", JStr(if solve then "true" else "false"))], net);
      StringItems(data, MembersMessage)
    }

    function InstitutionLinks(net: Transport, projectName: string): (r: Outcome<seq<ProjectInstitutionLink>>)
      ensures ListFrom(Fetch("/einrichtung", [("projektname", JStr(projectName))], net), LinkFromDict, r)
    {
      var payload :- Fetch("/einrichtung", [("projektname", JStr(projectName))], net);
      var entries :- ParseWrappedData(payload, false);
      ConvertEach(entries.items, LinkFromDict)
    }

    function InstitutionRecord(net: Transport, einrichtungsId: string): (r: Outcome<Institution>)
      ensures SingleFrom(Fetch("/einrichtung/" + einrichtungsId, [], net), InstitutionFromDict, r)
    {
      var payload :- Fetch("/einrichtung/" + einrichtungsId, [], net);
      var data :- ParseWrappedData(payload, true);
      InstitutionFromDict(data)
    }

    function PersonRecord(net: Transport, personId: string): (r: Outcome<Person>)
      ensures SingleFrom(Fetch("/person/" + personId, [], net), PersonFromDict, r)
    {
      var payload :- Fetch("/person/" + personId, [], net);
      var data :- ParseWrappedData(payload, true);
      PersonFromDict(data)
    }

    function UserRecord(net: Transport, username: string): (r: Outcome<User>)
      ensures var f := Fetch("/user/" + username, [], net);
              && (f.Err? ==> r == Err(f.error))
              && (f.Ok? ==> (r.Ok? <==> f.value.JObj?))
              && (f.Ok? && !f.value.JObj? ==> r == Fail(UserMessage))
              && (r.Ok? ==> r == UserFromDict(f.value))
    {
      var data :- Fetch("/user/" + username, [], net);
      if data.JObj? then UserFromDict(data) else Fail(UserMessage)
    }

    // -- the endpoints ------------------------------------------------------------

    /** `list_groups`. */
    method ListGroups(net: Transport) returns (r: Outcome<seq<string>>)
      ensures r == Groups(net)
    {
      var data := RequestJson("/service/AI/groups", [], net);
      if data.Err? {
        return Err(data.error);
      }
      r := StringItems(data.value, GroupsMessage);
    }

    /** `get_group_members`. */
    method GetGroupMembers(net: Transport, groupName: string, solve: bool := false)
      returns (r: Outcome<seq<string>>)
      ensures r == GroupMembers(net, groupName, solve)
    {
      var params := [("solve", JStr(if solve then "true" else "false"))];
      var data := RequestJson("/service/AI/groups/" + groupName + "/members", params, net);
      if data.Err? {
        return Err(data.error);
      }
      r := StringItems(data.value, MembersMessage);
    }

    /** `get_project_institution_links`. */
    method GetProjectInstitutionLinks(net: Transport, projectName: string)
      returns (r: Outcome<seq<ProjectInstitutionLink>>)
      ensures r == InstitutionLinks(net, projectName)
    {
      var payload := RequestJson("/einrichtung", [("projektname", JStr(projectName))], net);
      if payload.Err? {
        return Err(payload.error);
      }
      var entries := ParseWrappedData(payload.value, false);
      if entries.Err? {
        return Err(entries.error);
      }
      r := ConvertEach(entries.value.items, LinkFromDict);
    }

    /** `get_institution`. */
    method GetInstitution(net: Transport, einrichtungsId: string) returns (r: Outcome<Institution>)
      ensures r == InstitutionRecord(net, einrichtungsId)
    {
      var payload := RequestJson("/einrichtung/" + einrichtungsId, [], net);
      if payload.Err? {
        return Err(payload.error);
      }
      var data := ParseWrappedData(payload.value, true);
      if data.Err? {
        return Err(data.error);
      }
      r := InstitutionFromDict(data.value);
    }

    /** `get_person`. */
    method GetPerson(net: Transport, personId: string) returns (r: Outcome<Person>)
      ensures r == PersonRecord(net, personId)
    {
      var payload := RequestJson("/person/" + personId, [], net);
      if payload.Err? {
        return Err(payload.error);
      }
      var data := ParseWrappedData(payload.value, true);
      if data.Err? {
        return Err(data.error);
      }
      r := PersonFromDict(data.value);
    }

    /** `get_user`. */
    method GetUser(net: Transport, username: string) returns (r: Outcome<User>)
      ensures r == UserRecord(net, username)
    {
      var data := RequestJson("/user/" + username, [], net);
      if data.Err? {
        return Err(data.error);
      }
      if data.value.JObj? {
        r := UserFromDict(data.value);
      } else {
        r := Fail(UserMessage);
      }
    }
  }
}
