/** The client's documented scenarios, stated on the model: a client, whatever
    its base URL, answers each endpoint from a server that serves a fixed JSON
    document for one URL. */
module Scenarios {
  import opened Python
  import opened Exceptions
  import opened Codecs
  import opened Models
  import opened Client

  /** Every request for `url` is answered with `status`, a JSON content type and
      a UTF-8 body that parses to `payload`. */
  ghost predicate ServesJson(net: Transport, url: string, status: int, payload: Json) {
    forall request: HttpRequest | request.url == url ::
      && net.send(request).Reply?
      && net.send(request).status == status
      && net.send(request).headers == map["Content-Type" := "application/json"]
      && Utf8Decode(net.send(request).body).Some?
      && net.loads(Utf8Decode(net.send(request).body).value) == Some(payload)
  }

  /** A request whose URL is served with status 200 yields the served document. */
  lemma FetchServed(c: SimApiClient, net: Transport, endpoint: string, params: seq<(string, Json)>,
                    url: string, payload: Json)
    requires c.RequestFor(endpoint, params).url == url
    requires ServesJson(net, url, 200, payload)
    ensures c.Fetch(endpoint, params, net) == Ok(payload)
  {
    var request := c.RequestFor(endpoint, params);
    assert request.url == url;
  }

  /** A path with exactly one leading slash. */
  predicate Rooted(path: string) {
    |path| >= 2 && path[0] == '/' && path[1] != '/'
  }

  lemma RootedAppend(path: string, rest: string)
    requires Rooted(path)
    ensures Rooted(path + rest)
  {
  }

  /** An endpoint with one leading slash is appended to the base URL as it is. */
  lemma PathUrl(baseUrl: string, path: string)
    requires Rooted(path)
    ensures BuildUrl(baseUrl, path, []) == baseUrl + path
  {
    assert LStrip(path, '/') == path[1..];
    assert path == "/" + path[1..];
  }

  /** A URL followed by one query field. */
  function WithQuery(url: string, key: string, value: string): string {
    url + "?" + key + "=" + value
  }

  /** One query parameter is appended after '?' as its quoted key, '=' and its
      quoted value. */
  lemma QueryUrl(baseUrl: string, path: string, key: string, value: string)
    requires Rooted(path)
    ensures BuildUrl(baseUrl, path, [(key, JStr(value))])
            == WithQuery(baseUrl + path, QuotePlus(key), QuotePlus(value))
  {
    assert LStrip(path, '/') == path[1..];
    assert path == "/" + path[1..];
    assert StrPairs([(key, JStr(value))]) == [(key, value)];
  }

  /** The strings of a list of names, as JSON. */
  function JStrs(names: seq<string>): (r: seq<Json>)
    ensures |r| == |names| && forall i :: 0 <= i < |names| ==> r[i] == JStr(names[i])
  {
    seq(|names|, i requires 0 <= i < |names| => JStr(names[i]))
  }

  /** A served list of names is read back as those names. */
  lemma NamesServed(names: seq<string>, message: string)
    ensures StringItems(JList(JStrs(names)), message) == Ok(names)
  {
    assert StringItems(JList(JStrs(names)), message).value == names;
  }

  /** `list_groups` returns the names of the JSON list the server sends. */
  lemma ListGroupsScenario(c: SimApiClient, net: Transport, names: seq<string>)
    requires ServesJson(net, c.baseUrl + "/service/AI/groups", 200, JList(JStrs(names)))
    ensures c.Groups(net) == Ok(names)
  {
    PathUrl(c.baseUrl, "/service/AI/groups");
    FetchServed(c, net, "/service/AI/groups", [], c.baseUrl + "/service/AI/groups", JList(JStrs(names)));
    NamesServed(names, GroupsMessage);
  }

  lemma SolveKeyIsSafe()
    ensures QuotePlus("solve") == "solve"
  {
    QuotePlusOfSafeText("solve");
  }

  lemma SolveFlagIsSafe(solve: bool)
    ensures QuotePlus(if solve then "true" else "false") == (if solve then "true" else "false")
  {
    if solve {
      QuotePlusOfSafeText("true");
    } else {
      QuotePlusOfSafeText("false");
    }
  }

  /** The URL of a group's members with a query field that needs no quoting. */
  lemma MembersUrl(baseUrl: string, group: string, key: string, flag: string)
    requires QuotePlus(key) == key && QuotePlus(flag) == flag
    ensures BuildUrl(baseUrl, "/service/AI/groups/" + group + "/members", [(key, JStr(flag))])
            == WithQuery(baseUrl + ("/service/AI/groups/" + group + "/members"), key, flag)
  {
    RootedAppend("/service/AI/groups/", group);
    RootedAppend("/service/AI/groups/" + group, "/members");
    QueryUrl(baseUrl, "/service/AI/groups/" + group + "/members", key, flag);
  }

  /** `get_group_members` asks for the group's members path with the `solve` flag
      in the query, and returns the names of the JSON list the server sends. */
  lemma GroupMembersScenario(c: SimApiClient, net: Transport, group: string, solve: bool, names: seq<string>)
    requires ServesJson(net, WithQuery(c.baseUrl + ("/service/AI/groups/" + group + "/members"), "solve",
                                       if solve then "true" else "false"), 200, JList(JStrs(names)))
    ensures c.GroupMembers(net, group, solve) == Ok(names)
  {
    var flag := if solve then "true" else "false";
    SolveKeyIsSafe();
    SolveFlagIsSafe(solve);
    MembersUrl(c.baseUrl, group, "solve", flag);
    FetchServed(c, net, "/service/AI/groups/" + group + "/members", [("solve", JStr(flag))],
                WithQuery(c.baseUrl + ("/service/AI/groups/" + group + "/members"), "solve", flag),
                JList(JStrs(names)));
    NamesServed(names, MembersMessage);
  }

  /** The three members of an envelope are found under their keys. */
  lemma EnvelopeLookups(code: Json, message: Json, data: Json)
    ensures var m := [("code", code), ("message", message), ("data", data)];
            Lookup(m, "code") == Some(code) && Lookup(m, "message") == Some(message) &&
            Lookup(m, "data") == Some(data)
  {
    var m := [("code", code), ("message", message), ("data", data)];
    assert Lookup(m[2..], "data") == Some(data);
    assert Lookup(m[1..], "data") == Lookup(m[2..], "data");
    assert Lookup(m[1..], "message") == Some(message);
  }

  /** The data of a successful envelope, in either mode. */
  lemma OkEnvelope(data: Json)
    ensures var payload := JObj([("code", JInt(0)), ("message", JStr("OK")), ("data", data)]);
            && (data.JList? ==> ParseWrappedData(payload, false) == Ok(data))
            && (data.JObj? ==> ParseWrappedData(payload, true) == Ok(data))
  {
    EnvelopeLookups(JInt(0), JStr("OK"), data);
  }

  /** The objects of a list of dictionaries, as JSON. */
  function JObjs(dicts: seq<seq<(string, Json)>>): (r: seq<Json>)
    ensures |r| == |dicts| && forall i :: 0 <= i < |dicts| ==> r[i] == JObj(dicts[i])
  {
    seq(|dicts|, i requires 0 <= i < |dicts| => JObj(dicts[i]))
  }

  /** The URL of a project's institution links, under a key that needs no quoting. */
  lemma LinksUrl(baseUrl: string, key: string, project: string)
    requires QuotePlus(key) == key
    ensures BuildUrl(baseUrl, "/einrichtung", [(key, JStr(project))])
            == WithQuery(baseUrl + "/einrichtung", key, QuotePlus(project))
  {
    QueryUrl(baseUrl, "/einrichtung", key, project);
  }

  lemma ProjectKeyIsSafe()
    ensures QuotePlus("projektname") == "projektname"
  {
    QuotePlusOfSafeText("projektname");
  }

  /** `get_project_institution_links` sends the quoted project name in the query
      and returns one link per dictionary of the envelope's data list. */
  lemma InstitutionLinksScenario(c: SimApiClient, net: Transport, project: string,
                                 dicts: seq<seq<(string, Json)>>)
    requires ServesJson(net, WithQuery(c.baseUrl + "/einrichtung", "projektname", QuotePlus(project)), 200,
                        JObj([("code", JInt(0)), ("message", JStr("OK")), ("data", JList(JObjs(dicts)))]))
    ensures var links := c.InstitutionLinks(net, project);
            && links.Ok? && |links.value| == |dicts|
            && forall i :: 0 <= i < |dicts| ==>
                 links.value[i] == ProjectInstitutionLink(Get(dicts[i], "projektname", JStr("")),
                                                          Get(dicts[i], "einrichtungsId", JStr("")),
                                                          Get(dicts[i], "link", JStr("")))
  {
    ProjectKeyIsSafe();
    LinksUrl(c.baseUrl, "projektname", project);
    var url := WithQuery(c.baseUrl + "/einrichtung", "projektname", QuotePlus(project));
    var data := JList(JObjs(dicts));
    FetchServed(c, net, "/einrichtung", [("projektname", JStr(project))], url,
                JObj([("code", JInt(0)), ("message", JStr("OK")), ("data", data)]));
    OkEnvelope(data);
    LinksOfDicts(dicts);
  }

  /** Every dictionary converts to the link of its three fields. */
  lemma LinksOfDicts(dicts: seq<seq<(string, Json)>>)
    ensures var links := ConvertEach(JObjs(dicts), LinkFromDict);
            && links.Ok? && |links.value| == |dicts|
            && forall i :: 0 <= i < |dicts| ==>
                 links.value[i] == ProjectInstitutionLink(Get(dicts[i], "projektname", JStr("")),
                                                          Get(dicts[i], "einrichtungsId", JStr("")),
                                                          Get(dicts[i], "link", JStr("")))
  {
    var links := ConvertEach(JObjs(dicts), LinkFromDict);
    assert links.Ok?;
    forall i | 0 <= i < |dicts|
      ensures links.value[i] == ProjectInstitutionLink(Get(dicts[i], "projektname", JStr("")),
                                                       Get(dicts[i], "einrichtungsId", JStr("")),
                                                       Get(dicts[i], "link", JStr("")))
    {
      assert JObjs(dicts)[i] == JObj(dicts[i]);
    }
  }

  /** An endpoint made of a fixed prefix and an identifier is appended to the
      base URL as it is. */
  lemma EndpointUrl(baseUrl: string, prefix: string, id: string)
    requires Rooted(prefix)
    ensures BuildUrl(baseUrl, prefix + id, []) == baseUrl + prefix + id
  {
    RootedAppend(prefix, id);
    PathUrl(baseUrl, prefix + id);
  }

  /** A successful envelope whose data is an object, or a list of that one object. */
  predicate SingleEnvelope(payload: Json, m: seq<(string, Json)>) {
    || payload == JObj([("code", JInt(0)), ("message", JStr("OK")), ("data", JObj(m))])
    || payload == JObj([("code", JInt(0)), ("message", JStr("OK")), ("data", JList([JObj(m)]))])
  }

  lemma SingleEnvelopeData(payload: Json, m: seq<(string, Json)>)
    requires SingleEnvelope(payload, m)
    ensures ParseWrappedData(payload, true) == Ok(JObj(m))
  {
    SingleResultEitherShape(JInt(0), JStr("OK"), JObj(m));
  }

  /** `get_institution` returns the institution built from the envelope's object. */
  lemma InstitutionScenario(c: SimApiClient, net: Transport, id: string, payload: Json,
                            m: seq<(string, Json)>)
    requires SingleEnvelope(payload, m)
    requires ServesJson(net, c.baseUrl + "/einrichtung/" + id, 200, payload)
    ensures c.InstitutionRecord(net, id) == InstitutionFromDict(JObj(m))
  {
    EndpointUrl(c.baseUrl, "/einrichtung/", id);
    FetchServed(c, net, "/einrichtung/" + id, [], c.baseUrl + "/einrichtung/" + id, payload);
    SingleEnvelopeData(payload, m);
  }

  /** `get_person` returns the person built from the envelope's object. */
  lemma PersonScenario(c: SimApiClient, net: Transport, id: string, payload: Json,
                       m: seq<(string, Json)>)
    requires SingleEnvelope(payload, m)
    requires ServesJson(net, c.baseUrl + "/person/" + id, 200, payload)
    ensures c.PersonRecord(net, id) == PersonFromDict(JObj(m))
  {
    EndpointUrl(c.baseUrl, "/person/", id);
    FetchServed(c, net, "/person/" + id, [], c.baseUrl + "/person/" + id, payload);
    SingleEnvelopeData(payload, m);
  }

  /** `get_user` reads the user from the bare object the server sends, without an
      envelope; anything but an object is refused. */
  lemma UserScenario(c: SimApiClient, net: Transport, username: string, payload: Json)
    requires ServesJson(net, c.baseUrl + "/user/" + username, 200, payload)
    ensures payload.JObj? ==> c.UserRecord(net, username) == UserFromDict(payload)
    ensures !payload.JObj? ==> c.UserRecord(net, username) == Fail(UserMessage)
  {
    EndpointUrl(c.baseUrl, "/user/", username);
    FetchServed(c, net, "/user/" + username, [], c.baseUrl + "/user/" + username, payload);
  }

  /** An error status raises SimApiError with the server's message and the status. */
  lemma ErrorScenario(c: SimApiClient, net: Transport, status: int, message: string)
    requires status >= 400 && message != ""
    requires ServesJson(net, c.baseUrl + "/service/AI/groups", status, JObj([("message", JStr(message))]))
    ensures c.Groups(net) == Err(ApiError(SimApiError(message, Some(status))))
  {
    PathUrl(c.baseUrl, "/service/AI/groups");
    var request := c.RequestFor("/service/AI/groups", []);
    var response := net.send(request);
    assert JsonContentType(response.headers) by {
      assert OccursAt("application/json", "application/json", 0);
    }
    ErrorStatusCarriesServerMessage(request.url, status, response.headers, response.body,
                                    Utf8Decode(response.body).value, [("message", JStr(message))], message, net.loads);
  }
}
