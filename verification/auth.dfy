/** Credential loading from a netrc file and the HTTP Basic authorization header
    (section 2 of RFC 7617). Reading and parsing the netrc file, `~` expansion and
    URL parsing are given as an `Environment`. */
module Auth {
  import opened Python
  import opened Exceptions
  import opened Codecs

  /** One netrc entry, as `netrc.authenticators` returns it. */
  datatype NetrcEntry = NetrcEntry(login: string, account: string, password: string)

  /** What credential loading reads from outside the program:
      - `expandUser`: the text of `Path(p).expanduser()`;
      - `readNetrc`: the host lookup (`authenticators`) of the netrc file at a path,
        or `None` when no file exists there;
      - `hostname`: `urlparse(url).hostname`. */
  datatype Environment = Environment(
    expandUser: string -> string,
    readNetrc: string -> Option<string -> Option<NetrcEntry>>,
    hostname: string -> Option<string>)

  const DefaultNetrcPath := "~/.netrc"

  /** An optional path argument is used only when it is given and non-empty. */
  predicate IsGiven(path: Option<string>) {
    path.Some? && path.value != ""
  }

  /** The expanded path of the netrc file to read. */
  function NetrcFilePath(netrcPath: Option<string>, env: Environment): string {
    env.expandUser(if IsGiven(netrcPath) then netrcPath.value else DefaultNetrcPath)
  }

  /** `load_netrc_credentials`: the `(login, password)` stored for the host of
      `baseUrl`. The file is looked for before the host is parsed. */
  function LoadNetrcCredentials(baseUrl: string, netrcPath: Option<string>, env: Environment)
    : (r: Result<(string, string), CredentialError>)
    ensures r.Ok? ==> r.value.0 != "" && r.value.1 != ""
  {
    var path := NetrcFilePath(netrcPath, env);
    match env.readNetrc(path)
    case None => Err(FileNotFoundError("netrc file not found at " + path))
    case Some(authenticators) =>
      var host := env.hostname(baseUrl);
      if host.None? || host.value == "" then
        Err(ValueError("Could not parse host from base URL " + StrRepr(baseUrl)))
      else
        match authenticators(host.value)
        case None =>
          Err(ValueError("No credentials for host " + StrRepr(host.value) + " in " + path))
        case Some(entry) =>
          if entry.login == "" || entry.password == "" then
            Err(ValueError("Incomplete credentials for host " + StrRepr(host.value) + " in " + path))
          else
            Ok((entry.login, entry.password))
  }

  /** A missing file raises FileNotFoundError whatever the URL and its host. */
  lemma MissingFileIsReportedFirst(baseUrl: string, netrcPath: Option<string>, env: Environment,
                                   otherHostname: string -> Option<string>)
    requires env.readNetrc(NetrcFilePath(netrcPath, env)).None?
    ensures LoadNetrcCredentials(baseUrl, netrcPath, env).Err?
    ensures LoadNetrcCredentials(baseUrl, netrcPath, env).error.FileNotFoundError?
    ensures LoadNetrcCredentials(baseUrl, netrcPath, env)
            == LoadNetrcCredentials(baseUrl, netrcPath, env.(hostname := otherHostname))
  {
  }

  /** Loading succeeds with `(login, password)` exactly when the file exists, the
      URL has a host, the file has an entry for it with that login and password
      (any account), and neither is empty. */
  lemma LoadSucceedsExactly(baseUrl: string, netrcPath: Option<string>, env: Environment,
                            login: string, password: string)
    ensures LoadNetrcCredentials(baseUrl, netrcPath, env) == Ok((login, password)) <==>
              var file := env.readNetrc(NetrcFilePath(netrcPath, env));
              var host := env.hostname(baseUrl);
              && file.Some? && host.Some? && host.value != ""
              && file.value(host.value).Some?
              && file.value(host.value).value.login == login
              && file.value(host.value).value.password == password
              && login != "" && password != ""
  {
  }

  /** Every failure other than a missing file is a ValueError: no parsable host,
      no entry for the host, or an empty login or password. */
  lemma LoadFailureKinds(baseUrl: string, netrcPath: Option<string>, env: Environment)
    ensures var r := LoadNetrcCredentials(baseUrl, netrcPath, env);
            var file := env.readNetrc(NetrcFilePath(netrcPath, env));
            var host := env.hostname(baseUrl);
            && (r.Err? && r.error.FileNotFoundError? <==> file.None?)
            && (r.Err? && r.error.ValueError? <==>
                  file.Some? &&
                  (host.None? || host.value == "" || file.value(host.value).None? ||
                   file.value(host.value).value.login == "" ||
                   file.value(host.value).value.password == ""))
  {
  }

  // ---------------------------------------------------------------------------
  // The Basic authorization header

  const BasicPrefix := "Basic "

  /** The user-pass text of section 2 of RFC 7617. */
  function UserPass(username: string, password: string): string {
    username + ":" + password
  }

  /** `build_basic_auth_header`: "Basic " and the base64 of the UTF-8 bytes of
      `username:password`. */
  function BuildBasicAuthHeader(username: string, password: string): (r: string)
    ensures |r| >= |BasicPrefix| && r[..|BasicPrefix|] == BasicPrefix
    ensures var token := r[|BasicPrefix|..];
            && Base64Decode(token) == Some(Utf8Encode(UserPass(username, password)))
            && IsBase64Text(token)
            && |token| == 4 * ((|Utf8Encode(UserPass(username, password))| + 2) / 3)
  {
    var bytes := Utf8Encode(UserPass(username, password));
    Base64RoundTrip(bytes);
    var r := BasicPrefix + Base64Encode(bytes);
    assert r[|BasicPrefix|..] == Base64Encode(bytes);
    r
  }

  /** The header is the only text of its shape: any "Basic " text whose token
      decodes to the UTF-8 bytes of `username:password` is the one built, since
      the decoder accepts only the canonical base64 of those bytes. */
  lemma BasicHeaderIsUnique(username: string, password: string, h: string)
    requires |h| >= |BasicPrefix| && h[..|BasicPrefix|] == BasicPrefix
    requires Base64Decode(h[|BasicPrefix|..]) == Some(Utf8Encode(UserPass(username, password)))
    ensures h == BuildBasicAuthHeader(username, password)
  {
    Base64DecodeOnlyReadsEncoding(h[|BasicPrefix|..], Utf8Encode(UserPass(username, password)));
    assert h == BasicPrefix + h[|BasicPrefix|..];
  }

  /** Reads the credentials back from a Basic header value. */
  function ParseBasicAuthHeader(h: string): Option<(string, string)> {
    if |h| < |BasicPrefix| || h[..|BasicPrefix|] != BasicPrefix then None
    else
      var bytes :- Base64Decode(h[|BasicPrefix|..]);
      var text :- Utf8Decode(bytes);
      SplitFirst(text, ':')
  }

  /** The header gives back the username and password it was built from, as
      long as the username has no colon (which section 2 of RFC 7617 forbids). */
  lemma BasicHeaderRoundTrip(username: string, password: string)
    ensures ':' !in username ==>
              ParseBasicAuthHeader(BuildBasicAuthHeader(username, password)) == Some((username, password))
  {
    if ':' !in username {
      Utf8RoundTrip(UserPass(username, password));
      SplitFirstAt(username, ':', password);
    }
  }
}
