# sim-api-wrapper, modelled in Dafny

This project models the core of `sim-api-wrapper`, a small Python client for the LRZ
SIM directory API. It covers:

- `SimApiClient` (module `Client`):
  - how the client is built from a base URL, a timeout and optional netrc credentials;
  - how `_build_url` turns an endpoint and parameters into a URL;
  - how `_request_json` adds headers and reads the response, raising `SimApiError`
    for an error status (with the message `_extract_error_message` picks);
  - how `_parse_wrapped_data` unwraps the `code`/`message`/`data` envelope;
  - the six public endpoints.
- The records of `models.py` (module `Models`): `ProjectInstitutionLink`,
  `InstitutionAddress`, `Institution`, `Person` and `User`, with their `from_dict`
  conversions. This includes the exceptions those conversions raise on ill-shaped input.
- `auth.py` (module `Auth`): netrc credential loading and the HTTP Basic header of
  section 2 of RFC 7617.
- `exceptions.py` (module `Exceptions`): `SimApiError` and its `str()`.

The Python behaviour the client relies on has its own modules:

- `Python`: `dict.get`, truthiness, `str()`/`repr()` of decoded JSON, and `str`
  methods.
- `Codecs`: UTF-8, base64 (section 4 of RFC 4648), and `quote_plus`/`urlencode`.
  Each encoder comes with a decoder and a round-trip proof.

The module `Scenarios` restates the documented client scenarios over an arbitrary
served document. These are listing groups and members, reading links, institutions,
persons and users, and raising on an error status.

Raising an exception is modelled as a `Result`:

- `Outcome<T>` is either `Ok(value)` or `Err(raised)`.
- `raised` is `ApiError(SimApiError)`, `TypeError`, `AttributeError` or
  `UnicodeDecodeError`.

The network and `json.loads` are parameters of type `Transport`. The file system,
`~` expansion and URL parsing used by credential loading are parameters of type
`Environment`.

The client is a `class` whose fields are set once by its constructor. `_request_json`
copies the default headers in a loop; it is a method, proved equal to the
specification function `Fetch`. Because the endpoints call that method, each endpoint
is a method too, proved equal to a specification function with the same steps
(`Groups`, `InstitutionRecord`, …). The promises are not in those equalities. They
are in the contracts of the specification functions (request and envelope errors pass
through unchanged; what a success is made of), in the contracts of `Interpret`,
`ParseWrappedData`, `StringItems` and the record conversions, and in the `Scenarios`
lemmas for a served document.

## Model

| member | source | states |
|---|---|---|
| Client.SimApiClient.constructor | src/sim_api_wrapper/client.py:26-48 | The base URL is stored without trailing slashes and the timeout as given. The Authorization header is the Basic header of the netrc credentials exactly when netrc is used (or a non-empty path is given) and loading succeeds. The new client is `Valid`: JSON is the only default header and the base URL does not end in '/'. |
| Client.InitialAuthHeader | src/sim_api_wrapper/client.py:40-48 | A header is held iff netrc is in use and loading succeeds; a FileNotFoundError or ValueError leaves the client without one. For every loaded pair, the header is exactly `BuildBasicAuthHeader(login, password)`: "Basic " followed by a token that base64-decodes to the UTF-8 bytes of `login:password`. When the login has no ':', parsing the header gives back the login and password. |
| Client.HeadersForKeys | src/sim_api_wrapper/client.py:126-129 | The request headers are the default headers with their values unchanged. Authorization is added exactly when the held header is a non-empty text, and then with that text; nothing else is added. |
| Client.SimApiClient.RequestHeaders | src/sim_api_wrapper/client.py:125-129 | Every request carries `Accept: application/json`. It carries `Authorization` exactly when the client holds credentials, and then with the held value. |
| Client.SimApiClient.RequestJson | src/sim_api_wrapper/client.py:115-140 | The loop that copies the default headers one by one ends with exactly the defaults. The method returns what `Fetch` specifies: the URL of `BuildUrl`, the headers of `RequestHeaders`, and the outcome of `Interpret` on the reply. |
| Client.StrPairs | src/sim_api_wrapper/client.py:146 | Each parameter keeps its key and position and has its value replaced by `str(value)`. |
| Client.QueryRoundTrip | src/sim_api_wrapper/client.py:142-147 | Without parameters the URL is base, '/', and the endpoint without leading slashes. With parameters, the text after the last '?' parses back to exactly the keys and `str()` values, in order. |
| Client.SingleSlashJoin | src/sim_api_wrapper/client.py:142-147 | For a base URL without a trailing slash, the URL starts with the base followed by exactly one '/', whatever slashes the endpoint starts with. |
| Client.UrlAfterBase | src/sim_api_wrapper/client.py:143-147 | What follows the base URL and its '/' is empty or starts with a character other than '/'. |
| Client.BuildUrlShape | src/sim_api_wrapper/client.py:142-147 | The URL starts with the base URL, '/' and the endpoint without its leading slashes. Something follows that path exactly when there are parameters, and it starts with '?'. |
| Client.TextAfterLast | src/sim_api_wrapper/client.py:147 | The reader `QueryRoundTrip` uses to find the query string that `_build_url` appends after '?'; it is not code of the client. It finds something iff the separator occurs. What it finds is the suffix right after the last occurrence of the separator, and that suffix holds no separator. |
| Client.ExtractErrorMessage | src/sim_api_wrapper/client.py:191-202 | The extracted error message is empty only in one case: a JSON content type, a body whose text is empty, and a parser that reads the empty text as an object (which `json.loads` never does). |
| Client.JsonErrorBodyMessage | src/sim_api_wrapper/client.py:195-201 | With a JSON content type and a body read as an object, the message is `str()` of its "message" when that is true, else `str()` of its "error" when that is true, else the body text. |
| Client.NonObjectErrorBodyMessage | src/sim_api_wrapper/client.py:195-202 | With a JSON content type and a body the parser does not read as an object, a non-empty body text is the message. |
| Client.PlainErrorBodyIsTheMessage | src/sim_api_wrapper/client.py:193-202 | Without a JSON content type, any body whose ignore-decoded text (invalid bytes dropped) is non-empty has that text as the message. |
| Client.PlainUtf8ErrorBody | src/sim_api_wrapper/client.py:193-202 | Without a JSON content type, a non-empty well-formed UTF-8 body is the message as it is. |
| Client.EmptyErrorBodyNamesTheStatus | src/sim_api_wrapper/client.py:194-202 | Any body whose decoded text is empty, when no JSON object is read from it (no JSON content type, or the parser gives no object for ""), gives "Request failed with status " followed by a number that parses back to the status; since only canonical decimal text parses (`ParseIntOnlyReadsRendering`), that number is written exactly as `str(status)`. |
| Client.Interpret | src/sim_api_wrapper/client.py:131-140 | Raises SimApiError with a status code iff the reply has status >= 400, and the code is that status. Succeeds iff the status is below 400, the body is UTF-8 and the parser accepts it; the value is then the parsed document. Each branch's exact outcome: status >= 400 raises SimApiError carrying the extracted message and the status; an unreachable server raises SimApiError "Request to <url> failed: <reason>" without a status (client.py:160-162); a body below 400 that is not UTF-8 raises UnicodeDecodeError; a body the parser rejects raises SimApiError "Expected JSON response". |
| Client.ErrorStatusCarriesServerMessage | src/sim_api_wrapper/client.py:133-135 | An error reply with any headers whose Content-Type contains "application/json", and a UTF-8 body read as any object whose "message" is a non-empty string, raises exactly that message with the status. |
| Client.ParseWrappedData | src/sim_api_wrapper/client.py:164-189 | A non-object payload raises "Unexpected response payload structure". A code that does not equal 0 raises "API returned error code C: M", with "Unknown error" as M when the message is missing. Every failure carries no status. In single mode it succeeds iff the data is an object or a one-item list, and returns that object or item. Any other list raises the "multiple" message; any other value raises the structure message. In list mode it always succeeds on code 0, giving a list: null becomes [], a list stays as it is, and any other value becomes a one-item list. |
| Client.SingleIsTheOnlyListItem | src/sim_api_wrapper/client.py:175-189 | A single-mode result is the only item of the list-mode result for the same payload. |
| Client.OneObjectListIsSingle | src/sim_api_wrapper/client.py:175-189 | A list-mode result made of one object is what single mode returns. |
| Client.SingleResultEitherShape | src/sim_api_wrapper/client.py:176-183 | Single mode reads the same object from `"data": [obj]` and from `"data": obj`. |
| Client.ErrorCodeMessages | src/sim_api_wrapper/client.py:170-173 | Code 3 with message "denied" raises "API returned error code 3: denied". A missing code raises "API returned error code None: Unknown error". |
| Client.StringItems | src/sim_api_wrapper/client.py:62-64 | Succeeds iff the data is a list. It then gives `str()` of each item, in order; otherwise it raises the endpoint's message. |
| Client.SimApiClient.Groups | src/sim_api_wrapper/client.py:58-64 | A request error comes back unchanged. Otherwise the result succeeds iff the document is a list, and then holds `str()` of each item in order; anything else raises the groups message. |
| Client.SimApiClient.GroupMembers | src/sim_api_wrapper/client.py:66-74 | The same reading as `Groups`, for the request to the group's members path with `solve=true` or `solve=false`, and with the members message. |
| Client.SimApiClient.InstitutionLinks | src/sim_api_wrapper/client.py:76-85 | Request and envelope errors come back unchanged. Past the envelope, the result is exactly the in-order conversion of the list-mode entries: it succeeds iff every entry converts, and otherwise raises the error of the first entry that fails. On success, the envelope's code equals 0, and there is one link per entry, each converted from its own entry. |
| Client.SimApiClient.InstitutionRecord | src/sim_api_wrapper/client.py:87-92 | Request and envelope errors come back unchanged. Otherwise the envelope's code equals 0, and the result is the conversion of the data object, or of the only item of a one-item data list. |
| Client.SimApiClient.PersonRecord | src/sim_api_wrapper/client.py:94-99 | The same reading as `InstitutionRecord`, converting to a `Person`. |
| Client.SimApiClient.UserRecord | src/sim_api_wrapper/client.py:101-107 | A request error comes back unchanged. Otherwise the result succeeds iff the document is an object, and is then that object converted to a `User`; anything else raises the user message. |
| Client.SimApiClient.ListGroups | src/sim_api_wrapper/client.py:58-64 | Returns what the specification `Groups` gives: the request's error, or the items of the list as strings, or the groups error. |
| Client.SimApiClient.GetGroupMembers | src/sim_api_wrapper/client.py:66-74 | Returns what `GroupMembers` gives: a request with `solve=true`/`false` to the group's members path, read as a list of strings. |
| Client.SimApiClient.GetProjectInstitutionLinks | src/sim_api_wrapper/client.py:76-85 | Returns what `InstitutionLinks` gives: the envelope in list mode, each entry converted to a link, stopping at the first entry that raises. |
| Client.SimApiClient.GetInstitution | src/sim_api_wrapper/client.py:87-92 | Returns what `InstitutionRecord` gives: the envelope in single mode, converted to an `Institution`. |
| Client.SimApiClient.GetPerson | src/sim_api_wrapper/client.py:94-99 | Returns what `PersonRecord` gives: the envelope in single mode, converted to a `Person`. |
| Client.SimApiClient.GetUser | src/sim_api_wrapper/client.py:101-107 | Returns what `UserRecord` gives: a bare object is converted to a `User`; anything else raises the user error. |
| Scenarios.FetchServed | src/sim_api_wrapper/client.py:122-138 | A request whose URL is served with status 200 and a JSON document yields that document. |
| Scenarios.PathUrl | src/sim_api_wrapper/client.py:142-145 | An endpoint with one leading slash and no parameters is appended to the base URL unchanged. |
| Scenarios.QueryUrl | src/sim_api_wrapper/client.py:142-147 | One string parameter gives base, path, '?', the quoted key, '=' and the quoted value. |
| Scenarios.ListGroupsScenario | tests/test_client.py:46-52 | When the groups path serves a list of names, `list_groups` returns those names. |
| Scenarios.GroupMembersScenario | tests/test_client.py:55-61 | When the members path with `?solve=true` or `?solve=false` serves a list of names, `get_group_members` returns them. |
| Scenarios.InstitutionLinksScenario | tests/test_client.py:64-85 | When `/einrichtung?projektname=<quoted project>` serves a successful envelope holding a list of objects, one link is returned per object, in order. Each link holds that object's three fields, with "" for a missing one. |
| Scenarios.LinksOfDicts | src/sim_api_wrapper/client.py:85 | Converting a list of objects never raises, keeps the length, and takes each link's fields from its own object. |
| Scenarios.SingleEnvelopeData | src/sim_api_wrapper/client.py:175-183 | A successful envelope whose data is an object, or a one-item list of it, yields that object in single mode. |
| Scenarios.InstitutionScenario | tests/test_client.py:88-123 | `get_institution` on a served single envelope returns the institution converted from its object. |
| Scenarios.PersonScenario | tests/test_client.py:126-151 | `get_person` on a served single envelope returns the person converted from its object. |
| Scenarios.UserScenario | tests/test_client.py:154-178 | `get_user` converts the bare object the server sends, with no envelope. Any other document raises the user error. |
| Scenarios.ErrorScenario | tests/test_client.py:181-190 | An error status with a JSON message raises SimApiError with that message and that status code. |
| Models.Iterate | src/sim_api_wrapper/models.py:99-112 | `iter()` succeeds iff the value is a list, string or dict, and otherwise raises TypeError. A list gives its items, a string its characters, a dict its keys. |
| Models.ListOrEmpty | src/sim_api_wrapper/models.py:99-100 | A false value gives []. A list gives its items. It raises iff the value is `True` or a non-zero integer. |
| Models.ConvertEach | src/sim_api_wrapper/models.py:110 | Succeeds iff every entry converts; the results then keep length and order. A failure is the error of the first entry that raises. |
| Models.LinkFromDict | src/sim_api_wrapper/models.py:17-23 | Succeeds iff given a dict, and otherwise raises AttributeError. |
| Models.LinkFields | src/sim_api_wrapper/models.py:18-23 | `projektname`, `einrichtungsId` and `link` are each taken from their key, with "" when it is missing. |
| Models.AddressFromDict | src/sim_api_wrapper/models.py:49-70 | Succeeds iff given a dict, and otherwise raises AttributeError. |
| Models.AddressFields | src/sim_api_wrapper/models.py:50-70 | Each of the 18 fields comes from its own key (`person_link` for `personLink`), and is None when the key is missing. |
| Models.AddressReadsOnlyItsKeys | src/sim_api_wrapper/models.py:50-70 | Two dicts that agree on the 18 address keys give the same address. |
| Models.InstitutionFromDict | src/sim_api_wrapper/models.py:94-113 | A non-dict raises AttributeError. Every failure is an AttributeError or a TypeError. |
| Models.InstitutionFields | src/sim_api_wrapper/models.py:95-113 | A dict of the shape the API sends converts without raising. `lrz_id` comes from `LRZid` (default ""), `chef_lrz_id` from `chef_lrzId`, and `name` and the eight other scalar fields each from their own key (None when absent). The four guarded list fields are the lists sent, or [] when absent or null. Each address is converted from its own entry, in order. |
| Models.GuardedListIsSent | src/sim_api_wrapper/models.py:99-100 | A list-valued key guarded by `or []` yields the list sent, or [] when the key is absent or null. |
| Models.NullAddressesRaise | src/sim_api_wrapper/models.py:110 | A null `anschriften` raises TypeError, because it has no `or []` guard, unlike the other list keys. |
| Models.PersonFromDict | src/sim_api_wrapper/models.py:131-144 | A non-dict raises AttributeError. A dict converts iff its `kennungen` value can be listed. |
| Models.PersonFields | src/sim_api_wrapper/models.py:132-144 | `lrz_id` comes from `LRZid` (default ""), and `titel_pre` and `titel_post` from `titelPre` and `titelPost`. `benutzername`, `anrede`, `rufname`, `nachname`, `geschlecht` and `status` each come from their own key (None when absent). `kennungen` is the list sent, or [] when absent or null. |
| Models.UserFromDict | src/sim_api_wrapper/models.py:162-175 | Succeeds iff given a dict, and otherwise raises AttributeError. |
| Models.UserFields | src/sim_api_wrapper/models.py:163-175 | `kennung` comes from its key (default ""), `lrz_id` from `mwnlrzid`, `status`, `status_num`, `validpwd`, `uid`, `gid`, `projekt` and `kennungstyp` each from its own key (default None), and `daten` is passed through (default {}). |
| Models.EmptyDictDefaults | src/sim_api_wrapper/models.py:18-175 | An empty dict converts for every record. Required strings become "", optional fields None, lists [] and `daten` {}. |
| Auth.LoadNetrcCredentials | src/sim_api_wrapper/auth.py:15-37 | A successful load gives a non-empty login and a non-empty password. |
| Auth.MissingFileIsReportedFirst | src/sim_api_wrapper/auth.py:18-22 | A missing netrc file raises FileNotFoundError, whatever the URL, its host or the host parser. |
| Auth.LoadSucceedsExactly | src/sim_api_wrapper/auth.py:18-37 | Loading returns `(login, password)` iff all of these hold: the file exists; the URL has a non-empty host; the file has an entry for that host with that login and password (any account); and neither is empty. |
| Auth.LoadFailureKinds | src/sim_api_wrapper/auth.py:18-34 | FileNotFoundError iff the file is missing. ValueError iff the file exists but there is no host, no entry for it, or an empty login or password. |
| Auth.BuildBasicAuthHeader | src/sim_api_wrapper/auth.py:40-44 | The header is "Basic " followed by a base64 token of the padded length. The token decodes to the UTF-8 bytes of `username:password`; as the decoder reads only canonical text, this fixes the token (`BasicHeaderIsUnique`). |
| Auth.BasicHeaderIsUnique | src/sim_api_wrapper/auth.py:40-44 | Any "Basic " text whose token decodes to the UTF-8 bytes of `username:password` is the built header, so the token is exactly the section 4 encoding of RFC 4648. |
| Auth.BasicHeaderRoundTrip | src/sim_api_wrapper/auth.py:40-44 | Parsing the header gives back the username and password, for every username without ':'. |
| Exceptions.ErrorText | src/sim_api_wrapper/exceptions.py:13-16 | `str()` ends with the message. Without a status code it is the message. With one, it is a text that parses back to the code, then ": ", then the message; since only canonical decimal text parses (`ParseIntOnlyReadsRendering`), that text is exactly `str(code)`. |
| Exceptions.ZeroStatusIsPrefixed | src/sim_api_wrapper/exceptions.py:14-15 | A status code of 0 is still rendered ("0: message"), because it is tested with `is not None`. |
| Exceptions.DefaultStatusIsAbsent | src/sim_api_wrapper/exceptions.py:9-11 | Without a status code argument the code is None, and `str()` is the message. |
| Exceptions.Fail | src/sim_api_wrapper/exceptions.py:9-11 | Raising with a message only gives a SimApiError with that message and no status code. |
| Python.LookupFindsFirst | src/sim_api_wrapper/client.py:170-175 | A key lookup fails iff no member has the key; otherwise it finds the value of the first member with the key. |
| Python.IntToStringRoundTrip | src/sim_api_wrapper/exceptions.py:15 | The decimal text of every integer parses back to it. |
| Python.ParseIntOnlyReadsRendering | src/sim_api_wrapper/exceptions.py:15 | The parser accepts only the text `str()` writes: whatever parses to `i` is the decimal rendering of `i` (no leading zeros, no "-0"). |
| Python.StrEmptyOnlyForEmptyString | src/sim_api_wrapper/client.py:201 | `str()` of a decoded JSON value is empty iff the value is the empty string. |
| Python.SplitJoin | src/sim_api_wrapper/client.py:146 | Splitting a '&'-join of parts that contain no '&' gives the parts back. |
| Codecs.Utf8RoundTrip | src/sim_api_wrapper/auth.py:43 | Decoding the UTF-8 encoding of any string gives the string back. |
| Codecs.LenientAgreesWithStrict | src/sim_api_wrapper/client.py:194 | On well-formed UTF-8, decoding with `errors="ignore"` equals strict decoding. |
| Codecs.Base64Encode | src/sim_api_wrapper/auth.py:43 | The encoding is base64 text, four characters per started group of three bytes. |
| Codecs.Base64RoundTrip | src/sim_api_wrapper/auth.py:43 | Decoding the base64 text of any bytes gives the bytes back. |
| Codecs.Base64DecodeOnlyReadsEncoding | src/sim_api_wrapper/auth.py:43 | The decoder, which rejects non-zero pad bits as section 3.5 of RFC 4648 allows, accepts only canonical text: any text that decodes to `b` is the encoding of `b`. |
| Codecs.QuotePlusRoundTrip | src/sim_api_wrapper/client.py:146 | Unquoting the `quote_plus` of any string gives the string back. |
| Codecs.QuotePlusOfSafeText | src/sim_api_wrapper/client.py:146 | Text made only of always-safe ASCII characters is left unquoted. |
| Codecs.UrlencodeRoundTrip | src/sim_api_wrapper/client.py:146 | Parsing the `urlencode` of a non-empty list of pairs gives the pairs back, in order, blank values included. |

## Left out

- Floating point: JSON numbers other than integers are not modelled. In particular,
  the envelope code `0.0`, which Python's `!= 0` also accepts, is not modelled.
- The envelope code test follows the code at client.py:171 (`code != 0`), so `false`
  passes as well as `0`, since `False == 0` in Python. A reading in which only the
  integer 0 passes would be narrower than the code.
- `Transport.send` answers every request with a reply or a `URLError`. Exceptions
  that escape `_open` without being wrapped are not modelled, and the model answers
  those requests instead. Among them:
  - `http.client.InvalidURL` for a space or control character in an identifier
    put into the path (client.py:69, 90, 97, 104);
  - `UnicodeEncodeError` for a non-ASCII character in the path;
  - the `ValueError` that `Request` raises for a base URL without a scheme
    (client.py:125);
  - a `TimeoutError` while the body is read.
- The timeout is a `real` handed to the transport unchanged. The waiting it causes
  belongs to the network.
- `json.loads` is the `loads` parameter of `Transport`. JSON text syntax is not modelled.
  A document with a repeated key keeps the first value, where Python keeps the last.
- `urlopen`, `HTTPError` and `URLError` are folded into the `send` parameter of
  `Transport`:
  - `Reply` carries the status, headers and body of a success or an `HTTPError`;
  - `Unreachable` stands for a `URLError`;
  - `getcode() or 0` is left to the transport.
- The header names as `urllib.request.Request.add_header` capitalises them are not
  modelled: the modelled names are already in that form. The `Content-Type` lookup
  in `_extract_error_message` is an exact-case key lookup, as in the code.
- `_build_url` turns the parameters into a dict before encoding them. The model keeps
  them as a sequence, because every endpoint passes a single key.
- Logging, `close`, `__enter__`/`__exit__`, the command-line module `cli.py` and the
  package `__init__.py` are not part of this model.
- Netrc parsing (`netrc.netrc`, including its `default` entry), `Path.expanduser` and
  `urlparse(...).hostname` are functions in `Environment`. Exceptions other than
  FileNotFoundError and ValueError (for example `NetrcParseError` or
  `PermissionError`) are not modelled. In the code they escape the constructor.
- `repr()` of strings uses Python's escapes for characters below U+0100 only. Which
  characters above that are printable is not modelled; they are kept as they are.
- The messages of the TypeError and AttributeError that the record conversions raise
  are not modelled, only the kind of exception.
- The query string is read back by a parser defined in `Codecs` (the inverse of
  `urlencode`), not by a model of `urllib.parse.parse_qsl`.
- Models.InstitutionFromDict: stated as "raises only AttributeError or TypeError".
  The exact success condition is proved for the shape the API sends, in
  `InstitutionFields`, rather than for every dict.
