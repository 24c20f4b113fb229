# N2YO daily satellite report — a Dafny model

This project models the scheduled job in `app.py`. The job reads its settings
from the environment, queries five endpoints of the N2YO satellite API, renders
the answers as one HTML report, and mails the report over SMTP. HTTP, SMTP and
the clock are inputs of the model:

- `Client.Transport` is what one GET did: a decoded body, a requests
  exception, or a JSON decode error.
- `Notifier.SmtpOutcome` is what the SMTP session did.
- The timestamp and the date are strings.
- `json.dumps(indent=2)` and `str()` of non-string JSON values are function
  parameters.

Modules, one per component of the script:

- `Values`: Python values (None/str/int), their truthiness, and decoded JSON.
- `IntText`: `int(str)` and `str(int)` for base 10. Their round trip is proved.
- `Config`: `get_config_value` and the seven module-level settings.
- `Client`: `fetch_api_data` and the five path builders. A `/`-splitter
  (Python's `str.split("/")`) reads each path back.
- `Report`: `format_data_as_html`. `FormatDataAsHtml` is a method that appends
  to a string in a loop, as the source does. It is proved equal to the
  `RenderReport` function, and the lemmas about the document are stated on
  `RenderReport`.
- `Notifier`: the completeness guard of `send_email` and its outcome.
- `Orchestrator`: the `__main__` block. It runs three ordered fatal checks,
  then builds five sections, the report, the subject and one send.

Two points of the code that are easy to misread:

- The job reads its settings from the environment only; no settings file is
  consulted (app.py:9-12).
- `send_email` checks six fields (app.py:90). Subject and body are not
  checked (`Notifier.SubjectAndBodyUnchecked`).

## Model

| member | source | states |
|---|---|---|
| `IntText.ParseInt` | app.py:19 | after stripping surrounding space, `\t`, `\n`, `\v`, `\f` and `\r`, `int()` accepts exactly well-formed digit text with at most one sign in front; the value is that of the digits, negated after a `-` and unchanged after a `+` |
| `IntText.IntToString` | app.py:63-85 | the integer path parameters are rendered as decimal digits with no leading zero and no underscore, reading back as the integer, with a `-` exactly when it is negative; zero is exactly `"0"` |
| `IntText.IntToStringRoundTrip` | app.py:17-19 | `int(str(n)) == n` for every integer: the integer coercion reads back every rendered integer |
| `IntText.ParseIntIgnoresPadding` | app.py:19 | for every text and any runs of the whitespace `int()` skips before and after it, `int()` returns the same as on the bare text |
| `Config.Upper` | app.py:12 | `key_name.upper()` keeps the length, turns each lower-case letter into its capital, keeps every other character, and leaves no lower-case letter |
| `Config.GetConfigValue` | app.py:10-23 | looks up the upper-cased name; absent gives the default unchanged, even with `is_int`; present without `is_int` gives the raw string; with `is_int` gives the parsed integer, or the default when parsing fails |
| `Config.EmptyValueKept` | app.py:12-15 | a present but empty variable is returned as `""` and is not replaced by the default |
| `Config.AbsentDefaultNotCoerced` | app.py:14-15 | with `is_int` set and the variable absent, a string default comes back as that string, never coerced |
| `Config.CoercionReadsIntegers` | app.py:17-19 | with `is_int`, a variable holding the text of an integer n resolves to n |
| `Config.LookupIgnoresCase` | app.py:12 | asking for a name or for its upper-case form gives the same result |
| `Config.ResolveSettings` | app.py:26-32 | the port defaults to 587 when unset, the sender defaults to the resolved username, and the API key is a string exactly when it is set |
| `Config.ResolvedStrings` | app.py:26-32 | N2YO_API_KEY, SMTP_SERVER, SMTP_USERNAME, SMTP_PASSWORD and RECEIVER_EMAIL are each None when unset and exactly the variable's text when set; SENDER_EMAIL is its text when set and the resolved username when unset |
| `Config.ResolvedPort` | app.py:28 | SMTP_PORT resolves to its parsed integer, or to 587 when `int()` rejects it |
| `Client.FullUrl` | app.py:52 | the full URL is the base URL, then the endpoint, then `&apiKey=` and the key |
| `Client.FetchApiData` | app.py:47-60 | with a falsy key: the not-configured failure with the bare endpoint and no content. Otherwise: a payload exactly when the request succeeded, and then unmodified; every failure carries a URL; content is present exactly on a decode error |
| `Client.NoRequestWithoutKey` | app.py:49-50 | without a key the result does not depend on the transport, so no request is made |
| `Client.OneRequestWithKey` | app.py:52-56 | with a key the result depends only on the one request to the full URL with timeout 30 |
| `Client.FailureShapes` | app.py:57-60 | a transport failure gives exactly {error: message, url: full URL}; a decode failure gives {error: "JSON Decode Error: " + message, url: full URL, content: raw text} |
| `Client.TlePath` | app.py:63-65 | the TLE path is `tle/` followed by the satellite id |
| `Client.PositionsPath` | app.py:68-70 | the positions path starts with `positions/` and ends in `/` |
| `Client.VisualPassesPath` | app.py:73-75 | the visual-passes path starts with `visualpasses/` and ends in `/` |
| `Client.RadioPassesPath` | app.py:78-80 | the radio-passes path starts with `radiopasses/` and ends in `/` |
| `Client.WhatsUpPath` | app.py:83-85 | the what's-up path starts with `above/` and ends in `/` |
| `Client.TleSegments` | app.py:63-65 | split on `/`, the TLE path is exactly `["tle", id]`, with no trailing `/` |
| `Client.PositionsSegments` | app.py:68-70 | split on `/`, the path is the prefix, then id, lat, lng, alt, seconds in argument order, then an empty piece for the trailing `/` |
| `Client.VisualPassesSegments` | app.py:73-75 | split on `/`: the prefix, then id, lat, lng, alt, days, min visibility in order, then the trailing empty piece |
| `Client.RadioPassesSegments` | app.py:78-80 | split on `/`: the prefix, then id, lat, lng, alt, days, min elevation in order, then the trailing empty piece |
| `Client.WhatsUpSegments` | app.py:83-85 | split on `/`: `above`, then lat, lng, alt, radius, category in order, then the trailing empty piece |
| `Report.Classify` | app.py:139-148 | a dict with an `"error"` key takes the error branch, including one sent by the remote service. For such a dict the error, URL and content shown are the f-string text of `data['error']`, `data['url']` and `data['content']`, and the URL and content appear exactly when those keys exist. Otherwise a truthy payload is pretty-printed unchanged, and anything else gets the placeholder |
| `Report.EntryLayout` | app.py:138-148 | after the `<h2>` heading comes the error paragraph, then the URL paragraph only if present, then the content block only if present; or `<pre>` with the dump; or the placeholder line |
| `Report.FormatDataAsHtml` | app.py:127-151 | the string built by the loop equals `RenderReport`: the head, one section per entry in order, then `</body></html>` |
| `Report.ReportFraming` | app.py:129-150 | the document begins with the fixed style block and the `<h1>` holding the timestamp, and ends with `</body></html>` |
| `Report.SectionsAppend` | app.py:137-148 | rendering two runs of entries one after the other is the same as rendering their concatenation |
| `Report.EntryStartsWithHeading` | app.py:138 | every entry's HTML opens with `<h2>title</h2>` |
| `Report.HeadingAt` | app.py:137-138 | the heading of entry k stands at its offset in the document |
| `Report.HeadingsInOrder` | app.py:137-138 | an earlier entry's heading ends before a later entry's heading begins: the document keeps insertion order |
| `Report.OnlyTimestampDiffers` | app.py:135 | two renderings of the same entries differ only in the head's timestamp |
| `Notifier.SendEmail` | app.py:88-124 | true exactly when all six of receiver, sender, server, port, username and password are truthy and the session delivers the message built from subject, sender, receiver and body |
| `Notifier.IncompleteConfigNeverConnects` | app.py:90-93 | with any of the six fields falsy the result is false, whatever the session would do |
| `Notifier.SubjectAndBodyUnchecked` | app.py:90 | an empty subject and body do not stop a send |
| `Notifier.SessionFailureIsFalse` | app.py:101-124 | every caught session failure (authentication, SMTP, other) gives false |
| `Orchestrator.Endpoints` | app.py:174-186 | there are five endpoints, one per section title |
| `Orchestrator.EndpointsFixed` | app.py:174-186 | the five paths queried are exactly `tle/25544`, `positions/25544/40.7128/-74.006/10/3/`, `visualpasses/25544/40.7128/-74.006/10/2/300/`, `radiopasses/25544/40.7128/-74.006/10/2/40/` and `above/40.7128/-74.006/10/70/0/`, built from the constants at app.py:36-44 |
| `Orchestrator.CollectSections` | app.py:171-186 | five entries, the k-th titled with the k-th fixed title and holding the fetch of the k-th endpoint |
| `Orchestrator.Run` | app.py:154-199 | checks the API key, then the receiver, then the four SMTP fields; the first failure exits with 1 and names that check. Otherwise it exits with 0 and has the five titled sections in the fixed order and the dated subject |
| `Orchestrator.ExitBeforeAnyCall` | app.py:158-168 | a failed startup check ends the run before any request or mail: the outcome does not depend on transport or session |
| `Orchestrator.FinishedSectionsQueried` | app.py:171-192 | in a complete run each section is its endpoint's fetch with the configured key, every failure carries the full URL, and the body is the rendered report |
| `Orchestrator.DeliveryOutcome` | app.py:194-197 | in a complete run the exit status is 0, and delivery depends only on the sender being truthy and the session delivering |
| `Orchestrator.NoApiKeyExits` | app.py:158-160 | with N2YO_API_KEY unset or empty the run exits with 1 at the first check |
| `Orchestrator.PortZeroExits` | app.py:166-168 | SMTP_PORT set to "0" resolves to the falsy integer 0, so the run exits with 1 at the SMTP check |
| `Orchestrator.UnreadablePortUsesDefault` | app.py:28 | any SMTP_PORT text that `int()` rejects resolves to 587, which passes the SMTP check |
| `Orchestrator.SenderGap` | app.py:31 | once the SMTP check passes, the sender is falsy exactly when SENDER_EMAIL is set to `""`. This is the one gap the startup checks leave for the send guard |
| `Orchestrator.AllQueriesSucceed` | app.py:139-146 | when all five requests return truthy non-error payloads, every section is rendered as pretty-printed data |

## Left out

- HTTP (`requests.get`, `raise_for_status`, the 30-second timeout itself) is
  a parameter. The model names the outcome of the request and which `except`
  clause catches it, as the code is written. It does not say which exception
  the `requests` library raises for an undecodable body: in some versions that
  exception is also a `RequestException`, which the first clause would catch.
- The SMTP session (connect, STARTTLS, login, sendmail) is a parameter, and so
  is the distinction between its exception kinds. The console diagnostics,
  including the authentication hints, are not modelled.
- `datetime.utcnow()` and its two formats are inputs. They are two separate
  strings because the source reads the clock twice.
- `json.dumps(data, indent=2)` and `str()` of non-string JSON values are
  opaque function parameters.
- Rendering floats to text is not modelled. The coordinates are the strings
  `str()` gives for 40.7128 and -74.0060. Integer parameters are rendered by
  `IntText.IntToString`.
- `print` output and the process `exit()` are not modelled. The exit status is
  the `code` of `Orchestrator.RunOutcome`.
- Reading the settings at import time is replaced by an explicit
  `Config.Settings` value built by `ResolveSettings` and passed to `Run`.
- `Config.Upper` upper-cases ASCII letters only. Python's `str.upper()` also
  maps other Unicode letters. All setting names are ASCII.
- ParseInt reads ASCII text: the whitespace it strips is space and `\t`
  through `\r`, as `int()` does on ASCII text, and the digits are ASCII. On
  text holding any non-ASCII character Python's `int()` also accepts other
  Unicode decimal digits and strips every character for which `str.isspace()`
  holds. The model does not cover that case.
- ParseInt does not model the limit on digits: since Python 3.11 `int()`
  raises ValueError for more than 4300 digits by default. The limit can be
  configured per interpreter.
- IntToString does not model the same limit for `str()` of an integer.
- GetConfigValue and ResolvedPort read integers through ParseInt and share
  the two gaps above.
- Json objects are maps. Python's decoder keeps the order of an object's keys,
  and `json.dumps` prints them in that order, so payloads that differ only in
  key order are one value here. The `dumps` parameter therefore cannot
  reproduce the `<pre>` text of every payload.
- JSON floats are `real`s. NaN and infinities, which Python's decoder can
  produce, are not represented. Integers and floats are distinct (`JInt`,
  `JFloat`), as `json.dumps` prints `1` and `1.0` differently.
- The report's entries are a sequence of pairs. Python's dict also keeps its
  titles distinct, and the five titles the job uses are distinct.
- test_email.py is not part of this model. It reads the environment at
  import and sends one test message over SMTP. Its port is
  `int(os.environ.get("SMTP_PORT", "587"))`, which raises at import on
  unreadable text instead of falling back. Its guard checks five values
  (server, port, username, password, receiver), not the sender, and raises an
  exception instead of returning false.
