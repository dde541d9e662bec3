# Panel API client: the signed request executor

A Dafny model of the core of a Go client library for a server-management
panel's HTTP API (`client.go`). One `Client` object stands for one panel: it
holds the panel address, the API key, an optional timeout and the session
cookies the panel last handed out. Every operation goes through one executor,
`btAPI`, which

- signs the request with `request_time` (the Unix second, in decimal) and
  `request_token = MD5(request_time + MD5(key))`,
- builds the form body from those two fields with the caller's entries copied
  over them,
- puts the held cookies into the request's cookie jar when it holds any,
- classifies what the HTTP library reports (no response, a status of 400 or
  more, an unreadable body, or success), and
- replaces the held cookies with those of any response whose status is below 400.

On top of it the model has the operation layer's three ways of reading a body:
structured decode (`GetNetWork`, `GetSiteDomains`), plain integer decode with
fallback to 0 (`GetTaskCount`) and best-effort decode, which discards the
executor's error (`DeleteSite` and the other `resp, _ :=` operations), plus
the parameter shaping of `DeleteSite` and `GetSiteDomains`.

Modules: `Wire` (machine integers, bytes, forms, cookies, errors), `Strconv`
(Go's `FormatInt` and `Atoi`), `Signing` (token signer), `Executor` (the
executor's specification: request built, outcome classification, cookie
transitions, and the form-merging loop), `Operations` (parameter shaping and
decoding) and `BtClient` (the `Client` class).

Inputs from outside the program are parameters: `now` is the Unix second at
which a call is signed (`time.Now().Unix()`), `transport: Request -> Outcome`
is the HTTP library together with the panel, and `decode: Bytes -> Option<T>`
is the JSON decoder for an operation's result type. MD5 is `Signing.MD5`, a
constant function with no definition whose results are 32 lowercase hex digits.

Behaviour of the code worth stating outright:

- A response with status 400 or more leaves the held cookies as they were:
  `btAPI` returns at client.go:67-69, before the assignment at client.go:71
  (`Executor.SessionAfter`).
- A caller key named `request_token` or `request_time` replaces the signed
  value: the caller's entries are copied over the signing fields at
  client.go:49-51 (`Executor.Plan`).
- `btAPI` returns a nil body with every error (client.go:65, 68, 74), so a
  best-effort operation only ever decodes an empty body after a failed call and
  reports a decode error, never the executor's error
  (`Operations.BestEffortAfterExecutorError`).
- A body that cannot be read is reported after the new cookies are stored
  (client.go:71-75), so the cookies still change.

## Model

| member | source | states |
|---|---|---|
| `BtClient.Client.NewClient` | client.go:27-36 | address and key are stored unchanged, the timeout is the first optional argument or 0 when there is none, no cookies are held |
| `BtClient.Client.BtAPI` | client.go:38-77 | the request handed to the transport is `Plan` of the held cookies; the result is `Classify` of the outcome and the held cookies become `SessionAfter` of the outcome; nothing else in the client changes |
| `BtClient.Client.Raw` | client.go:81-83 | the deprecated passthrough behaves exactly like the executor |
| `BtClient.Client.GetNetWork` | client.go:86-96 | sends no caller fields to the network-status endpoint and returns the structured decode of the executor's result |
| `BtClient.Client.GetTaskCount` | client.go:125-135 | sends no caller fields to the task-count endpoint and returns `TaskCount` of the executor's result |
| `BtClient.Client.DeleteSite` | client.go:223-243 | sends `DeleteSiteForm` of the arguments and returns the best-effort decode, whatever error the executor reported |
| `BtClient.Client.GetSiteDomains` | client.go:349-365 | sends `SiteDomainsForm` of the keywords and returns the structured decode of the executor's result |
| `Executor.Plan` | client.go:39-62 | the request goes to address + endpoint with the client's timeout; its form has exactly the caller's keys plus the two signing keys, every caller key carries the caller's value, and a signing key the caller did not supply carries the decimal time or the token of that time and the key; the jar is seeded, with exactly the held cookies, if and only if cookies are held |
| `Executor.MergeForm` | client.go:45-51 | the loop over the caller's map yields the union of keys, the caller's value for each caller key and the signing value for every other key, whatever the iteration order |
| `Executor.Classify` | client.go:63-76 | success exactly when a response with status below 400 was read; success returns the body verbatim; every error returns no body; no response is a transport error, a status of 400 or more an error carrying the status text, an unreadable body a read error |
| `Executor.SessionAfter` | client.go:63-71 | no response or a status of 400 or more leaves the held cookies unchanged; a status below 400 replaces them by the response's cookies, even an empty list |
| `Executor.SessionAfterAll` | client.go:60-71 | after a series of calls the held cookies are the initial ones or exactly those of one accepted response, never a merge |
| `Executor.LastAccepted` | client.go:67-71 | finds the last outcome of a series that `btAPI` accepts, or reports that none is |
| `Executor.LastResponseWins` | client.go:60-71 | after any series of calls the client holds exactly the cookies of the last accepted response, or its initial cookies when no response was accepted |
| `Signing.Token` | client.go:44 | the token is 32 lowercase hex digits |
| `Signing.SignedFields` | client.go:43-48 | the signing fields are exactly `request_token` and `request_time`, one value each |
| `Signing.PanelAccepts` | client.go:43-44 | the panel reads `request_time` back as the second the client signed at, and recomputing the token from it and the key reproduces `request_token` |
| `Signing.SameSecondSameFields` | client.go:43-44 | the time rendering is injective on int64: two calls whose `request_time` strings are equal were signed in the same second and carry identical signing fields |
| `Strconv.FormatInt` | client.go:43 | the rendering starts with a minus sign exactly for negative numbers, never with '+', and the rest is a non-empty digit run whose value is the magnitude and which starts with '0' only when it is the single digit "0", so each number has exactly one rendering |
| `Strconv.CanonicalUnique` | client.go:43 | two decimal digit runs without a leading zero that have the same value are the same string |
| `Strconv.DecimalRenderingUnique` | client.go:43 | any string with a minus sign exactly for negative n and then a digit run without a leading zero whose value is the magnitude of n is the rendering `FormatInt` gives, so the request time and the site id have one form on the wire |
| `Strconv.FormatNatDigits` | client.go:43 | the decimal rendering of a natural number is a non-empty run of digits with that value, with no leading zero |
| `Strconv.AtoiFormatInt` | client.go:130 | reading back a formatted int64 gives the same number |
| `Strconv.Atoi` | client.go:130-132 | a parse succeeds only on an optional sign followed by a non-empty digit run, and then gives that run's value, negated after '-'; a well-formed run whose signed value lies outside int64 is rejected (Go's range error, which makes GetTaskCount return 0) |
| `Strconv.AtoiRejectsNonDigit` | client.go:130-133 | a non-digit after the first character, such as a trailing newline, makes the parse fail |
| `Strconv.AtoiExamples` | client.go:130 | "3", "-12" and "+007" parse to 3, -12 and 7; "", "-" and "abc" do not parse |
| `Operations.DeleteSiteForm` | client.go:224-236 | the form has `id` in decimal and `webname`, and each of `ftp`, `database`, `path` with value "1" exactly when its flag is set; no other key and no signing key |
| `Operations.DeleteSiteIdRoundTrip` | client.go:225 | the panel reads the site id back exactly as given |
| `Operations.SiteDomainsForm` | client.go:350-355 | the form has `list` = "true" and, exactly when keywords are given, `search` carrying all of them; no other key and no signing key |
| `Operations.Structured` | client.go:356-364 | an executor error is returned unchanged; otherwise the result is the decoded body, or a decode error when the decoder rejects it |
| `Operations.BestEffort` | client.go:237-242 | the executor error is ignored: the result succeeds exactly when the body decodes, and any failure is a decode error |
| `Operations.BestEffortAfterExecutorError` | client.go:237-242 | after any executor error a best-effort operation reports a decode error, given a decoder that rejects empty input |
| `Operations.BestEffortAgreesOnSuccess` | client.go:237-242 | when the executor succeeds, best-effort and structured decoding give the same result |
| `Wire.AsString` | client.go:130 | `string(resp)` keeps the length and maps each byte to the character with that code |
| `Operations.TaskCount` | client.go:125-135 | 0 when the executor failed or the body is not a decimal int64; otherwise exactly the value the body parses to |
| `Operations.TaskCountReadsCounter` | client.go:126-134 | a counter written in decimal in an accepted, readable response is the count returned |
| `Operations.TaskCountExamples` | client.go:125-135 | bodies "3" and "03" give 3; an empty body, "abc" and "3\n" give 0 |

## Left out

- The MD5 algorithm and hex encoding (client.go:622-626): `Signing.MD5` is an uninterpreted function; only its output shape (32 lowercase hex digits) is known.
- Real HTTP: `http.Client`, `PostForm`, TLS and the timeout's effect are the `transport` parameter. A timeout before the response arrives is a transport failure; one while the body is read (client.go:72-74) is a response with an unreadable body, after the cookies were replaced.
- `resp.Body` is never closed on any path (client.go:63-76); the model has no connection resources, so this leak is not represented.
- `Wire.ReadError` carries no payload: the error value `ioutil.ReadAll` returns at client.go:74 is not modelled, only the fact of a read failure.
- `DeleteSite` takes a pointer `*ReqDeleteSite` (client.go:223); a nil pointer panics at client.go:225, while the model takes the request by value and has no nil case.
- `cookiejar` internals: the model records which cookies were put into the fresh jar, not the jar's domain and path filtering; the `cookiejar.New` error (client.go:52-55) cannot occur and is not modelled.
- `url.Parse` of address + endpoint (client.go:39-42): its failure panics; the model does not represent the panic and takes the URL to be the plain concatenation, without the library's re-serialisation.
- `time.Now()`: the Unix second is the parameter `now`.
- JSON decoding with jsoniter and the result types (`NetWork`, `RespMSG`, `SiteDomains`, ...) are not part of this model: each operation takes the decoder as a parameter, and an `Err` result stands for the zero value returned with the error.
- The other per-endpoint operations (`GetSystemTotal`, `AddSite`, `StopSite`, `GetLimitNet`, `SetIndex`, ...): each repeats one of the three decode patterns above with different literal keys and paths.
- Concurrent calls on one client: the code has no synchronisation, and the model is sequential.
- `Strconv.Atoi`: modelled for a 64-bit platform, where Go's `int` is 64 bits wide.
