# cdn_speedtest request handlers, modelled in Dafny

This project models the three request-handling functions of a speed-test
site and proves properties of the model.

- **Measurement ingest** (`src/lambda/route_data.py`, module `RouteData`).
  This is the Lambda behind the site's HTTP endpoint. It answers a CORS
  preflight, rejects bodies over 10 MiB with a 413, decodes base64 bodies,
  and builds a fixed 20-field measurement record from the form fields,
  headers and request context. It then writes the record to object storage
  under a `YYYYMMDD/processed_data_YYYYMMDD-HHMMSS.json` key and answers 204.
  Any error on the way becomes a 500.
- **www redirect** (`infra/functions/redirect-remove-www.js`, module
  `RedirectRemoveWww`). This CloudFront viewer-request function sends a
  `www.` host to the bare host with a 301. It rebuilds the query string
  with the loop in `encodeRequestQuery`.
- **POST short-circuit** (`infra/functions/post-request-ok.js`, module
  `PostRequestOk`). This CloudFront function answers every `POST` with an
  empty 204 and forwards everything else.

Supporting modules:

- `Wrappers`: `Option` and `Result`.
- `Strings`: JavaScript's `Array.prototype.join` and a split on a
  one-character separator, the inverse used to state what the rebuilt
  query string contains.
- `CloudFront`: the event, request, response and outcome shapes the two
  edge functions use.

How the Lambda is modelled:

- Its foreign calls are parameters. The base64+UTF-8 decoder is a function
  `string -> Result<string, string>`, where the failure carries `str(e)`.
  `parse_qs` is a function returning a `Form` (every key present has at
  least one value). The two `datetime.now()` readings are a `Clock` value.
  The bucket name, the origin allow-list and the error (if any) raised by
  creating the S3 client are parameters.
- The storage service is an `ObjectStore` object. Its `PutObject` either
  stores the record under (bucket, key) or raises an injected fault.
- The pure stages of `main` (preflight test, size guard, decoder, record
  builder, client creation, bucket lookup, key derivation) are composed in
  `Plan`, in the source's order. `Plan` returns the step
  the request reaches: `Preflight`, `Rejected`, `Failed(error)` or
  `Write(bucket, key, record)`. `Handle` is `main` itself. It computes that
  step, performs the write and builds the response. Its postcondition
  (`Answers`) gives the response and the new store contents for every step.
- `create_response` builds its header dict and then updates it in place.
  It is the method `CreateResponse`, which has the same local updates.

Notes on the source's behaviour, which the model keeps:

- The 413 response is built without `create_response`, so it has no
  `headers` entry and no CORS headers.
- The size guard compares `len(body)` of the Python string. That counts
  characters, not bytes, and applies to the raw body, which may still be
  base64.
- In the record, `source_ip` and `source_user_agent` default to `""`. Only
  `time_of_test`, `epoch_of_test` and `content_length` default to null.
- The record's `origin` field reads only the lower-case `origin` header.
  The CORS origin check also falls back to `Origin`.
- A missing `body` key raises `KeyError` inside the `try` block, so it is
  a 500 with error text `'body'`. A failure creating the S3 client is a 500
  with its error text. A missing `OUTPUT_BUCKET` variable, read after the
  client is created, is a 500 with error text `'OUTPUT_BUCKET'`.

## Model

| member | source | states |
|---|---|---|
| `RouteData.RequestOrigin` | src/lambda/route_data.py:21 | the origin is the lower-case `origin` header when present, else `Origin`, else "" |
| `RouteData.CreateResponse` | src/lambda/route_data.py:20-34 | the status is the one given; headers are always present, with `Access-Control-Allow-Headers: Content-Type` and `Access-Control-Allow-Methods: OPTIONS,POST`; `Access-Control-Allow-Origin` is present iff the request origin is an exact member of the allow-list, and then equals it; no other header; the body is present iff the supplied dict is non-empty, and then is that dict |
| `RouteData.DecodeBody` | src/lambda/route_data.py:53-59 | an un-encoded body is passed through unchanged and never decoded; an encoded one gives the decoder's result, whose failure is its error text |
| `RouteData.FirstOr` | src/lambda/route_data.py:67-73 | the first value of the key, or "" when the form lacks it |
| `RouteData.Lookup` | src/lambda/route_data.py:74-78 | present iff the header is, and then that header's value |
| `RouteData.FirstValues` | src/lambda/route_data.py:67-73 | one value per form key `d, u, p, jit, ua, dd, ud`, in order: its first value or "" |
| `RouteData.BuildRecord` | src/lambda/route_data.py:62-87 | download/upload/ping/jitter/user_agent/download_size/upload_size are the first values of `d/u/p/jit/ua/dd/ud` or ""; content_length, time_of_test and epoch_of_test are null when absent; origin, header_user_agent, x_forwarded_for, x_forwarded_port, source_ip and source_user_agent are "" when absent; time_processed is the clock reading; orig_body, decoded_body and isBase64Encoded are the body, the decoded body and the flag applied |
| `RouteData.RecordReadsOnlyFirstValues` | src/lambda/route_data.py:60-73 | two parses that agree on the first value of the seven keys give the same record: later values and other keys are ignored |
| `RouteData.StorageKey` | src/lambda/route_data.py:92-94 | the key is the first 8 characters of the timestamp (all of it when shorter), `/processed_data_`, the whole timestamp and `.json`, each at its stated position |
| `RouteData.StorageKeyShape` | src/lambda/route_data.py:92-94 | for a timestamp `t` of at least 8 characters the key is `t[0:8] + "/processed_data_" + t + ".json"`, 29 characters longer than `t`, with the date folder before the `/`; the timestamp is recovered from the key |
| `RouteData.StorageKeyCollision` | src/lambda/route_data.py:92-94 | two keys are equal iff their timestamps are: same-second requests overwrite each other, and no others do |
| `RouteData.Plan` | src/lambda/route_data.py:36-94 | an `OPTIONS` request is a preflight, whatever else it holds; otherwise a missing body fails with `'body'`; the request is rejected iff its body has more than 10485760 characters (exactly 10485760 is admitted), with the received size; an admitted body fails with the decoder's error when decoding fails, else with the client's error when creating the client fails, else with `'OUTPUT_BUCKET'` when no bucket is configured, and is otherwise written to the bucket under the key of the clock's timestamp with the record built from the parsed decoded body, the headers, the request context and the clock; a written record holds the parsed form's first values, the processing time, the body as orig_body, the applied flag, and an un-encoded body as decoded_body |
| `RouteData.PreflightDependsOnNothingElse` | src/lambda/route_data.py:36-37 | a preflight's outcome is independent of the body, the client error, the bucket, the clock, the decoder and the parser |
| `RouteData.RejectionDependsOnlyOnSize` | src/lambda/route_data.py:40-51 | a rejected request's outcome does not depend on the decoder, the parser, the clock, the client error or the bucket |
| `RouteData.PlainBodyIsNotDecoded` | src/lambda/route_data.py:56-59 | when `isBase64Encoded` is false the decoder is never consulted |
| `RouteData.ObjectStore.PutObject` | src/lambda/route_data.py:95-97 | a write either raises the store's fault and changes nothing, or stores the record and content type under (bucket, key), replacing what was there |
| `RouteData.Handle` | src/lambda/route_data.py:14-103 | preflight: 200 with the preflight message and CORS headers; rejected: exactly `{statusCode: 413, body: {message, max_size: 10485760, received_size}}` with no headers; failed (decode, client or bucket): 500 with `{message: "Error processing data", error}` and CORS headers; write: 204 with no body when the write succeeds, else 500 with the write's error; the store changes only on a successful write, and only at that key |
| `Strings.Join` | infra/functions/redirect-remove-www.js:31 | the join of a non-empty list starts with its first part |
| `Strings.JoinEndsWithLast` | infra/functions/redirect-remove-www.js:39 | the join of a non-empty list ends with its last part |
| `Strings.JoinAppend` | infra/functions/redirect-remove-www.js:39 | joining two non-empty part lists is joining their joins with the separator |
| `Strings.SplitJoin` | infra/functions/redirect-remove-www.js:39 | splitting at the separator undoes joining when no part contains it |
| `RedirectRemoveWww.EncodeParam` | infra/functions/redirect-remove-www.js:30-36 | without `multiValue`, an empty value gives `param` and any other gives `param=value`; with `multiValue`, the part is `param=v1&param=v2…` over the values in order (`param=v` for one value), and an empty array gives "" |
| `RedirectRemoveWww.SegmentsJoinToPart` | infra/functions/redirect-remove-www.js:30-36 | a parameter's part is the `&`-join of its segments |
| `RedirectRemoveWww.Parts` | infra/functions/redirect-remove-www.js:27-37 | exactly one part per parameter, in iteration order, each the part of that parameter |
| `RedirectRemoveWww.EncodedQuery` | infra/functions/redirect-remove-www.js:25-39 | an empty querystring gives ""; one parameter gives just its part |
| `RedirectRemoveWww.EncodeRequestQuery` | infra/functions/redirect-remove-www.js:24-40 | the loop returns the parts of the parameters, one per parameter in order, joined with `&` |
| `RedirectRemoveWww.EncodedQueryAppend` | infra/functions/redirect-remove-www.js:27-39 | the query of two non-empty parameter lists is their queries joined by `&` |
| `RedirectRemoveWww.EncodedQueryIsJoinOfSegments` | infra/functions/redirect-remove-www.js:30-39 | when no `multiValue` is empty, the query is the `&`-join of every value's segment, in order |
| `RedirectRemoveWww.SplitEncodedQuery` | infra/functions/redirect-remove-www.js:30-39 | when no name or value contains `&` and no `multiValue` is empty, splitting the query at `&` gives one segment per value in order: `param=v` for each multi-value, `param` for an empty single value, `param=value` otherwise, with the values verbatim |
| `RedirectRemoveWww.QueryPart` | infra/functions/redirect-remove-www.js:7-8 | "" iff the encoded query is empty, otherwise `?` followed by the query |
| `RedirectRemoveWww.Handler` | infra/functions/redirect-remove-www.js:1-22 | it throws iff there is no Host header; the request is forwarded unchanged iff the host does not start with `www.`; otherwise the answer is a 301 `Moved Permanently` whose only header is `location` |
| `RedirectRemoveWww.RedirectLocation` | infra/functions/redirect-remove-www.js:4-10 | the location is `"https://" + newHost + uri + qpart` where `"www." + newHost` is the host, and its length follows |
| `RedirectRemoveWww.FollowingRedirectIsForwarded` | infra/functions/redirect-remove-www.js:4-21 | the redirected request (the same request on the new host) is forwarded iff the new host does not itself start with `www.` |
| `PostRequestOk.Handler` | infra/functions/post-request-ok.js:1-12 | it answers iff the method is exactly `POST`, and then with `{statusCode: 204, statusDescription: 'No Content'}` without headers; every other request is forwarded unchanged |
| `PostRequestOk.LowerCasePostIsForwarded` | infra/functions/post-request-ok.js:4 | the comparison is case-sensitive: a `post` request is forwarded |

## Left out

- The S3 client and `put_object` (network calls). Creating the client is reduced to the error it may raise, a parameter checked before the bucket name as at route_data.py:89-90. The `ObjectStore` class stands in for `put_object`.
- `datetime.now()`. Its two readings are the `Clock` parameter. They may differ, as they do in the source.
- Reading `ALLOWED_ORIGINS` and `OUTPUT_BUCKET` from the environment. The allow-list and the bucket are parameters. A missing `ALLOWED_ORIGINS` raises outside the `try` block and is not modelled. Because the source splits that variable on `,`, an empty entry would let a request with no origin get `Access-Control-Allow-Origin: ""`. The model keeps that behaviour for any allow-list holding `""`.
- Base64 and UTF-8 decoding (section 4 of RFC 4648). This is an abstract partial function, so no property of the decoder, such as `decode(encode(s)) == s`, is proved.
- `urllib.parse.parse_qs`, with its percent-decoding, `+` handling and dropping of blank values. Its output is an abstract `Form`.
- `json.dumps` and logging. Response bodies are the dicts before serialisation. The stored object is the record value. The serialisation of a record is not modelled.
- Event shapes the source does not handle. Examples: `headers` or `requestContext` present but not an object, a `null` body (`len(None)` raising `TypeError`), or a non-boolean `isBase64Encoded` read by truthiness. Header values and `sourceIp`/`userAgent`/`time` are strings, and `timeEpoch` is an integer, as the HTTP API delivers them.
- Concurrent invocations. Their only shared effect is the same-second key collision, stated by `RouteData.StorageKeyCollision`.
- The CloudFront event beyond `request.method`, `request.uri`, `request.headers.*.value` and `request.querystring`. The iteration order of `for...in` over the querystring is taken to be the order of the modelled sequence.
- `RedirectRemoveWww.SplitEncodedQuery`: it excludes an empty `multiValue` array. JavaScript treats that array as truthy, so such a parameter pushes an empty part and leaves an empty segment between `&`s. `EncodeParam` models that case; it is only left out of the round-trip statement.
