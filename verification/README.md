# dis-redirect-api: the redirect resource protocol in Dafny

The Redirect API stores redirects: a `from` path that maps to a `to` path, kept in a
key-value store (Redis in production) under the key `from`. Over HTTP a redirect is named
by an id, the base64 text of its `from` path. Four handlers serve the resource:

- `GET /redirects/{id}` reads one redirect;
- `PUT /redirects/{id}` creates it (201) or replaces it (200);
- `DELETE /redirects/{id}` removes it (204);
- `GET /redirects?count=&cursor=` lists one scan step of the store, with a self link per item.

This project models those handlers as written in `api/redirects.go`, and the older revision of
upsert and delete in `api/redirect.go`, over a model of the store façade in
`store/datastore.go` and the URL builder in `url/builder.go`. It proves what each handler
answers for every input and store state. That covers the status, the body, which store calls
are made and in what order, and how the stored map changes. It also proves that upsert and
delete preserve the store invariant: every stored redirect has two relative paths and is not a
loop.

Modules, one per file:

| file | module | models |
|---|---|---|
| `wrappers.dfy` | `Wrappers` | `Option` and `Result` |
| `gostrings.dfy` | `GoStrings` | Go strings as byte sequences; `strings.HasPrefix`, `strings.Contains` |
| `base64.dfy` | `Base64` | Go's `encoding/base64` padded encodings (the standard and URL-safe alphabets of RFC 4648, sections 4 and 5), as the handlers use them |
| `decimal.dfy` | `Decimal` | `strconv.ParseInt(s, 10, 32)`, `strconv.ParseUint(s, 10, 32)`, `strconv.FormatUint` |
| `urlbuilder.dfy` | `UrlBuilder` | `url.Builder` |
| `paths.dfy` | `Paths` | `isValidRelativePath` |
| `models.dfy` | `Models`, `ApiErrors`, `Http` | response bodies, the API's error values, HTTP answers |
| `store.dfy` | `Store` | the store backend (a map with injectable errors) and `store.Datastore` |
| `redirects.dfy` | `RedirectsApi` | the handlers of `api/redirects.go` |
| `legacy.dfy` | `LegacyApi` | the handlers of `api/redirect.go` |
| `scenarios.dfy` | `Scenarios` | request sequences against a fresh store |

The store backend is a class. Its fields are the stored map and, for each operation, an
error it can be told to return. It also keeps a log of the calls it receives, so the handler
contracts can state which store calls happen. A key the backend does not hold is reported
as `key <k> not found`, the text the handlers look for.

Facts the proofs establish about the code as written:

- **Two alphabets.** The get, upsert and delete handlers first check an id with the
  standard base64 alphabet, then decode it with the URL-safe alphabet. The listing creates
  ids with the standard alphabet. An id passes both steps only if it uses neither `+`, `/`
  (standard only) nor `-`, `_` (URL-safe only). Then both decodings give the same key
  (`Base64.DecodeAgree`). So a listed id can be followed exactly when its text has no `+`
  or `/` (`RedirectsApi.ListedIdAccepted`). For example the path `/??` is listed with the
  id `Lz8/`, and the handlers refuse that id with a 400 (`RedirectsApi.ListedIdRefusedExample`;
  through the router a `/` inside the id never reaches them at all).
  Its URL-safe id `Lz8_` is accepted by the older revision and refused by the current one
  (`LegacyApi.UrlSafeIdExample`).
- **Failed probe reads.** When the probe read before a write fails with an error that does
  not contain "not found", the current upsert answers 500 and writes nothing. The older
  upsert ignores that error and writes anyway, answering 201. On a failed probe the current
  delete answers with the store's own error text. The delete test at
  `api/redirects_test.go:495-506` expects the older revision's fixed text
  "failed to check redirect existence" (`Scenarios.FailingReads`).
- **Cursors.** A client that sends back a `next_cursor` resumes at exactly that cursor,
  unless the cursor needs more than 32 bits: the handler parses cursors with a 32-bit limit
  and refuses it (`RedirectsApi.PageQueryResumes`).

Three behaviours of the current handlers worth stating on their own: ids are checked with
the standard alphabet (`api/redirects.go:204-207`); a failed delete probe is answered with the
store's own error (`api/redirects.go:185-186`); and a failed upsert probe is a 500 with no
write (`api/redirects.go:133-136`).

## Model

| member | source | states |
|---|---|---|
| `GoStrings.ContainsSuffix` | api/redirects.go:47 | a string contains every suffix, so an error ending in `key <k> not found` matches the 404 test |
| `Base64.Encode` | api/redirects.go:210-214 | the encoding has `4 * ceil(n/3)` characters |
| `Base64.EncodeChars` | api/redirects.go:210-214 | every character of an encoding is a digit of its alphabet or `=` |
| `Base64.Decode` | api/redirects.go:205 | a decodable text is a multiple of four characters once newlines are dropped, and decodes to three bytes per quantum less at most two for padding |
| `Base64.DecodeQuantaLength` | api/redirects.go:205 | the same length facts for the quanta, by induction over them |
| `Base64.DecodeEncode` | api/redirects.go:204-214 | decoding the encoding of any byte string gives it back, for either alphabet (newlines skipped, trailing bits lax) |
| `Base64.DecodeChars` | api/redirects.go:204-207 | a string that decodes holds only alphabet digits, `=` and newlines |
| `Base64.DecodeAgree` | api/redirects.go:26-40 | when an id decodes under both alphabets, both decodings give the same bytes |
| `Base64.EncodeSameWithoutStdOnlyDigits` | api/redirects.go:210-214 | when the standard encoding has no `+` or `/`, the URL-safe encoding is the same text |
| `Base64.UrlDecodableHasNoStdOnlyDigits` | api/redirects.go:34-40 | a string the URL-safe decoder accepts holds no `+` or `/` |
| `Decimal.ParseUint32` | api/redirects.go:254 | a parsed cursor is at most 2^32 - 1 |
| `Decimal.ParseInt32` | api/redirects.go:235 | a parsed count lies in the int32 range |
| `Decimal.FormatUint` | api/redirects.go:308 | the next cursor's text is non-empty digits with no leading zero |
| `Decimal.FormatUintValue` | api/redirects.go:308 | the digits `FormatUint` writes denote the number it was given |
| `Decimal.ParseUint32FormatUint` | api/redirects.go:254-263 | reading back a cursor's text gives the cursor exactly when it fits in 32 bits |
| `Decimal.ParseInt32FormatUint` | api/redirects.go:235-241 | reading back a count's text gives the count exactly when it is at most 2^31 - 1 |
| `Decimal.ParseInt32Negative` | api/redirects.go:235-249 | `-` before a count's text gives its negation, down to -2^31 |
| `Decimal.ParseUint32RejectsSign` | api/redirects.go:254-263 | a cursor beginning with `-` or `+` does not parse |
| `UrlBuilder.NewBuilder` | url/builder.go:14-22 | the builder gives back the base URL it was made with |
| `UrlBuilder.Builder.GetRedirectAPIURL` | url/builder.go:20-22 | the base URL the builder holds begins every self URL it builds |
| `UrlBuilder.Builder.BuildRedirectSelfURL` | url/builder.go:25-27 | the self URL starts with the base URL and continues with exactly the id |
| `UrlBuilder.SelfURLInjective` | url/builder.go:25-27 | different ids never get the same self URL |
| `Paths.IsValidRelativePath` | api/redirects.go:200-202 | a path is valid iff it is non-empty, starts with `/`, and its second byte (if any) is not `/`; the copy at api/redirect.go:113-115 is identical and shares this definition |
| `Paths.RejectedExamples` | api/redirects.go:200-202 | `""`, `foo` and `//x` are refused; `/` and `/economy/old-path` accepted |
| `Store.ValueReply` | store/datastore.go:38-40 | a read succeeds iff no error is injected and the key is held, and then gives the stored value; a failed read gives the empty string |
| `Store.AbsentKeyReply` | api/redirects_test.go:110-131 | an absent key is reported as `key <k> not found`, which contains both the get handler's pattern and "not found" |
| `Store.Backend.GetValue` | store/datastore.go:19 | answers the lookup of the key and logs the call |
| `Store.Backend.SetValue` | store/datastore.go:20 | stores the value unless a write error is injected, and logs the call with its arguments |
| `Store.Backend.DeleteValue` | api/redirects.go:191 | removes the key unless a delete error is injected; deleting an absent key succeeds |
| `Store.Backend.GetKeyValuePairs` | api/redirects.go:265 | answers the configured scan step and logs the count and cursor |
| `Store.Backend.GetTotalKeys` | api/redirects.go:311 | answers the number of stored keys unless an error is injected |
| `Store.Datastore.GetRedirect` | store/datastore.go:34-36 | answers exactly the backend's read of the key, changing no data |
| `Store.Datastore.GetValue` | store/datastore.go:38-40 | answers exactly the backend's read of the key, changing no data |
| `Store.Datastore.UpsertValue` | store/datastore.go:42-44 | forwards key, value and expiration unchanged to the backend's write and returns its error |
| `Store.Datastore.DeleteValue` | api/redirects.go:191 | forwards the delete and returns its error |
| `Store.Datastore.GetRedirects` | api/redirects.go:265 | forwards the scan step with the same count and cursor |
| `Store.Datastore.GetTotalCount` | api/redirects.go:311 | forwards the total count |
| `RedirectsApi.IsValidBase64` | api/redirects.go:204-207 | a valid id holds only standard digits, `=` and newlines, in a multiple of four characters once newlines are dropped |
| `RedirectsApi.EncodeBase64` | api/redirects.go:210-214 | a listed id decodes under the standard alphabet back to its key |
| `RedirectsApi.CheckId` | api/redirects.go:26-40 | an id gets past the checks iff it decodes under both alphabets, and then gives the key both decode it to; a failed standard check is a 400 "invalid base64 id", a failed URL-safe decoding a 400 with the decoder's error |
| `RedirectsApi.ListedIdAccepted` | api/redirects.go:277-280 | a listed id is accepted by get, upsert and delete iff it has no `+` or `/`, and then it leads back to its key |
| `RedirectsApi.EncodeExample` | api/redirects.go:210-214 | the listed id of `/??` is `Lz8/` |
| `RedirectsApi.ListedIdRefusedExample` | api/redirects.go:34-40 | the listed id of `/??` is refused with a 400 from the URL-safe decoder |
| `RedirectsApi.RefusedByStd` | api/redirects.go:204-207 | an id with a byte the standard decoder neither decodes nor skips is a 400 "invalid base64 id" |
| `RedirectsApi.InvalidIdExample` | api/redirects_test.go:508-515 | the id `invalid_base64` is a 400 "invalid base64 id" |
| `RedirectsApi.ValidateUpsert` | api/redirects.go:81-124 | the upsert body is accepted iff the id is accepted, the body decodes, `from` equals the decoded id and the redirect is valid (both relative, not a loop); each failure is a 400 with the text of the first failing check, in source order |
| `RedirectsApi.ParsePageQuery` | api/redirects.go:222-263 | missing count is 10 and missing cursor 0; an accepted count is an int32 that is not negative, an accepted cursor a uint32; the cursor text is echoed as given; a count that does not parse is the invalid-count error, a negative one the negative-count error, and then a cursor that does not parse the invalid-cursor error; a parsable non-negative count with a parsable cursor is accepted |
| `RedirectsApi.PageQueryDefaults` | api/redirects.go:222-230 | with no query the page is 10 redirects from cursor 0 |
| `RedirectsApi.PageQueryResumes` | api/redirects.go:252-308 | sending back a count's and a cursor's decimal text resumes at that cursor iff it fits in 32 bits, otherwise an invalid-cursor 400 |
| `RedirectsApi.NegativeCountRefused` | api/redirects.go:243-249 | any negative count in the int32 range is refused as negative |
| `RedirectsApi.SignedCursorRefused` | api/redirects.go:251-263 | a signed cursor such as `-7` is refused as an invalid cursor |
| `RedirectsApi.ListItem` | api/redirects.go:278-292 | a listed item keeps `from` and `to`, its id decodes to `from`, and its self link is the builder's URL for that id |
| `RedirectsApi.PublicListItem` | features/steps/steps.go:111-115 | with the public base, a listed item's id is the standard base64 of `from`, its self id is that id, and its self href is the public base followed by the id |
| `RedirectsApi.RewriteSelfLink` | api/redirects.go:342-351 | a rewrite changes only the self href, to the link builder's answer, or fails with the link builder's error |
| `RedirectsApi.ListItems` | api/redirects.go:275-293 | the loop lists every scanned pair exactly once, each as its list item, in any order |
| `RedirectsApi.RewriteSelfLinks` | api/redirects.go:297-306 | the loop rewrites item i into position i, or stops with the error of the first item whose rewrite fails |
| `RedirectsApi.RewrittenListing` | api/redirects.go:297-306 | when every item's rewrite succeeds, the rewritten items list every pair exactly once, each as the rewrite of its list item |
| `RedirectsApi.RewriteSucceedsForAll` | api/redirects.go:297-306 | when every item's rewrite succeeds, no stored pair's rewrite fails |
| `RedirectsApi.ListPage` | api/redirects.go:275-306 | the page items fail iff rewriting is on and some pair's rewrite fails (with that error); otherwise they list every pair, rewritten when rewriting is on |
| `RedirectsApi.RedirectAPI.GetRedirect` | api/redirects.go:21-73 | a bad id is a 400 with no store call; otherwise one read: value gives 200 `{from, to}`, an error containing `key <k> not found` a 404 with that error, any other error a 500 "internal error"; the data never changes |
| `RedirectsApi.RedirectAPI.UpsertRedirect` | api/redirects.go:76-153 | failed checks are 400s with no store call; a probe error without "not found" is a 500 with that error and no write; otherwise `SetValue(from, to, 0)`: its failure is a 500 "internal error" and no change, success stores `to` under `from` with 201 if the probed value was empty and 200 if not; valid stores stay valid |
| `RedirectsApi.RedirectAPI.DeleteRedirect` | api/redirects.go:156-198 | a bad id is a 400 with no store call; a probe error is a 404 if it contains "not found" and a 500 otherwise, both with that error and no delete; otherwise the delete: failure is a 500 with its error, success a 204 with the key removed; valid stores stay valid |
| `RedirectsApi.RedirectAPI.GetRedirects` | api/redirects.go:217-339 | bad query parameters are a 400 with no store call; a scan error a 500 "internal error"; a failed rewrite a 500 with that rewrite's error and no count call; a count error a 500; otherwise 200 with the parsed count, the cursor text, the next cursor's decimal text, the store's total, and every scanned pair listed (rewritten when enabled); the data never changes |
| `LegacyApi.IsValidBase64` | api/redirect.go:108-111 | a valid id holds only URL-safe digits, `=` and newlines, so never `+` or `/` |
| `LegacyApi.ValidateUpsert` | api/redirect.go:18-53 | the body is accepted iff the id decodes URL-safe, the body decodes, `from` equals the decoded id and the redirect is valid; each failure is a 400 with the text of the first failing check in source order (invalid id, plain "bad request" for an undecodable body, id mismatch, not relative, circular); the "cannot decode id" answer never happens |
| `LegacyApi.AcceptsCurrentIds` | api/redirect.go:108-111 | every id the current handlers accept the older ones accept too, decoding it to the same key |
| `LegacyApi.UrlSafeIdExample` | api/redirect.go:108-111 | `Lz8_`, the URL-safe id of `/??`, is accepted by the older revision and refused by the current one with "invalid base64 id" |
| `LegacyApi.API.UpsertRedirect` | api/redirect.go:18-69 | a failed probe is ignored and the write always happens after the checks; a failed write is a 500 "failed to save"; success stores the redirect with 201 for an empty probed value and 200 otherwise; valid stores stay valid |
| `LegacyApi.API.DeleteRedirect` | api/redirect.go:72-106 | a bad id is a 400; a probe error is a 404 "redirect not found" if it contains "not found" and otherwise a 500 "failed to check redirect existence"; a failed delete is a 500 "failed to delete redirect"; success a 204 with the key removed |
| `Scenarios.CreateReplaceRead` | api/redirects.go:140-152 | on an empty store the first upsert is a 201, the second a 200, and a read then answers the second target |
| `Scenarios.DeleteThenRead` | api/redirects.go:156-198 | deleting a stored redirect is a 204; reading or deleting it again is a 404 with `key <k> not found` |
| `Scenarios.ListOne` | api/redirects_test.go:155-210 | a default listing of a one-redirect store is a 200 with count 10, cursor "0", next cursor "0", total 1 and that redirect's list item alone |
| `Scenarios.FollowListedId` | api/redirects.go:277-280 | reading a stored redirect by its listed id answers the redirect if the id has no `+` or `/`, and a 400 otherwise |
| `Scenarios.FailingReads` | api/redirects_test.go:495-506 | with failing reads the current upsert and delete are 500s carrying the store error, which lacks the text the test expects; the older upsert still writes with 201 and the older delete gives "failed to check redirect existence" |

## Left out

- Logging, HTTP routing (`gorilla/mux`), request contexts, and the headers `http.Error` sets. Its trailing newline is also left out: an error answer is modelled as its status and text.
- JSON: the request body is given already decoded, as `from` and `to` or as "does not decode". Response bodies are given as values. Marshalling and writing them (api/redirects.go:61-72, 326-338) are not modelled. Marshalling these string-only structs cannot fail, and writing is I/O.
- The library's error texts are not modelled. Base64 and JSON decoding failures are answered with the library's error text, so the model names only which library failed.
- RedirectsApi.RewriteSelfLink: the link builder from `links.FromHeadersOrDefault` (api/redirects.go:295) is a parameter that may fail. How it derives links from request headers and `apiURL` belongs to another library.
- RedirectsApi.RedirectAPI.constructor: the `RedirectAPI` struct in api/api.go:18-21 and its `Setup` do not hold the store, URL builder and rewriting flag the handlers use. The model's constructor stands in for that wiring. Health checks, configuration, the service, the Redis client and the SDKs are outside this model.
- Store.Backend.GetKeyValuePairs: which pairs one Redis scan step returns, and the cursor it returns, are configured on the backend rather than computed. Go's random map iteration order is captured only as "any order" in `ListItems`.
- Store.Backend.GetTotalKeys: the total is the number of keys in the modelled map. The unit-test mock answers an unrelated number.
- Store.Datastore.DeleteValue, Store.Datastore.GetRedirects, Store.Datastore.GetTotalCount: the handlers call these, but the revision of store/datastore.go at hand has no such methods and its `Storer` has no such operations. They are modelled as pass-throughs to the backend, like the methods it does have.
- UrlBuilder.Builder.BuildRedirectSelfURL: the base `*url.URL` is modelled by the text `String()` gives for it. URL parsing and normalisation are not modelled.
- Concurrency: two requests racing between an upsert's probe read and its write are not modelled. Each handler runs alone against the store.
- The "cannot decode id" answer of api/redirect.go:27-31 is not modelled as a branch. It cannot happen, because the decoding repeats the check that just succeeded.
- Integer widths: counts are int32 after parsing and cursors uint32, as the handler enforces. The store's 64-bit cursor is unbounded here, and `FormatUint` is modelled for every natural number.
