# Swiftfin streaming resource loader, modelled in Dafny

Swiftfin plays media from a Jellyfin server, which may ask for a TLS client
certificate that AVPlayer cannot supply on its own. So the app always hands the
player a stream URL whose scheme carries the marker `ctls` (`ctlshttps://…`),
and builds the custom resource loader with an `AuthDelegate` when the keychain
holds an identity for the host and with no auth delegate otherwise.
AVFoundation does not know the marked scheme, so it asks the loader for each
byte range. The loader strips the marker and fetches the range over its own
URLSession with a `Range: bytes=<first>-<last>` header. That session answers a
client-certificate challenge with the configured identity, if there is one.
The loader then passes the response metadata, the bytes and the completion
back to the player's loading request.

The model has seven modules besides `Wrappers` (`wrappers.dfy`, which holds `Option`):

- `Strings` (`strings.dfy`): Swift's `starts(with:)`, shared by the two modules below it.
- `Decimal` (`decimal.dfy`): Swift's `Int64(String)` and `"\(n)"` for 64-bit integers.
- `HttpRange` (`http_range.dfy`): `parseContentRange` and the outbound `Range`
  header, with an independent formatter and parser as partners (RFC 7233,
  sections 2.1 and 4.2).
- `UrlScheme` (`url_scheme.dfy`): `transformUrlScheme` over a URL record.
- `Auth` (`auth_delegate.dfy`): `AuthDelegate`'s challenge decision, a pure function.
- `StreamLoader` (`stream_loader.dfy`): the two delegate classes. Each is an
  imperative Dafny class whose map fields are updated by one method per
  callback. AVFoundation's loading request, URLSession's data task and the
  session are small classes holding just the state the loader touches.
- `LoaderScenarios` (`loader_scenarios.dfy`): complete lifecycles of a loading
  request, proved from the callbacks' contracts alone.

Every `fatalError()` on a modelled path becomes an explicit `Fatal(reason)` outcome.
So does the trap of an overflowing Swift `Int` addition. Every method states
exactly when that outcome occurs and what state the process had reached.

### Behaviour of the code worth knowing

- `requestMap` loses an entry only in `didCancel` (line 237). Completion
  (line 71) removes only the `taskRequestMap` entry, so a request that
  completes without being cancelled keeps its `requestMap` entry for good
  (see `LoaderScenarios.FetchTwoChunks`).
- A completion with the cancellation error finishes the loading request *with*
  that error: `finishLoading(with:)` at line 62 runs before the cancellation
  guard at line 63 (see `LoaderScenarios.CancelThenComplete`).
- A per-task authentication challenge is fatal (line 133). Only the
  session-level challenge (lines 136-147) is forwarded to `AuthDelegate`.
- Registration does not check for a duplicate task id, and the model writes it
  as a plain map update. The ids never clash because URLSession issues unique
  identifiers (the model's `Session` is a counter), not because the loader checks.
- Registering the same loading request twice overwrites its `requestMap` entry.
  The earlier task is then never cancelled. Both tasks keep their
  `taskRequestMap` entries pointing at the same loading request, and lines 88
  and 95 call `finishLoading` without checking `isFinished`, so two refused
  responses finish that request twice.
- A zero-length data request produces `bytes=<off>-<off-1>`, which RFC 7233
  section 2.1 calls invalid (`HttpRange.RangeHeaderCoversRequest`).
- A signed `Content-Range` total such as `bytes 0-1/-5` is accepted and becomes
  the content length (`HttpRange.ContentRangeAcceptsSignedTotal`).
- The `Content-Range` unit is matched case-sensitively: `Bytes 0-99/200` gives
  no length (`HttpRange.ContentRangeUnitIsCaseSensitive`), although RFC 5234
  section 2.3 makes the literal `bytes` of RFC 7233 case-insensitive. A total
  with leading zeros, `bytes 0-99/0200`, is read as 200
  (`HttpRange.ParseContentRangeDigitTotal`).

## Model

| member | source | states |
|---|---|---|
| `Decimal.ParseInt64` | Shared/Objects/StreamResourceLoader.swift:273 | `Int64(_:)`: an optional sign, then digits; accepted text is non-empty, a negative result comes only from a leading `-`, and a `-` never gives a positive value. `ParseInt64Shape` (only sign-and-digits text is accepted), `ParseUnsignedDigits` and `UnsignedOverflow` (the value of any unsigned digit run, or its refusal) and `SignedDigits` (the value of any `+` or `-` digit run, or its refusal) together give its whole behaviour |
| `Decimal.Show` | Shared/Objects/StreamResourceLoader.swift:222 | `"\(n)"`: non-empty, a leading `-` exactly for a negative n, digits after the first character |
| `Decimal.ParseDigits` | Shared/Objects/StreamResourceLoader.swift:273 | a digit run parses exactly when it is non-empty and all ASCII digits |
| `Decimal.DecimalDigits` | Shared/Objects/StreamResourceLoader.swift:222 | the printed form of a natural number is a non-empty run of digits |
| `Decimal.ParseShow` | Shared/Objects/StreamResourceLoader.swift:273 | `Int64(_:)` reads back every 64-bit value that string interpolation prints |
| `Decimal.ParseInt64Shape` | Shared/Objects/StreamResourceLoader.swift:273 | `Int64(_:)` accepts only an optional sign followed by at least one digit: no blanks, no other characters |
| `Decimal.SignedDigits` | Shared/Objects/StreamResourceLoader.swift:273 | `+` or `-` followed by any digit run, leading zeros included, is read as that signed value when it fits in 64 bits and refused otherwise |
| `Decimal.UnsignedOverflow` | Shared/Objects/StreamResourceLoader.swift:273 | an unsigned digit run whose value exceeds `Int64.max`, leading zeros included, is refused |
| `Decimal.ParseInt64RefusesOverflow` | Shared/Objects/StreamResourceLoader.swift:273 | a value outside 64 bits is refused, not wrapped or clamped |
| `Decimal.ParseUnsignedDigits` | Shared/Objects/StreamResourceLoader.swift:273 | a run of ASCII digits, leading zeros included, is read as its value whenever that fits in 64 bits |
| `Decimal.ParseInt64Examples` | Shared/Objects/StreamResourceLoader.swift:273 | empty text, a lone sign, blanks and `*` are refused; `+7`, `-12` and `007` are read |
| `Strings.StartsWithPointwise` | Shared/Objects/StreamResourceLoader.swift:259-270 | `StartsWith`, Swift's `starts(with:)`, holds exactly when the text is at least as long as the prefix and agrees with it position by position |
| `HttpRange.FirstIndexOf` | Shared/Objects/StreamResourceLoader.swift:271 | the result is the first position holding the character, or None when no position holds it |
| `HttpRange.ParseContentRange` | Shared/Objects/StreamResourceLoader.swift:269-275 | a total is returned only for a header that starts with `bytes ` and contains `/`, and it is the `Int64` parse of the text after the first `/` |
| `HttpRange.ParseContentRangeSplit` | Shared/Objects/StreamResourceLoader.swift:271-273 | for a `bytes ` header, only the text after the first `/` decides the result |
| `HttpRange.ParseFormattedContentRange` | Shared/Objects/StreamResourceLoader.swift:269-275 | every value in the canonical form `FormatContentRange` prints (lower-case unit, numbers without leading zeros) yields its complete length, and the unknown-length form yields None |
| `HttpRange.ParseContentRangeDigitTotal` | Shared/Objects/StreamResourceLoader.swift:271-273 | any run of digits after the first `/` of a `bytes ` header, leading zeros included, is read as its value when it fits in 64 bits |
| `HttpRange.ContentRangeUnitIsCaseSensitive` | Shared/Objects/StreamResourceLoader.swift:270 | `Bytes 0-99/200` gives None: the unit is compared exactly |
| `HttpRange.ContentRangeExampleSatisfied` | Shared/Objects/StreamResourceLoader.swift:269-275 | `bytes 0-99/200` gives 200 |
| `HttpRange.ContentRangeExampleUnsatisfied` | Shared/Objects/StreamResourceLoader.swift:269-275 | `bytes */500` gives 500 |
| `HttpRange.ContentRangeExamplesRefused` | Shared/Objects/StreamResourceLoader.swift:270-273 | `bytes 0-99/*`, `bytes 0-1` and `not-bytes 0-1/2` give None |
| `HttpRange.ContentRangeAcceptsSignedTotal` | Shared/Objects/StreamResourceLoader.swift:273 | a negative total is passed on as it is |
| `HttpRange.LastByteIndex` | Shared/Objects/StreamResourceLoader.swift:220-221 | the upper bound is offset + length - 1, and it traps exactly when the sum or the difference leaves 64 bits |
| `HttpRange.RangeHeaderValue` | Shared/Objects/StreamResourceLoader.swift:222 | the `Range` value is `bytes=` followed by the printed lower bound, `-` and the printed upper bound; `ParseRangeHeaderValue` reads it back |
| `HttpRange.ParseRangeHeaderSplit` | Shared/Objects/StreamResourceLoader.swift:222 | a `bytes=` value splits at its first `-` into two integers |
| `HttpRange.ParseRangeHeaderValue` | Shared/Objects/StreamResourceLoader.swift:222 | the `Range` value built from two positions reads back as those positions |
| `HttpRange.RangeHeaderCoversRequest` | Shared/Objects/StreamResourceLoader.swift:220-222 | the header starts at the offset and spans exactly `length` bytes, and it is a valid RFC 7233 range iff length >= 1 |
| `UrlScheme.TransformScheme` | Shared/Objects/StreamResourceLoader.swift:259-263 | a marked scheme loses its 4-character `ctls` marker; any other scheme gains it |
| `UrlScheme.TransformUrlScheme` | Shared/Objects/StreamResourceLoader.swift:254-266 | only the scheme changes; a URL without a scheme, or one that cannot be decomposed, is returned unchanged |
| `UrlScheme.UnwrapWrap` | Shared/Objects/StreamResourceLoader.swift:259-263 | marking an unmarked scheme and unmarking it gives it back |
| `UrlScheme.TransformTwice` | Shared/Objects/StreamResourceLoader.swift:254-266 | applying the transform twice is the identity unless the scheme starts with `ctlsctls` |
| `UrlScheme.DoublyMarkedSchemeIsNotRestored` | Shared/Objects/StreamResourceLoader.swift:259-263 | `ctlsctlshttps` becomes `https` after two transforms, so the bound is tight |
| `UrlScheme.HttpsRoundTrip` | Shared/Objects/StreamResourceLoader.swift:254-266 | `https` becomes `ctlshttps`, and `ctlshttps` becomes `https` |
| `Auth.HandleChallenge` | Shared/Objects/AuthDelegate.swift:22-53 | the credential disposition is chosen iff the challenge is client-certificate, on its first attempt, with an identity set; the credential is then that identity with session persistence; every other case is default handling with no credential |
| `Auth.CredentialOnlyWhenUsed` | Shared/Objects/AuthDelegate.swift:49-52 | a credential comes only with `.useCredential`, carries the configured identity and lasts only for the session |
| `Auth.RetryIsNeverAnswered` | Shared/Objects/AuthDelegate.swift:37-41 | a challenge with a previous failure gets default handling, whatever identity is set |
| `Auth.OtherMethodsIgnoreIdentity` | Shared/Objects/AuthDelegate.swift:31-35 | challenges of any other method get default handling, whatever identity is set |
| `Auth.Offers` | Shared/Objects/AuthDelegate.swift:31-52 | over n attempts of one handshake the identity is offered once if the first attempt is answered and never otherwise: the retry guard stops every later attempt |
| `Auth.OfferedAtMostOnce` | Shared/Objects/AuthDelegate.swift:31-52 | however often a handshake is retried, the identity is offered exactly once for client-certificate handshakes with an identity, and never otherwise |
| `StreamLoader.IsCancellation` | Shared/Objects/StreamResourceLoader.swift:63 | an error counts as cancellation exactly when it is a `URLError` whose code is `NSURLErrorCancelled` (-999), the test also made at line 48 |
| `StreamLoader.Rejection` | Shared/Objects/StreamResourceLoader.swift:82-98 | a response is accepted iff it is HTTP with a 2xx status and a MIME type; a bad status or non-HTTP response gives the status error, and a 2xx without MIME type gives the MIME error |
| `StreamLoader.StatusDominatesMimeType` | Shared/Objects/StreamResourceLoader.swift:82-91 | a non-2xx response is refused for its status even when a MIME type is present |
| `StreamLoader.ContentLengthAfter` | Shared/Objects/StreamResourceLoader.swift:113-118 | the content length becomes the parsed `Content-Range` total when that header is present and parses, and is otherwise unchanged |
| `StreamLoader.RouteSessionChallenge` | Shared/Objects/StreamResourceLoader.swift:136-147 | a credential is used iff an auth delegate is configured and would answer; otherwise default handling with no credential |
| `StreamLoader.NoDelegateIsEmptyIdentity` | Shared/Objects/StreamResourceLoader.swift:136-147 | no auth delegate and an auth delegate without identity answer every challenge alike |
| `StreamLoader.LoadingRequest.Respond` | Shared/Objects/StreamResourceLoader.swift:36 | `respond(with:)` appends the chunk to the bytes the player has received and changes nothing else |
| `StreamLoader.LoadingRequest.FinishLoading` | Shared/Objects/StreamResourceLoader.swift:60-68 | `finishLoading()` and `finishLoading(with:)` (also at lines 88 and 95) mark the request finished with the given error, count one more finish, and leave the received bytes and content information alone |
| `StreamLoader.SessionDataDelegate.constructor` | Shared/Objects/StreamResourceLoader.swift:30-32 | the session delegate starts with an empty registry and the given auth delegate |
| `StreamLoader.RequestData.constructor` | Shared/Objects/StreamResourceLoader.swift:16-24 | a new entry holds its loading request, a byte count of 0 and no type |
| `StreamLoader.SessionDataDelegate.DidReceiveData` | Shared/Objects/StreamResourceLoader.swift:34-38 | fatal iff the task is unknown; otherwise the chunk is appended to the request's received bytes, the count grows by exactly its length, and no other entry changes |
| `StreamLoader.SessionDataDelegate.DidCompleteWithError` | Shared/Objects/StreamResourceLoader.swift:44-72 | fatal for an unknown task; a finished request is left alone; an unfinished one is finished once, with the error if any; a non-cancellation error is then fatal; otherwise exactly that entry is removed |
| `StreamLoader.SessionDataDelegate.DidReceiveResponse` | Shared/Objects/StreamResourceLoader.swift:74-125 | fatal for an unknown task; a refused response finishes the request with its error and cancels; an accepted one records the type and allows; content-information requests get type, range support (iff `Accept-Ranges` is exactly `bytes`) and length; pre-set allowed types are fatal; data-only requests get no metadata |
| `StreamLoader.SessionDataDelegate.DidReceiveChallenge` | Shared/Objects/StreamResourceLoader.swift:136-147 | the session-level challenge is answered as the optional auth delegate routes it |
| `StreamLoader.SessionDataDelegate.DidReceiveTaskChallenge` | Shared/Objects/StreamResourceLoader.swift:127-134 | a per-task challenge is fatal |
| `StreamLoader.Session.CreateDataTask` | Shared/Objects/StreamResourceLoader.swift:228 | a new suspended task with a fresh identifier is created for the request |
| `StreamLoader.DataTask.Resume` | Shared/Objects/StreamResourceLoader.swift:231 | a suspended task starts running; a task in any other state is left as it is |
| `StreamLoader.DataTask.Cancel` | Shared/Objects/StreamResourceLoader.swift:238 | the task is asked to cancel |
| `StreamLoader.RangeRequest` | Shared/Objects/StreamResourceLoader.swift:217-226 | the request goes to the transformed URL, with only a `Range` header naming offset through offset + length - 1, and is absent exactly when that bound overflows |
| `StreamLoader.ResourceLoaderDelegate.constructor` | Shared/Objects/StreamResourceLoader.swift:181-184 | the loader starts with empty maps and the given auth delegate |
| `StreamLoader.ResourceLoaderDelegate.ShouldWaitForLoadingOfRequestedResource` | Shared/Objects/StreamResourceLoader.swift:205-234 | no data request or no URL: false, nothing changes; otherwise a running ranged task is created and stored under the request; a fresh id gets an entry with count 0 and no type; the result is true |
| `StreamLoader.ResourceLoaderDelegate.DidCancel` | Shared/Objects/StreamResourceLoader.swift:236-244 | fatal iff the request has no task; otherwise exactly its entry is removed and its task cancelled; the registry is untouched |
| `StreamLoader.ResourceLoaderDelegate.ShouldWaitForResponseToAuthenticationChallenge` | Shared/Objects/StreamResourceLoader.swift:188-198 | the loader never waits for an authentication challenge |
| `StreamLoader.ResourceLoaderDelegate.DidCancelAuthenticationChallenge` | Shared/Objects/StreamResourceLoader.swift:200-203 | a cancelled authentication challenge is fatal |
| `StreamLoader.ResourceLoaderDelegate.ShouldWaitForRenewalOfRequestedResource` | Shared/Objects/StreamResourceLoader.swift:246-251 | renewal is fatal |
| `LoaderScenarios.CancelThenComplete` | Shared/Objects/StreamResourceLoader.swift:236-244 | cancel then cancelled completion: the request is finished exactly once (`finishCount == 1`) with the cancellation error, and both maps are empty |
| `LoaderScenarios.FetchTwoChunks` | Shared/Objects/StreamResourceLoader.swift:34-72 | the chunks arrive in order and the request finishes exactly once, without error; the registry empties, but the request map keeps its entry |
| `LoaderScenarios.RefusedResponse` | Shared/Objects/StreamResourceLoader.swift:82-91 | a 404 with a MIME type cancels and finishes with the status error, and the later completion does not finish it again (`finishCount == 1`) |
| `LoaderScenarios.CancelTwice` | Shared/Objects/StreamResourceLoader.swift:237 | a second cancellation of the same request is fatal |
| `LoaderScenarios.TwoRequests` | Shared/Objects/StreamResourceLoader.swift:228-230 | two requests get distinct tasks, and data for one leaves the other's count at 0 |

## Left out

- `UrlScheme.TransformUrlScheme`: the `components.url ?? url` fallback at line 265 is not modelled. The model assumes the re-assembled URL always exists. Foundation's handling of a scheme the rewrite makes invalid, such as the empty scheme left from `ctls`, is not modelled either.
- `HttpRange.ParseContentRange`: Swift's `starts(with:)` and `firstIndex(of:)` at lines 270-271 compare `Character`s (grapheme clusters); `Strings.StartsWith` and `HttpRange.FirstIndexOf` compare Unicode scalars. They differ when a combining mark follows the space or a `/`: for `bytes 0-1/\u{301}/5` Swift skips the combined `/` and returns 5 where the model returns None, and for `bytes \u{301}0-1/5` Swift returns nil where the model returns 5. Header values are ASCII in practice.
- `HttpRange.FirstIndexOf`: finds the first `/` scalar, not the first `/` Character, for the reason above.
- `StreamLoader.SessionDataDelegate.DidReceiveData`: `dataCount` is an unbounded integer. The `Int64` overflow trap at line 37 would need 2^63 bytes of one response.
- The callbacks that only call `fatalError()` have no member: `didBecomeInvalidWithError` (41), `didBecome downloadTask` (154), `taskIsWaitingForConnectivity` (162) and `willBeginDelayedRequest` (171). `didCreateTask` (149-151) has none either, since it only logs.
- The platform's ordering guarantees are not preconditions: one response per task, data before completion, completion once. The callbacks accept any order, and their contracts say what each does in every state.
- `UTType(mimeType:)` is a table given to `DidReceiveResponse` as a parameter (`TypeForMime`). Uniform type identifiers themselves are not modelled.
- Header lookups (`value(forHTTPHeaderField:)`, case-insensitive in Foundation) appear as the looked-up values in the response record.
- Task identifiers come from a counter in `Session` that starts at 0. URLSession's real numbering, networking, the `resume` side effects and delivery of the callbacks are outside the model.
- The delegate queue and all concurrency (line 183) are not modelled. The model is a single sequence of callbacks.
- All `LogManager` and logger calls are not modelled. The same goes for the `isContentInformationRequest` flag at line 209, which feeds only a log line.
- The credential's `certificates: nil` argument is implicit in `Auth.Credential`: no intermediate certificates are ever sent.
- `Int(lower)` at line 221 is taken to be lossless, as it is on 64-bit platforms.
- Shared/Singleton/CertificateManager.swift is not part of this model. It holds Keychain and PKCS#12 wrappers and a network fetch.
- Swiftfin/Views/VideoPlayer/NativePlayerViewController.swift is not part of this model. It handles player UI, time observers and progress reporting. It builds the loader with an `AuthDelegate` when the store holds an identity for the host and with none otherwise (lines 44-50), which is why the loader's auth delegate is an `Option<Auth.AuthDelegate>`, and it marks every stream URL (line 53; `UrlScheme.HttpsRoundTrip` for `https`).
- Shared/ViewModels/ServerDetailViewModel.swift is not part of this model. It is UI glue over the Keychain.
