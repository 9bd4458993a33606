# Newsletter subscription endpoint — a verified model

This project models the one piece of the site with behaviour: the `POST /api/subscribe`
endpoint and the Kit.com forwarder behind it.

- **RateLimit** (`rate_limit.dfy`): the process-wide table from a client key to
  `{count, resetAt}`. A call either opens a new 60 000 ms window with count 1 or counts one
  more request in the current window. A request is rejected once the window's count exceeds 5.
  `Step` is the specification of one call. The `Limiter` class holds the table and updates it
  in place. `Replay` runs successive calls for one key.
- **EmailFormat** (`email_format.dfy`): the pattern `^[^\s@]+@[^\s@]+\.[^\s@]+$`. It is stated
  twice: as what the regex denotes (`MatchesEmailRegex`) and as the computable check the
  endpoint uses (`IsValidEmail`). The two are proved equal.
- **Kit** (`kit.dfy`): `subscribeToKit`. It checks the configuration and builds the
  subscriber's `fields` map from `source` and the non-empty UTM entries, both as a fold
  (`Fields`) and as the source's loop (`BuildFields`). It then makes the two requests:
  create the subscriber, then add it to the form. A run records the requests made, in order,
  and the returned document or the thrown error.
- **Subscribe** (`subscribe.dfy`): the handler's decision chain. Rate limit, then email
  presence and type, then email format, then forwarding. Each outcome maps to
  429 / 400 / 400 / 200 / 500. `Post` joins it to the limiter.

The clock, the request body, the environment and the two HTTP exchanges are inputs.
`wrappers.dfy` holds `Option` and `Result`.

A window resets only when the time is strictly past `resetAt`; at `resetAt` itself the old
window still applies. An empty-string email counts as missing. Only UTM values are tested for
emptiness, never keys. A UTM entry keyed `__proto__` is never stored in `fields`, because on a
plain object that assignment reaches the inherited `__proto__` setter, which ignores a string.

## Model

| member | source | states |
|---|---|---|
| `RateLimit.Step` | src/app/api/subscribe/route.ts:8-19 | Only the caller's entry changes. With no entry, or `now` strictly past `resetAt`, the entry becomes {1, now + 60000} and the call passes. Otherwise (including `now == resetAt`) the count rises by one and `resetAt` stays. The call is limited iff the new count exceeds 5. Counts stay at least 1. |
| `RateLimit.Replay` | src/app/api/subscribe/route.ts:8-19 | Successive calls for one key give one verdict per call. |
| `RateLimit.ReplayInsideWindow` | src/app/api/subscribe/route.ts:17-18 | Inside an open window, the i-th further call is limited iff count + i + 1 > 5. Rejected calls still count. |
| `RateLimit.FirstFivePerWindow` | src/app/api/subscribe/route.ts:5-18 | From a fresh window, with every call within 60000 ms of the first, calls 1 to 5 pass and call 6 onward is rejected. |
| `RateLimit.KeysIndependent` | src/app/api/subscribe/route.ts:10-18 | A call for another key changes neither this key's verdict nor its entry. |
| `RateLimit.Limiter.constructor` | src/app/api/subscribe/route.ts:4 | The table starts empty. |
| `RateLimit.Limiter.IsRateLimited` | src/app/api/subscribe/route.ts:8-19 | The new table and the verdict are those of `Step` on the old table. Every count stays at least 1. |
| `EmailFormat.IsSpace` | src/app/api/subscribe/route.ts:41 | The regex's `\s`: ECMAScript white space and line terminators. Neither `@` nor `.` is white space. |
| `EmailFormat.MatchesEmailRegex` | src/app/api/subscribe/route.ts:41 | What the anchored regex denotes: the string splits at an `@` and a later `.` into three non-empty runs of characters that are neither white space nor `@`. Such a string has at least five characters. |
| `EmailFormat.IsValidEmail` | src/app/api/subscribe/route.ts:41-42 | The check the handler applies: no white space, exactly one `@` that is not first, and a `.` after it that is neither the first nor the last character of the suffix. An accepted string has at least five characters and neither starts nor ends with `@`. |
| `EmailFormat.EmailRegexCharacterisation` | src/app/api/subscribe/route.ts:41-42 | The regex accepts exactly the strings with no white space, exactly one `@` that is not first, and a `.` after the `@` that is neither the first nor the last character of that suffix. |
| `EmailFormat.NotAnEmailRejected` | src/app/api/subscribe/route.ts:41-42 | "not-an-email" is rejected by the pattern. |
| `EmailFormat.ShortestEmailAccepted` | src/app/api/subscribe/route.ts:41-42 | "a@b.c" is accepted by the pattern. |
| `Kit.Configured` | src/lib/kit.ts:17-22 | The configuration guard fails exactly when the API key or the form id is unset or empty. |
| `Kit.Endpoint` | src/lib/kit.ts:32-50 | Every call goes to a URL under KIT_BASE. The create call goes to `/subscribers`; the form call goes under `/forms/<form id>/`. |
| `Kit.Handle` | src/lib/kit.ts:41-46 | One exchange succeeds iff the fetch returns, the body parses as JSON and the status is 2xx. A JSON reply with another status throws an API error carrying that status. |
| `Kit.SetProperty` | src/lib/kit.ts:27 | The assignment `fields[key] = value` on a plain object. Key "__proto__" leaves the object unchanged. Any other key is set to the value. No other key changes. |
| `Kit.InsertNonEmpty` | src/lib/kit.ts:26-28 | The loop over the UTM entries never removes a key and never creates "__proto__". |
| `Kit.Fields` | src/lib/kit.ts:24-29 | The `fields` record always carries "source" and never "__proto__". |
| `Kit.InsertNonEmptyKeys` | src/lib/kit.ts:26-28 | The loop's keys are the initial keys plus the keys of the entries it stores: a non-empty value under a key other than "__proto__". |
| `Kit.InsertNonEmptyKeeps` | src/lib/kit.ts:26-28 | A key named by no non-empty entry keeps its value. |
| `Kit.InsertNonEmptyLastWins` | src/lib/kit.ts:26-28 | A stored entry (non-empty value, key other than "__proto__") followed by no non-empty entry with the same key gives that key its value. |
| `Kit.InsertNonEmptyIgnoresProto` | src/lib/kit.ts:26-28 | An entry keyed "__proto__", wherever it stands, leaves the loop's result as if it were absent. |
| `Kit.FieldsIgnoreProtoEntry` | src/lib/kit.ts:24-29 | A UTM entry keyed "__proto__" is never copied: the fields equal those built without it. |
| `Kit.FieldsWithoutUtm` | src/lib/kit.ts:24-25 | With no UTM data the fields are exactly {source}. |
| `Kit.FieldsKeys` | src/lib/kit.ts:24-29 | The fields hold "source" and the keys of the UTM entries with a non-empty value and a key other than "__proto__", and no other key. Empty values are skipped. |
| `Kit.FieldsUtmValue` | src/lib/kit.ts:24-29 | Every non-empty UTM value under a key other than "__proto__" is copied (the last one for its key). A non-empty UTM "source" overwrites the given source. |
| `Kit.FieldsSourceKept` | src/lib/kit.ts:24-29 | The given source survives unless a non-empty UTM entry is keyed "source". |
| `Kit.BuildFields` | src/lib/kit.ts:24-29 | The loop builds exactly `Fields(source, utm)`. |
| `Kit.SubscribeToKit` | src/lib/kit.ts:16-68 | Unconfigured (key or form id missing or empty): it throws a configuration error and makes no request. Otherwise the first request creates the subscriber with the email and the built fields. The form request (same email, configured form id) is made iff the create succeeded, and nothing follows it. A failed create is thrown. Success iff both succeed, returning the form reply's document. |
| `Kit.NoRollback` | src/lib/kit.ts:49-65 | When the form request fails after a successful create, both requests were made, nothing undoes the create, and the run fails. |
| `Subscribe.ClientKey` | src/app/api/subscribe/route.ts:22 | Requests without an x-forwarded-for header all get the key "unknown". Otherwise the header is the key. |
| `Subscribe.HasEmail` | src/app/api/subscribe/route.ts:34 | The presence check (email falsy or not a string is rejected) passes only strings, and passes every string the format check accepts. |
| `Subscribe.DefaultSource` | src/app/api/subscribe/route.ts:51 | The forwarded source is never empty. A non-empty given source is kept; a missing or empty one becomes "unknown". |
| `Subscribe.Validate` | src/app/api/subscribe/route.ts:31-53 | An unreadable body gives 500. A missing, empty or non-string email gives 400 "Email is required" before any format check. A string the pattern rejects gives 400 "Please enter a valid email address". Exactly the valid string emails are forwarded, with their defaulted source and UTM data. |
| `Subscribe.Respond` | src/app/api/subscribe/route.ts:21-62 | A limited request gets 429 whatever its body. Status 429 iff limited. 400 iff unlimited with a readable body whose email is not a valid string. 200 `{success: true}` iff forwarded and the forwarder returned. Nothing else is answered but the five fixed responses. |
| `Subscribe.ForwarderFailureIsServerError` | src/app/api/subscribe/route.ts:49-61 | Any forwarder failure (configuration, either request) is answered 500 "Something went wrong. Please try again.". |
| `Subscribe.NotAnEmailResponse` | src/app/api/subscribe/route.ts:41-47 | Email "not-an-email" is answered 400 "Please enter a valid email address". |
| `Subscribe.DefaultSourceForwarded` | src/app/api/subscribe/route.ts:49-53 | Email "a@b.c" with no source is forwarded with source "unknown". |
| `Subscribe.SixthRequestInWindowRejected` | src/app/api/subscribe/route.ts:17-29 | The sixth and later requests from one client within a window are answered 429, whatever they carry. |
| `Subscribe.Post` | src/app/api/subscribe/route.ts:21-62 | The limiter is consulted and updated first, as `Step` says. The response is `Respond` on its verdict and the body. |

## Left out

- The clock (`Date.now()`), `request.json()`, `process.env`, `fetch` and `console.error`: the time is a parameter, the body is `Unparseable` or `Parsed`, the environment is two optional strings, and each HTTP exchange is a network error or a reply with a status and a JSON or non-JSON body. Logging has no modelled effect.
- The JSON body is reduced to what the handler reads. `source` and the UTM values are modelled as strings, as their declared types say; a non-string value there is not modelled, because the handler does not check them. A body that parses to `null` is `Unparseable`, because destructuring it throws.
- The UTM object is the sequence of entries that `Object.entries` yields. A real object has distinct keys; the model allows repeats, where the later non-empty entry wins.
- The JSON documents returned by Kit are kept abstract as text. The serialisation of the request bodies and the `Content-Type` header are not modelled. Each `Call` carries the API key, the email, and the fields or the form id; `Endpoint` gives its URL.
- The regex engine: the model states the language the pattern denotes, not how it is matched.
- The regex has no `u` flag, so JavaScript matches it over UTF-16 code units; a string here is a sequence of Unicode scalar values, so a lone surrogate (which the source accepts, as in `"\ud800@b.c"`) cannot be represented. On every string the model can represent, it accepts the same language.
- `RateLimit.Limiter.IsRateLimited`: the source increments the stored entry object in place; the model replaces the map entry with an updated value. Nothing else holds a reference to that object, so no aliasing is lost.
- Concurrency across requests or server instances is not modelled; calls are sequential. The table grows without bound, as in the source, which has no eviction.
