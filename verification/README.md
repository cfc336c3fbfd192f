# Profile API route — a Dafny model

This project models the mock profile API of a small Next.js application. The
route `/api/profile` keeps one in-memory profile record: an id, name, email,
optional image reference, creation time and modification time. Three handlers
work on it:

- **GET** returns the record.
- **PUT** takes a multipart form. It refuses the request when the name or
  email is missing or empty. Otherwise it replaces the name and email and
  picks the image by a four-way rule.
- **PATCH** takes a JSON body. It copies over each truthy name or email and
  keeps the image.

Each handler is a pure function from the stored record, the parsed request
and a clock reading `now` to a `Transition`: the response envelope plus the
record stored afterwards. `ProfileServer` models the module-level singleton.
It starts as the seed record, and each request in a sequence replaces the
record with what its handler stores.

Modules:

- `ProfileTypes` (`profile_types.dfy`): the `Profile` record, the image
  reference (`Undefined | Null | Url`), the response envelope, and JavaScript
  truthiness with `|| null` normalisation.
- `ProfileRoute` (`profile_route.dfy`): the seed record, the constants, and
  the `Get`, `PutImage`, `Put`, `Patch` and `Handle` transitions, and the
  invariants every request keeps.
- `RouteProperties` (`route_properties.dfy`): lemmas relating several calls,
  and the concrete requests the repository's clients and scripts send.
- `ProfileServer` (`profile_server.dfy`): the record's lifetime over a
  sequence of requests, the response trace, and the `Replay` method that drives the handlers.

Modelling decisions:

- A PUT form's `profileImage` entry is `Absent` (the form lookup gives null),
  `Text(s)` or `File(size)`. A string entry has no size, so any string entry
  keeps the prior image, not only the empty one.
- The browser client always sends the entry, as an empty string when no file
  was chosen (`app/lib/api.ts:53-57`). The test script leaves it out
  (`test-api.js:14-16`), and that clears the image.
- A PATCH body's `profileImage` is `Omitted`, `JsonNull`, `JsonString` or
  `JsonObject`. A browser `File` serialises to `{}`, which is truthy. The
  handler ignores this value either way.
- A PUT form without an image entry clears the image, as the comment at
  `app/api/profile/route.ts:66-68` says ("Explicitly set to null if no file
  provided").
- PUT checks only that name and email are present and non-empty. It applies
  no length, pattern or email-format rule. `test-validation.js:19-49`
  expects a one-letter name and a malformed email to be refused; the route
  accepts both, and the model follows the route
  (`PutAcceptsUnvalidatedFields`).
- Nothing orders the clock readings `now`. `RunStampsLastMutation` shows the
  stored time is the reading of the last accepted mutation.
- A PATCH body that is the JSON literal `null` makes `body.name` throw; the
  handler's catch answers 500 "Failed to update profile" and stores nothing
  (`PatchNull`, `PatchNullBody`). Any other JSON value reads missing members
  as undefined and goes through `Patch`.

## Model

| member | source | states |
|---|---|---|
| `ProfileTypes.OrNull` | app/api/profile/route.ts:60 | `image \|\| null` keeps a non-empty URL and turns undefined, null and `""` into null; the result is always normalised |
| `ProfileTypes.OrNullIdempotent` | app/api/profile/route.ts:60 | a reference is left unchanged by `\|\| null` exactly when it is normalised, and applying it twice equals applying it once |
| `ProfileRoute.Get` | app/api/profile/route.ts:15-23 | GET answers 200 with success and the current record as data, and stores nothing |
| `ProfileRoute.PutImage` | app/api/profile/route.ts:59-69 | a file of positive size gives the fixed placeholder URL; a missing entry gives null; a string entry or an empty file keeps the prior image, with a falsy prior value turned into null; the result is always null or a non-empty URL |
| `ProfileRoute.Put` | app/api/profile/route.ts:48-87 | PUT succeeds if and only if name and email are both present and non-empty; otherwise 400 with "Name and email are required" and the record is untouched; on success name and email are stored exactly as sent, id and creation time are kept, the modification time is `now`, and the response data equals the stored record |
| `ProfileRoute.Patch` | app/api/profile/route.ts:109-124 | PATCH with an object body always succeeds with 200; a truthy name or email replaces the stored one and a missing or empty one keeps it; the image never changes whatever the body holds; id and creation time are kept, the modification time is `now`, and the response data equals the stored record |
| `ProfileRoute.PatchNullBody` | app/api/profile/route.ts:109-133 | a PATCH whose body is `null` fails in the handler's catch: 500, success false, error "Failed to update profile", no data, and the record is untouched |
| `ProfileRoute.Handle` | app/api/profile/route.ts:15-135 | dispatches a GET, PUT, object-body PATCH or null-body PATCH to its transition; what every dispatch keeps is stated by `HandleKeepsInvariants` |
| `ProfileRoute.Seed` | app/api/profile/route.ts:5-12 | the record the process starts with: id "1", "John Doe", "john.doe@example.com", the seed image URL and the two fixed timestamps |
| `ProfileRoute.HandleKeepsInvariants` | app/api/profile/route.ts:15-133 | for every request: id and creation time survive, a normalised image stays normalised, a successful response carries the stored record, an accepted mutation succeeds and stamps `now`, and a GET, a refused PUT or a null-body PATCH stores nothing |
| `RouteProperties.PutImageOutcomes` | app/api/profile/route.ts:60-69 | in both directions: the PUT image is null exactly when the entry is missing or a keeping entry meets a falsy prior image, and it is the placeholder exactly when a non-empty file is sent or a keeping entry meets a prior placeholder |
| `RouteProperties.BrowserPutKeepsSetImage` | app/lib/api.ts:53-57 | the browser client always sends an image entry, so its accepted PUTs never clear an image that is set |
| `RouteProperties.FormWithoutImageClears` | app/api/profile/route.ts:66-69 | an accepted PUT whose form has no image entry stores a null image |
| `RouteProperties.PutRepeatable` | app/api/profile/route.ts:60-81 | sending the same PUT twice leaves the same record, response included, as one PUT at the later time |
| `RouteProperties.PatchRepeatable` | app/api/profile/route.ts:109-118 | sending the same PATCH twice leaves the same record as one PATCH at the later time |
| `RouteProperties.EmptyPatchOnlyStamps` | app/api/profile/route.ts:111-114 | a PATCH with no truthy name or email changes only the modification time |
| `RouteProperties.PatchAgreesWithFilelessPut` | app/api/profile/route.ts:109-115 | on a record with a normalised image, a PATCH naming both fields stores exactly what a browser PUT without a file stores, whatever image the PATCH body holds |
| `RouteProperties.PatchDiffersOnUndefinedImage` | app/api/profile/route.ts:113 | on every record whose image is undefined, PATCH keeps it undefined while PUT turns it into null; this is why `PatchAgreesWithFilelessPut` needs a normalised image, and `ReachableRecord` shows such a record is never reached |
| `RouteProperties.GetAfterPut` | app/api/profile/route.ts:72-85 | a GET after an accepted PUT reads back the submitted name and email and the PUT's time |
| `RouteProperties.PutAcceptsUnvalidatedFields` | app/api/profile/route.ts:48-57 | PUT accepts and stores the one-letter name "J" and the email "invalid-email" |
| `RouteProperties.PutRefusesMissingFields` | app/api/profile/route.ts:49-57 | a form with no email, or with an empty name, is refused with 400 and the fixed message, and the seed record stays |
| `RouteProperties.SeedPutImageScenarios` | app/api/profile/route.ts:59-69 | on the seed record, a form with no image entry clears the image, while an empty image entry keeps the seed image |
| `RouteProperties.PatchNameOnlyScenario` | app/api/profile/route.ts:109-115 | a PATCH naming only "Jane Doe Updated" answers 200, sets the name and keeps the email |
| `ProfileServer.Run` | app/api/profile/route.ts:81 | the record the singleton holds after a sequence of requests, each handled on the record the previous one left (`Object.assign` at lines 81 and 118); its properties are the `Run…` lemmas below |
| `ProfileServer.Trace` | app/api/profile/route.ts:83-87 | the responses to a sequence of requests, exactly one per request |
| `ProfileServer.RunKeepsIdentity` | app/api/profile/route.ts:72-78 | no sequence of requests changes the record's id or creation time |
| `ProfileServer.RunKeepsNormalisedImage` | app/api/profile/route.ts:60-69 | once the stored image is null or a non-empty URL, every sequence of requests keeps it so |
| `ProfileServer.RunStampsLastMutation` | app/api/profile/route.ts:72-118 | after any sequence of requests the modification time is the clock reading of the last accepted PUT or PATCH, or the starting time when none was accepted |
| `ProfileServer.NonMutatingRunKeepsStore` | app/api/profile/route.ts:15-57 | a sequence of GETs, refused PUTs and null-body PATCHes leaves the record exactly as it was |
| `ProfileServer.ReachableRecord` | app/api/profile/route.ts:5-12 | every record the process can hold has id "1", the seed's creation time, and a null or non-empty image |
| `ProfileServer.TraceAnswers` | app/api/profile/route.ts:15-121 | in a sequence of requests, each response is the handler's answer for the record left by the requests before it |
| `ProfileServer.TraceCarriesStore` | app/api/profile/route.ts:81-85 | in a sequence of requests, every successful response carries exactly the record stored right after its request |
| `ProfileServer.Replay` | app/api/profile/route.ts:81-85 | driving the handlers one request at a time against the singleton record, starting from a given record, ends with exactly the record `Run` describes and returns exactly the response sequence `Trace` describes, one response per request |

## Left out

- Request parsing (`formData()`, `json()`) and `NextResponse` construction are framework plumbing. Requests arrive already parsed.
- The simulated `setTimeout` delays and `console.error` are left out.
- The 500 catch paths are modelled only for the null PATCH body. A body that is not valid JSON or form data makes `json()` or `formData()` throw, and the handler answers 500; request parsing is not modelled, so these inputs are not either. GET has nothing in its body that can throw.
- A form entry for `name` or `email` that is a file, and a JSON `name` or `email` that is not a string, are not modelled. Both fields are optional strings.
- `new Date().toISOString()` becomes the parameter `now`. The clock is outside the model.
- Concurrent requests against the module-level record are left out. The route does no guarding, and the model handles requests one at a time.
- The declarative validation schema is left out. It is not applied by the route, and its rules are not defined in any modelled file.
- The React form, its hook, the fetch-based clients and the test scripts are left out. They are UI and network drivers; only the client's always-sent image entry appears, as a lemma precondition.
- `next.config.ts` is left out. It is static configuration.
