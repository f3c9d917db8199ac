# CalmLogs client: registration gate, navigation highlight and API requests

A Dafny model of the logic in the CalmLogs web client (the React front end of a
small log-viewer demo). Most of the client is markup and styling. What it decides
comes down to three things:

- **Registration gate.** A username and a user id are kept in the browser's
  `localStorage` under `calmlogs_username` and `calmlogs_userId`. The username entry
  page rejects blank input and stores the trimmed name with a generated id. The
  route guard renders a page only for a registered user and otherwise redirects to
  `/username-entry`.
- **Navigation highlight.** The header shows a fixed table of five links. A link is
  highlighted when the pathname equals its href, or, for any link but `/`, when the
  pathname starts with its href.
- **API requests.** Each call of the API client builds a request: a method, a path
  and query parameters or a JSON body. Missing optional parameters get fixed
  defaults through `??`.

Storage is an immutable `map<string, string>`. Each operation is a pure function
from the old storage to the new one. The page and the guard return their navigation
decisions as values, where the React code calls `navigate` or renders `<Navigate>`.
The random id generator is an argument (`generated`). JavaScript `trim` is modelled
with the exact ECMAScript whitespace and line-terminator set.

The server in the repository (`server/src/app.ts`) answers `/health`, `/api/hello` and
`/api/time` with JSON of a fixed shape, with the current time in `/health` and
`/api/time`, and echoes the body posted to `/api/logs`. It serves none of the heavy,
unstable or batch paths the client calls. It is not modelled.

Two helpers have no contract of their own; the members that use them state their meaning:
`UsernameEntryPage.Step` dispatches the mount, edit and submit events to `OnMount`,
`OnChange` and `HandleSubmit` (`client/src/pages/UsernameEntryPage.tsx`, lines 11-15,
53 and 65-68), and `Layout.RenderLink` builds one `<Link>` with its class name
(`client/src/components/Layout.tsx`, lines 29-40), as `RenderNav` states per link.

Files: `js_values.dfy` (`undefined`/`null`, `??` and `||`), `js_string.dfy`
(`trim`), `user_storage.dfy`, `username_entry_page.dfy`, `protected_route.dfy`,
`layout.dfy`, `api.dfy`.

## Model

| member | source | states |
|---|---|---|
| JsValues.Coalesce | client/src/services/api.ts:36 | `x ?? d`: a defined value is returned as is, and `undefined` or `null` yields the default |
| JsValues.OrElse | client/src/utils/userStorage.ts:19 | `x || d` on a string: a defined non-empty string is returned as is; `undefined`, `null` and `""` yield the default |
| JsValues.CoalesceKeepsDefined | client/src/services/api.ts:36 | `??` keeps any defined value, including falsy ones such as `0` or `""` |
| JsValues.CoalesceDefaultsMissing | client/src/services/api.ts:36-37 | `??` yields the default when the value is `undefined` or `null` |
| JsValues.CoalesceVersusOrElse | client/src/utils/userStorage.ts:19 | `??` and `||` on a string give different results exactly when the value is the defined empty string and the default is non-empty |
| JsString.TrimStart | client/src/pages/UsernameEntryPage.tsx:20 | the result is a suffix of the input; everything removed is whitespace; the result does not start with whitespace |
| JsString.TrimEnd | client/src/pages/UsernameEntryPage.tsx:20 | the result is a prefix of the input; everything removed is whitespace; the result does not end with whitespace |
| JsString.Trim | client/src/pages/UsernameEntryPage.tsx:20 | the result has no whitespace at either end and is the input minus whitespace-only runs at its two ends |
| JsString.TrimUnique | client/src/pages/UsernameEntryPage.tsx:26 | any trimmed slice of the input reached by removing only whitespace at the ends is equal to `trim` of the input |
| JsString.TrimBlankIff | client/src/pages/UsernameEntryPage.tsx:20 | `trim` gives the empty string exactly when every character of the input is whitespace |
| JsString.TrimIdempotent | client/src/pages/UsernameEntryPage.tsx:26 | trimming an already trimmed string changes nothing |
| UserStorage.GetItem | client/src/utils/userStorage.ts:27-36 | a lookup returns a value exactly when the key is present, and that value is the stored one; otherwise null |
| UserStorage.GetUsername | client/src/utils/userStorage.ts:27-29 | returns the stored username exactly when its key is present, otherwise null |
| UserStorage.GetUserId | client/src/utils/userStorage.ts:34-36 | returns the stored user id exactly when its key is present, otherwise null |
| UserStorage.SaveUser | client/src/utils/userStorage.ts:18-22 | both keys exist afterwards; the username key holds the given name; the id key holds a non-empty given id, and otherwise the generated id; every other key keeps its value |
| UserStorage.IsUserRegistered | client/src/utils/userStorage.ts:41-43 | registered exactly when both keys are present, whatever their values |
| UserStorage.ClearUser | client/src/utils/userStorage.ts:48-51 | the two keys are gone; every other key and value is kept |
| UserStorage.SaveThenGet | client/src/utils/userStorage.ts:18-36 | after a save with a non-empty id, the getters return the saved username and id |
| UserStorage.SaveWithoutIdUsesGenerated | client/src/utils/userStorage.ts:19 | an absent, null or empty id is replaced by the generated id |
| UserStorage.EmptyUsernameIsRegistered | client/src/utils/userStorage.ts:41-43 | an empty-string username still counts as registered |
| UserStorage.SaveRegisters | client/src/utils/userStorage.ts:18-43 | after any save the user is registered |
| UserStorage.SaveLastWriteWins | client/src/utils/userStorage.ts:18-22 | a second save overwrites both values; the first save leaves no trace |
| UserStorage.ClearUnregisters | client/src/utils/userStorage.ts:27-51 | after a clear, both getters return null and the user is not registered |
| UserStorage.ClearIdempotent | client/src/utils/userStorage.ts:48-51 | clearing twice is the same as clearing once |
| UserStorage.ClearUndoesSave | client/src/utils/userStorage.ts:18-51 | clear after save leaves the same storage as clear alone |
| UserStorage.SaveIgnoresPriorRegistration | client/src/utils/userStorage.ts:18-22 | save after clear leaves the same storage as save alone |
| UserStorage.OtherKeysUntouched | client/src/utils/userStorage.ts:18-51 | save and clear leave every lookup of a key other than the two registration keys unchanged |
| UserStorage.GettersIgnoreOtherKeys | client/src/utils/userStorage.ts:27-43 | writing any other key changes neither getter nor the registration check |
| UsernameEntryPage.Initial | client/src/pages/UsernameEntryPage.tsx:6-7 | the page starts with empty input and no error |
| UsernameEntryPage.OnMount | client/src/pages/UsernameEntryPage.tsx:11-15 | on mount the page navigates to `/` (replacing the history entry) exactly when the user is already registered |
| UsernameEntryPage.OnChange | client/src/pages/UsernameEntryPage.tsx:65-68 | editing sets the input to the new value, always clears the error and leaves storage alone |
| UsernameEntryPage.HandleSubmit | client/src/pages/UsernameEntryPage.tsx:17-30 | a submit navigates exactly when the input is not all whitespace; the input text is never changed, and a successful submit does not touch the error text |
| UsernameEntryPage.BlankSubmitRejected | client/src/pages/UsernameEntryPage.tsx:20-23 | a blank submit sets the error "Username tidak boleh kosong", leaves storage unchanged and does not navigate |
| UsernameEntryPage.SubmitStoresTrimmedName | client/src/pages/UsernameEntryPage.tsx:26-29 | a non-blank submit stores exactly the trimmed input with the generated id, registers the user and navigates to `/` |
| UsernameEntryPage.SubmitKeepsOtherKeys | client/src/pages/UsernameEntryPage.tsx:17-30 | a submit, blank or not, leaves every storage key other than the two registration keys unchanged |
| UsernameEntryPage.StepKeepsStoredNameTrimmed | client/src/pages/UsernameEntryPage.tsx:20-26 | every page event keeps an already-trimmed stored username trimmed; no event stores an untrimmed one |
| UsernameEntryPage.SubmittedNameIsTrimmed | client/src/pages/UsernameEntryPage.tsx:26 | the name a non-blank submit stores is trimmed: trimming it again changes nothing |
| UsernameEntryPage.EditClearsRejection | client/src/pages/UsernameEntryPage.tsx:20-68 | after a blank submit has set the error, the next edit clears it |
| ProtectedRoute.Guard | client/src/components/ProtectedRoute.tsx:11-17 | redirects, with replace, to `/username-entry` exactly when a registration key is missing; otherwise renders its children unchanged |
| ProtectedRoute.GuardAfterClear | client/src/components/ProtectedRoute.tsx:12-13 | after a clear, the guard redirects to the entry page |
| ProtectedRoute.GuardAfterSave | client/src/components/ProtectedRoute.tsx:12-16 | after any save, the guard renders its children |
| ProtectedRoute.GuardOnlyReadsRegistration | client/src/components/ProtectedRoute.tsx:12 | two storages with the same registration status get the same decision |
| ProtectedRoute.GuardIgnoresOtherKeys | client/src/components/ProtectedRoute.tsx:12 | writing a key other than the two registration keys never changes the decision |
| ProtectedRoute.NoRedirectLoop | client/src/components/ProtectedRoute.tsx:12-16 | a user the guard redirects is not sent away again by the entry page, and a user the entry page sends home gets through the guard |
| ProtectedRoute.SubmitOpensGuard | client/src/components/ProtectedRoute.tsx:12-16 | after a non-blank submit on the entry page, the guard renders |
| Layout.IsActive | client/src/components/Layout.tsx:33-34 | an active href is never longer than the pathname and is its leading part; conversely, any non-root href that is the leading part of the pathname is active |
| Layout.RenderNav | client/src/components/Layout.tsx:28-41 | one rendered link per table entry, in table order, with its href and text; the link gets the highlight class exactly when it is active |
| Layout.ExactMatchActive | client/src/components/Layout.tsx:33 | every link is active when the pathname equals its href |
| Layout.RootOnlyExact | client/src/components/Layout.tsx:34 | the `/` link is active on `/` and on no other pathname |
| Layout.PrefixActivates | client/src/components/Layout.tsx:34 | a non-root link is active on every pathname that starts with its href |
| Layout.PrefixNotSegmentAware | client/src/components/Layout.tsx:34 | the prefix test is a plain string prefix: `/docs` is active on `/docs/search` and on `/docsx`, but not on `/doc` |
| Layout.ShortPathInactive | client/src/components/Layout.tsx:33-34 | a pathname shorter than an href never activates that link |
| Layout.AtMostOneActive | client/src/components/Layout.tsx:3-34 | with the fixed five-link table, no pathname makes two links active |
| Layout.AtMostOneHighlighted | client/src/components/Layout.tsx:28-41 | in the rendered bar, at most one link carries the highlight class |
| Api.GetHealth | client/src/services/api.ts:21-24 | a GET to `/health` with no parameters |
| Api.GetHello | client/src/services/api.ts:27-30 | a GET to `/api/hello` with no parameters |
| Api.GetHeavyProcess | client/src/services/api.ts:33-41 | a GET to `/api/heavy-process` that always sends both query parameters; each is the given value when defined and its own default (3000, 1000000) when it or the whole parameter object is missing |
| Api.GetUnstableProcess | client/src/services/api.ts:44-52 | a GET to `/api/heavy-process-unstable` that always sends both query parameters; each is the given value when defined and its own default (2000, 0.3) when it or the whole parameter object is missing |
| Api.PostBatchProcess | client/src/services/api.ts:55-61 | a POST to `/api/batch-process` whose body carries the items unchanged and in order |
| Api.PostLog | client/src/services/api.ts:64-72 | a POST to `/api/logs` whose body carries level, message and data verbatim |
| Api.PathsDistinct | client/src/services/api.ts:22-65 | the six calls target six different paths |
| Api.HeavyDefaults | client/src/services/api.ts:35-38 | with no parameters, or both fields missing, the query is duration 3000 and iterations 1000000 |
| Api.HeavyKeepsExplicit | client/src/services/api.ts:36-37 | each field is defaulted on its own: an explicit duration or iteration count is sent as given, with a missing neighbour still defaulted |
| Api.UnstableDefaults | client/src/services/api.ts:46-49 | with no parameters, or both fields missing, the query is duration 2000 and fail rate 0.3 |
| Api.UnstableKeepsExplicit | client/src/services/api.ts:47-48 | each field is defaulted on its own: an explicit duration or fail rate is sent as given, with a missing neighbour still defaulted |
| Api.BatchDelayDefault | client/src/services/api.ts:56-59 | the processing delay is 100 when missing and the given value otherwise |
| Api.LogSourceDefault | client/src/services/api.ts:65-70 | the source is "client" when missing and the given value otherwise, an explicit `""` included |
| Api.ExplicitResendIsStable | client/src/services/api.ts:33-70 | sending back what a call sent, as explicit parameters, builds the same request |

## Left out

- The random user id (`generateUserId`, built from `Math.random`) is an argument of `SaveUser` rather than a computation; its format is not modelled.
- React rendering, hooks, markup and styling are not modelled. `navigate` and `<Navigate>` become returned values. `e.preventDefault()` has no counterpart.
- The getters change no storage: `GetUsername`, `GetUserId` and `IsUserRegistered` are pure functions of the storage and return no new storage.
- `localStorage` failures (quota exceeded, storage disabled) and storage shared between tabs are not modelled. The storage is one map owned by one page at a time.
- The HTTP transport (`api-client.ts`, axios), responses, timing and tracing are not modelled. Only the request each call builds is.
- JavaScript numbers are modelled as reals. NaN, infinities and floating-point rounding are not modelled. No arithmetic happens on them, and `failRate` is passed through unchanged.
- The log `level` is the four-value enumeration the request type declares. A value outside it, which TypeScript would reject, is not modelled.
- The server (`server/src/app.ts`) is wiring left out of this model. It returns JSON of a fixed shape, with the current time in `/health` and `/api/time`, or echoes a posted body. It picks its port with `process.env.PORT || 8000` (line 5).
- The query hooks, the tracer set-up, `AboutPage.tsx`, `ContactPage.tsx` and the docs pages are presentation, instrumentation or wiring left out of this model. Among their decisions:
  - `use-health.ts` and `use-hello.ts` default `enabled` with `options?.enabled ?? true` (line 14).
  - `web-tracer.ts` filters events by the element's tag name (lines 50 and 55). It sets a `username` attribute only when the stored `calmlogs_username` is truthy (lines 62-63).
  - `use-trace-form.ts` falls back with `username || "anonymous"` (line 12).
  - So tracing treats an empty stored username as absent, whereas `IsUserRegistered` counts it as present (`EmptyUsernameIsRegistered`).
  - Each docs page's code block switches its label on whether the code was copied, for example `DocsStorage.tsx` line 22.
- `App.tsx`, `DocsLayout.tsx` and `MockPage.tsx` are presentation left out of this model. Among their decisions:
  - `App.tsx` skips a blank log (line 8).
  - `DocsLayout.tsx` highlights a sidebar item on exact pathname equality (line 68).
  - `MockPage.tsx` shows a result or an error depending on which one is present (lines 205-220), and falls back through `||` (line 249).
- JavaScript strings are sequences of UTF-16 code units, while a Dafny `string` holds Unicode scalar values, so a string with a lone surrogate cannot be represented. On every string that can be, `trim` agrees with the model, because every whitespace character is a non-surrogate in the Basic Multilingual Plane.
