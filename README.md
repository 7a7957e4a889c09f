# ai-notes-app: a verified model of the session gate, notes hooks, summarize endpoint and note form

This project models the parts of the note-taking application that make decisions of their own:

- **Session gate** (`lib/middleware.ts`, module `SessionGate`). This is a pure decision from the requested path and whether a session exists. It picks one of three outcomes: redirect to `/login`, redirect to `/dashboard`, or pass through. The module also models the guard's `config.matcher` patterns. It makes no claim about when the framework runs the guard.
- **Notes hooks** (`lib/hooks/use-notes.ts` and the `Note` type of `lib/types.ts`, module `NotesRepository`).
  - The list and single-note `queryFn`s and the create/update/delete `mutationFn`s are pure functions. Their inputs are the session and the store's reply. Each returns the value the call resolves with or throws, and the store request it sent, if any.
  - The class `NotesHooks` runs those functions the way the mutation wiring does. It records every request sent to the store. Only after a success does it add the keys that `onSuccess` invalidates to the set of stale query keys.
  - `ApplyPatch`/`ApplyUpdate` give the meaning of the update request on a table keyed by id.
- **Summarize endpoint** (`app/api/summarize/route.ts`, module `SummarizeRoute`). This covers text validation (400), the prompt, extraction of `candidates[0].content.parts[0].text`, and the 500 mapping of every exception. The parsed request body and the reply of the generative-text service are inputs.
- **Summarize client** (`lib/hooks/use-summarize.ts`, module `SummarizeClient`). This covers the request, the success condition and the precedence of the rethrown message. It also holds a function for the HTTP client's settling on a response and an end-to-end lemma: every error body of the endpoint reaches the caller verbatim.
- **Note form** (`components/notes/notes-form.tsx`, module `NotesForm`). The class `NoteForm` holds the four state fields. Its methods `Submit` and `Summarize` are the two handlers, and its functions give the submit-enabled condition, the summarize-button visibility and the button label.

Shared helpers:
- `Wrappers` holds `Option` and `Result`.
- `Text` holds JavaScript's `trim` whitespace set, `IsBlank`, `startsWith`, truthiness of strings, and a `Trim` function. It proves that `Trim(s) == ""` exactly when every character of `s` is whitespace.

Behaviour of the code worth noting:
- The form always submits `summary` as a string, so an unsummarized note is created with `""`, not without a summary.
- A reply from the upstream service that has `parts[0]` but no `text` is not an error in the endpoint. The response is 200 with `{summary: undefined}`, which serialises as `{}`. The client wrapper then rejects it with "No summary was generated".
- The gate reads only `data.session` from the session lookup. A lookup that reports an error yields a null session and is treated as "no session". A lookup that rejects outright is not caught, and the guard throws. The model takes session presence as an input.
- Update has no session check of its own. Its `undefined` fields are not written, because `undefined` members are dropped when the request is serialised. So an update can leave a column unchanged. It cannot set the summary back to absent, though it can write `""`, which the form sends when the summary field is empty.

## Model

| member | source | states |
|---|---|---|
| `Text.TrimEmptyIffBlank` | app/api/summarize/route.ts:8 | `s.trim()` is empty exactly when every character of `s` is JavaScript whitespace, which justifies modelling blankness as `IsBlank` |
| `Text.TrimStart` | app/api/summarize/route.ts:8 | the result is the suffix of `s` left after its leading whitespace, and it starts with a non-whitespace character |
| `Text.Trim` | app/api/summarize/route.ts:8 | definition: `s.trim()`, `trimStart` followed by `trimEnd` |
| `Text.TrimEnd` | app/api/summarize/route.ts:8 | the result is the prefix of `s` left before its trailing whitespace, and it ends with a non-whitespace character |
| `SessionGate.IsProtected` | lib/middleware.ts:18 | definition: `protectedRoutes.some(...)` over the constant route list |
| `SessionGate.IsAuthRoute` | lib/middleware.ts:25 | definition: `authRoutes.includes(path)`, exact membership |
| `SessionGate.UnderRoute` | lib/middleware.ts:18 | definition: the `some` callback, the path equals the route or starts with the route followed by `/` |
| `SessionGate.SomeRouteCovers` | lib/middleware.ts:18 | `routes.some(...)` holds exactly when some route equals the path or is a prefix of it followed by `/` |
| `SessionGate.ProtectedIff` | lib/middleware.ts:13-18 | a path is protected iff it is `/dashboard` or starts with `/dashboard/` |
| `SessionGate.Decide` | lib/middleware.ts:17-30 | redirect to `/login` iff the path is protected and there is no session; redirect to `/dashboard` iff the path is exactly `/login` or `/signup` and there is a session; redirect targets are only those two |
| `SessionGate.SegmentBoundaries` | lib/middleware.ts:13-25 | `/dashboardx` is not protected, `/dashboard/notes` is, and `/login/x` and `/` are not auth routes |
| `SessionGate.OthersPassThrough` | lib/middleware.ts:17-30 | pass-through happens exactly when neither rule applies; `/` always passes, as do protected paths with a session and auth paths without one |
| `SessionGate.RouteSetsDisjoint` | lib/middleware.ts:13-14 | no path is both protected and an auth route, so at most one redirect rule fires |
| `SessionGate.NoRedirectLoop` | lib/middleware.ts:17-30 | the target of any redirect passes through in the same session state |
| `SessionGate.PatternMatches` | lib/middleware.ts:34 | definition: one matcher pattern; a trailing `/:path*` matches the stem and everything below it, any other pattern one path |
| `SessionGate.GuardConfigured` | lib/middleware.ts:33-35 | definition: some pattern of `config.matcher` matches the path |
| `SessionGate.WildcardPattern` | lib/middleware.ts:33-35 | the pattern `/dashboard/:path*` matches `/dashboard` and every path below `/dashboard/` |
| `SessionGate.LiteralPatterns` | lib/middleware.ts:33-35 | the other three matcher patterns match exactly `/`, `/login` and `/signup` |
| `SessionGate.MatcherCoversRedirects` | lib/middleware.ts:13-35 | the guard is configured for a path iff it is `/` or some session state makes it redirect |
| `NotesRepository.ListQuery` | lib/hooks/use-notes.ts:10-26 | no session: `[]` and no request; otherwise a request for all rows ordered by `updated_at` descending, the store's rows returned, and a store error rethrown unchanged; an empty result means no session or an empty store answer, never a masked error |
| `NotesRepository.Describe` | lib/hooks/use-notes.ts:64 | the store error's message when it is non-empty, else its JSON text |
| `NotesRepository.CreateMutation` | lib/hooks/use-notes.ts:34-66 | no session: exactly "Authentication required to create notes", unprefixed and with no insert; the inserted row is the input plus the session user's id; success iff the store returns data; every later failure is a new error starting "Error creating note: ", including the no-data case |
| `NotesRepository.UpdateMutation` | lib/hooks/use-notes.ts:73-91 | the request updates the row with the input's id, writing title, content, summary and the given time and never the id; store errors are rethrown unwrapped |
| `NotesRepository.DeleteMutation` | lib/hooks/use-notes.ts:99-110 | deletes by id; resolves with the given id iff the store succeeds, else rethrows the store error |
| `NotesRepository.NoteQueryEnabled` | lib/hooks/use-notes.ts:149 | definition: `enabled: !!noteId`, a present non-empty id |
| `NotesRepository.NoteQuery` | lib/hooks/use-notes.ts:129-149 | an absent or empty id gives `null` with no request; otherwise it selects by id; `PGRST116` gives `null`, every other error is rethrown, and a row is returned as found |
| `NotesRepository.ApplyPatch` | lib/hooks/use-notes.ts:76-81 | written columns take the patch's values, unwritten ones keep theirs; id, owner and creation time never change; `updated_at` is the new time |
| `NotesRepository.ApplyUpdate` | lib/hooks/use-notes.ts:74-84 | the update changes only the row whose id matches, keeps the set of ids and keeps every row's id |
| `NotesRepository.UpdateWritesSubmittedFields` | lib/hooks/use-notes.ts:74-84 | updating with a submitted title/content/summary sets exactly those and the new time on the matching row and leaves all other rows as they were |
| `NotesRepository.CreateInvalidates` | lib/hooks/use-notes.ts:68 | definition: create's `onSuccess` invalidates `['notes']` |
| `NotesRepository.UpdateInvalidates` | lib/hooks/use-notes.ts:93-94 | definition: update's `onSuccess` invalidates `['notes']` and `['note', data.id]` |
| `NotesRepository.DeleteInvalidates` | lib/hooks/use-notes.ts:112 | definition: delete's `onSuccess` invalidates `['notes']` |
| `NotesRepository.NotesHooks.constructor` | lib/hooks/use-notes.ts:5-6 | no request sent and no key invalidated yet |
| `NotesRepository.NotesHooks.Invalidate` | lib/hooks/use-notes.ts:68 | `invalidateQueries` adds the keys to the stale set |
| `NotesRepository.NotesHooks.FetchNotes` | lib/hooks/use-notes.ts:8-30 | resolves as `ListQuery`; logs its request; invalidates nothing; with no session it sends nothing and returns `[]` |
| `NotesRepository.NotesHooks.CreateNote` | lib/hooks/use-notes.ts:33-70 | resolves as `CreateMutation`, logs its request, and invalidates only `['notes']`, only on success; with no session nothing is sent |
| `NotesRepository.NotesHooks.UpdateNote` | lib/hooks/use-notes.ts:72-96 | resolves as `UpdateMutation` and, only on success, invalidates `['notes']` and `['note', id]` for the returned note's id |
| `NotesRepository.NotesHooks.DeleteNote` | lib/hooks/use-notes.ts:98-114 | resolves with the deleted id on success and then invalidates only `['notes']`; a failure invalidates nothing |
| `NotesRepository.NotesHooks.FetchNote` | lib/hooks/use-notes.ts:126-151 | resolves as `NoteQuery`, logs its request and invalidates nothing |
| `SummarizeRoute.ReadOfUndefined` | app/api/summarize/route.ts:35 | the TypeError raised by a missing level of the reply path has a non-empty message |
| `SummarizeRoute.TrimNotAFunction` | app/api/summarize/route.ts:8 | definition: the message of the TypeError `text.trim()` raises on a truthy non-string |
| `SummarizeRoute.TextMissing` | app/api/summarize/route.ts:8 | definition: `text` is falsy, or a string whose `trim()` is empty (the values that do not throw) |
| `SummarizeRoute.ExtractSummary` | app/api/summarize/route.ts:35 | the walk succeeds iff candidates and parts are present and non-empty, and then yields `candidates[0].content.parts[0].text`; otherwise it throws a non-empty message |
| `SummarizeRoute.Failure` | app/api/summarize/route.ts:38-44 | status 500 with the exception's message, or "Failed to summarize text" when it is empty |
| `SummarizeRoute.Prompt` | app/api/summarize/route.ts:20 | the prompt is the fixed prefix followed by the text verbatim |
| `SummarizeRoute.Post` | app/api/summarize/route.ts:4-44 | status is 200, 400 or 500; 200 iff the body is `{summary}`, and every error body is non-empty; missing or blank text gives 400 "Text content is required" with no upstream call, and 400 happens only then; exactly a non-blank string text is sent upstream, with the prefix; a truthy non-string text gives 500 "text.trim is not a function"; a reply with the whole candidates/parts path gives 200 `{summary}` with the text found there, and 200 happens only then |
| `SummarizeRoute.FailuresAreServerErrors` | app/api/summarize/route.ts:5-44 | an unreadable body, a truthy non-string `text` (500 "text.trim is not a function", with no upstream call), an upstream error and a reply without the candidates/parts path each give 500 with that failure's message |
| `SummarizeRoute.RejectionIgnoresUpstream` | app/api/summarize/route.ts:8-15 | for missing or blank text the response does not depend on the upstream service |
| `SummarizeRoute.BlankExamples` | app/api/summarize/route.ts:8-20 | `{}`, `""` and whitespace-only text are rejected with 400; `" a "` is forwarded verbatim after the prefix |
| `SummarizeClient.Request` | lib/hooks/use-summarize.ts:8 | definition: `axios.post('/api/summarize', { text })`, the path and the text sent |
| `SummarizeClient.BodyOf` | app/api/summarize/route.ts:6 | definition: the body the endpoint parses from that request, whose `text` is the string sent |
| `SummarizeClient.RethrownMessage` | lib/hooks/use-summarize.ts:17 | `response.data.error` if truthy, else the error's own message if truthy, else "Failed to generate summary"; never empty |
| `SummarizeClient.Resolve` | lib/hooks/use-summarize.ts:6-19 | resolves iff a truthy summary came back, with that summary; a missing or empty summary rejects with exactly "No summary was generated"; an HTTP failure rejects with the precedence message |
| `SummarizeClient.Deliver` | lib/hooks/use-summarize.ts:8-17 | a 2xx response resolves with its `summary`; any other status rejects carrying the body's `error` |
| `SummarizeClient.ErrorsReachCaller` | lib/hooks/use-summarize.ts:8-17 | end to end through the endpoint (the request being `{text}` posted to `/api/summarize`): the caller gets a summary iff the endpoint returned 200 with a non-empty one, so a non-empty text at the service's reply path reaches the caller; every endpoint error message reaches the caller verbatim; blank text yields "Text content is required" |
| `NotesForm.InitialField` | components/notes/notes-form.tsx:19-21 | a field starts as the `initialData` value when there is one, else `""` |
| `NotesForm.Validate` | components/notes/notes-form.tsx:28-36 | no error iff title and content are both non-blank; a blank title gives "Title is required", checked before content; a blank content then gives "Content is required" |
| `NotesForm.DisplayedError` | components/notes/notes-form.tsx:52 | the thrown message when non-empty, else the form's fallback text |
| `NotesForm.FallbackNeverDisplayed` | components/notes/notes-form.tsx:52 | with this summarize wrapper the form shows the thrown message itself, since it is never empty |
| `NotesForm.NoteForm.constructor` | components/notes/notes-form.tsx:18-22 | title, content and summary start from `initialData` or `""`, and the error starts as `null` |
| `NotesForm.NoteForm.SetTitle` | components/notes/notes-form.tsx:72 | the title input's change handler sets the title |
| `NotesForm.NoteForm.SetContent` | components/notes/notes-form.tsx:84 | the content input's change handler sets the content |
| `NotesForm.NoteForm.SetSummary` | components/notes/notes-form.tsx:113 | the summary input's change handler sets the summary |
| `NotesForm.NoteForm.SetSubmitting` | components/notes/notes-form.tsx:15 | a new `isSubmitting` prop value |
| `NotesForm.NoteForm.Submit` | components/notes/notes-form.tsx:26-38 | the error becomes the first failed check, or `null`; `onSubmit` is called exactly when both checks pass, once, with the untrimmed title and content and the current summary; no field but `error` changes |
| `NotesForm.NoteForm.Summarize` | components/notes/notes-form.tsx:40-54 | blank content sets "Please add some content before summarizing" with no request and keeps the summary; otherwise it posts `{text: content}` to `/api/summarize`, and on success replaces the summary and clears the error; on failure it keeps the summary and shows the thrown message or the fallback |
| `NotesForm.NoteForm.SubmitEnabled` | components/notes/notes-form.tsx:124 | the submit button is enabled iff not submitting and `Submit`'s checks would pass |
| `NotesForm.NoteForm.SummarizeVisible` | components/notes/notes-form.tsx:91 | the summarize button is shown iff the content is not blank, which is exactly when `Summarize` sends a request |
| `NotesForm.NoteForm.SubmitLabel` | components/notes/notes-form.tsx:127 | "Update Note" iff `initialData.id` is a non-empty string, otherwise "Create Note" |

## Left out

- The auth service. `getSession` is replaced by its result: whether a session is present and its user's id. A rejected lookup is not modelled.
- The database client. Every store reply is an input: `Ok(data)` or `Err(StoreError(code, message, json))`. The model makes no promise about the store's row order, its access policy, or how it generates ids and timestamps. The `json` field stands for `JSON.stringify(error)`.
- The HTTP client and the generative-text service. Their replies are inputs. `SummarizeClient.Deliver` describes how the HTTP client settles on a response, and its own error message is a parameter. The service's URL, the API key headers and the environment variables are not modelled.
- Wall-clock time. The `updated_at` value an update writes is the parameter `now`.
- React Query's internals:
  - the cache itself, `retry: 1` and `retryDelay`;
  - loading state, and the asynchronous scheduling of `mutateAsync`;
  - a refetch clearing staleness. Invalidation is modelled only as the set of keys marked stale.
- The summarize mutation's pending state. This leaves out the disabled state of the summarize button and the spinner (notes-form.tsx:97-100), and the summary area's visibility, which depends on that state (notes-form.tsx:107).
- The aggregated return value of `useNotes` (use-notes.ts:116-123) and the `enabled` flag's effect on scheduling. `NoteQueryEnabled` records the flag's condition. `NoteQuery` shows that a disabled query would resolve with `null` without a request anyway.
- The `NextResponse` objects. A redirect is modelled by its target path only, without the absolute URL built from the request.
- SessionGate.PatternMatches: only the `/:path*` suffix form used by this matcher is modelled, not the whole pattern language.
- SummarizeRoute.ReadOfUndefined: the wording of the JavaScript engine's TypeError messages (also `TrimNotAFunction`) is the usual V8 wording, a property of the runtime and not of this code. The contracts rely only on those messages being non-empty.
- SummarizeClient.BodyOf: assumes the JSON encoding and decoding of the request delivers the text string unchanged; the serialisation itself is not modelled.
- SummarizeClient.Reply: a `summary` or `error` member of a type other than string is not modelled.
- Logging (`console.error`), `e.preventDefault()`, the login form (its validation is a schema-library call), and all presentational components and pages.
