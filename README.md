# educationELLy core, modelled in Dafny

educationELLy is a small student-records application for teachers of English
Language Learners: an Express/MongoDB server with a student CRUD API, a
Cloudflare cache purge after every write, AI-assisted study aids forwarded to a
shared AI gateway, a seed script, and a React/Redux client. This project models
the parts of it that are decision logic rather than library glue:

- the `/api/students` handlers and their error mapping (`router.js`), as a class
  `Router.StudentApi` whose methods change an ordered Student collection and count
  cache purges, over the store operations of `StudentStore`;
- the cache-purge decision (`utils/cloudflare.js`), with the HTTP reply as input;
- the AI routes' validation, defaults, prompt and topic construction and error
  mapping (`routes/ai-routes.js`), with the gateway reply as input;
- the CORS origin rule, the allow-list parsing and the rate-limit setup of `index.js`;
- the idempotent insert-if-absent seeding loops (`scripts/seed-production.js`),
  as a class `Seed.Database` with two `while` loops proved against a fold;
- the client's modal reducer and selectors (`modalSlice.js`) and its API base-URL
  cascade (`config.js`).

JavaScript values are the datatype `Js.JsValue`; truthiness, `||`, destructuring
defaults (which apply only to `undefined`), the TypeError of reading a property of
`null`/`undefined`, and template-literal stringification are written out in `Js`.
Environment variables are `Option<string>` parameters (`None` when unset). Network
replies are `Http.Fetched` values: a status with a parsed body (or a JSON parse
failure), or a network error. Validators whose rules live in files outside this
model appear as the list of errors they report; a store failure is an
`Option<string>` fault per store call; the id MongoDB assigns on insert is a
`freshId` parameter.

The sign-up limiter is configured for 3 requests per window with the message
'Too many registration attempts', which shows it is meant for registration. But it
is mounted at `/signup` while the route is `/api/signup`, so in the code only the
general limiter of 100 applies to registration. The model follows the code as
written and proves the intended mounting separately (see Findings).

## Model

| member | source | states |
|---|---|---|
| Router.HandleValidationErrors | full-stack-capstone-server/router.js:18-27 | no response (the handler runs) iff the error list is empty; otherwise 400 with exactly the keys `error` = 'Validation failed' and `details`, and the details decode back to the same errors in order |
| Router.Details | full-stack-capstone-server/router.js:23 | one `{field, message}` object per validation error, same length and order |
| Router.DetailsRoundTrip | full-stack-capstone-server/router.js:23 | decoding the `details` array gives back exactly the validation errors (field = path, message = msg) |
| Router.HandleServerError | full-stack-capstone-server/router.js:29-36 | always 500; in production the body has only `error: message`; otherwise it also has `details` = the error message |
| Router.StudentApi.List | full-stack-capstone-server/router.js:70-90 | 200 with every stored document in store order, or the 500 'Failed to retrieve students' mapping when the query fails |
| Router.StudentApi.Get | full-stack-capstone-server/router.js:92-101 | validation errors answer 400 before the store is read; a failed lookup is 500 'Failed to retrieve student'; an absent id is 404 'Student not found'; a present id returns exactly that document |
| Router.StudentApi.Create | full-stack-capstone-server/router.js:103-130 | validation errors change nothing; otherwise the new document holds exactly the fifteen named body fields under the new id and is appended; a failed insert changes nothing; after a failed re-read nothing is purged; on success the cache is purged once and the full list (now including the new document) is sent |
| Router.StudentApi.Update | full-stack-capstone-server/router.js:132-166 | validation errors and absent ids (404) leave the store and purge count unchanged; a present id gets the fifteen named fields, every other document is untouched, one purge, and the reply is `{success: true, message: 'Updated successfully', result}` with the post-update document |
| Router.StudentApi.Delete | full-stack-capstone-server/router.js:168-179 | validation errors and absent ids (404) change nothing; a present id removes exactly that document (one fewer), purges once, and answers 204 with no body |
| Router.CreateThenGet | full-stack-capstone-server/router.js:92-130 | a student created and then fetched by its new id comes back as the fifteen named body fields under that id |
| Router.DeleteThenGet | full-stack-capstone-server/router.js:92-179 | after deleting an id, fetching it answers 404 'Student not found'; the delete answered exactly 204 with no body when the id was present, and 404 'Student not found' when it was absent |
| StudentStore.Pick | full-stack-capstone-server/router.js:104-120 | the new record has exactly the fifteen named keys, each the body's value or undefined |
| StudentStore.PickIgnoresOtherKeys | full-stack-capstone-server/router.js:104-120 | body keys outside the fifteen never reach the record |
| StudentStore.ListJs | full-stack-capstone-server/router.js:86 | the array sent has one element per document, in store order |
| StudentStore.FindById | full-stack-capstone-server/router.js:93 | not found iff no document has the id; a found document has that id and is in the store |
| StudentStore.FindByIdUnique | full-stack-capstone-server/router.js:93-98 | with unique ids, looking up a stored document's id returns that very document |
| StudentStore.UpdateByIdFrame | full-stack-capstone-server/router.js:152 | an update keeps length, order and ids, replaces the fields of exactly the matching document, and keeps ids unique |
| StudentStore.FindAfterUpdate | full-stack-capstone-server/router.js:152-162 | after an update the id yields the new fields and every other id yields what it did before |
| StudentStore.DeleteByIdLength | full-stack-capstone-server/router.js:170-173 | a delete removes one document when the id is present and leaves the store as it is otherwise |
| StudentStore.DeleteByIdMembers | full-stack-capstone-server/router.js:170 | the documents surviving a delete are exactly those with another id |
| StudentStore.DeleteByIdUnique | full-stack-capstone-server/router.js:170 | a delete keeps ids unique |
| StudentStore.FindAfterDelete | full-stack-capstone-server/router.js:170-175 | after a delete the id is not found and every other id yields what it did before |
| StudentStore.FindAfterInsert | full-stack-capstone-server/router.js:123 | inserting under a fresh id keeps ids unique, makes the new document findable and leaves other lookups alone |
| Cloudflare.Files | full-stack-capstone-server/utils/cloudflare.js:22 | `files` is the array itself when given an array, else the one-element array of the argument |
| Cloudflare.Request | full-stack-capstone-server/utils/cloudflare.js:6-25 | no request iff the token or zone id is unset or empty; otherwise a request to the purge endpoint of the configured zone with the bearer token and the normalised files |
| Cloudflare.PurgeCache | full-stack-capstone-server/utils/cloudflare.js:6-40 | not_configured iff credentials are missing; success iff the parsed reply has a truthy `success`; a reply without it yields its `errors`; every thrown error (network, JSON parse, reading a null reply) yields its message, so the function returns on every path |
| Cloudflare.PurgeResultShape | full-stack-capstone-server/utils/cloudflare.js:9-38 | every result object carries `success`, true only for a purged cache |
| Cloudflare.StudentsUrl | full-stack-capstone-server/utils/cloudflare.js:43-45 | `PUBLIC_URL + '/students'`, or the default public URL + '/students' when it is unset or empty |
| Cloudflare.PurgeStudentsCache | full-stack-capstone-server/utils/cloudflare.js:42-47 | not_configured iff credentials are missing; a network error is reported as a failure with its message |
| Cloudflare.StudentsPurgeTargetsOneUrl | full-stack-capstone-server/utils/cloudflare.js:42-47 | the students purge sends exactly one file, the students URL |
| AiRoutes.GatewayUrl | full-stack-capstone-server/routes/ai-routes.js:4 | `AI_GATEWAY_URL` when set and non-empty, else 'http://shared-ai-gateway:8002'; the generators' calls go to this base |
| AiRoutes.GatewayData | full-stack-capstone-server/routes/ai-routes.js:43-47 | a non-2xx status becomes the error 'AI Gateway error: <status>'; a network error keeps its message; an ok reply yields its parsed body |
| AiRoutes.GatewayErrorRoundTrip | full-stack-capstone-server/routes/ai-routes.js:44 | the status can be read back from the 'AI Gateway error: <status>' message |
| AiRoutes.OrNotSpecified | full-stack-capstone-server/routes/ai-routes.js:27-29 | a falsy value reads 'Not specified', a truthy one its string form |
| AiRoutes.PromptTextLayout | full-stack-capstone-server/routes/ai-routes.js:25-31 | the prompt starts with the header, then has the grade level, proficiency, ELL status and native language lines back to back in that order, and ends with a blank line and the closing instruction |
| AiRoutes.PromptTextLines | full-stack-capstone-server/routes/ai-routes.js:25-31 | each of the four attribute lines, 'name: value', stands as a whole line of the prompt |
| AiRoutes.RecommendationsPromptLines | full-stack-capstone-server/routes/ai-routes.js:25-31 | each of proficiency, ELL status and native language appears as 'Not specified' when falsy and as its value otherwise |
| AiRoutes.RecommendationsCall | full-stack-capstone-server/routes/ai-routes.js:19-41 | rejected with 400 'Grade level is required' iff `gradeLevel` is falsy (so 0 is rejected); otherwise a call to `/api/ai/generate` with the prompt, app 'education' and maxTokens 300 |
| AiRoutes.GenerateStudyRecommendations | full-stack-capstone-server/routes/ai-routes.js:17-66 | falsy grade is 400; otherwise a non-ok status, a network error or a JSON parse error is 500 'Failed to generate recommendations' with the thrown message, and a null body is the 500 with the message of reading `response`; an ok, parsed, non-null reply is 200, and a 200 echoes gradeLevel, compositeLevel and ellStatus only, with the gateway's `response` |
| AiRoutes.RecommendationsRejectionIgnoresGateway | full-stack-capstone-server/routes/ai-routes.js:21-23 | a rejected request does not depend on any gateway reply (no call is made) |
| AiRoutes.FlashcardTopic | full-stack-capstone-server/routes/ai-routes.js:90 | '`topic` (Grade `gradeLevel`)' when the grade is truthy, the topic unchanged otherwise |
| AiRoutes.FlashcardCall | full-stack-capstone-server/routes/ai-routes.js:80-93 | 400 'Topic and content are required' iff topic or content is falsy; otherwise a call to `/api/ai/flashcard` with the graded topic and the content |
| AiRoutes.GenerateFlashcard | full-stack-capstone-server/routes/ai-routes.js:78-118 | missing fields are 400; otherwise a non-ok status, a network error or a JSON parse error is 500 'Failed to generate flashcard' with the thrown message, and a null body is the 500 with the message of reading `topic`; an ok, parsed, non-null reply is 200, and a 200 carries the gateway's topic, question and answer and the request's gradeLevel |
| AiRoutes.QuizDifficulty | full-stack-capstone-server/routes/ai-routes.js:133 | 'medium' only when `difficulty` is undefined, otherwise the given value (even a falsy one) |
| AiRoutes.QuizCount | full-stack-capstone-server/routes/ai-routes.js:133 | 3 only when `count` is undefined, otherwise the given value |
| AiRoutes.QuizTopic | full-stack-capstone-server/routes/ai-routes.js:139 | '`topic` for Grade `gradeLevel`' when the grade is truthy, the topic unchanged otherwise |
| AiRoutes.QuizCall | full-stack-capstone-server/routes/ai-routes.js:133-149 | 400 'Topic is required' iff the topic is falsy; otherwise a call to `/api/ai/quiz` with the graded topic and the effective difficulty and count |
| AiRoutes.GenerateQuiz | full-stack-capstone-server/routes/ai-routes.js:131-173 | missing topic is 400; otherwise a non-ok status, a network error or a JSON parse error is 500 'Failed to generate quiz' with the thrown message, and a null body is the 500 with the message of reading `count`; an ok, parsed, non-null reply is 200, and a 200 echoes the original topic, the effective difficulty and the gradeLevel with the gateway's count and questions |
| AiRoutes.CheckAIHealth | full-stack-capstone-server/routes/ai-routes.js:179-195 | 503 `{success: false, error: 'AI Gateway unavailable', message}`, with the network or parse error's message, iff the fetch or the JSON parse fails (the status is not checked); otherwise 200 with the gateway's body |
| ServerSetup.Split | full-stack-capstone-server/index.js:74 | `split(',')` yields at least one part and no part contains the separator |
| ServerSetup.JoinSplit | full-stack-capstone-server/index.js:74 | joining the parts with the separator gives back the string, so nothing is trimmed or dropped |
| ServerSetup.SplitJoin | full-stack-capstone-server/index.js:74 | splitting a join of separator-free parts gives back the parts |
| ServerSetup.AllowedOrigins | full-stack-capstone-server/index.js:73-75 | the three default origins when `ALLOWED_ORIGINS` is unset or empty; otherwise the comma-split pieces, which join back to the variable |
| ServerSetup.CorsOrigin | full-stack-capstone-server/index.js:79-96 | admitted iff the origin is absent or empty, or `NODE_ENV` is 'development', or the origin is an exact member of the allow-list; every rejection is 'Not allowed by CORS' |
| ServerSetup.CommaOriginRejected | full-stack-capstone-server/index.js:73-95 | outside development, an origin containing a comma is never in a configured allow-list and is rejected |
| ServerSetup.LimitsOn | full-stack-capstone-server/index.js:51-71 | every limiter applying to a request is mounted on a prefix of its path |
| ServerSetup.LimitsOnComplete | full-stack-capstone-server/index.js:51-71 | conversely, every limiter whose mount covers the path and that is registered before the first route answering the request applies to it |
| ServerSetup.RouteBeforeLimitersUnlimited | full-stack-capstone-server/index.js:51-54 | a route registered before every limiter is never limited |
| ServerSetup.SpecificLimitsOnlyUnderOwnMounts | full-stack-capstone-server/index.js:61-71 | as written, the sign-in and sign-up limiters apply only to '/signin', '/signup' and the paths below them |
| ServerSetup.SpecificLimitsReachOwnPages | full-stack-capstone-server/index.js:61-71 | as written, the sign-in and sign-up limiters do apply to GET /signin and GET /signup |
| ServerSetup.HealthNeverLimited | full-stack-capstone-server/index.js:51-54 | GET /health passes no rate limiter |
| ServerSetup.SignupLimitMissesSignupRoute | full-stack-capstone-server/index.js:61-71 | as written, POST /api/signup and /api/signin get only the general limit |
| ServerSetup.IntendedLimitsApply | full-stack-capstone-server/index.js:61-71 | with the limiters mounted on the routes' own paths, sign-up gets the 3-request limit and sign-in the 50-request limit before the general one, and /health stays unlimited |
| Seed.Database.SeedUsers | full-stack-capstone-server/scripts/seed-production.js:36-45 | the users loop leaves the collection and counter exactly as the insert-if-absent fold by email prescribes, and leaves the students alone |
| Seed.Database.SeedStudents | full-stack-capstone-server/scripts/seed-production.js:221-230 | the students loop leaves the collection and counter exactly as the insert-if-absent fold by studentId prescribes, and leaves the users alone |
| Seed.Database.SeedDatabase | full-stack-capstone-server/scripts/seed-production.js:6-230 | the script runs the users loop over the five seed users and the students loop over the ten seed students |
| Seed.InsertMissingOnlyAppends | full-stack-capstone-server/scripts/seed-production.js:37-228 | existing records stay unchanged and in place, the counter equals the number of records appended, and each appended record is a seed record |
| Seed.InsertMissingCovers | full-stack-capstone-server/scripts/seed-production.js:37-228 | after a run every seed key is present |
| Seed.NothingMissing | full-stack-capstone-server/scripts/seed-production.js:37-228 | when every seed key is present, the loop inserts nothing and counts 0 |
| Seed.InsertMissingIdempotent | full-stack-capstone-server/scripts/seed-production.js:37-228 | a second run over the result inserts nothing and counts 0 |
| Seed.InsertMissingKeepsKeysUnique | full-stack-capstone-server/scripts/seed-production.js:37-228 | seeding never creates a duplicate key |
| Seed.InsertMissingFresh | full-stack-capstone-server/scripts/seed-production.js:37-228 | on a collection holding none of the (distinct) seed keys, every seed record is appended in order and counted |
| Seed.SeedKeysDistinct | full-stack-capstone-server/scripts/seed-production.js:13-219 | the five seed emails are distinct and the ten seed studentIds are 12345 to 12354, pairwise distinct |
| Seed.SeedTwice | full-stack-capstone-server/scripts/seed-production.js:6-230 | on empty collections the first run creates 5 users and 10 students; on any collections a second run creates 0 and 0 |
| ModalSlice.Show | full-stack-capstone-client/src/store/slices/modalSlice.js:7-18 | a null or undefined payload leaves the state unchanged; otherwise the modal is shown with the payload's `modalType` (undefined when it has none) and its `modalProps`, `{}` replacing a falsy one |
| ModalSlice.ShowIgnoresPriorState | full-stack-capstone-client/src/store/slices/modalSlice.js:7-13 | with a readable payload the new state does not depend on the previous one |
| ModalSlice.Hide | full-stack-capstone-client/src/store/slices/modalSlice.js:19-21 | the state becomes null |
| ModalSlice.HideIdempotent | full-stack-capstone-client/src/store/slices/modalSlice.js:5-21 | hiding twice is hiding once, and the result is the initial state |
| ModalSlice.IneffectiveActionsKeepState | full-stack-capstone-client/src/store/slices/modalSlice.js:7-21 | actions of other slices and showModal with a null or undefined payload change nothing |
| ModalSlice.HistoryForgotten | full-stack-capstone-client/src/store/slices/modalSlice.js:7-21 | after any hideModal or readable showModal, the state no longer depends on the state before the sequence |
| ModalSlice.ReachableShownHasProps | full-stack-capstone-client/src/store/slices/modalSlice.js:5-21 | from the initial null state, a shown modal always has truthy `modalProps` |
| ModalSlice.ToJs | full-stack-capstone-client/src/store/slices/modalSlice.js:5-13 | the state is null, or an object with exactly the keys `modalType` and `modalProps` |
| ModalSlice.SelectModal | full-stack-capstone-client/src/store/slices/modalSlice.js:32 | the root state's `modals` value, undefined when absent |
| ModalSlice.SelectModalType | full-stack-capstone-client/src/store/slices/modalSlice.js:33 | read from the root state: undefined when `modals` is absent or null, the shown modal's type otherwise |
| ModalSlice.SelectModalProps | full-stack-capstone-client/src/store/slices/modalSlice.js:34 | read from the root state: undefined when `modals` is absent or null, the shown modal's props otherwise |
| ModalSlice.ShowThenSelect | full-stack-capstone-client/src/store/slices/modalSlice.js:7-34 | the selectors read back the type and truthy props that showModal stored |
| ModalSlice.HideThenSelect | full-stack-capstone-client/src/store/slices/modalSlice.js:19-34 | after hideModal both selectors read undefined |
| ClientConfig.GetApiUrl | full-stack-capstone-client/src/config.js:3-15 | `REACT_APP_API_URL` when defined (even empty), else `REACT_APP_API_BASE_URL` when defined, else '/api' in production, else 'http://localhost:8080' |
| ClientConfig.NodeEnvOnlyAsFallback | full-stack-capstone-client/src/config.js:3-14 | `NODE_ENV` does not matter once either URL variable is defined |
| ClientConfig.EmptyApiUrlWins | full-stack-capstone-client/src/config.js:2-5 | a defined empty `REACT_APP_API_URL` yields the empty relative base URL |
| ClientConfig.ResultSources | full-stack-capstone-client/src/config.js:3-15 | the result is a defined variable's value or one of the two fixed URLs |
| Js.NatToStrRoundTrip | full-stack-capstone-server/routes/ai-routes.js:44 | the decimal text of a status reads back as the same number |
| Js.GetProp | full-stack-capstone-client/src/store/slices/modalSlice.js:10-11 | reading a property throws iff the value is null or undefined, with the engine's message; other values give the property or undefined |

## Left out

- Authentication: Passport's JWT and local strategies, `requireAuth`, sign-in, sign-up, logout, `/api/whoami` and `/api/test-auth`; their implementations are not part of this model, and an authenticated request is taken as given.
- The rules of `studentValidationRules`, `mongoIdValidation` and `validateSignup` are not part of this model; each handler receives the list of errors they report.
- `chat` is imported by the router, but it is not defined in the AI routes file this model covers, so `/api/ai/chat` is not modelled.
- Router.StudentApi.Update: stores the fifteen picked values as given, undefined included; how Mongoose casts or drops undefined keys in `findOneAndUpdate`, and schema casting in general, is not modelled.
- Router.StudentApi.Create: the id MongoDB assigns is a parameter assumed fresh; ObjectId generation is not modelled.
- Router.StudentApi.List: the `Server-Timing`, `Cache-Control` and `CDN-Cache-Control` headers are not modelled; the timings are floating-point clock readings and the others constants.
- Concurrency: requests are handled one at a time; interleavings of the awaited store calls are not modelled.
- CheckAIHealth: the URL it fetches (the gateway base followed by `/health`) does not affect the response, so the health check takes only the reply.
- Network I/O: the Cloudflare and AI gateway calls are replaced by their replies, given as inputs; the purge's result never affects a student response, so the router only counts purges.
- Request bodies are JSON objects; a non-object body, and properties inherited from `Object.prototype`, are not modelled.
- JavaScript numbers are modelled as integers; fractional and non-finite numbers and their string forms are not.
- Express routing beyond path-prefix mounting (case-insensitive matching, trailing slashes, `next()` chains) and the internals of express-rate-limit (per-IP window counting), helmet, morgan and body-parser are not modelled.
- Seed: password hashing on `user.save()`, the `dateOfBirth` values, the MongoDB connection, logging, `process.exit`, and the catch-all error path of the script are not modelled.
- The React components (`ChatBubble`, `DashboardHome`, `authRequired`) and the client's static file server are rendering and I/O and are not modelled.

## Findings

| source | as written | input that shows it | evidently intended | confidence | as-written member | corrected member |
|---|---|---|---|---|---|---|
| full-stack-capstone-server/index.js:61-70 | the sign-in and sign-up limiters are mounted at `/signin` and `/signup`, but the routes are `/api/signin` and `/api/signup` (full-stack-capstone-server/router.js:50-52), so neither limiter sees a request to `/api/signin` or `/api/signup`; they apply only to `/signin`, `/signup` and the paths below them | POST /api/signup: only the general limit of 100 per 15 minutes applies, not 3 | the 3-per-window sign-up limit and the 50-per-window sign-in limit apply to the sign-up and sign-in routes | high; not executed | ServerSetup.SignupLimitMissesSignupRoute | ServerSetup.IntendedLimitsApply |
