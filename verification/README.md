# Lesson tutor and admin route guard — a Dafny model

This project models the two pieces of deterministic logic in the sozo
repository and proves properties of them.

**The lesson tutor** (`AI_project/app.py`) is a small Flask app. An `AILesson`
walks a learner through the ordered steps of one lesson. It keeps a step
counter `current_step` and a list of the learner's `responses`:

- `start` resets both;
- `get_current_prompt` gives the prompt of the current step;
- `proceed` records an answer, advances one step, produces a tutor reply and
  reports whether the lesson is complete.

The tutor reply comes from an AI service when one is configured; otherwise
`_generate_mock_response` produces it with a fixed, ordered, first-match
classifier over the answer text. Two JSON endpoints drive a lesson:

- `start_lesson` validates the lesson id, finds the lesson and opens a
  session;
- `next_step` validates the session and the answer, rebuilds the lesson from
  the counter and answers stored in the session, takes one step and stores
  them back.

**The admin route guard** (`sozo-admin/middleware.ts`) runs before every page
of the admin dashboard. From the signed-in user (if any), that user's role
row and the request path, it either lets the request through or redirects it
to `/login`, `/` or `/unauthorized`.

Modules, one per component:

| file | module | models |
|---|---|---|
| `maybe.dfy` | `Maybe` | `Option`, for Python's `None` |
| `text.dfy` | `Text` | the substring test `needle in s` and ASCII `str.lower()` |
| `mock_reply.dfy` | `MockReply` | `_generate_mock_response`, plus the same rules as a data table read by a generic first-match interpreter |
| `lesson.dfy` | `Lesson` | `AILesson`: `start`, `get_current_prompt`, `proceed`, `generate_ai_response` |
| `lesson_api.dfy` | `LessonApi` | the `start_lesson` and `next_step` handlers and the session round trip |
| `admin_guard.dfy` | `AdminGuard` | the decision of `middleware`, with `UserRole` from `sozo-admin/types/database.ts:1` |

Inputs that stand for things outside the program:

- `AiClient` is either `NoClient` or `Client(reply)`. Here `reply` is the AI
  service taken as an opaque function of what a request is built from: the
  lesson, the state after the answer is recorded, and the answer. Each request
  can therefore get a different reply.
- `newSessionId` stands for the generated UUID.
- `data: Option<seq<LessonContent>>` is the parsed lesson file. `None` means it
  failed to load. A file without a `"lessons"` key reads as the empty list.
- `user` is what `getUser` returned.
- `roleOf` is the `user_organization_roles` lookup by user id. It gives
  `None` when no single row comes back.

A step's `"prompt"` key is modelled as a `Field`: `Missing`, `Null` or
`Present(text)`. This is because `dict.get("prompt", default)` returns `None`
for a JSON null. As a result, a step with a null prompt makes
`get_current_prompt` return `None` before the lesson is exhausted. The
completion theorems therefore assume `NoNullPrompts`.

`Text.Lower` lowers ASCII letters only. The classifier only looks for the
lower-case ASCII needles "treatment", "damage" and "if you feel". The only
non-ASCII characters that Python lowers to ASCII letters are the Kelvin sign
(to `k`) and the dotted capital I (to `i` followed by a combining dot).
Neither can complete one of these needles, so ASCII lowering gives the same
answers here.

## Model

| member | source | states |
|---|---|---|
| `Text.Lower` | AI_project/app.py:157-166 | Each ASCII capital becomes its small letter, every other character is kept, the length is unchanged and no capital is left. ASCII only; see "Left out". |
| `Text.ContainsIffOccurs` | AI_project/app.py:151-166 | The substring test used by every classifier rule holds exactly when the needle occurs at some offset of the answer. |
| `MockReply.ClassifyMatchesRuleTable` | AI_project/app.py:151-177 | The mock reply's if-chain picks the same reply as a first-match reading of the rule table (six rules in source order, each firing when any alternative passes), with the step fallback when no rule fires. |
| `MockReply.ClassifyByCues` | AI_project/app.py:151-177 | Each reply is chosen exactly when its own cue holds and no earlier cue does. Three alternatives of the source never decide anything and are left out of the cues: "お客" (subsumed by "客"), `"2" == text` in the treatment rule and `"3" == text` in the パーマ rule. |
| `MockReply.ExactTwoIsCustomer` | AI_project/app.py:154-158 | The bare answer "2" always gets the customer-role message, never the treatment one. |
| `MockReply.ExactThreeIsDamage` | AI_project/app.py:160-164 | The bare answer "3" always gets the damage message, never the パーマ one. |
| `MockReply.StepOnlyChoosesFallback` | AI_project/app.py:169-177 | The step number matters only for the fallback reply: when some rule fires, the reply is the same at every step. |
| `Lesson.CurrentPrompt` | AI_project/app.py:73-83 | With no content, the load-failure message. Otherwise `None` exactly when the counter is past the last step or the step's prompt is JSON null; a returned prompt is that step's text, or the default message when the key is missing. |
| `Lesson.Start` | AI_project/app.py:65-71 | Resets the counter to 0 and the answers to empty, so the step/answer invariant holds. The first prompt is step 0's prompt: its text, the default message when the key is missing, `None` when it is JSON null. A lesson without steps gives `None`, and a lesson with steps and no null prompts gives a present prompt. |
| `Lesson.GenerateAiResponse` | AI_project/app.py:104-144 | A counter of 0 or past the last step gives "ステップが無効です。" before any AI request. Otherwise the reply is the AI client's opaque reply, or the mock reply for the answer at that step when no client is configured. |
| `Lesson.Proceed` | AI_project/app.py:85-102 | Appends exactly the given answer and adds exactly 1 to the counter, preserving `|responses| == current_step`. Completion is reported exactly when there is no next prompt. Once the new counter reaches the step count there is no next prompt, so completion is reported whatever the prompts. With no null prompts, completion is reported exactly when the new counter reaches the step count. While steps remain, the next prompt is the new step's prompt. An answer to a real step gets the mock reply for that answer at the new counter, or the AI client's reply to the request. Answering when the counter is already past the last step gives the invalid-step reply and reports completion. |
| `Lesson.ProceedAllAppends` | AI_project/app.py:85-90 | Answering k times in a row advances the counter by exactly k and appends exactly those answers in order. |
| `Lesson.CompletesAtLastStep` | AI_project/app.py:96-101 | After `start` on an n-step lesson with no null prompts, the k-th answer reports completion exactly when k >= n, so the n-th answer is the first to do so. |
| `Lesson.ProceedPastCompletion` | AI_project/app.py:104-107 | Answering again after n answers to an n-step lesson gets the invalid-step message and completion stays reported. |
| `Lesson.NoStepZeroFallback` | AI_project/app.py:104-171 | Through `proceed`, the mock never returns its step-0 fallback: the counter has already been advanced when the reply is generated. |
| `LessonApi.FirstWithId` | AI_project/app.py:206-210 | Returns the position of the first lesson whose id equals the requested one; it returns none exactly when no lesson has that id. |
| `LessonApi.FindLesson` | AI_project/app.py:204-214 | The lesson found is the first lesson of the loaded file that carries the requested id: every earlier lesson has a different id. Nothing is found exactly when the file did not load or no lesson has that id. |
| `LessonApi.StartLesson` | AI_project/app.py:195-238 | A missing or empty id gives 400 and an unknown id gives 404, both leaving the session unchanged. Success happens exactly otherwise: the reply carries the new session id, the requested id, the found lesson's first-step prompt (present) and `is_complete` false, and the session holds that id, counter 0 and no answers. |
| `LessonApi.NextStep` | AI_project/app.py:240-288 | No session id gives 400, checked before the answer. A `None` answer gives 400, and an unknown lesson gives 404 naming the session's id. All three leave the session unchanged. Any present answer, the empty string included, succeeds otherwise: the session keeps its ids, gets counter + 1 (0 when missing) and the answer appended, and `|responses| == current_step` is preserved. The reply is the one `proceed` returns for that lesson, starting from the stored counter and answers. `is_complete` holds exactly when there is no next prompt. Once counter + 1 reaches the step count, completion is reported whatever the prompts. With no null prompts, completion is reported exactly when counter + 1 reaches the step count. A counter already past the last step gives the invalid-step reply and completion. |
| `LessonApi.NextAllRecords` | AI_project/app.py:271-280 | Posting k answers to a session with a known lesson leaves its ids unchanged, adds k to its counter and appends exactly those answers. |
| `LessonApi.SessionCompletesAtLastStep` | AI_project/app.py:223-287 | End to end: after `start_lesson` opens an n-step lesson with no null prompts, the k-th posted answer succeeds and reports completion exactly when k >= n. |
| `AdminGuard.Decide` | sozo-admin/middleware.ts:61-86 | Every redirect goes to "/login", "/" or "/unauthorized". No user off a "/login…" path goes to "/login". A user on a "/login…" path goes to "/", whatever the role. A user without the super-admin role off "/unauthorized…" goes to "/unauthorized". The request passes exactly when: no user on "/login…"; a super admin off "/login…"; or a non-super-admin on "/unauthorized…". |
| `AdminGuard.NoRedirectLoop` | sozo-admin/middleware.ts:61-82 | Following the guard's redirects with the same user and role reaches a page it lets through within at most two redirects, from any path. |
| `AdminGuard.TwoRedirectsCanBeNeeded` | sozo-admin/middleware.ts:66-82 | The bound of two is reached: a signed-in non-super-admin opening "/login" goes to "/" and from there to "/unauthorized". |
| `AdminGuard.RoleIgnoredWhenAnonymous` | sozo-admin/middleware.ts:71-84 | The role lookup never changes the decision for a request without a signed-in user. |
| `AdminGuard.PageChecksArePrefixTests` | sozo-admin/middleware.ts:61-80 | Page checks are prefix tests: "/loginx" counts as the login page for both anonymous and signed-in users, and "/unauthorized/x" as the unauthorized page. |

## Left out

- The AI branch of `generate_ai_response` (AI_project/app.py:116-141) is left out: building the chat messages, calling the service, and the error text on an exception. Its result is the opaque `Client(reply)` function applied to the request's inputs.
- Flask plumbing is left out: routing, `jsonify`, template rendering, the signed session cookie and `print` logging. `uuid4` becomes the `newSessionId` parameter.
- `load_lesson_content` (AI_project/app.py:37-48) is file I/O and JSON parsing. Its result is the `data` parameter.
- The `index` route (which clears the session and lists lessons) and the `/api/status` route are left out. They only report data and hold no lesson logic.
- `Lesson.Proceed` takes a `LessonContent` rather than an optional one. `generate_ai_response` reads the steps with no check that content was loaded, so `proceed` without content raises in the source. The handlers always pass a found lesson.
- `LessonApi.StartLesson` requires `FirstPromptPrintable`: the found lesson must have a first step whose prompt is not JSON null. Otherwise the source's log line `prompt[:50]` (AI_project/app.py:231) raises on `None`.
- Request values (`lesson_id`, `response`) and lesson fields are modelled as strings or absent. Other JSON types (numbers, booleans, lists) and a request with no JSON body are not modelled.
- A lesson object with no keys at all (`{}`) is not modelled. It is falsy in Python, so a handler that finds it answers 404. `start_lesson` never finds it, because it searches only for a truthy id. `next_step` would find it only for a session with a `session_id` but no `lesson_id`. No handler creates such a session, because `start_lesson` writes both keys together (AI_project/app.py:223-224). For that session the model treats the `{}` lesson as an empty lesson and answers, where the source answers 404.
- The step counter is a `nat`. The source only ever stores 0 or a counter plus 1 in the signed session, so it cannot be negative.
- A step's `ai_role` and `ai_instructions` are carried in `Step` but only reach the AI request and the mock's log line, so nothing depends on them.
- The Supabase client, cookie handling and the error returned by `getUser` (sozo-admin/middleware.ts:11-58) are backend plumbing. The user and the role lookup are inputs.
- The `config.matcher` pattern (sozo-admin/middleware.ts:89-99) is left out. Which requests reach the guard is decided by Next.js path matching, which is not part of this model.
- The admin dashboard pages, the sidebar, the landing-page components, `scripts/generate_sfx.py` and `test_azure_pronunciation.py` are not part of this model. They are UI, animation, audio synthesis or calls to outside services.
- Text.Lower: lowers ASCII letters only, while Python's `str.lower()` lowers all of Unicode. The classifier's needles are small ASCII letters and spaces. The only non-ASCII characters that Python lowers into ASCII letters are the Kelvin sign and the dotted capital I. The dotted I also adds a combining dot after the `i`, and the Kelvin sign's `k` does not occur in any needle. So neither can complete a needle, and the classifier's answers are the same.
- The guard is usually summarised as gating every page behind the super-admin role. The code lets any signed-in user through on paths starting with "/unauthorized", and the model follows the code.
