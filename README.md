# Quiz store, quiz admission rules and VK long-poll payload handling

A Dafny model of the sequential logic of a small aiohttp backend. The backend
has an admin API for quiz content and a bot that reads VK messages through
the long-poll protocol. The model covers three parts:

- **The in-memory quiz store** (`QuizStore`). `QuizStore.QuizAccessor` is a
  class holding the two append-only lists of the database, `themes` and
  `questions`. Its methods are the accessor's operations. The lookups
  and `list_questions` are loops proved against specification functions
  (`ThemeWithTitle`, `ThemeWithId`, `QuestionWithTitle`, `QuestionsFor`).
  Those functions are built on generic "first match" and "filter"
  definitions in `Seqs`, and lemmas state what each one means:
  - the first match, or nothing exactly when there is no match;
  - exactly the matching elements, as an ordered subsequence of the store.

  The store's next-id counters belong to an unseen database object, so each
  create method takes the id to use as a parameter.
- **The admission rules of the quiz handlers** (`QuizViews`).
  - `AddTheme` and `AddQuestion` decide a request over the store's contents
    (`Database`). Each gives the reply and the new contents; the contents
    are unchanged on every error. `ListQuestionsReply` gives the listed
    questions; listing leaves the store unchanged.
  - `AddQuestion` checks in a fixed order: bad request (fewer than two
    answers, or a number of correct answers other than one), then conflict
    (a question with that title exists), then not found (no theme with that
    id), and only then creation.
  - `PostTheme`, `PostQuestion` and `GetQuestionList` run the same steps
    through the store's methods, and are proved equal to the decisions.
  - Lemmas show that the rules keep the store consistent: titles are
    unique, every question passed validation, and every question's theme
    exists.
- **VK long-poll payload handling** (`VkApi`).
  - `BuildQuery` is `_build_query`: `host + method + "?"` followed by the
    `k=v` pairs of the parameter dictionary, joined by `&`. A `v=5.131`
    is appended to the dictionary when it has no `v`.
  - `BuildQueryRoundTrip` proves that splitting the query text on `&` and
    then at the first `=` gives back the pairs. This holds only when no key holds `&` or `=`
    and no value holds `&`, because the source does not URL-escape
    values.
  - `VkApiAccessor.Poll` takes the parsed JSON response as input. It adopts
    the response's `ts` and then decodes the events. `DecodeEvents`
    specifies the decoding: keep the `message_new` events in order and copy
    `from_id`, `text` and `id`; an event of that type without its message
    fields raises `KeyError`.
  - `SendMessage` builds the `messages.send` request with a `random_id`
    chosen arbitrarily in [0, 10000000].

Every HTTP exchange is abstracted away: a method returns the request URL it
would send. `GetLongPollService` and `Poll` take the parsed response as a
parameter. `send_message` only logs its response
(app/store/vk_api/accessor.py:110-111), so `SendMessage` takes none.

Points about the code that the model states:

- **Errors.** The code defines no error types of its own. An absent JSON
  field raises `KeyError` (`PollError.MissingKey`), and `poll` before
  negotiation fails on `None + ""` (`PollError.NotConnected`).
- **Cursor.** `poll` adopts whatever `ts` the response carries; nothing
  checks that it increases.
- **Partial updates.** `ts` is assigned before the decoding loop
  (app/store/vk_api/accessor.py:82-84), so it stays adopted when the loop
  raises. `_get_long_poll_service` keeps `key` and `server` adopted when a
  later field of the response is missing (app/store/vk_api/accessor.py:64-66).
  `VkApi.VkApiAccessor.Poll` and `VkApi.VkApiAccessor.GetLongPollService`
  state this.

## Model

| member | source | states |
|---|---|---|
| `QuizStore.QuizAccessor.CreateTheme` | app/store/quiz/accessor.py:8-11 | returns a theme whose id is the supplied next id and whose title is the given title; `themes` grows by exactly that theme at the end, and questions are unchanged |
| `QuizStore.QuizAccessor.GetThemeByTitle` | app/store/quiz/accessor.py:13-16 | the loop with early return yields `ThemeWithTitle(themes, title)` |
| `QuizStore.ThemeWithTitleSpec` | app/store/quiz/accessor.py:13-16 | the lookup by title gives nothing if and only if no theme has that title; otherwise it gives the first theme with that title |
| `QuizStore.QuizAccessor.GetThemeById` | app/store/quiz/accessor.py:18-21 | the loop with early return yields `ThemeWithId(themes, id)` |
| `QuizStore.ThemeWithIdSpec` | app/store/quiz/accessor.py:18-21 | the lookup by id gives nothing if and only if no theme has that id; otherwise it gives the first theme with that id |
| `QuizStore.QuizAccessor.ListThemes` | app/store/quiz/accessor.py:23-24 | returns the stored theme list |
| `QuizStore.QuizAccessor.GetQuestionByTitle` | app/store/quiz/accessor.py:26-29 | the loop with early return yields `QuestionWithTitle(questions, title)` |
| `QuizStore.QuestionWithTitleSpec` | app/store/quiz/accessor.py:26-29 | the lookup by question title gives nothing if and only if no question has that title; otherwise it gives the first question with that title |
| `QuizStore.QuizAccessor.CreateQuestion` | app/store/quiz/accessor.py:31-41 | appends exactly one question carrying the next id, title, theme id and answers, and returns it; themes and earlier questions are unchanged |
| `QuizStore.QuizAccessor.ListQuestions` | app/store/quiz/accessor.py:43-51 | the whole list for a negative theme id; otherwise the loop that appends the questions of that theme yields `QuestionsFor(questions, themeId)` |
| `QuizStore.QuestionsForNegative` | app/store/quiz/accessor.py:46-47 | a negative theme id lists the whole question list |
| `QuizStore.QuestionsForTheme` | app/store/quiz/accessor.py:45-51 | a non-negative theme id lists exactly the questions with that theme id, in both directions of membership. The result is the subsequence of the store at precisely the matching indices, in increasing order |
| `QuizViews.ValidAnswers` | app/quiz/views.py:41-42 | passing validation implies at least two answers, at least one of them correct (the exact characterisation is `ValidAnswersSpec`) |
| `QuizViews.ToAnswers` | app/quiz/views.py:36-38 | one `Answer` per request answer, in request order, copying its title and correctness |
| `QuizViews.ValidAnswersSpec` | app/quiz/views.py:41-43 | validation passes if and only if there are at least two answers and exactly one index holds a correct answer |
| `QuizViews.AddTheme` | app/quiz/views.py:17-22 | conflict if and only if some theme already has the title, and then the store is unchanged; otherwise exactly one theme (next id, title) is appended and returned. Questions are never touched |
| `QuizViews.AddQuestion` | app/quiz/views.py:35-52 | bad request if and only if validation fails; conflict if and only if validation passes and a question has the title; not found if and only if both pass and no theme has the id. On every error the store is unchanged. Otherwise exactly one question is appended, with the answers in request order. Themes are never touched |
| `QuizViews.ListQuestionsReply` | app/quiz/views.py:59-60 | without a `theme_id` query (defaulting to -1), or with a negative one, the handler lists every question; whatever the query, it lists only stored questions |
| `QuizViews.ListQuestionsOfTheme` | app/quiz/views.py:59-60 | with a non-negative `theme_id` the handler lists exactly that theme's questions, as an ordered subsequence of the store |
| `QuizViews.AddThemeKeepsConsistent` | app/quiz/views.py:18-21 | adding a theme preserves unique titles, valid questions and existing themes for all questions |
| `QuizViews.AddQuestionKeepsConsistent` | app/quiz/views.py:41-51 | adding a question preserves the same store invariant |
| `QuizViews.AddThemeAgainConflicts` | app/quiz/views.py:18-21 | whatever the first add of a title did, adding that title again is a conflict that leaves the store unchanged |
| `QuizViews.AddQuestionAgainConflicts` | app/quiz/views.py:41-47 | after a question is created, a valid request with the same title is a conflict that leaves the store unchanged, whatever its theme |
| `QuizViews.PostTheme` | app/quiz/views.py:17-22 | the handler run through the store's methods gives the reply and new store of `AddTheme` |
| `QuizViews.PostQuestion` | app/quiz/views.py:35-52 | the handler run through the store's methods gives the reply and new store of `AddQuestion` |
| `QuizViews.GetQuestionList` | app/quiz/views.py:58-60 | the handler run through the store gives `ListQuestionsReply`, with `theme_id` defaulting to -1 |
| `VkApi.NatToDecimal` | app/store/vk_api/accessor.py:47 | a natural number rendered by the f-string is one or more decimal digits, with no leading zero unless it is 0 |
| `VkApi.DecimalRoundTrip` | app/store/vk_api/accessor.py:47 | reading the rendered digits back gives the number |
| `VkApi.IntToDecimal` | app/store/vk_api/accessor.py:47 | `str(i)` of any integer (sign included) reads back as itself and contains neither `&` nor `=` |
| `VkApi.Render` | app/store/vk_api/accessor.py:47 | the f-string renders a string as itself, an integer as decimal text that reads back as that integer, and `None` as `None` |
| `VkApi.WithDefaultVersion` | app/store/vk_api/accessor.py:45-46 | afterwards `v` is present. A `v` already there keeps its value and the dictionary is unchanged. Otherwise `v` maps to `5.131` and is inserted once, at the end. Every other key keeps its value, and distinct keys stay distinct |
| `VkApi.BuildQuery` | app/store/vk_api/accessor.py:43-48 | the URL starts with `host + method + "?"`, and the rest is the `k=v` pairs of the updated dictionary in insertion order, joined by `&` |
| `VkApi.BuildQueryRoundTrip` | app/store/vk_api/accessor.py:43-48 | splitting the query text on `&` and then at the first `=` gives every parameter, `v` included, in insertion order with its rendered value, provided keys hold no `&`/`=` and values no `&` |
| `VkApi.LongPollServerQuery` | app/store/vk_api/accessor.py:51-58 | the `groups.getLongPollServer` request starts with the API URL and the method name then `?`, and carries `access_token`, `group_id` and then the default `v` |
| `VkApi.PollQuery` | app/store/vk_api/accessor.py:69-78 | the long-poll request starts with `server + "?"` and carries `act=a_check`, the key, the current `ts`, `wait=25` and then the default `v`, in that order |
| `VkApi.PollRequestEchoesCursor` | app/store/vk_api/accessor.py:69-78 | for a key without `&`, split back, the long-poll request has five parameters, the third is `ts`, and its text reads back as the current cursor |
| `VkApi.SendParams` | app/store/vk_api/accessor.py:99-108 | the `messages.send` parameters hold no `v`, so the default is added, and `random_id` maps to the drawn number |
| `VkApi.DecodeEvents` | app/store/vk_api/accessor.py:84-95 | decoding fails (with `KeyError`) if and only if some `message_new` event lacks its message fields |
| `VkApi.DecodeEventsSpec` | app/store/vk_api/accessor.py:84-95 | a successful decoding has one update per `message_new` event, in input order. Each copies `from_id`, `text` and `id` and has type `message_new`; events of other types are dropped |
| `VkApi.VkApiAccessor.constructor` | app/store/vk_api/accessor.py:19-25 | key, server and ts start as `None` |
| `VkApi.VkApiAccessor.GetLongPollService` | app/store/vk_api/accessor.py:50-66 | requests `groups.getLongPollServer` with token and group id. It adopts `key`, `server` and `ts` in that order, stopping with `KeyError` at the first absent field, and succeeds if and only if all three are present |
| `VkApi.VkApiAccessor.Poll` | app/store/vk_api/accessor.py:68-96 | without a server nothing is sent and nothing changes. Otherwise it sends the long-poll request for the current key and `ts`. It then adopts the response's `ts` (if that is absent, `KeyError` and `ts` unchanged) and returns `DecodeEvents` of the updates, an absent `updates` key reading as `[]`, so such a response yields an empty list. The adopted `ts` stays even when decoding raises |
| `VkApi.VkApiAccessor.CollectUpdates` | app/store/vk_api/accessor.py:83-95 | the loop over the events yields exactly `DecodeEvents(events)` |
| `VkApi.VkApiAccessor.SendMessage` | app/store/vk_api/accessor.py:98-108 | sends the `messages.send` request with `user_id`, `message`, `access_token`, a `random_id` in the closed range [0, 10000000], and then the default `v` (the dictionary it leaves is the four parameters plus `v=5.131`) |

## Left out

- Network I/O: `connect`, `disconnect`, the aiohttp `ClientSession`, every HTTP GET and `resp.json()`. Each request is returned as its URL, and each parsed response is a parameter.
- The `Poller` start/stop lifecycle and its background loop. app/store/vk_api/poller.py is not part of this model, and its point is async concurrency.
- Logging calls: they have no behavioural effect.
- `randint`: the model does not say which number is drawn or with what distribution, only that it lies in the range.
- The admin login view and the admin schemas (app/admin/views.py, app/admin/schemes.py). They depend on foreign password checking and session cookies, or are declarative schemas.
- The schema decorators, `json_response`, `AuthRequiredMixin` and the `dump` serialisation: library wrappers. `ThemeListView.get` only serialises `list_themes`, which `QuizStore.QuizAccessor.ListThemes` models.
- The database's `next_theme_id` and `next_questions_id` are not part of this model. The create methods take the id as a parameter.
- Truthiness of lookups: the handlers test the object a lookup returns, not `is None` (app/quiz/views.py:19, 45, 48). The model reads a found theme or question as `Some`, which assumes the `Theme` and `Question` dataclasses define neither `__bool__` nor `__len__`; app/quiz/models.py is not part of this model.
- `list_questions(None)`: comparing `None < 0` raises in Python, and the handler always passes an integer. The theme id is an `int`.
- The `int(...)` parsing of the `theme_id` query string: the query value is modelled as an already-parsed `Option<int>`.
- Aliasing. Python returns the stored list itself from `list_themes` and from `list_questions` with a negative id, and the stored objects from the lookups. The model uses values, so later mutation through such a reference is not captured.
- `_build_query`'s update of the caller's dictionary is modelled by returning the updated dictionary (`Query.params`). All three callers (app/store/vk_api/accessor.py:51, 69, 99) pass a fresh dictionary literal, so nothing else observes the update.
- JSON shapes: only absent keys are modelled (`Option` fields). A value of the wrong JSON type, or an event without a `type` key, is not modelled.
- `VkApi.BuildQueryRoundTrip`: stated only when keys hold no `&` or `=` and rendered values hold no `&`. `ParseQuery` only splits on `&` and then at the first `=`; it does not model how a server decodes a URL. The source does not URL-escape values, and the model does not capture what follows from that for other characters. A `#` in a message text starts the URL fragment, so `access_token`, `random_id` and `v`, which follow `message`, are never sent. A server that form-decodes the query reads `+` as a space and `%xx` as an escape.
