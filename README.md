# O2 web client — a Dafny model of its core

This project models the browser client of O2, an app for logging training
sessions and tracking habit goals against a REST back end. It covers:

- **The request gateway `apiFetch`.** It builds the headers and sends the
  request. On a 401 from an ordinary endpoint it runs the refresh-token
  exchange and re-issues the call once. It turns failed responses into error
  messages. Some of its wrappers are modelled too.
- **The page logic.** This covers the session form (the strength-series
  editor, the payload, and the metric calls), the goals page (target check,
  marks by date, day toggle, edit form, tabs, calendar grid), the history
  page (duration text, search, query string, delete dialog), the dashboard
  (time and pace text, streak fallback, Strava link, sync banner), the
  sidebar's active route, the exercise list's search and labels, the AI
  coach chat and the header's greeting.

JavaScript's own behaviour is written out where the pages depend on it:

- truthiness, `String(...)`, `JSON.stringify` and `||` / `??`;
- `trim`, `toLowerCase` (for ASCII and Latin-1 letters) and `split`;
- `URLSearchParams` and `encodeURIComponent`;
- the truncating `%` and `Number(...)` on decimal text.

These live in the modules `JsText` and `JsValue`.

The network is a parameter: a `Transport` function from a request to a
reply. A call's result is written as a value (`Api.Dispatch`): its outcome,
the session storage afterwards, and the requests it sent, in order.
`Api.Gateway` runs the same call step by step over mutable session state and
is proved to agree with it. Page state lives in classes whose handlers take
the results of their API calls as parameters:

- `Goals.GoalsPage`
- `Sessions.SessionForm`
- `History.HistoryPage`
- `AiCoach.Coach`

Where the code and its design notes disagree, the model follows the code.
The main cases:

- only an exception during the refresh exchange clears the tokens; a refused
  refresh leaves them in place;
- the status-code fallback in the error message cannot be reached;
- in `handleSubmit` the details guard's refusal of a run or a ride (a
  distance or pace that is not above zero) shows an error, but the save
  still completes and the success message replaces that error; a create
  call that is rejected instead ends in the `catch` branch, which shows
  its error and does not reset the form.

## Model

| member | source | states |
|---|---|---|
| Api.BuildHeaders | lib/api.ts:26-33 | The JSON content type comes first. A bearer header is added exactly when the token is truthy. Caller headers override both. No other header appears. |
| Api.RefreshExchange | lib/api.ts:41-78 | No stored refresh token, or a refused refresh reply, skips the exchange. A failed request throws. A renewal stores the new access token as its text, keeps a refresh token and leaves the location as it was. |
| Api.Dispatch | lib/api.ts:19-92 | The first request sent is always the caller's own. A call already marked `_retry` sends only that request and keeps the session. |
| Api.Recovery | lib/api.ts:41-91 | The refresh request comes first when a refresh token is stored, then at most one re-issue. A renewal ends with the renewed session. A thrown exchange logs out and fails with the original 401. A skipped exchange keeps the session and fails with the original 401. |
| Api.NormalizeMessage | lib/api.ts:81-91 | The message is the first truthy of `detail`, `non_field_errors` and `error`, printed with `String`. Otherwise it is the whole body as `JSON.stringify` writes it. |
| Api.StatusNeverInMessage | lib/api.ts:88 | The message never depends on the status, so the status fallback is dead code. |
| Api.NullBodyMessage | lib/api.ts:81-86 | A failed response with a body that is not JSON fails with the message "null". |
| Api.Finish | lib/api.ts:81-91 | A call succeeds exactly on a 2xx status, and then resolves to the parsed body. |
| Api.RetriedCallNeverRefreshes | lib/api.ts:36-37 | A call marked `_retry` sends one request, keeps the session and settles by the ordinary rules. |
| Api.RetryDepthAtMostOne | lib/api.ts:36-78 | Every call sends its own request first. A refresh request comes second only after a 401 off the auth paths with a stored refresh token. At most one re-issue with the new token comes third. |
| Api.AuthPathNeverRefreshes | lib/api.ts:36-39 | A 401 from the login or refresh endpoint fails with "Credenciais inválidas" and sends nothing more. |
| Api.RefreshThenRetry | lib/api.ts:41-72 | After a successful exchange, the new access token is stored. The refresh token is replaced only when the reply carries one. The call is re-issued with `Authorization: Bearer <new token>`. |
| Api.RefreshDeclinedKeepsSession | lib/api.ts:41-91 | With no stored refresh token, or a refused exchange, the session is unchanged and the original 401 fails with its normalised message. |
| Api.RefreshThrowsLogsOut | lib/api.ts:73-78 | If the exchange throws, both tokens are removed, the location becomes `/pages/login`, and the 401 still fails through the normal error path. |
| Api.SessionTransitions | lib/api.ts:19-92 | A call leaves the session as it was, logs it out, or installs the exchange's tokens. The location changes only on log-out. |
| Api.OrdinaryCall | lib/api.ts:36-91 | A reply other than 401 settles the call from that reply alone, leaving the session untouched. |
| Api.EmptySuccessIsNull | lib/api.ts:81-82 | A successful reply with an empty or non-JSON body resolves to `null`. |
| Api.Gateway.LogOut | lib/api.ts:74-77 | Both tokens are removed and the location becomes the login page. |
| Api.Gateway.Refresh | lib/api.ts:41-78 | Running the refresh block step by step has the effect `RefreshExchange` specifies: the tokens stay, are renewed, or are cleared, and at most one request is logged. |
| Api.Gateway.ApiFetch | lib/api.ts:19-92 | The step-by-step `apiFetch` produces the outcome, the storage and the request log of `Dispatch`. |
| Api.Gateway.Recover | lib/api.ts:41-78 | The `try` block refreshes and re-issues the call, or settles the original 401, exactly as `Recovery` specifies. |
| Api.Login | lib/api.ts:132-137 | The login call goes to an auth path without a token and not as a retry. |
| Api.LoginNeverRefreshes | lib/api.ts:36-39 | A 401 on login is reported as wrong credentials and never triggers a refresh. |
| Api.RefreshAccessToken | lib/api.ts:146-151 | The explicit refresh call goes to an auth path without a token. |
| Api.GetMetas | lib/api.ts:276-283 | An authenticated GET of `/api/metas-habito/?ativo=` followed by `true` exactly when `ativo` is true and `false` otherwise. |
| Api.GetSessoesAtividade | lib/api.ts:333-342 | An authenticated GET of `/api/sessoes-atividade/`. `?` and the query are appended only when the query is non-empty. |
| Api.UpdateMetaHabito | lib/api.ts:299-308 | A PATCH of the goal path whose number reads back as the goal id followed by `/`. It carries the stringified data and the bearer token, with no extra headers and no `_retry` mark. |
| Api.ReativarMetaHabito | lib/api.ts:312-318 | Reactivation is the authenticated PATCH update of the goal's `ativo` field to `true`. |
| Api.ReativarBody | lib/api.ts:312-318 | The reactivation sends exactly the body `{"ativo":true}`. |
| Api.ReativarTargetsOwnGoal | lib/api.ts:312-318 | Different goal ids give different request paths. |
| JsValue.LookupFindsMember | lib/api.ts:81-86 | In an object whose keys are distinct, reading a property gives the value of the member with that key. |
| JsValue.ParsedPropFindsMember | lib/api.ts:81-86 | In a parsed body, whose keys are distinct, reading a property of an object gives the value of its member with that key. |
| JsValue.EscapeRoundTrip | lib/api.ts:49 | JSON string escaping as `JSON.stringify` does it is undone by unescaping, so every string sent in a body reads back unchanged. |
| JsValue.StringifySingleMember | lib/api.ts:49 | A one-member object serialises as `{`, the quoted key, `:`, the value and `}`. |
| JsText.SplitJoin | app/dashboard/history/page.tsx:110-121 | Splitting a joined list on a separator that no part contains gives back the parts. |
| JsText.EncodedIsQuerySafe | app/dashboard/history/page.tsx:110-121 | Percent-encoded text never contains `&`, `=`, `?` or `#`. |
| JsText.NatToStringRoundTrip | app/dashboard/page.tsx:109-114 | Reading the decimal digits of a printed natural number gives it back. |
| JsText.TrimEmptyIff | components/Header.tsx:17 | `trim()` gives the empty string exactly when the text is all white space. |
| JsText.ReplaceSpaceRunsNoSpace | components/AiCoach.tsx:45 | Replacing each run of white space with a space-free text leaves no white space. |
| Sessions.AddSerie | app/dashboard/sessions/page.tsx:103-113 | Adds a blank series after the existing ones. Its id is one more than the last id, or 1 for an empty list. |
| Sessions.RemoveSerie | app/dashboard/sessions/page.tsx:115-117 | Keeps exactly the series whose id differs from the one removed. |
| Sessions.RemoveSerieConcat | app/dashboard/sessions/page.tsx:115-117 | Removal keeps the list order: removing from two joined pieces is joining the two removals. |
| Sessions.RemoveSerieCounts | app/dashboard/sessions/page.tsx:115-117 | Each series with another id is kept exactly as many times as it was listed; series with the removed id are all dropped. |
| Sessions.RemoveAbsent | app/dashboard/sessions/page.tsx:115-117 | Removing an id no series has changes nothing. |
| Sessions.ChangeSerie | app/dashboard/sessions/page.tsx:119-135 | Only the series with the edited id changes, and only in the edited field. The length stays the same. |
| Sessions.EditsKeepIdsUnique | app/dashboard/sessions/page.tsx:75-135 | Any sequence of add, remove and change keeps the ids strictly increasing, so no two series share an id. |
| Sessions.EditsFromInitialKeepIdsUnique | app/dashboard/sessions/page.tsx:75-135 | Starting from the page's initial list, no sequence of edits ever gives two series the same id. |
| Sessions.NumberOfPrintedNat | app/dashboard/sessions/page.tsx:137-156 | `Number` of a printed natural number is that number. |
| Sessions.NumericField | app/dashboard/sessions/page.tsx:137-156 | An optional number is present exactly when the text is non-empty and parses, and then equals the parsed value. |
| Sessions.BuildSessaoPayload | app/dashboard/sessions/page.tsx:137-156 | The duration is the minutes times 60, and is present only for numeric text. Calories are present only for numeric text. Notes are sent only when non-empty. |
| Sessions.CommaToPointFirst | app/dashboard/sessions/page.tsx:186-188 | Only the first decimal comma becomes a point. |
| Sessions.DecimalOrZero | app/dashboard/sessions/page.tsx:186-188 | An empty distance counts as 0. Otherwise it is `Number` of the text with its first comma turned into a point. |
| Sessions.TotalSeconds | app/dashboard/sessions/page.tsx:191 | The pace is minutes × 60 + seconds, and is NaN when either part is NaN. |
| Sessions.CorridaCall | app/dashboard/sessions/page.tsx:185-211 | No running metrics are sent exactly when the distance or the pace is at most zero. Otherwise the call carries the session id, the distance, the pace in seconds and the heart rate, which is present only for numeric text. |
| Sessions.CorridaNeedsPositiveDistanceAndPace | app/dashboard/sessions/page.tsx:185-198 | When every field reads as a number, the running metrics are sent exactly when the distance and the total pace are positive. |
| Sessions.CiclismoCall | app/dashboard/sessions/page.tsx:213-238 | No cycling metrics are sent exactly when the distance or the speed is at most zero. Otherwise they are sent as parsed. |
| Sessions.ValidSeries | app/dashboard/sessions/page.tsx:240-245 | Every kept series has a chosen, non-zero exercise id, and the list never grows. |
| Sessions.ValidSeriesKeeps | app/dashboard/sessions/page.tsx:240-245 | Every series with an exercise and non-blank reps or load is kept. |
| Sessions.ValidSeriesFromList | app/dashboard/sessions/page.tsx:240-245 | Every kept series comes from the list and has an exercise and non-blank reps or load. |
| Sessions.ValidSeriesConcat | app/dashboard/sessions/page.tsx:240-245 | The filter keeps list order: filtering two joined pieces is joining the two filtered pieces. |
| Sessions.ValidSeriesCounts | app/dashboard/sessions/page.tsx:240-245 | Each series worth sending is kept exactly as many times as it is listed; no other series is kept. |
| Sessions.RefusalSendsNothing | app/dashboard/sessions/page.tsx:197-228 | The guard's error is shown exactly when the metrics switch is on for a run or a ride and no details call is sent. |
| Sessions.SeriesCallsFollowList | app/dashboard/sessions/page.tsx:240-261 | For strength training, one series call per valid series is sent, in list order. |
| Sessions.DetailCalls | app/dashboard/sessions/page.tsx:183-262 | With the metrics switch off there are no detail calls. A run or a ride sends at most one. A strength session sends at most one per series. Every detail call belongs to the created session, and none creates another session. |
| Sessions.SubmitCalls | app/dashboard/sessions/page.tsx:179-262 | The session is created first, from the form's payload. All the detail calls follow it, and each belongs to that session. |
| Sessions.AfterSave | app/dashboard/sessions/page.tsx:264-281 | After a save the activity, date and time stay, the metrics switch is off, the series list is the initial one and the success message is shown. |
| Sessions.SessionForm.constructor | app/dashboard/sessions/page.tsx:47-81 | The form starts blank, with the initial series list and no message. |
| Sessions.SessionForm.EditSeries | app/dashboard/sessions/page.tsx:103-135 | A series edit replaces the list by the edited one. It may modify only the series list, so every other state variable is kept. |
| Sessions.SessionForm.SendDetails | app/dashboard/sessions/page.tsx:183-262 | Sends exactly the detail calls `DetailCalls` lists for the form. When the guard refuses the run or ride details, it shows the guard's error; otherwise the message is kept. Only the message may change. |
| Sessions.SessionForm.SeriesCalls | app/dashboard/sessions/page.tsx:247-261 | The loop sends one call per series, in order. |
| Sessions.SessionForm.Submit | app/dashboard/sessions/page.tsx:158-290 | A missing date or time, or a missing token, sends nothing. It shows the matching error and changes no other state. Otherwise the outcome is `SaveEnds`: the session is created, then its detail calls are sent. The first rejected call stops the sequence, shows its message or the default and changes nothing else. If none is rejected, the form becomes `AfterSave` of the old form. |
| Sessions.SessionForm.Save | app/dashboard/sessions/page.tsx:179-287 | The calls made and the new form state are those `SaveEnds` relates to the old form, for every rejection point. |
| Sessions.SessionForm.Reset | app/dashboard/sessions/page.tsx:264-281 | The form becomes `AfterSave` of the old form: every input is cleared, the series list goes back to its initial state and the success message is shown. The activity, date and time are kept. |
| Goals.HasTarget | app/dashboard/goals/page.tsx:108-115 | A goal has a target exactly when one of the four target fields is a non-zero number. Missing, null and zero do not count. |
| Goals.EditForm | app/dashboard/goals/page.tsx:229-248 | The edit form copies the goal. A missing start date becomes today, and missing targets and end dates become `null`. |
| Goals.EditFormKeepsTargets | app/dashboard/goals/page.tsx:229-248 | Opening the edit form keeps whether the goal has a target. |
| Goals.MarcacoesPorData | app/dashboard/goals/page.tsx:95-101 | The loop builds the date index `ByDate`. |
| Goals.ByDateKeys | app/dashboard/goals/page.tsx:95-101 | The index has a key exactly for each date that has a mark. |
| Goals.ByDateLastWins | app/dashboard/goals/page.tsx:95-101 | For each date the index holds the last mark on that date. |
| Goals.ToggleCall | app/dashboard/goals/page.tsx:396-431 | A date without a mark creates a completed mark. A marked date flips that mark's `concluido`. |
| Goals.ToggleFollowsList | app/dashboard/goals/page.tsx:396-431 | Starting from the mark list: no mark on the date means create, otherwise the last mark on the date is flipped. |
| Goals.ToggleFlipsDay | app/dashboard/goals/page.tsx:396-431 | A click reverses the calendar's done state for that day, once the reloaded marks carry the mark that `ToggleCall` stored: the created completed mark, or the existing mark with the flag the update sent. |
| Goals.CalendarCells | app/dashboard/goals/page.tsx:1301-1307 | `firstWeekday` empty cells come first, then days 1 to `daysInMonth`, each in its own cell. |
| Goals.GoalsPage.constructor | app/dashboard/goals/page.tsx:39-89 | The page starts on the active tab with empty lists, no dialogs and a blank creation form. |
| Goals.GoalsPage.Reload | app/dashboard/goals/page.tsx:117-137 | The active and inactive lists are replaced by the fetched ones, so the current tab shows the fetched list for that tab. No other state changes. |
| Goals.GoalsPage.ListaAtual | app/dashboard/goals/page.tsx:435 | The list shown is the active goals on the active tab and the closed goals on the other tab. |
| Goals.GoalsPage.CreateMetaHandler | app/dashboard/goals/page.tsx:187-225 | No target: the target error is shown, nothing is sent and no other state changes. No token: the same with `Usuário não autenticado.`. Otherwise the form is sent. A failure shows its message, or `Erro ao criar meta.`, and changes nothing else; the dialog and form stay. Success shows the success banner, closes the dialog, blanks the form, installs the reloaded lists and shows the active tab; nothing else changes. |
| Goals.GoalsPage.OpenEdit | app/dashboard/goals/page.tsx:229-248 | Opening the edit dialog selects the goal and fills the form from it. |
| Goals.GoalsPage.UpdateMetaHandler | app/dashboard/goals/page.tsx:250-279 | Without a selected goal nothing happens at all. Without a target, or without a token, the matching error is shown, nothing is sent and nothing else changes. Otherwise the update of the selected goal is sent. A failure shows its message, or `Erro ao atualizar meta.`, and changes nothing else. Success shows the banner, closes the dialog, clears the selection and installs the reloaded lists; the tab and everything else are kept. |
| Goals.GoalsPage.ConfirmEncerrar | app/dashboard/goals/page.tsx:287-305 | Without a selected goal nothing happens at all. Without a token only the authentication error is shown and nothing is sent. Otherwise the selected goal is closed. A failure shows its message, or `Erro ao encerrar meta.`, and changes nothing else. Success shows the banner, clears the selection, installs the reloaded lists and shows the inactive tab; nothing else changes. |
| Goals.GoalsPage.ConfirmReativar | app/dashboard/goals/page.tsx:313-331 | Without a selected goal nothing happens at all. Without a token only the authentication error is shown and nothing is sent. Otherwise the selected goal is reactivated. A failure shows its message, or `Erro ao reativar meta.`, and changes nothing else. Success shows the banner, clears the selection, installs the reloaded lists and shows the active tab; nothing else changes. |
| Goals.GoalsPage.ToggleDay | app/dashboard/goals/page.tsx:396-431 | Without an open calendar nothing happens. Without a token only the authentication error is shown. Otherwise the toggle call is sent, as decided from the current marks. A failure keeps the marks and shows its message or `Erro ao atualizar marcação.`. Success installs the reloaded marks and keeps the banner. Only the marks and the banner may change. |
| History.FormatDuracao | app/dashboard/history/page.tsx:54-60 | "—" is shown exactly when the duration is missing or not positive. Under an hour the text is the whole minutes and `min`. From one hour on it is the hours, `h `, the minutes left over and `min`. |
| History.DuracaoReadsBack | app/dashboard/history/page.tsx:54-60 | The text reads back as whole hours and leftover minutes. |
| History.FormatDuracaoSameMinute | app/dashboard/history/page.tsx:54-60 | Two positive durations print the same text exactly when they fall in the same minute. |
| History.FilteredSessions | app/dashboard/history/page.tsx:139-146 | A blank search term shows every session. |
| History.FilteredSessionsShows | app/dashboard/history/page.tsx:139-146 | For a non-blank term, a session is shown exactly when its lower-cased notes contain the lower-cased term. Sessions without notes are never shown. |
| History.MatchesTerm | app/dashboard/history/page.tsx:142-145 | An empty term matches every session. A session without notes matches only the empty term. |
| History.MatchingConcat | app/dashboard/history/page.tsx:142-145 | Filtering keeps the order of the list. |
| History.SearchIgnoresCase | app/dashboard/history/page.tsx:141 | Lower-casing the term first changes nothing. |
| History.SetParam | app/dashboard/history/page.tsx:110-119 | `set` gives the name the new value, keeps every other entry, and appends a name that was absent. |
| History.SearchParams.constructor | app/dashboard/history/page.tsx:110 | A new parameter list is empty. |
| History.SearchParams.Set | app/dashboard/history/page.tsx:113-119 | `params.set` updates the entries as `SetParam` specifies. |
| History.QueryPieces | app/dashboard/history/page.tsx:121 | The serialised query splits on `&` into one `name=value` pair per entry, each encoded. |
| History.LoadSessions | app/dashboard/history/page.tsx:101-121 | Without a token nothing is fetched. Otherwise the sessions are fetched with the serialised filter query. |
| History.BuildQuery | app/dashboard/history/page.tsx:110-119 | The parameters are the sport filter (unless "todos"), then the start and end of the window. |
| History.LoadQueryCount | app/dashboard/history/page.tsx:110-119 | The query has two pairs for "todos" and three otherwise. |
| History.SportPieceReadsBack | app/dashboard/history/page.tsx:113-115 | The first pair is `modalidade=<sport>` when a sport is chosen. |
| History.StartPieceReadsBack | app/dashboard/history/page.tsx:118 | The window start travels as `inicio_em_inicio`. |
| History.EndPieceReadsBack | app/dashboard/history/page.tsx:119 | The window end travels as `inicio_em_fim`. |
| History.HistoryPage.constructor | app/dashboard/history/page.tsx:44-47 | The delete dialog starts closed with nothing selected. |
| History.HistoryPage.OpenDeleteModal | app/dashboard/history/page.tsx:149-152 | Opening selects the session and shows the dialog. |
| History.HistoryPage.CloseDeleteModal | app/dashboard/history/page.tsx:154-158 | While a delete is running the dialog cannot close. Otherwise it closes and the selection clears. The dialog stays consistent. |
| Dashboard.FormatTime | app/dashboard/page.tsx:109-114 | Under an hour the text is the whole minutes and ` min`, so 0 seconds gives `0 min`. From one hour on it is the hours, `h `, the minutes left over and `m`. The text always starts with a digit. |
| Dashboard.TimeReadsBack | app/dashboard/page.tsx:109-114 | The time reads back as whole hours and minutes under 60. |
| Dashboard.FormatTimeSameMinute | app/dashboard/page.tsx:109-114 | Two times print the same text exactly when they fall in the same minute. |
| Dashboard.JsRem60 | app/dashboard/page.tsx:436 | JavaScript's `%` by 60 takes the sign of the dividend and differs from it by a multiple of 60. |
| Dashboard.Pace | app/dashboard/page.tsx:432-438 | "--" is shown exactly when the pace is missing or zero. |
| Dashboard.PositivePace | app/dashboard/page.tsx:432-438 | A positive pace prints as `<min>'<sec>"`. |
| Dashboard.PaceReadsBack | app/dashboard/page.tsx:432-438 | A positive pace reads back to the same number of seconds. |
| Dashboard.CardFor | app/dashboard/page.tsx:88-97 | A failed streak fetch shows zero for both streaks. Otherwise the fetched streaks are shown. |
| Dashboard.WithStreaks | app/dashboard/page.tsx:88-97 | There is one card per goal, in order, each from its own fetch. |
| Dashboard.StreakFailureIsolated | app/dashboard/page.tsx:88-97 | A goal's card depends only on its own fetch. A failure there shows zeros. |
| Dashboard.StravaAuthUrl | app/dashboard/page.tsx:50-55 | The link exists exactly when both the client id and the redirect address are configured. |
| Dashboard.AuthUrlParams | app/dashboard/page.tsx:50-55 | The link is the Strava authorize endpoint with its five parameters (client id, response type, encoded redirect URI, approval prompt, scope), split back on `&`. |
| Dashboard.SyncStrava | app/dashboard/page.tsx:116-158 | Exactly one of error and message is shown. No token gives the login error. A failed request gives the connection error. A message appears exactly on a 2xx reply with a token. A truthy `detail` is shown as is. |
| Dashboard.SyncFallbackText | app/dashboard/page.tsx:137-150 | Without a `detail`, the fixed success or failure text is shown. |
| Sidebar.ActiveBelow | components/Sidebar.tsx:38-43 | An active non-home item's route is a prefix of the path, ending at a segment boundary. |
| Sidebar.IsActiveRoute | components/Sidebar.tsx:38-43 | The overview entry is active only on "/dashboard" itself. Any other entry is active exactly when its route starts the path and the path ends there or continues with `/`. |
| Sidebar.NotBelowWhen | components/Sidebar.tsx:38-43 | A longer path that continues the route without `/` does not activate it. |
| Sidebar.SegmentBoundary | components/Sidebar.tsx:38-43 | `/dashboard/goals/3` activates the goals item and `/dashboard/goalsX` does not. |
| Sidebar.SubRoutes | components/Sidebar.tsx:28-36 | Every non-home item lives under `/dashboard/`, and the items differ at the first character after it. |
| Sidebar.AtMostOneActive | components/Sidebar.tsx:28-43 | For any path, at most one of the six entries is active, the overview entry included. |
| Exercises.FilteredExercises | app/dashboard/exercises/page.tsx:31-34 | Shows exactly the exercises whose lower-cased name or muscle group contains the lower-cased term. |
| Exercises.Matches | app/dashboard/exercises/page.tsx:31-34 | An empty term matches every exercise. |
| Exercises.EmptySearchKeepsAll | app/dashboard/exercises/page.tsx:31-34 | An empty search shows everything. |
| Exercises.FilterConcat | app/dashboard/exercises/page.tsx:31-34 | Filtering keeps the order of the list. |
| Exercises.EquipmentIgnored | app/dashboard/exercises/page.tsx:31-34 | Changing an exercise's equipment never changes what a search shows. |
| Exercises.CountLabel | app/dashboard/exercises/page.tsx:59 | With no exercises the label is "Nenhum exercício cadastrado ainda". Otherwise it starts with the count. |
| Exercises.CountLabelReadsBack | app/dashboard/exercises/page.tsx:59 | The count reads back, followed by the singular or plural noun. |
| Exercises.ShowingLabel | app/dashboard/exercises/page.tsx:81 | The label starts with "Mostrando ". |
| Exercises.ShowingLabelReadsBack | app/dashboard/exercises/page.tsx:81 | "Mostrando" is followed by the shown count, then the total, then the noun, singular only for a total of 1. |
| AiCoach.StorageKey | components/AiCoach.tsx:45 | The key is `chat_history_` plus the exercise name with each run of white space replaced by `_`. |
| AiCoach.StorageKeyShape | components/AiCoach.tsx:45 | The key's suffix has no white space, and a name without white space is used as is. |
| AiCoach.Sendable | components/AiCoach.tsx:130-132 | No selected message is a failure (starting with ⚠️), and every message that is not a failure is kept. |
| AiCoach.SendableFromLog | components/AiCoach.tsx:130-132 | Nothing is added: every selected message is one of the log's own non-failure messages. |
| AiCoach.SendableConcat | components/AiCoach.tsx:130-132 | Dropping failures keeps the order of the log. |
| AiCoach.HistoryWindow | components/AiCoach.tsx:130-132 | The history sent is the last six sendable messages, or all of them if fewer. |
| AiCoach.FailureNeverResent | components/AiCoach.tsx:130-132 | Appending a failure message does not change the history that is sent. |
| AiCoach.AnswerJoinsWindow | components/AiCoach.tsx:130-132 | A new ordinary message is the last one in the history sent next. |
| AiCoach.FailureText | components/AiCoach.tsx:121-174 | No token gives the login message. A 429 gives the throttling message. Any other refusal gives `detail`, then `erro`, then the connection message, printed as text. A `null` error body gives the engine's property-read error. A thrown error gives its own message. Any empty text becomes "Erro desconhecido.", so the text is never empty. |
| AiCoach.ReplyContent | components/AiCoach.tsx:149-174 | An answer is shown as is. Every failure becomes a ⚠️ message. |
| AiCoach.RequestFor | components/AiCoach.tsx:121-146 | A request is sent exactly when there is a token. It carries the question, the exercise name and context, the first-message flag, and as history exactly the window of the earlier log (at most six non-failure entries). |
| AiCoach.Persisted | components/AiCoach.tsx:69-76 | A non-empty log is stored under its key as JSON. An empty log removes the key. Other keys are untouched. |
| AiCoach.Coach.constructor | components/AiCoach.tsx:35-39 | The chat starts closed and empty, with an empty input. |
| AiCoach.Coach.Persist | components/AiCoach.tsx:69-76 | Storage becomes `Persisted` of the current log. |
| AiCoach.Coach.ClearChat | components/AiCoach.tsx:89-93 | The log is emptied and its key is removed from storage. |
| AiCoach.Coach.Ask | components/AiCoach.tsx:98-178 | An empty question, or one asked while loading, changes nothing. Otherwise the input is cleared, the chat opens, the question and the reply (or failure) are appended, and loading ends. |
| AiCoach.Coach.Record | components/AiCoach.tsx:111-176 | The question and its reply are appended in order, loading ends and the log is persisted. |
| Header.FirstName | components/Header.tsx:17 | The greeting is the whole first word of the trimmed name: a non-empty prefix without a space, followed by a space or the end of the name. A blank name gives "Atleta". |
| Header.FirstNameOfFullName | components/Header.tsx:17 | For "first rest" the greeting is "first". |
| Header.DisplayName | components/Header.tsx:108 | The menu shows the name when it is non-empty, and "Atleta" otherwise. |
| Base.OrElse | components/AiCoach.tsx:104 | `a \|\| b` on text gives `a` when it is non-empty and `b` otherwise. |

## Left out

- Rendering, effects, timers (the auto-hiding feedback), loading flags other than the coach's, and concurrent handlers are not modelled.
- Dates are text: `toISOString`, `getDay` and month lengths are inputs (`CalendarCells` takes the first weekday and month length).
- Numbers are reals, and `Number(...)` is modelled only for decimal text forms (digits, one optional point, sign), after trimming surrounding white space. Exponents, hex and `Infinity` are not handled.
- `toFixed(2)` and `toString` on non-integers are not modelled. The distance is sent as the number it parses to.
- Dashboard.FormatTime: takes whole non-negative seconds, so negative or fractional inputs are not covered.
- Dashboard.Pace: takes a whole number of seconds, so a fractional `ritmo_medio`, whose `r % 60` would print with a fraction, is not covered.
- History.FormatDuracao: takes whole seconds, so fractional durations are not covered.
- The delete handler of the history page, with its list refresh, is not part of this model. Only its dialog guard is.
- Restoring the chat from storage with `JSON.parse` at mount, and the order of the mount effects, are not modelled. `Persisted` covers the save direction.
- The coach's and Strava's `fetch` calls bypass `apiFetch`. Their replies are parameters (`CoachReply`, `Api.Reply`).
- The engine's own `TypeError` text for reading a property of `null` is a parameter (`nullRead`).
- `generateId` is not modelled: message ids are parameters.
- `data.resposta` is assumed to be text.
- Streak objects with extra keys from the spread are not modelled. A card keeps only the two streak numbers.
- `API_URL` is not prepended to paths: requests carry the bare path.
- These create and mark calls are imported by the pages but do not appear in lib/api.ts, so they are represented only by their arguments:
  - `createSessaoAtividade`
  - `createMetricasCorrida`
  - `createMetricasCiclismo`
  - `createSerieMusculacao`
  - `getMarcacoesHabitoByMeta`
  - `createMarcacaoHabito`
  - `updateMarcacaoHabito`
- Other endpoints of lib/api.ts (register, profile, exercises, streaks) are not modelled. Their only logic is what `Api.Dispatch` covers.
- A failing `loadMetas` after a successful create is not modelled: the reload is given as lists.
- JsText.Lower: lower-cases only ASCII and Latin-1 letters; other scripts (Greek, Cyrillic, and so on) and the special cases of `toLowerCase` are kept as written. The history search is therefore modelled only for such text.
- JsValue.Stringify: response bodies are restricted to `WellFormed` values (`ParsedJson`): object keys are distinct and none is a non-empty run of digits, and numbers are integers. Repeated keys, the numeric-first key order JavaScript gives index-like keys, and fractional numbers are not modelled.
- Api.NormalizeMessage: the same restriction applies to the bodies it prints, so its text is the one `JSON.stringify` writes only for such bodies.
- Sessions.SessionForm.Submit: the `RangeError` that `toISOString` throws for an invalid date is not modelled, because the start instant is an input text. The modality check is not modelled either, because the modality is a closed datatype.
- The network is a pure function of the request, so two identical requests always get identical replies. A back end whose answer changes between the first call and its re-issue is not covered.
- The `typeof window !== 'undefined'` tests in lib/api.ts are taken as true: the model is the browser, never server-side rendering.
