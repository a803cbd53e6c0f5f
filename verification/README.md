# Survey client core, modelled in Dafny

This project models the stateful logic inside a React single-page client. The client collects psychological survey answers and shows them to administrators. Underneath the styling, routing and REST calls, that logic is:

- the survey form's submit handler, which normalises raw form values into bounded integers and refuses a submission with a missing required field;
- the survey detail panel's optimistic `isViewed` / `isActiveQueue` toggles, which roll the cache and the local flag back if the request fails;
- the statistics page's pie-chart shaping, its defaults for missing statistics and its no-data guard;
- a form field's validation rules, its string-to-value coercions and its read-only radio display;
- the pagination hook and the admin table's page, selection and delete state;
- the environment-variable lookup and the required-variable check.

Modules:

| file | module | models |
|---|---|---|
| js.dfy | `Js` | truthiness, `\|\|`, property lookup, `parseInt` (through Number-to-string), `Math.max/min` clamping, loose equality |
| seqs.dfy | `Seqs` | `Array.prototype.filter` and its order and membership facts |
| survey_form.dfy | `SurveySubmission` | `SurveyForm.jsx` `onSubmit` |
| query_cache.dfy | `QueryCache` | the cached survey pages and the three cache calls the panel makes |
| survey_response_display.dfy | `SurveyResponseDisplay` | `SurveyResponseDisplay.jsx` toggles, rollback and flag re-sync |
| stats_page.dfy | `StatsPage` | `StatsPage.jsx` data shaping |
| form_field.dfy | `FormField` | `FormField.jsx` rules and coercers |
| pagination.dfy | `Pagination` | `usePagination.js` |
| admin_page.dfy | `AdminPage` | `AdminPage.jsx` page and delete state |
| env.dfy | `Env` | `env.js` |

JavaScript values are the datatype `Js.JsValue`: undefined, null, booleans, integers and strings. A plain object is a `map<string, JsValue>`. `parseInt` first converts its argument to a string: undefined, null and booleans give NaN, and a number goes through its decimal text. `ParseIntOfNumber` proves that `parseInt` of a number gives the number back. Everything the normaliser's idempotence and the input round trips rely on follows from that lemma.

The state the source keeps in React hooks is modelled as classes whose methods update fields:

- `SurveySubmission.SurveyForm` keeps `isSubmitting`, the payload awaiting the server and the payloads sent. A press of the button (`Submit`) and the server's answer (`Settle`) are separate steps, so the disabled button's guard is modelled: `DoubleSubmitSendsOnce` shows that a second press before the answer sends nothing.
- `SurveyResponseDisplay.SurveyResponsePanel` keeps the local flags, each mutation's pending state and context, and the requests sent.
- `QueryCache.QueryClient` keeps the cache.
- `Pagination.PaginationState` and `AdminPage.AdminPanel` keep the current page and the selection.

The restore loop in `Settle` (the `forEach` of `setQueryData` calls) is a `while` loop over the snapshot's keys. Its invariant is that the cache equals `Restore` applied to the keys done so far. Two client methods run the whole toggle flow from a fresh panel:

- `ToggleThenFail`: a failed toggle leaves cache and flag as before the click.
- `DoubleClickSendsOnce`: a second click while the first request is pending is ignored.

The source calls `surveyAPI.toggleIsViewed` and `surveyAPI.updateIsActiveQueue`, but `src/services/api.jsx:7-28` defines neither. Each server call's outcome is therefore a parameter (`succeeded`, `serverAccepts`) that may take either value. The same applies to `createSurvey` and `deleteSurvey`, and to the user's answer to the delete confirmation. With `api.jsx` as it stands, `mutationFn` would call an undefined function and throw, so only the failure path of the two toggles is reachable. A free `succeeded` parameter covers that path and the success path a defined endpoint would add.

The survey page has no webcam capture loop: `src/pages/AnalyzePage.jsx:36-58` only sets a flag that shows the form.

## Model

| member | source | states |
|---|---|---|
| `Js.Or` | src/components/SurveyResponseDisplay.jsx:209-210 | `a \|\| b` is `a` when `a` is truthy and `b` otherwise; the result is truthy iff either operand is |
| `Js.Get` | src/components/SurveyForm.jsx:49 | reading a missing property gives undefined, a present one its value |
| `Js.ParseInt` | src/components/SurveyForm.jsx:49 | `parseInt` of a string parses it; of undefined, null or a boolean it is NaN |
| `Js.ParseIntOfNumber` | src/components/SurveyForm.jsx:49-58 | `parseInt` of any integer number returns that integer (round trip through its decimal text) |
| `Js.ParseIntOr` | src/components/SurveyForm.jsx:49-58 | `parseInt(v) \|\| d` is `d` when the parse is NaN or 0, and the parsed integer otherwise |
| `Js.ParseIntOrOfNumber` | src/components/SurveyForm.jsx:49-58 | on a number `n`, `parseInt(n) \|\| d` is `n` unless `n` is 0 |
| `Js.Clamp` | src/components/SurveyForm.jsx:49-58 | `Math.max(lo, Math.min(hi, x))` lies in `lo..hi`, is `x` inside the range and the nearer bound outside it |
| `Js.Truthy` | src/components/SurveyForm.jsx:64 | ToBoolean: undefined, null, false, 0 and '' are falsy, every other value truthy |
| `Js.NumberToString` | src/components/SurveyForm.jsx:49 | an integer's decimal text: non-empty, all digits when non-negative, a leading '-' otherwise; `ParseIntOfNumber` is its round trip |
| `Js.ParseIntString` | src/components/FormField.jsx:149 | `parseInt` on a string gives NaN iff no digit follows the optional sign |
| `Js.StringToNumber` | src/components/FormField.jsx:103 | ToNumber on a string: '' is 0; a non-empty string is a number iff it is an optional sign followed only by digits (so `"12abc"` is NaN), and that number is what `parseInt` gives |
| `Js.LooseEquals` | src/components/FormField.jsx:103 | `==` on primitives: null equals undefined, booleans compare as 0/1, a number and a string compare through ToNumber, same types compare strictly |
| `Js.LooseEqualsSymmetric` | src/components/FormField.jsx:103 | `==` is symmetric |
| `Js.LooseEqualsNumberString` | src/components/FormField.jsx:103 | a number loosely equals its own decimal text |
| `Seqs.Filter` | src/components/SurveyForm.jsx:64 | `filter` keeps exactly the elements satisfying the predicate, keeps all of them when all do, none when none do |
| `Seqs.FilterConcat` | src/utils/env.js:20 | `filter` distributes over concatenation, so it keeps the input's relative order |
| `Seqs.FilterStrictlyIncreasing` | src/pages/StatsPage.jsx:169-170 | filtering an ascending list gives an ascending list |
| `SurveySubmission.UserId` | src/components/SurveyForm.jsx:49 | the normalised userId is within 0..9999: 0 when the input is unparsable or parses to 0, the parsed integer clamped to 0..9999 otherwise |
| `SurveySubmission.Age` | src/components/SurveyForm.jsx:50 | the normalised age is within 1..100: 25 when the input is unparsable or parses to 0, the parsed integer clamped to 1..100 otherwise |
| `SurveySubmission.QuestionScore` | src/components/SurveyForm.jsx:51-58 | a normalised answer is within 1..5: 1 when the input is unparsable or parses to 0, the parsed integer clamped to 1..5 otherwise (so "4" is stored as 4) |
| `SurveySubmission.Normalise` | src/components/SurveyForm.jsx:47-60 | `processedData` has the input's keys plus the eleven normalised ones; every other field passes through unchanged; `isViewed` is false; userId, age and the eight questions are integers within their bounds |
| `SurveySubmission.NormaliseFallbacks` | src/components/SurveyForm.jsx:49-58 | an unparsable or zero input gives userId 0, age 25 and question 1; a non-zero parse of userId, age or any question is stored clamped to its range |
| `SurveySubmission.NormaliseIdempotent` | src/components/SurveyForm.jsx:49-59 | normalising an already normalised record changes nothing |
| `SurveySubmission.MissingFields` | src/components/SurveyForm.jsx:63-64 | a field is reported iff it is required and its value is falsy and not 0 |
| `SurveySubmission.NormalisedPresent` | src/components/SurveyForm.jsx:49-64 | after normalisation userId and the questions are never missing, and `name` is missing iff it was missing in the input |
| `SurveySubmission.OnlyNameCanBeMissing` | src/components/SurveyForm.jsx:49-64 | the missing list of a normalised record is `["name"]` when the name is falsy and not 0, and empty otherwise |
| `SurveySubmission.SurveyForm.constructor` | src/components/SurveyForm.jsx:33 | the form starts not submitting, with nothing sent |
| `SurveySubmission.SurveyForm.Submit` | src/components/SurveyForm.jsx:41-120 | a press while a submission is in flight is ignored (the button is disabled); a submission with a missing field is rejected with that list, nothing is sent and `isSubmitting` is false again; otherwise the normalised payload is sent once and stays in flight with `isSubmitting` true |
| `SurveySubmission.SurveyForm.Settle` | src/components/SurveyForm.jsx:72-93 | the server's answer ends the submission in flight: the outcome carries the sent payload, `isSubmitting` is false whichever way it went, and nothing more is sent |
| `SurveySubmission.DoubleSubmitSendsOnce` | src/components/SurveyForm.jsx:41-120 | two presses before the server answers, with a named first record, send exactly its normalised payload once; the second press is ignored |
| `QueryCache.SetEntry` | src/components/SurveyResponseDisplay.jsx:257 | `setQueryData` with undefined changes nothing; with data it sets that key and leaves every other key alone |
| `QueryCache.UpdateEntry` | src/components/SurveyResponseDisplay.jsx:229-230 | an updater result of undefined keeps the cached data |
| `QueryCache.ApplyToMatching` | src/components/SurveyResponseDisplay.jsx:229-243 | `setQueriesData` updates every cached key with the prefix and no other key, and adds no key |
| `QueryCache.Snapshot` | src/components/SurveyResponseDisplay.jsx:226 | `getQueriesData` holds exactly the cached keys with the prefix, with their data |
| `QueryCache.Restore` | src/components/SurveyResponseDisplay.jsx:255-258 | writing a snapshot back sets every key with defined data to its snapshot value and keeps the rest |
| `QueryCache.Restrict` | src/components/SurveyResponseDisplay.jsx:256 | the part of a snapshot already written back by the loop |
| `QueryCache.RestoreStep` | src/components/SurveyResponseDisplay.jsx:256-258 | one more `setQueryData` of a snapshot entry extends the written-back part by that key |
| `QueryCache.RollbackRestores` | src/components/SurveyResponseDisplay.jsx:226-258 | a snapshot taken before `setQueriesData`, written back, gives the cache exactly as it was, for any updater that leaves undefined data undefined |
| `QueryCache.QueryClient.constructor` | src/components/SurveyResponseDisplay.jsx:206 | the client holds the given cache |
| `QueryCache.QueryClient.QueriesData` | src/components/SurveyResponseDisplay.jsx:226 | the snapshot holds exactly the matching keys with their data |
| `QueryCache.QueryClient.SetQueriesData` | src/components/SurveyResponseDisplay.jsx:229-243 | the new cache is the updater applied to every matching key |
| `QueryCache.QueryClient.SetQueryData` | src/components/SurveyResponseDisplay.jsx:257 | the new cache is the old one with that key written (undefined writes nothing) |
| `SurveyResponseDisplay.MarkRecord` | src/components/SurveyResponseDisplay.jsx:236-239 | a record with a different `_id` is returned identical; the matching one gets the flag value and keeps every other property |
| `SurveyResponseDisplay.SetFlag` | src/components/SurveyResponseDisplay.jsx:229-292 | a page without `data.surveys` is returned unchanged; otherwise the page keeps everything but the surveys, whose length and order are kept and each of which is marked |
| `SurveyResponseDisplay.SetFlagIdempotent` | src/components/SurveyResponseDisplay.jsx:236-238 | applying the same updater twice equals applying it once |
| `SurveyResponseDisplay.Optimistic` | src/components/SurveyResponseDisplay.jsx:278-292 | after the optimistic update, every `['surveys', ...]` page has the flag set to the negation of the pre-click value, and other queries are untouched |
| `SurveyResponseDisplay.FailedToggleRestoresCache` | src/components/SurveyResponseDisplay.jsx:250-259 | restoring the pre-mutation snapshot after the optimistic update gives back the cache before the click |
| `SurveyResponseDisplay.SurveyResponsePanel.constructor` | src/components/SurveyResponseDisplay.jsx:209-218 | on mount the local flags are the selected survey's flags (after the effect's first run), or false with no selection; both mutations are idle |
| `SurveyResponseDisplay.SurveyResponsePanel.Select` | src/components/SurveyResponseDisplay.jsx:213-218 | when the selected survey's `isViewed`, `isActiveQueue` or `_id` changes, the local flags are copied from it; otherwise they keep their values |
| `SurveyResponseDisplay.SurveyResponsePanel.HandleToggle` | src/components/SurveyResponseDisplay.jsx:318-342 | with no `_id` or a pending mutation nothing changes; otherwise the local flag is negated, the cache gets the optimistic update writing that new value, the prior matching pages become the context, and the request `Call(flag, id, current)` is sent (the viewed toggle sends the pre-click value, the queue toggle the new one); the other flag is untouched |
| `SurveyResponseDisplay.Call` | src/components/SurveyResponseDisplay.jsx:220-271 | `mutationFn`: the viewed toggle calls `toggleIsViewed(id, current)`, the queue toggle `updateIsActiveQueue(id, !current)` |
| `SurveyResponseDisplay.DepsChanged` | src/components/SurveyResponseDisplay.jsx:218 | the effect's dependencies: it re-runs iff the selected survey's `isViewed`, `isActiveQueue` or `_id` differs |
| `SurveyResponseDisplay.SurveyResponsePanel.Settle` | src/components/SurveyResponseDisplay.jsx:247-315 | the mutation becomes idle; on failure the local flag is the pre-click value and every snapshotted key is written back; on success nothing else changes |
| `SurveyResponseDisplay.ToggleThenFail` | src/components/SurveyResponseDisplay.jsx:220-266 | click then failure: the cache equals the cache before the click and the local flag its value before the click, after exactly one request |
| `SurveyResponseDisplay.DoubleClickSendsOnce` | src/components/SurveyResponseDisplay.jsx:318-328 | two clicks while the first is pending send one request, flip the flag once, and leave the optimistic cache whose written value is the new flag |
| `StatsPage.Answers` | src/pages/StatsPage.jsx:169-170 | every listed answer is within 1..5 and has a positive count |
| `StatsPage.AnswersExact` | src/pages/StatsPage.jsx:169-170 | the answers listed are exactly those in 1..5 with a positive count, in strictly ascending order |
| `StatsPage.FormatPieChartData` | src/pages/StatsPage.jsx:168-208 | labels, data and both colour arrays all have one entry per listed answer; `data[i]` is the count of the i-th answer (positive); the label is that answer's text; the colours are the palette's first entries by position |
| `StatsPage.AllZeroGivesEmptyPie` | src/pages/StatsPage.jsx:170-171 | a distribution with no positive count gives a pie with no labels and no data |
| `StatsPage.ColorsFollowPosition` | src/pages/StatsPage.jsx:173-204 | a distribution where only answer 5 was given colours its one slice with the first palette entry |
| `StatsPage.OrEmpty` | src/pages/StatsPage.jsx:117-119 | a missing statistics array reads as empty |
| `StatsPage.QuestionDistribution` | src/pages/StatsPage.jsx:120-128 | a missing question distribution, or a missing distributions object, reads as an empty map |
| `StatsPage.Extract` | src/pages/StatsPage.jsx:115-130 | every statistics array and map defaults to empty; the eight question distributions are looked up by their keys in order |
| `StatsPage.QuestionPie` | src/pages/StatsPage.jsx:277-281 | a question's pie is drawn iff its distribution has at least one key, and it is `formatPieChartData` of that distribution titled `qN` for question N |
| `StatsPage.Render` | src/pages/StatsPage.jsx:103-338 | loading, then error, then the no-data guard (no data, no `data.data` or falsy `totalSurveys`) take precedence in that order; otherwise the dashboard shows the defaulted statistics with eight pies; pie N is drawn iff question N's distribution has a key, and is `formatPieChartData` of that distribution titled `qN` |
| `StatsPage.NoData` | src/pages/StatsPage.jsx:111 | no response, no `data.data`, or a falsy `totalSurveys` |
| `StatsPage.AnswerLabel` | src/pages/StatsPage.jsx:190-199 | the `labelMap`: answers 1..5 are labelled never, rarely, sometimes, often, always |
| `StatsPage.ZeroSurveysShowsNoData` | src/pages/StatsPage.jsx:111 | a response with `totalSurveys` 0 shows the no-data message |
| `FormField.ValidationRules` | src/components/FormField.jsx:47-53 | every key of `validation` is kept; `min`/`max` rules are added iff the prop is defined, with the prop as value, replacing any rule of that name |
| `FormField.WatchedValue` | src/components/FormField.jsx:55 | without `watch` the watched value is undefined |
| `FormField.NumberInputValue` | src/components/FormField.jsx:176-179 | '' stores undefined; any other input stores an integer, 0 when unparsable, the parsed value otherwise |
| `FormField.RadioInputValue` | src/components/FormField.jsx:149 | a radio value is never 0: an unparsable or zero input stores 1, otherwise the parsed integer |
| `FormField.RangeBoxValue` | src/components/FormField.jsx:85 | the range number box stores the parsed integer, 0 when unparsable |
| `FormField.RangeBoxDisplay` | src/components/FormField.jsx:84 | the range number box shows '' for an undefined value and the value otherwise |
| `FormField.NumberInputRoundTrip` | src/components/FormField.jsx:85-178 | typing the decimal text of an integer stores that integer in a number, range or (non-zero) radio input |
| `FormField.FindOption` | src/components/FormField.jsx:103 | `find` returns the first option loosely equal to the watched value, or nothing when none is |
| `FormField.ReadOnlyRadio` | src/components/FormField.jsx:103-118 | a read-only radio shows the label of the first loosely equal option iff there is one, and the raw value otherwise |
| `FormField.ReadOnlyShowsStoredScore` | src/components/FormField.jsx:103-118 | a score stored as a number or as its text finds its option |
| `Pagination.PageAfterChange` | src/hooks/usePagination.js:8-12 | the page becomes `newPage` iff `1 <= newPage <= totalPages`, otherwise it is unchanged |
| `Pagination.PageChangeStaysInRange` | src/hooks/usePagination.js:9-10 | after an accepted change, or from a page in range, the page is within `1..totalPages` |
| `Pagination.PageChangeIdempotent` | src/hooks/usePagination.js:8-12 | repeating the same request has no further effect |
| `Pagination.PaginationState.constructor` | src/hooks/usePagination.js:5-6 | an omitted initial page starts at page 1 |
| `Pagination.PaginationState.HandlePageChange` | src/hooks/usePagination.js:8-12 | the new page is `PageAfterChange` of the old one |
| `Pagination.PaginationState.ResetPage` | src/hooks/usePagination.js:14-16 | the page is 1 whatever it was |
| `AdminPage.SurveysOf` | src/pages/AdminPage.jsx:53 | missing surveys read as an empty list |
| `AdminPage.TotalPagesOf` | src/pages/AdminPage.jsx:54 | a missing or zero page count reads as 1 |
| `AdminPage.PageButtons` | src/pages/AdminPage.jsx:132 | the buttons are 1..totalPages in order, none for a non-positive count |
| `AdminPage.PageButtonsAreExactlyTheValidPages` | src/pages/AdminPage.jsx:132-133 | a page has a button iff it is within `1..totalPages`, and clicking any button moves to that page |
| `AdminPage.PrevDisabled` | src/pages/AdminPage.jsx:129 | "prev" is disabled on page 1 |
| `AdminPage.NextDisabled` | src/pages/AdminPage.jsx:137 | "next" is disabled on the last page |
| `AdminPage.EnabledNeighbourButtonsMove` | src/pages/AdminPage.jsx:129-137 | on a page within range an enabled "prev"/"next" moves by one; "prev" is disabled exactly on page 1, "next" exactly on the last page, and those clicks would be ignored anyway |
| `AdminPage.PageAfterDelete` | src/pages/AdminPage.jsx:61-63 | the page steps back by one iff it held exactly one survey and was above 1; it never drops below 1 from a valid page |
| `AdminPage.AdminPanel.constructor` | src/pages/AdminPage.jsx:44-45 | the table starts on page 1 with nothing selected |
| `AdminPage.AdminPanel.HandlePageChange` | src/pages/AdminPage.jsx:74-78 | the page changes only to a page within `1..totalPages` of the shown data |
| `AdminPage.AdminPanel.Select` | src/pages/AdminPage.jsx:118 | the row's view button makes the row the selection |
| `AdminPage.AdminPanel.OnDelete` | src/pages/AdminPage.jsx:56-72 | declining sends no delete and changes nothing; confirming sends the row's `_id`; a success clears the selection and applies the step-back rule to the rows shown |
| `Env.GetEnvVar` | src/utils/env.js:6-14 | the value is the variable when it is truthy and the default (empty string if omitted) otherwise; a warning is written iff both are falsy |
| `Env.MissingVars` | src/utils/env.js:20 | a name is listed iff it is required and its variable is unset or falsy |
| `Env.MissingVarsAppend` | src/utils/env.js:20 | the missing list keeps the order of the required list |
| `Env.ValidateRequiredEnvVars` | src/utils/env.js:19-28 | true iff every listed variable is truthy (so true for an empty list); on false the reported list is the non-empty missing list |

## Left out

- Styling, JSX markup, routing, i18n and app bootstrapping: they hold no state the core depends on. Translated texts are modelled as their translation keys.
- The HTTP client: every server call is a parameter saying whether it succeeded. Response bodies other than the survey pages and the statistics object are not modelled.
- The `fetch` to `/api/surveys/fix-isviewed` after a submission, toasts, `reset`, `navigate` and the one-second timer in the form's submit handler: network, UI and timer effects that do not change the modelled state.
- Query-library internals: `cancelQueries`, `invalidateQueries`, refetch intervals and cache garbage collection. After a settled toggle the model keeps the cache as the last write left it and does not model the refetch.
- Asynchrony: a toggle's click and `onMutate` are one step (`HandleToggle`), and its outcome is a later step (`Settle`); a form submission is split the same way (`Submit`, `Settle`). Other interleavings of promise continuations are not modelled.
- Js.ParseIntString: leading whitespace, hexadecimal prefixes, fractions and exponents are not parsed; only an optional sign and a decimal digit prefix are.
- Js.StringToNumber: loose equality's string-to-number conversion handles only '' and signed decimal integers; whitespace, fractions and exponents read as NaN.
- JavaScript numbers are unbounded integers here: NaN as a stored value, `-0`, fractions and floating-point rounding are not modelled.
- The heatmap, the daily, hourly and age charts, and date formatting: chart configuration and locale formatting only.
- Select, textarea and checkbox fields: they pass the rules through and hold no coercion. The validation messages are not modelled beyond the bound they quote.
