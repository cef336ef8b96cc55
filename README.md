# PayFlow core, modelled in Dafny

PayFlow is an early-wage-access demo. An employee sees what they have earned this pay period, withdraws part of it for a 2.6% fee, and is told the payday on which the advance settles. An HR administrator onboards payroll files through a four-step wizard, pages through the employee roster and reads AI insights. A chat assistant answers payroll questions. The system has a Next.js frontend and a FastAPI backend.

This project models the logic of that system:

- The fee and the next-payday rule. The payday rule includes the `Date` constructor's carrying of overflowing days and months. The model has a small proleptic Gregorian calendar with month lengths and leap years for this.
- The backend handlers:
  - pagination with Python slicing and floor division;
  - the CSV filename check;
  - the recommendation savings sum;
  - the chat endpoint;
  - the LAN-address URL.
- The two keyword responders:
  - the backend's four-way mock chat classifier;
  - the frontend assistant's table of predefined answers with its keyword fallbacks.
- The state machines of the frontend components:
  - the chat log;
  - the onboarding wizard;
  - the employee screen flow;
  - the mobile-handoff URL cache;
  - the insights panel.
- The AI-service singleton.
- The severity and priority mappings, and the choice of the API base URL.

Five components with state are modelled twice: the chat log, the onboarding wizard, the employee screen flow, the mobile-handoff URL cache and the insights panel.

- **A specification.** A datatype for the state, an `Enabled` predicate saying when an event (a click, a timer, a settled request) can happen, and a `Step` function. The lemmas state the component's properties over these.
- **A class.** Its fields are the component's state cells. Each handler is a method whose contract ties the new state to `Step` of the old state.

The slider's selection (`EwaSlider.SliderScreen`) and the AI-service singleton (`AiService.ServiceRegistry`) are classes only, without a separate specification state machine; their methods' contracts state the new state directly. The insights panel has a single event, the settling of its requests, so its specification is the function `Settle`, which needs the requests to be pending.

Timers and network requests are outstanding completions. They arrive later as events that carry their outcome. Amounts are whole pesos. Strings are sequences of characters, and lower-casing and trimming are ASCII only.

Modules and files:

| module | file | models |
|---|---|---|
| `Wrappers` | wrappers.dfy | `Option` |
| `Text` | text.dfy | ASCII lower-casing, `trim`, substring search, `startsWith` and `endsWith` |
| `Calendar` | calendar.dfy | JS `Date` construction |
| `EwaSlider` | ewa_slider.dfy | frontend/components/EWASliderScreen.tsx |
| `CashoutSuccess` | cashout_success.dfy | frontend/components/CashoutSuccessScreen.tsx |
| `AiService` | ai_service.dfy | backend/app/services/ai.py |
| `BackendApi` | backend_api.dfy | backend/app/main.py |
| `AiAssistant` | ai_assistant.dfy | frontend/components/AIAssistant.tsx |
| `PayrollOnboarding` | payroll_onboarding.dfy | frontend/components/AIPayrollOnboarding.tsx |
| `EmployeeView` | employee_view.dfy | frontend/components/EmployeeView.tsx |
| `MobileHandoff` | mobile_handoff.dfy | frontend/components/MobileHandoff.tsx |
| `AiInsights` | ai_insights.dfy | frontend/components/AIInsights.tsx |
| `ApiConfig` | api_config.dfy | frontend/lib/api.ts |

## Model

| member | source | states |
|---|---|---|
| `Calendar.NewDate` | frontend/components/EWASliderScreen.tsx:37-41 | `new Date(year, month, day)` for a day of at least 1 always yields an existing calendar date |
| `Calendar.NewDateInRange` | frontend/components/EWASliderScreen.tsx:37-41 | a day that exists in the normalised month is kept as given, and the month index is carried into the year by floor division |
| `Calendar.NewDateDecemberRollover` | frontend/components/EWASliderScreen.tsx:41 | month index 12 becomes January of the following year |
| `Calendar.NewDateFebruaryThirtieth` | frontend/components/CashoutSuccessScreen.tsx:33 | February 30 becomes March 1 in a leap year and March 2 otherwise |
| `Calendar.FullYear` | frontend/components/EWASliderScreen.tsx:37 | the constructor reads a year from 0 to 99 as 1900 plus the year, and keeps any other year |
| `Calendar.CarryDays` | frontend/components/EWASliderScreen.tsx:37-41 | carrying an overflowing day of at least 1 into the following months always yields an existing calendar date |
| `Calendar.CarryDaysIsAddDays` | frontend/components/EWASliderScreen.tsx:37-41 | the constructor's carrying of an overflowing day equals counting that many days forward one at a time from the first of the month |
| `Calendar.AddDaysAfter` | frontend/components/EWASliderScreen.tsx:29-43 | counting at least one day forward gives a strictly later date, which underlies "payday is after today" |
| `EwaSlider.InitialSelection` | frontend/components/EWASliderScreen.tsx:19 | the initial selection r satisfies 2r ≤ maxAccess < 2r + 2, so it is the floor of half the maximum |
| `EwaSlider.OnSliderGrid` | frontend/components/EWASliderScreen.tsx:113-118 | the slider offers exactly the multiples of 50 from 100 up to the maximum; with a maximum below 100 the range input takes 100 as its maximum and offers 100 alone |
| `EwaSlider.InitialSelectionNotClamped` | frontend/components/EWASliderScreen.tsx:19 | the initial selection can lie below the slider's minimum of 100 or off its 50-peso grid (75 for a maximum of 150, 1225 for 2450) |
| `EwaSlider.Fee` | frontend/components/EWASliderScreen.tsx:22-24 | the fee is within half a peso of 2.6% of the amount, halves rounding up, and for a non-negative amount it lies between 0 and the amount |
| `EwaSlider.FeeIsNearestPeso` | frontend/components/EWASliderScreen.tsx:22-24 | the rounded fee is the only whole number within that half-peso window, so it is determined uniquely |
| `EwaSlider.FeeMonotone` | frontend/components/EWASliderScreen.tsx:22-24 | a larger amount never has a smaller fee |
| `EwaSlider.FeeExamples` | frontend/components/EWASliderScreen.tsx:22-24 | the help text's example holds (2,000 pesos cost 52), 2,500 pesos cost 65, and the half-peso tie at 250 rounds up to 7 |
| `EwaSlider.NextPayday` | frontend/components/EWASliderScreen.tsx:29-45 | the payday is an existing date strictly after today |
| `EwaSlider.PaydayOnBoundaries` | frontend/components/EWASliderScreen.tsx:36-42 | on the 15th the payday is the 30th when the month has one; on the 30th or 31st it is the next month's 15th, and December rolls into January |
| `EwaSlider.SliderScreen.constructor` | frontend/components/EWASliderScreen.tsx:19 | the selection starts at the floor of half the maximum |
| `EwaSlider.SliderScreen.CurrentFee` | frontend/components/EWASliderScreen.tsx:26 | the fee shown is within half a peso of 2.6% of the current selection |
| `EwaSlider.SliderScreen.HandleSliderChange` | frontend/components/EWASliderScreen.tsx:56-58 | the slider's value becomes the selection |
| `EwaSlider.SliderScreen.HandleConfirm` | frontend/components/EWASliderScreen.tsx:60-62 | confirm hands over exactly the selected amount and the fee of that same amount |
| `CashoutSuccess.NextPayday` | frontend/components/CashoutSuccessScreen.tsx:23-39 | this screen's copy of the rule also gives an existing date strictly after today |
| `CashoutSuccess.PaydayEarlyMonth` | frontend/components/CashoutSuccessScreen.tsx:30-31 | before the 15th the payday is the 15th of the current month |
| `CashoutSuccess.PaydayMidMonth` | frontend/components/CashoutSuccessScreen.tsx:32-33 | from the 15th to the 29th the payday is the 30th, except in February, where the constructor carries it to March 1 or 2 |
| `CashoutSuccess.PaydayEndOfMonth` | frontend/components/CashoutSuccessScreen.tsx:34-35 | on the 30th or 31st the payday is the next month's 15th, and December rolls into January of the next year |
| `CashoutSuccess.PaydayCopiesAgree` | frontend/components/CashoutSuccessScreen.tsx:23-39 | for every date the two screens announce the same payday |
| `CashoutSuccess.Render` | frontend/components/CashoutSuccessScreen.tsx:59-68 | the screen shows exactly the amount it was given, and a settlement date after today |
| `CashoutSuccess.ShownAmountIsGross` | frontend/components/CashoutSuccessScreen.tsx:59 | the amount shown is not the amount net of the fee |
| `AiService.MockChatResponse` | backend/app/services/ai.py:137-148 | the reply is always one of exactly four fixed texts |
| `AiService.RepliesDistinct` | backend/app/services/ai.py:141-148 | the four reply texts are pairwise different |
| `AiService.ChatRuleOrder` | backend/app/services/ai.py:141-148 | each reply is characterised exactly by the rule order: "withdraw" or "cash out" first, then "when" together with "payday", then "how much", else the greeting |
| `AiService.ChatDependsOnlyOnLoweredMessage` | backend/app/services/ai.py:137-139 | two messages that lower-case alike get the same reply whatever the contexts |
| `AiService.ChatWithdrawAnyCase` | backend/app/services/ai.py:139-142 | a message containing "withdraw" in any capitalisation gets the withdrawal reply |
| `AiService.MockRecommendations` | backend/app/services/ai.py:178-199 | three recommendations in priority order high, medium, low, with savings 500, 150 and 75 |
| `AiService.AIService.ChatCompletion` | backend/app/services/ai.py:35-61 | `chat_completion` returns the mock reply for the same message and context |
| `AiService.AIService.GenerateRecommendations` | backend/app/services/ai.py:86-102 | `generate_recommendations` ignores its inputs and returns the mock list |
| `AiService.ServiceRegistry.GetAIService` | backend/app/services/ai.py:248-255 | the first call creates a fresh instance and stores it; later calls return the stored instance |
| `AiService.ServiceRegistry.GetAIServiceTwice` | backend/app/services/ai.py:248-255 | two successive calls return one and the same object |
| `BackendApi.PySlice` | backend/app/main.py:168 | Python's `s[start:end]`: the length and the elements after clipping each bound, a negative bound counting from the end |
| `BackendApi.FloorDiv` | backend/app/main.py:177 | Python's `//` rounds towards negative infinity, for either sign of divisor |
| `BackendApi.Page` | backend/app/main.py:163-168 | a page never holds more than per_page entries, and for page ≥ 1 it is the list slice from (page−1)·per_page to page·per_page, clipped to the list |
| `BackendApi.TotalPages` | backend/app/main.py:177 | for per_page ≥ 1, total_pages is the ceiling of total / per_page: (r−1)·per_page < total ≤ r·per_page |
| `BackendApi.GetEmployees` | backend/app/main.py:101-179 | per_page = 0 and only it gives a 500 error; otherwise the body holds the requested page and reports page, per_page, the total of 50 and total_pages |
| `BackendApi.PagesUpToIsPrefix` | backend/app/main.py:164-168 | pages 1 to k laid end to end are the first k·per_page entries of the list |
| `BackendApi.PagesPartitionList` | backend/app/main.py:164-177 | pages 1 to total_pages, concatenated in order, reproduce the whole list |
| `BackendApi.PagesNonEmpty` | backend/app/main.py:164-177 | every page from 1 to total_pages holds at least one entry |
| `BackendApi.PageBeyondLastIsEmpty` | backend/app/main.py:164-177 | a page beyond total_pages is empty |
| `BackendApi.EntryOnPage` | backend/app/main.py:164-168 | entry i sits at position i mod per_page of page i div per_page + 1, which is within 1..total_pages |
| `BackendApi.PagePositionUnique` | backend/app/main.py:164-168 | position j of page q holds entry (q−1)·per_page + j, and that entry's page and position are determined by division |
| `BackendApi.PageBeyondLastResponse` | backend/app/main.py:164-179 | a page beyond the last returns an empty list and still reports the total and total_pages |
| `BackendApi.EmployeePagesExamples` | backend/app/main.py:102-179 | the default query returns the first 10 of 50 entries and 5 pages; page 0 is empty and page −1 returns entries 30 to 39 through Python's negative slicing |
| `BackendApi.CheckUploadFilename` | backend/app/main.py:44-48 | the upload goes on to be read exactly when the filename ends in ".csv"; otherwise it is rejected with status 400 and the fixed detail |
| `BackendApi.UploadFilenameExamples` | backend/app/main.py:44-48 | any name ending in ".csv" passes; ".CSV", ".csv.xlsx" and a bare "csv" are rejected |
| `BackendApi.SumSavings` | backend/app/main.py:270 | the total is non-negative when every saving is, and 0 when every field is missing |
| `BackendApi.SumSavingsAppend` | backend/app/main.py:270 | the sum over two lists laid end to end is the sum of their sums |
| `BackendApi.SumSavingsMissingIsZero` | backend/app/main.py:270 | a recommendation without `potential_savings` adds nothing |
| `BackendApi.AiRecommend` | backend/app/main.py:250-271 | the endpoint returns the service's three recommendations and a total potential saving of 725 |
| `BackendApi.AiChat` | backend/app/main.py:197-223 | the reply is the service's answer to the message field under the fixed context; without a message field it is the greeting |
| `BackendApi.GetSystemIp` | backend/app/main.py:182-193 | the body holds the LAN address, and the frontend URL is "http://" + address + ":3000" |
| `AiAssistant.Normalize` | frontend/components/AIAssistant.tsx:45 | the normalised message is exactly the lower-cased message with surrounding whitespace trimmed, so it has no upper-case letter and is no longer than the message |
| `AiAssistant.NormalizeKeeps` | frontend/components/AIAssistant.tsx:45 | a lower-case message without surrounding whitespace is matched unchanged |
| `AiAssistant.PredefinedIgnoresCase` | frontend/components/AIAssistant.tsx:45 | lower-casing a message first never changes its answer, so matching ignores letter case |
| `AiAssistant.PredefinedIgnoresPadding` | frontend/components/AIAssistant.tsx:45 | whitespace added before or after a message never changes its answer |
| `AiAssistant.FirstMatchIndex` | frontend/components/AIAssistant.tsx:48-52 | the index found is that of the first entry whose key contains the message or is contained in it; no earlier key matches, and it is the table's length when no key matches |
| `AiAssistant.FirstMatchIndexIs` | frontend/components/AIAssistant.tsx:48-52 | the first match is determined by which entries before and at an index match |
| `AiAssistant.KeywordFallback` | frontend/components/AIAssistant.tsx:55-68 | there is no fallback answer exactly when no keyword of the four groups (withdraw/access, payday/salary, fee/cost/charge, help/support) occurs |
| `AiAssistant.FallbackWordingsDistinct` | frontend/components/AIAssistant.tsx:55-66 | the four fallback texts are pairwise different |
| `AiAssistant.KeywordFallbackOrder` | frontend/components/AIAssistant.tsx:55-66 | the withdrawal fallback is given exactly when withdraw/access occurs, the payday fallback exactly when payday/salary occurs without those, the fee fallback exactly when fee/cost/charge occurs without either earlier group, and the help fallback exactly when help/support occurs without any earlier group |
| `AiAssistant.Answer` | frontend/components/AIAssistant.tsx:48-68 | there is no answer exactly when no key matches the normalised message and no keyword fallback applies |
| `AiAssistant.FindAnswer` | frontend/components/AIAssistant.tsx:48-68 | the search loop returns the answer of the first matching entry, else the keyword fallback, which is the specified answer |
| `AiAssistant.GetPredefinedResponse` | frontend/components/AIAssistant.tsx:44-69 | `getPredefinedResponse` returns the answer specified for the normalised message |
| `AiAssistant.TableBeforeKeywords` | frontend/components/AIAssistant.tsx:48-57 | when some key matches, the answer comes from the earliest matching entry, never from a keyword fallback |
| `AiAssistant.FallbackOnlyWithoutKeyMatch` | frontend/components/AIAssistant.tsx:55-68 | the keyword fallbacks decide the answer only when no key matches |
| `AiAssistant.PartOfFirstKeyGetsFirstAnswer` | frontend/components/AIAssistant.tsx:49 | a message that normalises to part of the first key gets the first answer |
| `AiAssistant.PredefinedResponse` | frontend/components/AIAssistant.tsx:44-69 | a message that is blank after lower-casing and trimming gets the first entry's answer, since every key contains the empty string |
| `AiAssistant.FeeAnsweredByTable` | frontend/components/AIAssistant.tsx:18 | the message "fee" is answered by the table entry "what is the fee", never by the fee fallback |
| `AiAssistant.HelpMatchesNoKey` | frontend/components/AIAssistant.tsx:13-22 | "help" matches no key in either direction |
| `AiAssistant.HelpKeywordFallback` | frontend/components/AIAssistant.tsx:55-66 | "help" passes the first three keyword groups and gets the help fallback |
| `AiAssistant.HelpFallsThrough` | frontend/components/AIAssistant.tsx:44-69 | the message "help" gets the help fallback answer |
| `AiAssistant.Initial` | frontend/components/AIAssistant.tsx:26-33 | the chat starts with the greeting alone, an empty input and nothing loading |
| `AiAssistant.AwaitingFor` | frontend/components/AIAssistant.tsx:80-91 | a send waits for the timer exactly when a predefined answer exists, carrying that answer; otherwise it waits for the request with the message |
| `AiAssistant.ReplyFor` | frontend/components/AIAssistant.tsx:103-114 | a settled request adds the response field, or the fixed failure text |
| `AiAssistant.Step` | frontend/components/AIAssistant.tsx:71-128 | typing and quick questions leave the conversation and the loading state alone; a send that is not ignored appends the raw input as a user message, clears the input, sets loading and waits for the timer of the predefined answer or for the request; a timer or a settled request ends loading and leaves the input alone; a reset clears the input but keeps an outstanding answer outstanding |
| `AiAssistant.InitialInv` | frontend/components/AIAssistant.tsx:26-33 | the initial state satisfies the invariant: loading exactly while a completion is outstanding, the greeting first, and no blank user message |
| `AiAssistant.StepPreservesInv` | frontend/components/AIAssistant.tsx:71-128 | every event keeps that invariant |
| `AiAssistant.MessagesAppendOnly` | frontend/components/AIAssistant.tsx:76-114 | apart from a reset, the old conversation is a prefix of the new one and at most one message is added |
| `AiAssistant.SendIgnoredChangesNothing` | frontend/components/AIAssistant.tsx:72 | a send with whitespace-only input, or while loading, changes nothing |
| `AiAssistant.SendStepFound` | frontend/components/AIAssistant.tsx:74-91 | a valid send, stated through the lookup result the handler obtains: it waits for the timer with the answer found, or for the request with the message |
| `AiAssistant.SendWaitsForOneCompletion` | frontend/components/AIAssistant.tsx:72-77 | after a valid send one completion is outstanding, and a second send meanwhile is ignored |
| `AiAssistant.SendThenPredefinedReply` | frontend/components/AIAssistant.tsx:74-90 | a send with a predefined answer, followed by its timer, adds exactly the user's message and that answer, and ends with loading false |
| `AiAssistant.SendThenRequestReply` | frontend/components/AIAssistant.tsx:94-117 | a send without one, followed by the settled request, adds exactly the user's message and the response or the failure text, and ends with loading false |
| `AiAssistant.ResetWhileLoading` | frontend/components/AIAssistant.tsx:83-89 | a reset does not cancel a pending answer: reset then the timer leave the greeting followed by that answer |
| `AiAssistant.BackendAnswer` | frontend/components/AIAssistant.tsx:94-106 | a message without a predefined answer, answered by the backend's chat endpoint, adds the backend's keyword reply |
| `AiAssistant.AssistantChat.constructor` | frontend/components/AIAssistant.tsx:26-33 | the fields start in the initial state |
| `AiAssistant.AssistantChat.SetInput` | frontend/components/AIAssistant.tsx:240 | typing replaces the input as the specification's step does |
| `AiAssistant.AssistantChat.AskQuickQuestion` | frontend/components/AIAssistant.tsx:217-221 | a quick-question button puts its question into the input |
| `AiAssistant.AssistantChat.SendMessage` | frontend/components/AIAssistant.tsx:71-91 | `sendMessage` up to its first wait leaves the state the specification's send step gives |
| `AiAssistant.AssistantChat.OnTimer` | frontend/components/AIAssistant.tsx:83-89 | the timer callback appends the predefined answer and ends loading |
| `AiAssistant.AssistantChat.OnRequestSettled` | frontend/components/AIAssistant.tsx:102-117 | the settled request appends the response or the failure text and ends loading |
| `AiAssistant.AssistantChat.ResetChat` | frontend/components/AIAssistant.tsx:120-128 | reset leaves exactly the greeting and an empty input |
| `PayrollOnboarding.Set` | frontend/components/AIPayrollOnboarding.tsx:23-26 | the spread update replaces one file's status and copies the other two |
| `PayrollOnboarding.AllFilesUploadedIff` | frontend/components/AIPayrollOnboarding.tsx:37 | `allFilesUploaded` holds exactly when every kind of file is uploaded |
| `PayrollOnboarding.Initial` | frontend/components/AIPayrollOnboarding.tsx:15-20 | the wizard starts at step 1 with all three files idle |
| `PayrollOnboarding.InitialInv` | frontend/components/AIPayrollOnboarding.tsx:15-20 | initially no file is both uploaded and processing |
| `PayrollOnboarding.StepPreservesInv` | frontend/components/AIPayrollOnboarding.tsx:22-35 | no event makes a file both uploaded and processing |
| `PayrollOnboarding.Step` | frontend/components/AIPayrollOnboarding.tsx:61-420 | every button moves the wizard to another step and leaves the files alone, and the upload button and its timer change a file but never the step |
| `PayrollOnboarding.StepMoves` | frontend/components/AIPayrollOnboarding.tsx:61-420 | every event keeps the step or moves 1→2, 2→3, 3→2, 3→4 or 4→3 |
| `PayrollOnboarding.EveryMoveHasAButton` | frontend/components/AIPayrollOnboarding.tsx:61-420 | each of those moves is made by some enabled button, the move from step 2 once all files are uploaded |
| `PayrollOnboarding.NoForwardFromValidation` | frontend/components/AIPayrollOnboarding.tsx:420-432 | from step 4 the wizard only stays or goes back to step 3 |
| `PayrollOnboarding.ContinueNeedsAllUploads` | frontend/components/AIPayrollOnboarding.tsx:209-211 | step 3 is reachable from step 2 exactly when all three files are uploaded |
| `PayrollOnboarding.StartUploadTouchesOnlyItsFile` | frontend/components/AIPayrollOnboarding.tsx:22-26 | starting an upload marks that file processing and not uploaded, copies the others and keeps the step |
| `PayrollOnboarding.FinishUploadTouchesOnlyItsFile` | frontend/components/AIPayrollOnboarding.tsx:29-34 | the processing timer marks that file uploaded and not processing, copies the others and keeps the step |
| `PayrollOnboarding.UploadedNeverReverts` | frontend/components/AIPayrollOnboarding.tsx:109-181 | an uploaded file stays uploaded whatever happens next |
| `PayrollOnboarding.NavigationKeepsFiles` | frontend/components/AIPayrollOnboarding.tsx:306 | moving between steps never touches the files, so going back to step 2 keeps finished uploads |
| `PayrollOnboarding.UploadAllThenContinue` | frontend/components/AIPayrollOnboarding.tsx:102-211 | starting and finishing all three uploads from an idle upload step enables the continue button |
| `PayrollOnboarding.OnboardingWizard.constructor` | frontend/components/AIPayrollOnboarding.tsx:15-20 | the fields start in the initial state |
| `PayrollOnboarding.OnboardingWizard.FilesReady` | frontend/components/AIPayrollOnboarding.tsx:37 | the derived flag holds exactly when every file is uploaded |
| `PayrollOnboarding.OnboardingWizard.Navigate` | frontend/components/AIPayrollOnboarding.tsx:61-420 | a navigation button sets the step as the specification's step does and keeps the invariant |
| `PayrollOnboarding.OnboardingWizard.HandleFileUpload` | frontend/components/AIPayrollOnboarding.tsx:22-27 | starting an upload updates the files as specified and keeps the invariant |
| `PayrollOnboarding.OnboardingWizard.OnProcessingDone` | frontend/components/AIPayrollOnboarding.tsx:29-34 | the timer callback updates the files as specified and keeps the invariant |
| `EmployeeView.Initial` | frontend/components/EmployeeView.tsx:23-26 | the view starts on the dashboard with amount 0, no data and loading, with the mount request outstanding |
| `EmployeeView.InitialInv` | frontend/components/EmployeeView.tsx:23-43 | initially loading implies an outstanding request |
| `EmployeeView.StepPreservesInv` | frontend/components/EmployeeView.tsx:28-69 | every event keeps that |
| `EmployeeView.Render` | frontend/components/EmployeeView.tsx:72-110 | the success screen is shown exactly on the success screen; the spinner exactly while loading unless the slider or the success screen is shown; the error text exactly after loading without data, off the success screen |
| `EmployeeView.Step` | frontend/components/EmployeeView.tsx:28-69 | only a settled request changes the data and the loading flag, and it ends loading without moving the screen; only confirm changes the amount; only the back button of the success screen starts a request |
| `EmployeeView.SliderNeedsData` | frontend/components/EmployeeView.tsx:72-81 | the slider is shown exactly on the slider screen with data present, with earned_this_period and available_for_withdrawal |
| `EmployeeView.SliderWithoutDataFallsThrough` | frontend/components/EmployeeView.tsx:72-100 | the slider screen without data shows the spinner or the error text |
| `EmployeeView.SuccessRegardlessOfData` | frontend/components/EmployeeView.tsx:83-90 | the success screen is shown whatever the data, with the recorded amount |
| `EmployeeView.DashboardNeedsData` | frontend/components/EmployeeView.tsx:72-110 | the dashboard is shown exactly on the dashboard screen, after loading, with data present |
| `EmployeeView.AccessEarningsOpensSlider` | frontend/components/EmployeeView.tsx:52-54 | "Access My Earnings" moves to the slider, changes nothing else and shows the slider |
| `EmployeeView.ConfirmIgnoresFee` | frontend/components/EmployeeView.tsx:56-59 | confirm records the amount, ignores the fee and shows the success screen with the amount |
| `EmployeeView.SuccessShowsGrossAmount` | frontend/components/EmployeeView.tsx:56-59 | the slider's amount and fee lead to a success screen showing the gross amount, not the amount net of the fee |
| `EmployeeView.BackActions` | frontend/components/EmployeeView.tsx:61-69 | both back actions return to the dashboard; only the one from the success screen starts a new request |
| `EmployeeView.FetchEndsLoading` | frontend/components/EmployeeView.tsx:28-39 | a settled request ends loading either way; a response replaces the data, a failure keeps it |
| `EmployeeView.LoadingNeverReturns` | frontend/components/EmployeeView.tsx:28-65 | once loading is false no event sets it again, so the refetch brings back no spinner |
| `EmployeeView.EmployeeScreen.constructor` | frontend/components/EmployeeView.tsx:23-26 | the fields start in the initial state |
| `EmployeeView.EmployeeScreen.HandleAccessEarnings` | frontend/components/EmployeeView.tsx:52-54 | the handler makes the specification's step |
| `EmployeeView.EmployeeScreen.HandleConfirmCashout` | frontend/components/EmployeeView.tsx:56-59 | the handler makes the specification's step |
| `EmployeeView.EmployeeScreen.HandleBackFromSlider` | frontend/components/EmployeeView.tsx:67-69 | the handler makes the specification's step |
| `EmployeeView.EmployeeScreen.HandleBackToDashboard` | frontend/components/EmployeeView.tsx:61-65 | the handler makes the specification's step |
| `EmployeeView.EmployeeScreen.OnFetchSettled` | frontend/components/EmployeeView.tsx:32-38 | the rest of `fetchEmployeeData` makes the specification's step |
| `MobileHandoff.Initial` | frontend/components/MobileHandoff.tsx:9-11 | the modal starts hidden, with an empty URL and not loading |
| `MobileHandoff.InitialInv` | frontend/components/MobileHandoff.tsx:9-11 | initially loading implies an outstanding request |
| `MobileHandoff.StepPreservesInv` | frontend/components/MobileHandoff.tsx:13-49 | every event keeps that |
| `MobileHandoff.Step` | frontend/components/MobileHandoff.tsx:13-49 | only a settled request changes the cached address; a request is started exactly by opening without a cached address; a settlement ends loading and leaves the modal as it is; opening shows and closing hides the modal |
| `MobileHandoff.OpenFetchesOnlyWhenEmpty` | frontend/components/MobileHandoff.tsx:28-33 | opening shows the modal and starts a request, setting loading, exactly when no URL is cached |
| `MobileHandoff.FetchStoresUrl` | frontend/components/MobileHandoff.tsx:13-26 | a successful request stores frontend_url, a failed one "http://localhost:3000"; either way loading ends |
| `MobileHandoff.CloseKeepsUrl` | frontend/components/MobileHandoff.tsx:49 | closing only hides the modal |
| `MobileHandoff.ReopenDoesNotRefetch` | frontend/components/MobileHandoff.tsx:28-49 | with a URL cached, closing and reopening returns to the same state without a request |
| `MobileHandoff.SettledFetchCaches` | frontend/components/MobileHandoff.tsx:19-33 | after a request returns a non-empty URL, the next open starts no request |
| `MobileHandoff.FailureIsNotRetried` | frontend/components/MobileHandoff.tsx:20-33 | after a failed request the next open starts no request either |
| `MobileHandoff.FetchedSystemIp` | frontend/components/MobileHandoff.tsx:17-19 | the backend's answer puts "http://" + LAN address + ":3000" into the QR code |
| `MobileHandoff.ModalBody` | frontend/components/MobileHandoff.tsx:68-78 | the spinner shows exactly while loading; the QR code exactly when not loading with an address, and it shows that address; the failure text exactly when not loading without one |
| `MobileHandoff.FailureShowsLocalhost` | frontend/components/MobileHandoff.tsx:20-26 | after a failed request the modal shows the QR code of the localhost address, never the failure text |
| `MobileHandoff.HandoffModal.constructor` | frontend/components/MobileHandoff.tsx:9-11 | the fields start in the initial state |
| `MobileHandoff.HandoffModal.HandleOpenModal` | frontend/components/MobileHandoff.tsx:28-33 | `handleOpenModal` makes the specification's step |
| `MobileHandoff.HandoffModal.HandleClose` | frontend/components/MobileHandoff.tsx:49 | the close button makes the specification's step |
| `MobileHandoff.HandoffModal.OnFetchSettled` | frontend/components/MobileHandoff.tsx:17-25 | the rest of `fetchLanIp` makes the specification's step |
| `AiInsights.SeverityColor` | frontend/components/AIInsights.tsx:62-72 | green exactly for "success", yellow exactly for "warning", blue exactly for everything else |
| `AiInsights.SeverityIconColor` | frontend/components/AIInsights.tsx:74-84 | the icon colour follows the same three-way split |
| `AiInsights.SeverityMappingsAgree` | frontend/components/AIInsights.tsx:62-84 | two severities share a card colour exactly when they share an icon colour |
| `AiInsights.SameColourIff` | frontend/components/AIInsights.tsx:62-72 | two severities share a colour exactly when both are "success", both are "warning", or neither is either |
| `AiInsights.PriorityIcon` | frontend/components/AIInsights.tsx:86-96 | the red triangle exactly for "high", the yellow bulb exactly for "medium", the blue trend arrow for everything else, with their class names |
| `AiInsights.Initial` | frontend/components/AIInsights.tsx:33-39 | the panel starts with empty lists and loading, with its requests outstanding |
| `AiInsights.OrEmpty` | frontend/components/AIInsights.tsx:53-54 | a missing list becomes the empty list, and a present one is kept |
| `AiInsights.Settle` | frontend/components/AIInsights.tsx:50-59 | loading ends either way; missing lists become empty; a failure keeps both lists |
| `AiInsights.FailureLeavesListsEmpty` | frontend/components/AIInsights.tsx:37-60 | a failure of the requests made on mount leaves both lists empty and loading false |
| `AiInsights.InsightsPanel.constructor` | frontend/components/AIInsights.tsx:33-35 | the fields start in the initial state |
| `AiInsights.InsightsPanel.OnFetchSettled` | frontend/components/AIInsights.tsx:50-59 | the rest of `fetchInsights` settles the panel as specified |
| `ApiConfig.GetApiBaseUrl` | frontend/lib/api.ts:6-19 | a usable environment value is returned as it is; else the browser's host on port 8000; else localhost on port 8000 |
| `ApiConfig.EnvironmentWins` | frontend/lib/api.ts:8-14 | a non-blank environment value is returned untrimmed, whatever the browser's host |
| `ApiConfig.BlankEnvironmentIgnored` | frontend/lib/api.ts:9 | a whitespace-only value is treated as unset |
| `ApiConfig.VisibleEnvironmentUsed` | frontend/lib/api.ts:9-10 | a value with any visible character is used, surrounding whitespace included |
| `ApiConfig.BrowserHostUrl` | frontend/lib/api.ts:14-17 | in a browser without a usable value the URL is "http://" + hostname + ":8000" |

## Left out

- Locale formatting: `Intl.NumberFormat` and `toLocaleDateString` are library formatting. Paydays are (year, month, day) triples and amounts are whole pesos.
- EwaSlider.Fee: computes `Math.round(amount * 0.026)` exactly, ties rounding up. The floating-point product can land on either side of a half-peso tie (amount 250, for example), so the source may round some ties down.
- Slider position: the gradient percentage of the slider's background is left out. It divides by zero when the maximum is 100.
- EwaSlider.SliderScreen.HandleSliderChange: accepts any value. The range input itself only offers values on its grid.
- Dates: `new Date(...)` is modelled for a day argument of at least 1, which covers every use here (15 and 30). Dates are proleptic Gregorian with no time of day or time zone.
- CSV upload: reading the upload, UTF-8 decoding and pandas parsing are foreign-library I/O. Only the filename check before them is modelled.
- The LAN address: backend/app/utils.py is socket probing with a fallback. Its result is a parameter.
- Mock payloads:
  - the 50 roster rows are a parameter of length 50;
  - the insight dictionaries of `analyze_spending` are not modelled, and neither are the other mock analyses in ai.py;
  - the `/api/v1/employee/me`, `/` and `/api/v1/ai/analyze` handlers return fixed dictionaries and are left out.
- Savings: the recommendation amounts are whole pesos, not Python floats.
- Server setup: the FastAPI application and its CORS setup are left out.
- Asynchronous runtime:
  - `fetch`, JSON parsing, `Promise.all`, the `setTimeout` delays and React's rendering and effects are not modelled;
  - a timer or request that completes is an event carrying its outcome;
  - concurrent completions are ordered by the order of their events;
  - React's batching of state updates is not modelled.
- AiAssistant.AssistantChat.AskQuickQuestion: models only putting the question into the input. The send that a quick-question button schedules 100 ms later calls the `sendMessage` closure of the render in which it was clicked, and that closure still sees the previous input. The model treats a send as a separate event on the current input.
- Chat panel: opening and closing the chat panel, and scrolling to the newest message, are presentation only.
- Falsy values: every falsy value of a field (undefined, null, empty) is `None` or the empty string. A missing `employee` field is `None`. A missing `frontend_url` is the empty string, which the modal treats like the empty address it starts with.
- Text handling: lower-casing and trimming are ASCII only. `toLowerCase`, Python's `lower` and `trim` on other Unicode characters are not modelled.
- Presentation and routing: frontend/components/EmployerView.tsx, frontend/components/ADALockInVisual.tsx, frontend/app/page.tsx, frontend/app/layout.tsx and frontend/next.config.ts are not part of this model.
