# AI trip planner — plan service, form state and view navigation

This project models the decision logic of a browser travel planner. A trip
request goes to a plan service. The service asks a hosted chat-completion
model for an itinerary, recovers a JSON object from the reply and fills in
any missing fields. When there is no API key or any step fails, it falls
back to a deterministic locally built plan.

Modules:

- `PlanService` (`plan_service.dfy`) covers `src/services/openai.ts`:
  - the plan record;
  - the two budget splits;
  - the fallback plan, as a specification function and as the imperative
    loop that pushes one day at a time;
  - greedy brace extraction and per-field `||` defaulting;
  - routing of every remote outcome;
  - the prompt.
- `TravelForm` (`travel_form.dfy`) covers the form component's state: the
  initial request, the interest toggle, the style choice, the other field
  setters and the submit guard.
- `App` (`app.dfy`) covers the four-view shell (`home | form | loading | plan`)
  and its handlers.
- Supporting modules:
  - `FormData` holds the request record.
  - `JsValues` holds the loosely typed value `JSON.parse` returns, with
    JavaScript truthiness, property reads and `||`.
  - `Text` holds integer rendering and `join`.
  - `Wrappers` holds `Option`.

Boundary choices:

- The remote call is an input value, `RemoteOutcome`: it either threw, or it
  carries an HTTP status and `choices[0]?.message?.content`.
- `JSON.parse` is a function parameter from string to an optional value.
  `None` means it threw.
- The day count computed from the two dates is an integer parameter.
- The plan fields that can come from the reply hold JavaScript values
  (`JsValue`). The source passes a truthy reply field through without
  checking its type, so the model keeps those fields untyped. The values
  the service builds itself are encoded as the JavaScript objects it creates.

Two behaviours of the code shape the model:

- The service uses any truthy reply field without checking its type.
  `PlanService.ReplyShape` states exactly when the result is well typed.
- Interests are a list in click order. Toggling an interest off removes
  every copy of it.

## Model

| member | source | states |
|---|---|---|
| `PlanService.ReplyDefaultSplit` | src/services/openai.ts:161-167 | each field is the floor of 40/30/20/8/2 percent of the budget; the five sum to at most the budget and to more than budget − 5; for a non-negative budget each is non-negative |
| `PlanService.MockSplit` | src/services/openai.ts:214-220 | the same for the fallback's 40/25/20/10/5 percent split |
| `PlanService.DurationText` | src/services/openai.ts:156 | the label ends in " ימים" and the text before it reads back as the day count |
| `PlanService.DurationTextInjective` | src/services/openai.ts:156 | equal duration labels come from equal day counts |
| `PlanService.TimeOfDay` | src/services/openai.ts:197 | morning iff day mod 3 = 1, afternoon iff 2, evening iff 0 |
| `PlanService.DailyCost` | src/services/openai.ts:196 | the cost is floor(budget / duration × 0.8): cost·10·duration ≤ 8·budget < (cost+1)·10·duration |
| `PlanService.MockTitleInjective` | src/services/openai.ts:189 | the title determines both the day number and the destination |
| `PlanService.MockDaysAt` | src/services/openai.ts:185-199 | after n pushes the itinerary has n entries and entry i is the entry of day i+1 |
| `PlanService.MockItineraryFacts` | src/services/openai.ts:185-199 | the itinerary has max(0, min(duration, 7)) entries and is empty for duration ≤ 0; entry i has day i+1, a title naming that day and the destination, the four fixed activities, the time of day of day i+1, and a cost computed from the full duration |
| `PlanService.MockDaysTotalCost` | src/services/openai.ts:196 | n fallback days cost n times the daily cost |
| `PlanService.MockCostWithinBudget` | src/services/openai.ts:185-199 | for a non-negative budget, all fallback days together cost at most 80% of the budget |
| `PlanService.MockPlan` | src/services/openai.ts:201-233 | the fallback plan echoes destination and budget, carries the duration label, and every field has its declared kind |
| `PlanService.GenerateMockPlan` | src/services/openai.ts:180-234 | the loop that pushes day after day builds exactly the fallback plan |
| `PlanService.FirstIndexOf` | src/services/openai.ts:146 | the position of the first occurrence, or none when the character does not occur |
| `PlanService.LastIndexOf` | src/services/openai.ts:146 | the position of the last occurrence, or none when the character does not occur |
| `PlanService.ExtractJsonObject` | src/services/openai.ts:146-147 | a match exists iff some `{` comes before some `}`; the match runs from the first `{` to the last `}` inclusive |
| `PlanService.ExtractWhole` | src/services/openai.ts:146 | a text that starts with `{` and ends with `}` matches as a whole |
| `PlanService.ExtractIdempotent` | src/services/openai.ts:146 | extracting again from a match returns it unchanged |
| `PlanService.ExtractEmbedded` | src/services/openai.ts:146 | an object with prose around it (no `{` before it, no `}` after it) is extracted exactly |
| `JsValues.Truthy` | src/services/openai.ts:158-169 | every array and every object is truthy, even an empty one; null, false, 0 and the empty string are not |
| `JsValues.Or` | src/services/openai.ts:158-169 | the or-operator yields one of its two operands, and a truthy fallback makes the result truthy whatever the reply holds |
| `PlanService.PlanFromReply` | src/services/openai.ts:154-157 | destination and budget come from the request and the duration label from the request's day count, whatever the reply held |
| `PlanService.ReplyFieldDefaults` | src/services/openai.ts:158-169 | a missing or falsy list field becomes `[]`, the weather text becomes the placeholder, and the breakdown becomes the 40/30/20/8/2 split; every truthy field passes through unchanged |
| `PlanService.ReplyShape` | src/services/openai.ts:158-169 | the defaulted plan is well typed iff every truthy reply field already has its declared kind |
| `PlanService.DefaultingIdempotent` | src/services/openai.ts:158-169 | every default is truthy, so defaulting an already defaulted plan changes nothing |
| `PlanService.ParseTravelPlan` | src/services/openai.ts:143-178 | the request fields are echoed; with no brace match, a parse that throws or a parsed `null`, the result is exactly the fallback plan; otherwise it is the defaulted reply |
| `PlanService.ServiceFromEnvironment` | src/services/openai.ts:31-36 | the service has a key iff the environment supplies a non-empty one, and then it is that one |
| `PlanService.GenerateTravelPlan` | src/services/openai.ts:38-88 | the request fields are echoed; without a key, on a thrown call, on a non-ok status, or without non-empty string content, the result is the fallback plan; otherwise it is the parsed content |
| `PlanService.GenerateIsFallbackOrDefaulted` | src/services/openai.ts:38-88 | every result is the fallback plan or a defaulted parsed reply, never a partial plan |
| `PlanService.NoKeyIgnoresRemote` | src/services/openai.ts:39-41 | without a key the remote outcome makes no difference |
| `PlanService.EmbeddedReplyIsUsed` | src/services/openai.ts:146-170 | an ok reply whose content wraps an object in prose is answered from that object alone |
| `PlanService.LisbonWithoutKey` | src/services/openai.ts:180-203 | no key, 4 days, budget 8000: the duration label reads "4 ימים" and there are 4 days costing 1600 each |
| `PlanService.LisbonServerError` | src/services/openai.ts:71-73 | an HTTP 500 gives the same plan as having no key |
| `PlanService.LisbonPartialReply` | src/services/openai.ts:146-170 | for "Sure! {…}" carrying only an itinerary and recommendations, the recommendations pass through, the weather is the placeholder and the breakdown is 3200/2400/1600/640/160 |
| `PlanService.PartialReplyFields` | src/services/openai.ts:158-169 | the per-field outcome of that partial reply object |
| `PlanService.CreatePrompt` | src/services/openai.ts:90-141 | the prompt contains the destination line, "(" + duration label + ")" and the interests joined with ", " |
| `Text.IntToString` | src/services/openai.ts:156 | a template literal renders an integer as a non-empty digit run, with a leading minus exactly for a negative value |
| `Text.IntToStringRoundTrip` | src/services/openai.ts:156 | reading the rendered text back gives the integer |
| `Text.IntToStringInjective` | src/services/openai.ts:156 | different day counts render as different texts |
| `Text.Join` | src/services/openai.ts:104 | joining no parts gives the empty string; a join is at least as long as its first and its last part |
| `Text.JoinEndsWithLast` | src/services/openai.ts:104 | a join of a non-empty list ends with its last part |
| `Text.JoinStartsWithFirst` | src/services/openai.ts:104 | a join of a non-empty list begins with its first part |
| `Text.JoinLength` | src/services/openai.ts:104 | a join is as long as its parts plus one separator per gap |
| `Text.JoinConcat` | src/services/openai.ts:104 | joining two non-empty lists gives the two joins with one separator between them |
| `TravelForm.RemoveAll` | src/components/TravelForm.tsx:54 | the value no longer occurs and every other value keeps its count |
| `TravelForm.RemoveAllConcat` | src/components/TravelForm.tsx:54 | filtering distributes over concatenation, so the survivors keep their relative order |
| `TravelForm.RemoveAllAbsent` | src/components/TravelForm.tsx:54 | filtering out an absent value changes nothing |
| `TravelForm.ToggleInterest` | src/components/TravelForm.tsx:50-57 | membership of the toggled interest flips; an absent one is appended at the end; every other interest keeps its count |
| `TravelForm.ToggleTwiceRestores` | src/components/TravelForm.tsx:50-57 | toggling an absent interest twice restores the list |
| `TravelForm.ToggleTwiceMovesToEnd` | src/components/TravelForm.tsx:50-57 | toggling a present interest twice moves it behind the others |
| `TravelForm.ToggleKeepsInterestsValid` | src/components/TravelForm.tsx:35-57 | toggling an offered interest keeps the list free of duplicates and within the offered ids |
| `TravelForm.TravelFormState.constructor` | src/components/TravelForm.tsx:25-33 | the form starts with an empty destination and empty dates, 1 traveler, budget 1000, no interests and style "balanced" |
| `TravelForm.TravelFormState.SetDestination` | src/components/TravelForm.tsx:106 | only the destination changes |
| `TravelForm.TravelFormState.SetStartDate` | src/components/TravelForm.tsx:119 | only the start date changes |
| `TravelForm.TravelFormState.SetEndDate` | src/components/TravelForm.tsx:130 | only the end date changes |
| `TravelForm.TravelFormState.SetTravelers` | src/components/TravelForm.tsx:146 | only the traveler count changes |
| `TravelForm.TravelFormState.SetBudget` | src/components/TravelForm.tsx:166 | only the budget changes |
| `TravelForm.TravelFormState.HandleInterestToggle` | src/components/TravelForm.tsx:50-57 | only the interests change, to their toggled list, and the form stays valid |
| `TravelForm.TravelFormState.SelectTravelStyle` | src/components/TravelForm.tsx:223 | only the travel style changes, to the chosen option's id |
| `TravelForm.TravelFormState.HandleSubmit` | src/components/TravelForm.tsx:59-64 | the form data is handed on iff destination, start date and end date are all non-empty; otherwise nothing is |
| `App.AppState.constructor` | src/App.tsx:30-32 | the shell starts on home with no request and no plan, so the back button is hidden |
| `App.AppState.HandleStartPlanning` | src/App.tsx:34-36 | the view becomes the form, the back button appears, and nothing else changes |
| `App.AppState.BeginFormSubmit` | src/App.tsx:38-40 | the request is recorded and the view becomes loading before the plan is awaited; the back button stays shown |
| `App.AppState.FinishFormSubmit` | src/App.tsx:42-50 | on success the plan is stored and shown; on an exception the view returns to the form with the request kept and the plan untouched; either way the back button is shown |
| `App.AppState.HandleFormSubmit` | src/App.tsx:38-51 | against the plan service a submission always ends on the plan view holding the request and the service's plan, with the back button shown |
| `App.AppState.HandleBackToHome` | src/App.tsx:53-57 | the view becomes home, both the request and the plan are cleared, and the back button is hidden |
| `App.LateResolutionAfterBack` | src/App.tsx:38-57 | going home while loading and then receiving the plan ends on the plan view showing that plan, with no request recorded |
| `App.AppState.CurrentScreen` | src/App.tsx:92-206 | each view renders its own screen; the plan screen renders iff the view is plan and a plan is stored, which every valid state guarantees |

## Left out

- The HTTP request is not modelled: the endpoint, headers, body, model name, token bound and temperature (src/services/openai.ts:46-69) are out of the model. So is reading `import.meta.env`; `ServiceFromEnvironment` takes the configured value as a parameter.
- `JSON.parse` is a foreign call, so it is a parameter. JavaScript's `NaN`, `-0` and `undefined` values are not representable in `JsValue`. Numbers are reals.
- A truthy content that is not a string is sent to the fallback plan. In the source, `.match` throws on it and the catch sends it there.
- Date arithmetic is not modelled: `new Date` and `Math.ceil` of the millisecond difference. The day count is an integer parameter, so a `NaN` day count from unparseable dates is not covered.
- The percentage splits and the daily cost are exact integer floors, not double-precision products. For integer budgets of ordinary size the double products round to the same floors, but the model does not prove this.
- `parseInt` is not modelled: the budget and traveler count are integers, and `NaN` from an empty input is not represented.
- Logging (`console.warn`, `console.error`) is left out; it has no effect on behaviour.
- Rendering, animation and the random particle layout are left out: `TravelPlan.tsx`, `LoadingScreen.tsx`, `Header.tsx` and the JSX bodies.
- Submission is split into a begin step and a finish step, which any other handler may run between. Concurrent submissions racing each other are not modelled; a plan that resolves after the user went back home is (`App.LateResolutionAfterBack`).
- PlanService.CreatePrompt: states only that the destination line, the duration and the joined interests appear. The rest of the text is fixed wording, and the prompt feeds only the request body, which is not modelled.
- TravelForm.TravelFormState.HandleInterestToggle: requires an offered interest id, because the form calls it only from its option buttons. The pure `ToggleInterest` accepts any string.
- TravelForm.TravelFormState.SelectTravelStyle: requires an offered style id, because the form calls it only from its option buttons.
