# Voyage Vault: a verified model of the trip planner's core

Voyage Vault is a single-page trip planner. Its flow has four steps:

1. **The wizard** collects a travel profile in five steps. The profile holds the destination, the duration, the budget, the chosen travel styles, the companions, the accommodation type and the local transport.
2. **The generator** turns the profile into a German prompt. It sends the prompt to a language model, with a fixed structured-output schema.
3. **The parsed answer** becomes a `TripItinerary`.
4. **The shell** stores the itinerary at the front of the list of saved trips, which starts with two sample trips, and shows it on the itinerary page.

This project models that core in Dafny and proves properties of the model.

| module (file) | what it models |
|---|---|
| `Wrappers` (`wrappers.dfy`) | `Option` and `Result` |
| `JsStrings` (`js_strings.dfy`) | the JavaScript built-ins the core relies on, defined as functions with their properties proved (see below) |
| `Types` (`types.ts` → `types.dfy`) | the four enumerations with their German string values, the records, and `ViewState` |
| `GeminiService` (`services/geminiService.ts` → `gemini_service.dfy`) | the prompt, the response schema and its JSON reading, the request, and how the answer is classified |
| `TripWizard` (`components/TripWizard.tsx` → `trip_wizard.dfy`) | the class `Wizard` holding the component state, with the handlers as methods; the pure derivations (step arithmetic, style toggling, button guards, budget chip text, what is rendered) as functions |
| `App` (`App.tsx` → `app.dfy`) | the sample trips; the class `AppState` holding the shell state, with the four handlers as methods; which screen is rendered; the wizard's generation wired to the shell |
| `ItineraryView` (`components/ItineraryView.tsx` → `itinerary_view.dfy`) | the vibe chips, the day labels, the day count, the tip rule, the nav-bar rule, and the page as an ordered list of blocks |

The JavaScript built-ins modelled in `JsStrings` are:
- `Array.prototype.join`
- `String.prototype.split` with a one-character separator
- `trim`, with the ECMAScript white-space and line-terminator set
- `padStart`
- `String(n)` of an integer
- the first group of `/\((.*?)\)/`

Where the source's behaviour depends on an outside party, the model takes it as a parameter:
- The language-model call is a function `GenerateContentRequest -> ProviderReply`. The reply is either a thrown error or a response whose `text` may be absent.
- `JSON.parse(...) as TripItinerary` is a function `string -> Result<TripItinerary, Error>`.

Two choices of the code shape the model:
- **Errors.** The code has one error type. It throws `Error("Keine Antwort von Gemini erhalten.")` for an empty or absent text, and it re-throws every other error (from the call or from parsing) unchanged. The model has one `Error(message)` and passes errors through as they are (`GeminiService.GenerateTripOutcome`).
- **Styles.** The chosen styles are an ordered list: toggling appends a new style, and `join(", ")` prints the styles in the order they were chosen. The model keeps the list. It proves that toggling keeps the list free of duplicates, and that the prompt lists the styles in list order.

The code validates nothing after parsing. The result is whatever the parse function yields.

## Model

| member | source | states |
|---|---|---|
| Types.TravelStylesEnumerated | types.ts:1-8 | there are exactly six travel styles, each listed once, and no two share a label |
| Types.BudgetLevelsEnumerated | types.ts:10-14 | there are exactly three budget levels, each listed once, with distinct labels |
| Types.BudgetLabelShape | types.ts:10-14 | every budget label is `<name> (<detail>)` |
| Types.BudgetPartsPlain | types.ts:10-14 | the name has no `(`; the detail has no `)` and no line terminator, which the wizard's chip text depends on |
| Types.CompanionAndHotelTypesEnumerated | types.ts:16-29 | exactly four companion types and five hotel types, each listed once, each with its own label |
| Types.ViewStatesEnumerated | types.ts:69 | the view takes exactly the three values dashboard, wizard, itinerary |
| GeminiService.StyleLabels | services/geminiService.ts:18 | one label per chosen style, in the order chosen |
| GeminiService.PromptProfile | services/geminiService.ts:10-29 | the prompt has the `PROFIL:` header and each profile field verbatim on its own labelled line: destination, duration followed by " Tage", budget label, style labels joined by ", ", companion label, hotel-type label, transport |
| GeminiService.EmptyStyleVibeLine | services/geminiService.ts:18 | with no style chosen, the prompt's Vibe line stands on its own line with nothing after the label |
| GeminiService.RequestIsFixed | services/geminiService.ts:32-37 | each call sends one request, with model `gemini-3-flash-preview`, MIME type `application/json`, the fixed response schema, and the prompt as its content |
| GeminiService.GenerateTripOutcome | services/geminiService.ts:85-93 | success exactly when the provider answers with a non-empty text that parses, and the result is then exactly the parse; an empty or absent text gives `Keine Antwort von Gemini erhalten.`; an error from the call or from parsing comes out unchanged; there is no other outcome |
| GeminiService.ResponseFields | services/geminiService.ts:39-57 | the top-level schema fields are exactly tripTitle, destination, summary, recommendedHotel, estimatedCost, packingList, days, in that order |
| GeminiService.NestedFields | services/geminiService.ts:45-73 | the hotel has name, description, vibe; a day has day, theme, activities; an activity has time, activity, description, location, tips |
| GeminiService.Lookup | services/geminiService.ts:39-73 | a property is found exactly when the schema declares its name, and the schema found is the one declared under that name |
| GeminiService.ItineraryFollowsSchema | services/geminiService.ts:37-81 | every itinerary in JSON form follows the response schema, and its keys are exactly the schema's top-level fields |
| GeminiService.ItineraryMembersConform | services/geminiService.ts:39-57 | member k of an itinerary's JSON form is named as schema property k and follows that property's schema |
| GeminiService.HotelFollowsSchema | services/geminiService.ts:43-50 | a recommended hotel in JSON form follows the hotel schema |
| GeminiService.DayFollowsSchema | services/geminiService.ts:59-78 | a day plan in JSON form follows the day schema, integer day number included |
| GeminiService.ActivityFollowsSchema | services/geminiService.ts:66-75 | an activity in JSON form follows the activity schema |
| GeminiService.ActivityKeys | types.ts:41-47 | an activity carries all five fields when it has a tip, and only the first four when it has none |
| TripWizard.StepForward | components/TripWizard.tsx:28 | "Weiter" moves one step on, and stays at the last step (5) once there |
| TripWizard.StepBack | components/TripWizard.tsx:29 | "Zurück" moves one step back, and stays at step 1 once there |
| TripWizard.WalkStaysInRange | components/TripWizard.tsx:11-29 | under any sequence of forward and back presses, the step stays between 1 and 5 |
| TripWizard.ForwardPresses | components/TripWizard.tsx:28 | n forward presses from step 1 reach step n + 1, capped at 5 |
| TripWizard.Without | components/TripWizard.tsx:35 | the filter removes every occurrence of the style and keeps membership of all others |
| TripWizard.ToggledStyles | components/TripWizard.tsx:34-36 | the toggled style's membership flips, every other style's membership is kept, and an absent style is appended at the end |
| TripWizard.WithoutAt | components/TripWizard.tsx:35 | in a list without duplicates, the filter removes exactly the style's one position and keeps the order of the rest |
| TripWizard.ToggleKeepsNoDuplicates | components/TripWizard.tsx:31-38 | toggling keeps the style list free of duplicates |
| TripWizard.ToggleTwiceRestores | components/TripWizard.tsx:31-38 | toggling an unchosen style twice restores the list exactly |
| TripWizard.ToggleChosen | components/TripWizard.tsx:31-38 | toggling a chosen style removes it from its place; toggling it again moves it to the end |
| TripWizard.PresetsOnScale | components/TripWizard.tsx:128-138 | every duration preset lies on the slider's 1..30 scale; the initial duration is a preset and the initial transport is one of the buttons |
| TripWizard.OneScreenPerStep | components/TripWizard.tsx:310-314 | each step 1..5 renders exactly its own body; any other step renders none |
| TripWizard.ForwardGuard | components/TripWizard.tsx:325-353 | "Weiter" is disabled exactly on step 1 while the destination is empty; step 5 offers generation instead; step 1 offers "Abbrechen" instead of "Zurück" |
| TripWizard.RenderShape | components/TripWizard.tsx:267-353 | while loading, only the loading screen is shown; otherwise the current step is shown with exactly one body, and the error message appears after a failed generation and not while there is none |
| TripWizard.ChipTitle | components/TripWizard.tsx:163 | the title is the part of the label before the first `(`, and has no `(` in it |
| TripWizard.BudgetChipText | components/TripWizard.tsx:163-164 | every budget chip shows the level's name (with its trailing space) as title and its detail as caption |
| TripWizard.ChipTitleOf | components/TripWizard.tsx:163 | the title of any `<name> (<detail>)` whose name has no `(` is `<name> ` |
| TripWizard.ChipCaptionOf | components/TripWizard.tsx:164 | the caption of any such label whose detail has no `)` and no line break is `<detail>` |
| TripWizard.Wizard.constructor | components/TripWizard.tsx:14-26 | the initial state: step 1, empty destination, 5 days, Moderate, no styles, Couple, Hotel, "Mietwagen", not loading, no error |
| TripWizard.Wizard.NextStep | components/TripWizard.tsx:28 | offered only while idle and "Weiter" is shown and enabled (steps 1-4, and a destination on step 1); only the step changes, to the next one; the invariant, including "past step 1 a destination is typed", is kept |
| TripWizard.Wizard.PrevStep | components/TripWizard.tsx:29 | offered after step 1 while idle: only the step changes, to the step after "Zurück"; the invariant is kept |
| TripWizard.Wizard.ToggleStyle | components/TripWizard.tsx:31-38 | a chip of step 5, while idle: only the style list changes, to the toggled list; it stays free of duplicates |
| TripWizard.Wizard.SetDestination | components/TripWizard.tsx:90 | the field of step 1, while idle: only the destination changes |
| TripWizard.Wizard.SetDuration | components/TripWizard.tsx:128-138 | the slider and presets of step 2, while idle: only the duration changes, to a value on the slider's scale |
| TripWizard.Wizard.SetBudget | components/TripWizard.tsx:157 | a chip of step 3, while idle: only the budget changes |
| TripWizard.Wizard.SetCompanions | components/TripWizard.tsx:177 | a button of step 3, while idle: only the companions change |
| TripWizard.Wizard.SetHotelType | components/TripWizard.tsx:198 | a card of step 4, while idle: only the hotel type changes |
| TripWizard.Wizard.SetTransport | components/TripWizard.tsx:247-255 | a button of step 5, while idle: only the transport changes, to one of the four labels |
| TripWizard.Wizard.StartGenerate | components/TripWizard.tsx:40-42 | pressed on step 5 while idle: loading set, error cleared |
| TripWizard.Wizard.FinishGenerate | components/TripWizard.tsx:43-49 | after `await`: a success delivers the itinerary and leaves loading and error as they are; a failure delivers nothing, sets the fixed "Ups! …" message and clears loading |
| TripWizard.Wizard.HandleGenerate | components/TripWizard.tsx:40-50 | pressed on step 5 while idle, one generation for the current profile, which always has a destination: on success the itinerary is delivered once, loading stays true and there is no error; on failure nothing is delivered, loading is false and the fixed message is shown; step and profile do not change |
| App.MockTripsShape | App.tsx:9-56 | two sample trips, of 7 and 4 days, with days numbered 1..n, exactly one activity (with a tip) per day, and four packing items each |
| App.RenderedScreens | App.tsx:83-105 | at most one screen is rendered; the dashboard exactly for the dashboard view, the wizard exactly for the wizard view; the itinerary screen shows trip t exactly when the view is the itinerary and t is the current trip; with no current trip the itinerary view renders nothing |
| App.AppState.constructor | App.tsx:59-61 | the initial state: dashboard, the two sample trips, no current trip |
| App.AppState.HandleNewTrip | App.tsx:63-65 | only the view changes, to the wizard |
| App.AppState.HandleTripGenerated | App.tsx:67-71 | the trip is put in front of the saved trips and becomes the current trip, and the view becomes the itinerary; the saved list stays "generated trips, newest first, then the samples" |
| App.AppState.HandleViewTrip | App.tsx:73-76 | the trip becomes the current one and the itinerary is shown; the saved trips are unchanged |
| App.AppState.HandleHome | App.tsx:78-81 | back to the dashboard with no current trip; the saved trips are unchanged |
| App.AppState.Screens | App.tsx:85-105 | in every reachable state exactly one screen is rendered, and in the itinerary view it is the current trip |
| App.GenerateInWizard | App.tsx:93-98 | with `onTripGenerated` wired to `handleTripGenerated`, generating on the wizard's last step from the profile as it was before the press, which has a destination: a success puts the trip in front of the saved list and shows it, with the wizard still loading and without error; a failure leaves the shell on the wizard with the list and the current trip unchanged, and the wizard idle with its fixed message; the wizard's step and profile never change |
| ItineraryView.VibeChipsShape | components/ItineraryView.tsx:83-85 | the number of chips is the number of commas plus one; chip k is piece k of the split, trimmed; the pieces joined with commas give the vibe line back |
| ItineraryView.VibeChipsClean | components/ItineraryView.tsx:83-85 | no chip has a comma, and none starts or ends with white space |
| ItineraryView.SingleChip | components/ItineraryView.tsx:83-85 | a vibe line gives a single chip exactly when it has no comma, and that chip is the whole line trimmed |
| ItineraryView.VibeChipsOfWords | components/ItineraryView.tsx:83-85 | a vibe written as trimmed, comma-free words separated by ", " shows exactly those words as chips |
| ItineraryView.DayLabelShape | components/ItineraryView.tsx:119 | the day label has at least two characters: "0" and the digit for days 0..9, the numeral unchanged otherwise; for a day ≥ 0 it is all digits and reads back as the day |
| ItineraryView.DayCountReadsBack | components/ItineraryView.tsx:61 | the header count is a numeral followed by " DAYS", and the numeral reads back as the number of day plans |
| ItineraryView.ShownTipRule | components/ItineraryView.tsx:140 | a tip is shown exactly when it is present and non-empty, and then as given |
| ItineraryView.NavTitleRule | components/ItineraryView.tsx:14-28 | the nav bar shows the destination exactly when the scroll offset is greater than 50 |
| ItineraryView.DaysInOrder | components/ItineraryView.tsx:115-148 | day blocks are rendered in order: the blocks for two runs of days are the first run's blocks followed by the second's |
| ItineraryView.ActivitiesInOrder | components/ItineraryView.tsx:129-145 | activity blocks are rendered in order, in the same sense |
| ItineraryView.RenderPage | components/ItineraryView.tsx:28-169 | the nav title by the scroll rule; title, summary, cost and hotel shown as given; the hotel's vibe chips; one day block per day plan, with its theme and its two-digit padded label ("01".."09" for days 1..9); activity block j of day k shows activity j of day k (time, name, description, location, and the tip by the tip rule); packing items in order; the day count from the number of days |
| JsStrings.Split | components/ItineraryView.tsx:83 | `split` on one character gives one piece more than there are separators, and no piece holds the separator |
| JsStrings.JoinSplit | components/ItineraryView.tsx:83 | joining the pieces of a split with the separator gives the string back |
| JsStrings.SplitJoin | components/ItineraryView.tsx:83 | splitting a join of separator-free pieces gives the pieces back |
| JsStrings.SplitHead | components/TripWizard.tsx:163 | the first piece is a separator-free prefix, followed by the separator when shorter than the string |
| JsStrings.TrimIsCore | components/ItineraryView.tsx:85 | `trim` gives the stretch between a white-space prefix and a white-space suffix, and the result neither starts nor ends with white space |
| JsStrings.TrimIdempotent | components/ItineraryView.tsx:85 | trimming twice is trimming once |
| JsStrings.PadStartShape | components/ItineraryView.tsx:119 | `padStart` gives length max(len, width); the string stays at the end, the front is fill, and a wide-enough string is unchanged |
| JsStrings.NatToString | components/ItineraryView.tsx:119 | `String(n)`, as JavaScript prints integers below 10^21, is all digits; a single digit exactly for n < 10; no leading zero |
| JsStrings.NatToStringValue | components/ItineraryView.tsx:119 | the numeral reads back as the number |
| JsStrings.LeadingZerosValue | components/ItineraryView.tsx:119 | zeros put in front of a numeral do not change its value |
| JsStrings.CloseIndex | components/TripWizard.tsx:164 | the first `)` with no line terminator before it, or none when every `)` comes after a line break |
| JsStrings.ParenMatchFound | components/TripWizard.tsx:164 | a match of `/\((.*?)\)/` starts at a `(` and ends at the first `)` after it on the same line |
| JsStrings.ParenMatchLeftmost | components/TripWizard.tsx:164 | no `(` before the match, and none at all when there is no match, has a `)` on its line |
| JsStrings.ParenGroup | components/TripWizard.tsx:164 | the captured group has no `)` and no line terminator |
| JsStrings.ParenGroupAfter | components/TripWizard.tsx:164 | after a prefix without `(`, a parenthesised detail is exactly the captured group |
| JsStrings.JoinedLineOnOwnLine | services/geminiService.ts:10-29 | every inner line of a newline-joined template stands on a line of its own |

## Left out

- **The network call.** The SDK client and its hard-coded API key are out: the `generateContent` request travels over the network (services/geminiService.ts:5, 32). The provider is a function parameter, and the model states only what is sent and how the answer is handled.
- **`JSON.parse` and the `as TripItinerary` cast.** Both are a parse function parameter: the model does not describe JSON text (RFC 8259), and the cast checks nothing at run time. `ItineraryJson` describes the object the cast takes the text to be.
- **Incomplete parsed objects.** The model assumes that a successful parse gives a complete `TripItinerary`. In the source, `JSON.parse(response.text) as TripItinerary` (services/geminiService.ts:86) succeeds on any JSON text, and the schema lists no required properties. So the source can hand on an incomplete or wrongly shaped value. Some examples (the list is not complete):
  - An object without `days` makes the itinerary page throw at `itinerary.days.length` (components/ItineraryView.tsx:61).
  - An object without `recommendedHotel` makes it throw at `itinerary.recommendedHotel.name` (components/ItineraryView.tsx:78). One with a hotel but no `vibe` throws at `recommendedHotel.vibe.split` (components/ItineraryView.tsx:83).
  - An object without `packingList` throws at `itinerary.packingList.map` (components/ItineraryView.tsx:164). A day without `activities` throws at `day.activities.map` (components/ItineraryView.tsx:129).
  - The text `null` parses. `handleTripGenerated(null)` then sets the view to the itinerary with a null current trip (App.tsx:68-70), and App.tsx:100 renders no screen at all. The texts `false` and `""` parse to falsy values and leave the same blank view. `0` does too, except that React renders the expression's value, so the page shows a stray "0".

  The model does not capture these cases or the crashes. The falsy cases give exactly the blank state that `App.AppState.Valid` excludes (`view == Itinerary ==> currentTrip.Some?`), so `App.AppState.Valid` and `App.AppState.Screens` ("exactly one screen") rely on the complete-parse assumption.
- **`async`/`await`.** `generateTrip` is a function returning a `Result`. `handleGenerate` is split at the `await` into `StartGenerate` and `FinishGenerate`, and `HandleGenerate` composes them. Interleavings with other events during the wait are not modelled.
- **The wizard's lifetime.** The shell mounts a fresh `TripWizard` each time the view becomes the wizard (App.tsx:93-98), so re-entering resets its step, profile and error. `App.AppState` holds no wizard, and `App.GenerateInWizard` accepts any valid wizard on its last step, not only one reached from a fresh mount.
- **`onTripGenerated` inside the wizard.** The wizard returns the itinerary to deliver instead of calling the callback. `App.GenerateInWizard` performs the call.
- **`console.error` logging.** It is output only.
- **Window scroll listener registration and cleanup** (components/ItineraryView.tsx:13-17). Only the `> 50` rule is kept, with the scroll offset as a real number.
- **All JSX markup, CSS classes, animations, icons and image URLs.** This covers the picsum seeds, the Google Maps iframe URL built with `encodeURIComponent` (a foreign call), and the floating-point width of the progress bar (components/TripWizard.tsx:301). They are presentation or foreign calls.
- **`components/Layout.tsx` and `components/Dashboard.tsx`.** They are not part of this model, because they are presentation only. In consequence, `App.AppState.HandleViewTrip` accepts any trip: the dashboard only passes saved ones, and the model does not rely on that.
- **`parseInt` on the slider value** (components/TripWizard.tsx:130). `TripWizard.Wizard.SetDuration` requires a whole number of days from 1 to 30, the only values the range input produces.
- **JavaScript strings are UTF-16.** Dafny characters are Unicode scalar values, so surrogate pairs are not modelled. `trim`, `split` and the regular expression only look at characters outside the surrogate range, so this changes none of the stated properties.
- **`String(n)` beyond exact integers.** Durations and day numbers are modelled as exact, unbounded integers. JavaScript numbers are doubles, so integers above 2^53 are not exact, and `String(n)` prints integers of 10^21 and more in exponent form (`String(1e21)` is `"1e+21"`). `JsStrings.IntToString` prints every digit of such integers, and `ItineraryView.DayLabelShape` (all digits, reads back as the day) therefore holds for the source only for days below 10^21. Numbers that are not integers are not modelled.
- **`TripWizard.Wizard.HandleGenerate`.** It states the wizard's own state after the call. It does not state that the wizard is unmounted on success, which leaves `loading` true; that effect belongs to the shell (`App.GenerateInWizard`).
