# Smartphone recommendation client, modelled in Dafny

This project models the client side of a smartphone recommendation web app. The user fills in a
preference form (budget, camera, battery, performance, screen size, operating system). The app
asks a generative-AI service for five phones, each with a match score. It shows them best first,
filterable by brand and operating system. Up to three phones can go into a comparison tray. The
comparison table can ask the service to compare one feature across the phones. Each card fetches
a generated product picture, with a placeholder URL when generation fails. Favourites are kept
in browser storage. A "similar phones" dialog asks the service for alternatives to one phone.

The model follows the program's files:

- `types.dfy` (`Types`): the records and the five preference enumerations of `types.ts`, with
  their string codes.
- `strings.dfy` (`Strings`): the JavaScript string operations the program relies on. These are
  whitespace, `split`, `join`, `replace(/\s+/g, '')` and decimal numbers.
- `ranking.dfy` (`Ranking`): `sort((a, b) => b.matchScore - a.matchScore)`. It is specified as a
  stable insertion sort by descending score and implemented in place on an array.
- `gemini_service.dfy` (`GeminiService`): the service client. Each remote call is a
  function-typed parameter. It returns `None` when the call or the JSON parsing throws.
- `app.dfy` (`App`): the application controller. It is the class `AppState`, whose fields are the
  ten pieces of state and the stored favourites. The pure list updates the handlers apply sit
  beside it.
- `filter_controls.dfy`, `results.dfy`, `comparison.dfy`, `phone_card.dfy` and `input_form.dfy`
  each model the component of the same name. Components with state are classes whose methods
  are the event handlers. An asynchronous handler is split into a start method and a
  completion method.

## Model

| member | source | states |
|---|---|---|
| Types.ParsePriority | types.ts:4 | The value of a camera or battery option reads back as the priority whose code it is. Every code reads back, and nothing else does. |
| Types.ParseUsage | types.ts:6 | The same round trip for the performance codes. |
| Types.ParseScreenSize | types.ts:7 | The same round trip for the screen-size codes. |
| Types.ParseOsChoice | types.ts:8 | The same round trip for the operating-system codes. |
| Strings.RemoveSpacesNoSpaces | components/PhoneCard.tsx:56 | Removing whitespace runs leaves no whitespace and never lengthens the text. |
| Strings.RemoveSpacesKeepsOthers | components/PhoneCard.tsx:56 | Text without whitespace is left unchanged. |
| Strings.RemoveSpacesAppend | components/PhoneCard.tsx:56 | Whitespace removal works piece by piece: every other character is kept, in order. |
| Strings.Split | components/Comparison.tsx:18 | `split` on a non-empty separator yields at least one piece. |
| Strings.JoinSplit | components/Comparison.tsx:18 | Joining the pieces of a split with the separator gives back the text. |
| Strings.Join | services/geminiService.ts:148 | `join`: the pieces with the separator between them. Specified by `Strings.JoinSplit` and `Strings.SplitJoin`. |
| Strings.SplitPiecesFree | components/Comparison.tsx:18 | No piece of a split contains the separator. |
| Strings.SplitJoin | services/geminiService.ts:148 | Joining separator-free pieces and splitting again gives back the pieces. This holds for a separator that cannot overlap itself. |
| Strings.Decimal | services/geminiService.ts:53 | The rendering of a whole number is a non-empty string of digits. |
| Strings.DecimalRoundTrip | components/InputForm.tsx:24 | `Number` of the rendering of a whole number is that number. |
| Ranking.SortByScoreSorted | services/geminiService.ts:85 | The sort yields a permutation of its input in non-increasing score order. |
| Ranking.SortByScore | services/geminiService.ts:85 | The stable sort by descending score. Specified by `Ranking.SortByScoreSorted`, `Ranking.SortByScoreStable` and `Ranking.SortedUnique`. |
| Ranking.SortByScoreStable | services/geminiService.ts:85 | For every score, the phones with that score keep their input order. |
| Ranking.SortedUnique | services/geminiService.ts:85 | Two lists in score order that agree on the phones of every score are equal, so the stable sort's result is unique. |
| Ranking.SortByScoreOfSorted | App.tsx:53-54 | Sorting a list already in score order leaves it unchanged. |
| Ranking.SortByScoreIdempotent | App.tsx:54 | Sorting the service's sorted output again changes nothing. |
| Ranking.InsertByScorePermutes | services/geminiService.ts:85 | Inserting a phone adds exactly that phone to the list. |
| Ranking.InsertByScore | services/geminiService.ts:85 | One insertion step of the sort. Specified by `Ranking.InsertByScorePermutes`, `Ranking.InsertByScoreSorted` and `Ranking.InsertByScoreStable`. |
| Ranking.InsertByScoreSorted | services/geminiService.ts:85 | Inserting a phone into a sorted list keeps it sorted. |
| Ranking.InsertByScoreStable | services/geminiService.ts:85 | An inserted phone goes after every phone of its own score. |
| Ranking.SortInPlace | services/geminiService.ts:85 | The in-place array sort leaves the array holding the stable sort of its old contents. |
| Ranking.InsertNext | services/geminiService.ts:85 | One pass moves the next phone back past the lower-scored ones. The rest of the array is unchanged. |
| Ranking.ShiftLower | services/geminiService.ts:85 | The shifting loop of one pass. It returns a free position. The phones before it are unchanged. Those from it up to the moved phone move one place on, and all score lower than the moved phone. The phone just before it scores at least as much. The rest of the array is unchanged. |
| GeminiService.SchemaRequiredFields | services/geminiService.ts:32-37 | The schema requires every recommendation field except `mismatchReason`, and all six `specs` fields. |
| GeminiService.BuildPromptCarriesPreferences | services/geminiService.ts:52-58 | Between its fixed opening and closing, the prompt splits into exactly the six labelled preference lines, in order. |
| GeminiService.BuildPrompt | services/geminiService.ts:40-62 | The recommendation prompt. Specified by `GeminiService.BuildPromptCarriesPreferences`. |
| GeminiService.GetPhoneRecommendations | services/geminiService.ts:65-91 | Any failure of the call or of the parsing becomes the one fixed message. Otherwise the result is the stable score-order sort of the parsed list: sorted and a permutation. |
| GeminiService.GetSimilarPhones | services/geminiService.ts:94-134 | The same sort, with its own fixed failure message. |
| GeminiService.FeatureLinesOnePerEntry | services/geminiService.ts:148 | The feature block has one `- model: value` line per entry, in entry order. This holds when no model or value holds a line break. |
| GeminiService.FeatureLines | services/geminiService.ts:148 | The `- model: value` block. Specified by `GeminiService.FeatureLinesOnePerEntry`. |
| GeminiService.ComparePhoneFeatures | services/geminiService.ts:137-160 | The reply text is returned unchanged, or the fixed message when the call fails. |
| GeminiService.FirstInlineImage | services/geminiService.ts:181-188 | The scan finds the first part with inline data and yields the data URL of it. It finds nothing exactly when no part has inline data. |
| GeminiService.GeneratePhoneImage | services/geminiService.ts:163-193 | It succeeds exactly when the call returns a first candidate with some inline-data part. A success is `data:image/png;base64,` followed by the data of the first part of that candidate that carries inline data. A failed call and an empty candidate list give their own errors. |
| App.AddedToComparison | App.tsx:64-75 | A list of three or more is left unchanged, even when the phone is already in it. A list holding the model is left unchanged. Otherwise the phone is appended. The bound and distinct models are preserved. |
| App.WithoutModelMembers | App.tsx:78 | The kept entries are exactly those of another model. |
| App.WithoutModel | App.tsx:78 | The comparison filter. Specified by `App.WithoutModelMembers`, `App.WithoutModelAppend`, `App.WithoutAbsent` and `App.RemoveKeepsComparisonValid`. |
| App.RemoveKeepsComparisonValid | App.tsx:77-79 | Removal keeps the list valid and leaves no entry of that model. It shortens the list by one exactly when the model was present. |
| App.WithoutAbsent | App.tsx:78 | Removing an absent model changes nothing. |
| App.WithoutModelAppend | App.tsx:78 | Removal keeps the order of the entries it keeps. |
| App.Without | App.tsx:88 | Removing a favourite leaves every other favourite and not that one. |
| App.ToggledFavorite | App.tsx:85-91 | A toggle flips membership of the model and no other. |
| App.WithoutAbsentModel | App.tsx:88 | Removing a model that is not a favourite changes nothing. |
| App.WithoutAppended | App.tsx:86-90 | Removing a model just appended gives back the list before it. |
| App.ToggleTwice | App.tsx:85-91 | Toggling twice gives back the same set of favourites, and the very same list when the model was absent. |
| App.FilteredMembers | App.tsx:121-127 | The filtered list holds exactly the phones that pass both axes. |
| App.Filtered | App.tsx:121-127 | The brand and OS filter. Specified by `App.FilteredMembers`, `App.FilteredAppend`, `App.FilteredNoFilters` and `App.FilteredSorted`. |
| App.FilteredAppend | App.tsx:122-126 | Filtering keeps list order. |
| App.FilteredNoFilters | App.tsx:123-124 | With both axes at "all" the whole list passes. |
| App.FilteredSorted | App.tsx:121-127 | Filtering a list in score order keeps score order. |
| App.WithFilter | App.tsx:93-95 | A filter change sets only the named axis. |
| App.AppState.constructor | App.tsx:12-35 | The initial state is empty, not loading, with no error and no filters. Favourites come from storage when it held some. |
| App.AppState.FilteredRecommendations | App.tsx:121-127 | The shown phones are the held phones that pass the active filters. |
| App.AppState.SubmitSearch | App.tsx:45-50 | A search sets loading and submitted, clears the error, the comparison and the filters, and keeps the list. |
| App.AppState.CompleteSearch | App.tsx:51-61 | A success replaces the list by its score-order sort. A failure keeps the list and sets the fixed message. Loading ends either way. |
| App.AppState.AddToComparison | App.tsx:64-75 | The comparison becomes the added-to list. The notification is raised exactly for a full list. |
| App.AppState.RemoveFromComparison | App.tsx:77-79 | The comparison loses the model's entries and stays valid. |
| App.AppState.ClearComparison | App.tsx:81-83 | The comparison becomes empty. |
| App.AppState.ToggleFavorite | App.tsx:85-91 | The favourites are toggled and written to storage. |
| App.AppState.FilterChange | App.tsx:93-95 | The named filter axis changes and nothing else. |
| App.AppState.ClearFilters | App.tsx:97-99 | Both filter axes return to "all". |
| App.AppState.ShowSimilar | App.tsx:101-104 | The dialog opens on the phone, empty and loading. |
| App.AppState.CompleteShowSimilar | App.tsx:105-113 | A success stores the phones, a failure stores nothing, and loading ends. It does not check whether the dialog is still open. |
| App.AppState.CloseSimilarModal | App.tsx:116-119 | The dialog closes and its phones are cleared. |
| FilterControls.Dedupe | components/FilterControls.tsx:15 | `new Set` keeps each value once and loses none. |
| FilterControls.LexLess | components/FilterControls.tsx:15-16 | The order `.sort()` applies to the option strings. Specified by the three lemmas below. |
| FilterControls.LexLessIrreflexive | components/FilterControls.tsx:15-16 | No string sorts before itself. |
| FilterControls.LexLessTransitive | components/FilterControls.tsx:15-16 | The order is transitive. |
| FilterControls.LexLessTotal | components/FilterControls.tsx:15-16 | Of two different strings, one sorts before the other. |
| FilterControls.SortStrings | components/FilterControls.tsx:15 | The sort keeps the values and the length. |
| FilterControls.SortStringsSorted | components/FilterControls.tsx:15 | Sorting distinct values puts them in strictly ascending string order. |
| FilterControls.InsertStringSorted | components/FilterControls.tsx:15 | Inserting a new value into an ascending list keeps it ascending. |
| FilterControls.FacetValues | components/FilterControls.tsx:14-18 | The options are the distinct values, each once, ascending. |
| FilterControls.StrictlySortedUnique | components/FilterControls.tsx:15-16 | An ascending list of distinct values is determined by the set of values. |
| FilterControls.Render | components/FilterControls.tsx:14-53 | The panel renders nothing exactly for an empty list. "all" comes first, then the distinct brands or systems of the list, ascending. The clear button shows exactly when an axis is not "all". |
| FilterControls.RenderDependsOnValuesOnly | components/FilterControls.tsx:14-18 | The options depend only on which brands and systems occur. |
| FilterControls.NoFiltersNoClearButton | components/FilterControls.tsx:20 | With no filter set the clear button is hidden. |
| Results.Cards | components/Results.tsx:112-126 | There is one card per filtered phone, in order. The comparison flag holds exactly when some compared phone has the model. The favourite flag holds exactly when the model is a favourite. |
| Results.ResultsView | components/Results.tsx:51-136 | The views take precedence in order: placeholder, loading, non-empty error (even when a list is held), no results (exactly for an empty list), listing. The listing has the panel of the unfiltered list, the cards, and the no-match message exactly when no phone passes. |
| Results.AppView | components/Results.tsx:51-84 | Before any search the placeholder shows. After a failed search the error shows. |
| Results.UnfilteredListing | components/Results.tsx:104-128 | With no filter set, every phone gets a card, in order, and no no-match message. |
| Results.CompareEnabledAdds | components/PhoneCard.tsx:110-112 | A card's compare button is enabled exactly when the model is not compared. Pressing it with room appends the phone. |
| Comparison.NonBlankMembers | components/Comparison.tsx:18 | The kept lines are exactly the non-blank pieces. |
| Comparison.NonBlankKeepsAll | components/Comparison.tsx:18 | Non-blank pieces are all kept, in order. |
| Comparison.NonBlankAppend | components/Comparison.tsx:18 | The filter keeps the non-blank pieces in their order, repeats included: filtering a concatenation filters each part. |
| Comparison.FormatResult | components/Comparison.tsx:17-24 | Every shown line is non-blank and contains no "* ". |
| Comparison.FormatResultOfBullets | components/Comparison.tsx:18 | A reply written as "* " before each item shows exactly its items, in order. |
| Comparison.SpecRowsCoverSpecs | components/Comparison.tsx:81-88 | The six rows name each `specs` field once, in schema order. |
| Comparison.RowValues | components/Comparison.tsx:124 | A row sends one entry per phone, in table order. Each entry has its phone's model and its phone's `specs` value for the row's key. |
| Comparison.RowPromptOneLinePerPhone | components/Comparison.tsx:124 | The request for a row has one line per phone with the phone's value for that row. |
| Comparison.ComparisonModal.constructor | components/Comparison.tsx:61-65 | The popup starts closed. |
| Comparison.ComparisonModal.RequestFeatureCompare | components/Comparison.tsx:67-70 | A request is ignored while one is loading. Otherwise the popup opens loading on the feature and the row's values are sent. |
| Comparison.ComparisonModal.CompleteFeatureCompare | components/Comparison.tsx:71-78 | A success shows the text, not loading. A failure closes the popup. |
| Comparison.ComparisonModal.ClosePopup | components/Comparison.tsx:142 | Closing sets the popup state to null. |
| Comparison.Tray | components/Comparison.tsx:149-191 | The tray renders nothing exactly for an empty list. It shows the models in order and the count. Compare is enabled exactly from two phones on. |
| Comparison.ComparisonTray.constructor | components/Comparison.tsx:150 | The table starts closed. |
| Comparison.ComparisonTray.PressCompare | components/Comparison.tsx:173-175 | Compare opens the table only when enabled. |
| Comparison.ComparisonTray.CloseModal | components/Comparison.tsx:191 | Closing the table closes it. |
| PhoneCard.FallbackSeed | components/PhoneCard.tsx:56 | The seed holds no whitespace and is no longer than the model. |
| PhoneCard.FallbackUrl | components/PhoneCard.tsx:56-57 | The placeholder URL is the fixed prefix, the seed and the fixed suffix. |
| PhoneCard.FallbackUrlIdentifiesSeed | components/PhoneCard.tsx:56-57 | Two models share a placeholder exactly when their seeds agree. |
| PhoneCard.FallbackSeedFixedPoints | components/PhoneCard.tsx:56 | A model without whitespace is its own seed, and the seed of a seed is itself. |
| PhoneCard.FallbackSeedJoinsWords | components/PhoneCard.tsx:56 | The whitespace between two parts of a model name is dropped, and each part keeps its characters in order. |
| PhoneCard.ImageRequest.constructor | components/PhoneCard.tsx:45 | A new effect run starts mounted, for its model. |
| PhoneCard.Card.constructor | components/PhoneCard.tsx:40-47 | A new card has no picture, is loading, is collapsed and has a mounted run for its model. |
| PhoneCard.Card.ChangeModel | components/PhoneCard.tsx:44-66 | A new model cleans up the old run and starts a fresh one with no picture, loading. The same model changes nothing. |
| PhoneCard.Card.Unmount | components/PhoneCard.tsx:65 | Unmounting cleans up the current run. |
| PhoneCard.Card.CompleteImage | components/PhoneCard.tsx:49-61 | A late completion of a cleaned-up run changes nothing. A current run sets the generated URL, or the run model's placeholder on failure, and ends loading. |
| PhoneCard.Card.ToggleExpand | components/PhoneCard.tsx:68 | The overlay flag flips and nothing else changes, so two toggles restore it. |
| InputForm.DefaultPreferencesCodes | components/InputForm.tsx:11-18 | The form starts at budget 15000, `standart`, `standart`, `gunluk`, `farketmez`, `farketmez`. |
| InputForm.WithInput | components/InputForm.tsx:20-26 | Only the named field changes. The budget becomes the number of the digits, and any other field's code becomes the value. |
| InputForm.WithInputOfChoice | components/InputForm.tsx:20-26 | Choosing an option or a slider number sets that preference to it. |
| InputForm.BudgetSteps | components/InputForm.tsx:33 | There are 39 steps, and step i is 5000 + 2500·i. |
| InputForm.BudgetStepsMatchSlider | components/InputForm.tsx:33-49 | The steps run from the slider's minimum to its maximum in slider steps. They are exactly the values the slider can take. |
| InputForm.Form.constructor | components/InputForm.tsx:11-18 | The form starts at the default preferences. |
| InputForm.Form.HandleChange | components/InputForm.tsx:20-26 | The preferences become the updated record. |
| InputForm.Form.HandleSubmit | components/InputForm.tsx:28-31 | The current preferences go out unchanged. Nothing is sent while loading, because the button is disabled. |

## Left out

- The remote calls (`ai.models.generateContent`) are function parameters. The model, temperature and image configuration passed to them are not modelled, nor is the schema beyond its required lists. The parsed reply is taken as a well-typed list of records: the unchecked `as PhoneRecommendation[]` cast and the `trim` before `JSON.parse` are not modelled.
- The `API_KEY` check at module load is environment set-up.
- Browser storage and its JSON encoding are not modelled. `AppState.storedFavorites` mirrors what is written after each toggle. The constructor receives what was read: `None` for nothing, an empty string or unparsable JSON.
- `alert` and `console.error` are not modelled. The full-list alert is the `notified` result of `AddToComparison`. The feature-comparison alert has no counterpart.
- React rendering is not modelled: markup, CSS, keys, the loading skeletons and the table cells for price, summary, pros and cons. Header.tsx and SimilarPhonesModal.tsx are not part of this model.
- Promise scheduling is not modelled. Each awaited completion is a separate method that can come at any time. No completion checks staleness: not a search, not the similar-phones dialog (a reply after the dialog closed still fills `similarPhones`), and not a feature comparison. Only the card picture has a guard, which is modelled.
- `toLocaleString('tr-TR')` on the budget label is not modelled.
- GeminiService.BuildPrompt: only the preference lines and the text just around them are modelled. The fixed instructions and the template's indentation are left out. The same holds for the similar-phones, comparison and image prompts.
- Strings.IsSpace: the whitespace of `\s` and `trim` is written out as the JavaScript WhiteSpace and LineTerminator characters.
- FilterControls.LexLess compares characters, while JavaScript compares UTF-16 code units. The two orders differ only for characters outside the Basic Multilingual Plane.
- Ranking.SortInPlace: the engine's own sorting algorithm is replaced by insertion sort. Any stable sort gives the same result (`Ranking.SortedUnique`). Scores are unbounded integers, so fractional or non-numeric scores, and the comparator's floating-point subtraction, are not modelled.
- InputForm.WithInput requires a value the named control can deliver: digits for the slider, a listed option value for a select. `Number` of any other text is not modelled.
- GeminiService.GeneratePhoneImage: a first candidate without `content` is not modelled. Reading its `parts` throws, and the call then fails, like the `NoImageData` case, with no image.
