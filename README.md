# Becom.AI — a verified model of the session logic

Becom.AI is a React front end that helps a child aged 6 to 17 explore
careers. The child gives an age, describes or draws a dream, and gets an
analysis with traits and career paths. They play a short story, then a
two-round picture mission, and get a debrief and a real-world action plan.
All the content comes from a generative-AI backend; what the application
itself decides is the subject of this model:

- the service post-processing in `geminiService.ts`:
  - the age bracket;
  - the image retry loop with exponential backoff;
  - the input check and request parts of the dream analysis;
  - the mission grid builder: type deduplication, image cache, id expansion, Fisher–Yates shuffle and correct-id filter;
  - the debrief's results summary;
  - the growth-map icon splice and the Khan Academy link rewrite;
- the session state machine of `App.tsx`: one field per `useState` hook and one method per handler;
- the round game of `MiniMission.tsx`: selection toggling, scoring, advancing and the final deduplication by skill;
- the age form of `AgeInput.tsx`, with `parseInt` as section 19.2.5 of ECMA-262 defines it;
- the link labels and the Gmail compose link of `RealWorldPlanner.tsx`, with `encodeURIComponent` as section 19.2.6.5 of ECMA-262 defines it;
- the icon lookup and the two display guards of `SimulationConclusion.tsx`.

Every call to the backend is an input. A text call is given as its parsed answer, or `None` when the call failed or its answer did not parse. An image call is given as a function from the attempt number to the outcome of that attempt. `Math.random()` is given as supplied choices: the jitter in [0, 1000) and the shuffle index `j <= i`.

Modules, one file each:

| file | module | models |
|---|---|---|
| wrappers.dfy | Wrappers | `Option`, `Result` |
| js_text.dfy | JsText | `trim`, `\s`, `includes`, ASCII `toLowerCase`, `Set` insertion order |
| js_number.dfy | JsNumber | template-literal numerals, `parseInt(s, 10)` |
| uri.dfy | Uri | UTF-8, `encodeURIComponent`, percent-decoding, `split`, `join` |
| types.dfy | Types | the records of `src/types.ts`, the twelve `AppState` screens |
| image_fetch.dfy | ImageFetch | `generateImage` |
| mission_grid.dfy | MissionGrid | `generateMiniMission` |
| gemini_service.dfy | GeminiService | `getAgeGroupContext`, `analyzeDream`, `getMissionFeedback`, `generateRealWorldPlan` |
| app.dfy | App | `getThemeClass` and the handlers of `App` |
| mission_play.dfy | MissionPlay | `MultiRoundMissionComponent` |
| age_form.dfy | AgeForm | `AgeInput` |
| planner_view.dfy | PlannerView | `getLinkText`, `gmailHref` |
| conclusion_view.dfy | ConclusionView | `iconMap`, `getIcon`, the display guards |

Where the code and its description differ, the model follows the code:

- The service does no schema validation beyond `JSON.parse`. `gameMode` stays a string. `unlockedSkills` is passed on unfiltered, so nothing claims it is a subset of the rounds that succeeded.
- A service result that settles after a reset still lands: the handlers' continuations do not look at the current screen. As a consequence, the results screen can be reached with no analysis, and `App.ScreenHasData` leaves that screen out.
- `handleMissionComplete` shows the story loader (`CAREER_SIMULATION_IN_PROGRESS`), not a screen of its own.
- `Promise.all` over the icon requests becomes an order-preserving loop.

## Model

| member | source | states |
|---|---|---|
| JsText.TrimStart | src/services/geminiService.ts:289 | the result is the suffix of the input left after a maximal run of leading white space |
| JsText.TrimEnd | src/services/geminiService.ts:289 | the result is the prefix of the input left after a maximal run of trailing white space |
| JsText.Trim | src/services/geminiService.ts:289 | `trim()` never lengthens the text and leaves white space at neither end; TrimEmptyIffAllSpace says when it leaves nothing |
| JsText.TrimEmptyIffAllSpace | src/services/geminiService.ts:289 | `trim()` leaves nothing exactly when every character is ECMAScript white space |
| JsText.TrimStartOfSpace | src/components/AgeInput.tsx:14 | leading white space in front of a string does not change what remains after trimming the start |
| JsText.RemoveSpaces | src/components/SimulationConclusion.tsx:25 | `replace(/\s+/g, '')` leaves no white space and never lengthens the key |
| JsText.RemoveSpacesKeepsWords | src/components/SimulationConclusion.tsx:25 | a key without white space is left unchanged |
| JsText.RemoveSpacesOfBlank | src/components/SimulationConclusion.tsx:25 | a key made only of white space becomes empty |
| JsText.RemoveSpacesAppend | src/components/SimulationConclusion.tsx:25 | removing white space distributes over concatenation |
| JsText.LettersHaveNoSpace | src/components/SimulationConclusion.tsx:14-22 | a word of ASCII letters holds no white space |
| JsText.Contains | src/services/geminiService.ts:263 | `includes`; ContainsAt proves it holds exactly when the substring starts at some index, and ContainsInfix that every infix is found |
| JsText.ContainsAt | src/services/geminiService.ts:534 | `includes` holds exactly when the substring occurs at some index (both directions) |
| JsText.ContainsInfix | src/services/geminiService.ts:534 | a string includes each of its infixes |
| JsText.ToLower | src/services/geminiService.ts:534 | `toLowerCase` keeps the length and maps each character independently |
| JsText.AddAllFacts | src/App.tsx:104-107 | adding to an insertion-ordered set keeps the old elements first and in place, adds exactly the new ones, and repeats nothing |
| JsText.Distinct | src/App.tsx:104 | `Array.from(new Set(xs))`; DistinctFacts proves it has no repeats and exactly the elements of `xs`, and DistinctOfNoDup that a list without repeats passes unchanged |
| JsText.DistinctFacts | src/services/geminiService.ts:395-398 | `Array.from(new Set(xs))` holds exactly the elements of `xs`, each once, and is no longer than `xs` |
| JsText.AddAllPresent | src/App.tsx:104 | adding elements already present changes nothing |
| JsText.AddAllAppend | src/App.tsx:104 | folding `a + b` into a set is folding `a` and then `b` |
| JsText.DistinctOfNoDup | src/App.tsx:104-107 | a duplicate-free list passes through a `Set` unchanged |
| JsText.DistinctShorter | src/components/MiniMission.tsx:61 | a list with a repeat loses at least one element in a `Set` |
| JsNumber.Decimal | src/services/geminiService.ts:453 | `${n}` is a non-empty string of decimal digits |
| JsNumber.DigitPrefix | src/components/AgeInput.tsx:14 | the longest prefix made of digits: it is a prefix, all digits, and the next character is not a digit |
| JsNumber.ParseInt | src/components/AgeInput.tsx:14 | `parseInt(s, 10)`: white space, then one optional sign, then the longest digit run, and NaN without digits; ParseIntOfDecimal, ParseIntOfNegativeDecimal, ParseIntSkipsSpace and ParseIntNoDigits pin it down |
| JsNumber.NumeralOfDecimal | src/components/AgeInput.tsx:14 | reading back the numeral written for `n` gives `n` |
| JsNumber.DigitPrefixOfNumeral | src/components/AgeInput.tsx:14 | a numeral followed by a non-digit is the longest digit prefix |
| JsNumber.ParseIntOfDecimal | src/components/AgeInput.tsx:14 | `parseInt` of a numeral followed by anything that does not start with a digit is that number |
| JsNumber.ParseIntOfNegativeDecimal | src/components/AgeInput.tsx:14 | the same with a leading minus sign gives the negated number |
| JsNumber.ParseIntSkipsSpace | src/components/AgeInput.tsx:14 | leading white space does not change what `parseInt` reads |
| JsNumber.ParseIntNoDigits | src/components/AgeInput.tsx:14 | text without a digit parses to NaN |
| Uri.DecodeEscapedBytes | src/components/RealWorldPlanner.tsx:53 | percent-decoding undoes the escaping of any byte sequence |
| Uri.EncodeURIComponent | src/components/RealWorldPlanner.tsx:53 | every character becomes one to twelve output characters; DecodeEncodeURIComponent proves the output decodes to the UTF-8 bytes of the input, and EscapedBytesForm and EncodedHasNoDelimiter which characters it can hold |
| Uri.DecodeEncodeURIComponent | src/components/RealWorldPlanner.tsx:53 | decoding `encodeURIComponent(s)` gives exactly the UTF-8 bytes of `s` |
| Uri.EscapedBytesForm | src/services/geminiService.ts:535 | every character of an encoded string is unreserved, `%` or a hex digit |
| Uri.EncodedHasNoDelimiter | src/services/geminiService.ts:535-536 | an encoded value holds no `&`, `=`, `?`, `#` or space |
| Uri.Split | src/App.tsx:55 | `split` always yields at least one field, and no field holds the separator |
| Uri.SplitAfterField | src/App.tsx:55 | splitting `a,b` where `a` has no separator yields `a` and then the fields of `b` |
| Uri.SplitLastField | src/App.tsx:55 | a string without the separator is a single field |
| Uri.SplitJoin | src/components/RealWorldPlanner.tsx:53 | splitting undoes joining when no field holds the separator |
| Uri.JoinWithAvoids | src/components/RealWorldPlanner.tsx:53 | a character other than the separator is in a join only if it is in some field |
| ImageFetch.IsRateLimit | src/services/geminiService.ts:263 | only a message containing "429" or "RESOURCE_EXHAUSTED" is retried; RunFacts proves every call before the last failed this way, and OtherErrorIsFinal that any other failure ends the loop |
| ImageFetch.Backoff | src/services/geminiService.ts:268 | the wait after the k-th failed attempt; RunFacts proves the k-th wait lies in [2^k·1000, 2^k·1000 + 1000) when the jitter is in [0, 1000) |
| ImageFetch.Run | src/services/geminiService.ts:243-275 | the reference for the retry loop; GenerateImage is proved equal to it, and RunFacts proves the call bound, the URL-iff-last-call-succeeded, the rate-limit history and the waits |
| ImageFetch.GenerateImage | src/services/geminiService.ts:243-275 | the retry loop returns the URL, call count and waits that the recursive reference `Run` defines |
| ImageFetch.RunFacts | src/services/geminiService.ts:243-275 | at most `maxRetries` calls; a non-empty result exactly when the last call produced an image, and it is then `data:image/png;base64,` plus its bytes; every earlier call was rate-limited; one wait between consecutive calls, none after the last; the k-th wait lies in [2^k·1000, 2^k·1000+1000) |
| ImageFetch.AlwaysRateLimited | src/services/geminiService.ts:243-275 | an always-429 provider with three attempts gives exactly three calls, two waits and `''` |
| ImageFetch.SucceedsOnSecondAttempt | src/services/geminiService.ts:259-270 | one `RESOURCE_EXHAUSTED` and then an image gives two calls, one wait and the image |
| ImageFetch.OtherErrorIsFinal | src/services/geminiService.ts:263-266 | any other error ends the loop after that single call, with `''` |
| MissionGrid.TypesOf | src/services/geminiService.ts:397 | the types of a round's entries, in order |
| MissionGrid.AllTypesAppend | src/services/geminiService.ts:396-398 | the types of `k + 1` rounds are those of `k` rounds followed by round `k`'s |
| MissionGrid.TypesOfPrefix | src/services/geminiService.ts:397 | the types of `k + 1` entries are those of `k` entries plus entry `k`'s |
| MissionGrid.CollectTypes | src/services/geminiService.ts:395-398 | the `Set` filled by the nested `forEach` is the distinct types of all rounds in first-appearance order |
| MissionGrid.TypesFetchedOnce | src/services/geminiService.ts:395-404 | the requested types repeat nothing and miss no type of any round |
| MissionGrid.FetchTypeImages | src/services/geminiService.ts:400-404 | one image request per type, in order, and the cache is `ImageCache` of those requests |
| MissionGrid.ImageCacheFacts | src/services/geminiService.ts:400-404 | with distinct types, the cache maps exactly the requested types, each to the URL of its own request |
| MissionGrid.CachedImage | src/services/geminiService.ts:412 | the lookup as intended: CachedImageOfFetchedType proves every fetched type reads back the URL of its own request |
| MissionGrid.CachedImageOfFetchedType | src/services/geminiService.ts:400-412 | with distinct types, each type of a grid reads back the URL that its own image request returned |
| MissionGrid.CachedImageAsWritten | src/services/geminiService.ts:399-412 | the lookup on the plain object: a string stored under "__proto__" is dropped and reading that key yields `Object.prototype`; ProtoTypeLosesItsImage states the consequence |
| MissionGrid.ProtoTypeLosesItsImage | src/services/geminiService.ts:399-412 | an object type "__proto__" is fetched like any other, yet as written its objects carry `Object.prototype` instead of the fetched URL |
| MissionGrid.ExpandOne | src/services/geminiService.ts:408-416 | an entry gives `count` objects (none for a count below 1), the i-th with id `type-i`, its type and the cached image or `''` |
| MissionGrid.Expand | src/services/geminiService.ts:407-416 | the unshuffled grid; ExpandSize gives its size, ExpandAt the origin of each object, ExpandIdsUnique its distinct ids, and BuildGrid is proved equal to it |
| MissionGrid.ExpandSize | src/services/geminiService.ts:407-416 | the grid has as many objects as the sum of the positive counts |
| MissionGrid.ExpandAppend | src/services/geminiService.ts:407-416 | expanding `k + 1` entries is expanding `k` and appending entry `k`'s objects |
| MissionGrid.BuildGrid | src/services/geminiService.ts:407-416 | the nested push loops build exactly `Expand` of the entries |
| MissionGrid.ObjectId | src/services/geminiService.ts:411 | `${type}-${i}`; ObjectIdInjective proves the id determines both the type and the ordinal |
| MissionGrid.ObjectIdInjective | src/services/geminiService.ts:411 | an id `type-i` determines both its type and its ordinal |
| MissionGrid.Ids | src/services/geminiService.ts:426 | the ids of a grid, position by position |
| MissionGrid.ExpandAt | src/services/geminiService.ts:407-416 | every object of the unshuffled grid is the i-th object of some entry |
| MissionGrid.ExpandOneIdsUnique | src/services/geminiService.ts:409-415 | the ids of one entry's objects are pairwise distinct |
| MissionGrid.HeadIdNotInTail | src/services/geminiService.ts:407-416 | objects of different entries never share an id when the types differ |
| MissionGrid.ExpandIdsUnique | src/services/geminiService.ts:407-416 | when no type repeats within a round, no id repeats within its grid |
| MissionGrid.Swap | src/services/geminiService.ts:421 | a swap keeps the grid's length |
| MissionGrid.ShuffleFrom | src/services/geminiService.ts:419-422 | the remaining shuffle steps keep the grid's length |
| MissionGrid.Shuffled | src/services/geminiService.ts:419-422 | the shuffle keeps the grid's length |
| MissionGrid.Shuffle | src/services/geminiService.ts:418-422 | the in-place Fisher–Yates loop leaves the array equal to `Shuffled` of its old contents |
| MissionGrid.SwapPermutes | src/services/geminiService.ts:421 | a swap keeps every object, each as often |
| MissionGrid.ShufflePermutes | src/services/geminiService.ts:418-422 | the shuffle keeps every object, each as often |
| MissionGrid.CorrectIds | src/services/geminiService.ts:424-426 | the filtered ids are never more than the grid's objects |
| MissionGrid.CorrectIdsAppend | src/services/geminiService.ts:424-426 | filtering distributes over concatenation |
| MissionGrid.CorrectIdsMembers | src/services/geminiService.ts:424-426 | an id is listed exactly when some grid object of the correct type carries it |
| MissionGrid.CorrectIdsOfFive | src/services/geminiService.ts:424-426 | filtering a grid cut into five pieces filters each piece |
| MissionGrid.ExchangeKeepsCorrectIds | src/services/geminiService.ts:421-426 | exchanging two objects keeps the multiset of correct ids |
| MissionGrid.SwapKeepsCorrectIds | src/services/geminiService.ts:421-426 | filtering a swapped grid gives the same ids, each as often |
| MissionGrid.ShuffleKeepsCorrectIds | src/services/geminiService.ts:418-426 | the shuffle changes only the order of the correct ids |
| MissionGrid.PopulateRound | src/services/geminiService.ts:406-436 | building, shuffling and filtering one round gives `PopulatedRound` |
| MissionGrid.PopulatedRound | src/services/geminiService.ts:406-436 | one round as the service returns it; PopulatedRoundFacts gives its number, size, objects and shuffle-independent correct ids, and PopulateRound is proved equal to it |
| MissionGrid.PopulatedRoundFacts | src/services/geminiService.ts:406-436 | a populated round is numbered index + 1, has the summed count of objects, holds the objects of the unshuffled grid, and its correct ids do not depend on the shuffle |
| MissionGrid.PopulateRounds | src/services/geminiService.ts:406-436 | the `map` over the rounds keeps their number and order |
| MissionGrid.GenerateMiniMission | src/services/geminiService.ts:374-447 | a failed design call gives the mission error and no image request; otherwise the distinct types are requested once each and every round is `PopulatedRound` over the resulting cache |
| GeminiService.AgeGroupContext | src/services/geminiService.ts:10-21 | the three brackets 6–10, 11–13 and 14–17 and the fallback for every other age, each exactly on its range |
| GeminiService.DreamParts | src/services/geminiService.ts:296-308 | the PNG drawing part first when there is a drawing, then exactly one text part whose prompt variant is chosen by which inputs are present |
| GeminiService.CareerImagePrompt | src/services/geminiService.ts:332 | the career image prompt contains the career name |
| GeminiService.AttachCareerImages | src/services/geminiService.ts:329-336 | one image request per career path, in order; each path keeps its name and description and takes its request's URL |
| GeminiService.AnalyzeDream | src/services/geminiService.ts:282-344 | blank text and no drawing throw the no-input message before any call; otherwise the parts are sent; any failure becomes the generic analysis message with no image request; success keeps feedback and traits and attaches images |
| GeminiService.RoundSentence | src/services/geminiService.ts:453 | one round's sentence; RoundSentenceReportsOutcome proves it ends in "they succeeded." exactly when the round succeeded and starts with the round number |
| GeminiService.ResultsSummary | src/services/geminiService.ts:453 | the sentences of RoundSentences joined by spaces; GetMissionFeedback always builds it from the round results |
| GeminiService.RoundSentences | src/services/geminiService.ts:453 | one sentence per round, round i numbered i + 1 |
| GeminiService.RoundSentenceReportsOutcome | src/services/geminiService.ts:453 | a round's sentence ends in "they succeeded." exactly when the round succeeded, and starts with its round number |
| GeminiService.GetMissionFeedback | src/services/geminiService.ts:449-490 | the summary is built from the results; a failed call gives the debrief error and no image request; otherwise the answer is returned with one image attached and `unlockedSkills` unchanged |
| GeminiService.KhanRewrite | src/services/geminiService.ts:533-538 | the fix-up of one course; KhanRewriteChangesOnlyUrl and KhanRewriteIdempotent pin it down |
| GeminiService.KhanRewriteChangesOnlyUrl | src/services/geminiService.ts:533-538 | only the URL of a Khan Academy course changes, and a changed URL is the search template with the encoded title |
| GeminiService.KhanRewriteIdempotent | src/services/geminiService.ts:533-538 | afterwards a Khan Academy course has a search URL, so rewriting twice is rewriting once |
| GeminiService.IconPrompt | src/services/geminiService.ts:521 | the icon prompt starts with the node's own image prompt |
| GeminiService.FetchNodeIcons | src/services/geminiService.ts:519-525 | one icon request per node, in node order, with that node's icon prompt |
| GeminiService.SpliceTraitIcons | src/services/geminiService.ts:528-530 | trait node k takes the icon at position k + 1 and nothing else about it changes |
| GeminiService.FixCourseLinks | src/services/geminiService.ts:533-538 | every course suggestion goes through the Khan rewrite, in place and in order |
| GeminiService.GenerateRealWorldPlan | src/services/geminiService.ts:492-546 | a failed call gives the plan error with no request; otherwise 1 + trait-count icon requests, the central node gets icon 0 and trait k icon k + 1, the courses are rewritten and everything else is returned as it was |
| App.ThemeClass | src/App.tsx:14-20 | younger, middle and older exactly on 6–10, 11–13 and 14–17; default for null, 0 and every other age |
| App.ThemeMatchesAgeGroup | src/App.tsx:14-20 | the theme and the service's age bracket agree on every age |
| App.ErrorText | src/App.tsx:37-41 | an `Error` gives its message, any other thrown value the default message |
| App.DrawingPayload | src/App.tsx:55 | the payload never holds a comma: it is a single comma-separated field; DrawingPayloadFacts says which one |
| App.DrawingPayloadFacts | src/App.tsx:55 | a data URL `header,payload` yields its payload; a string with no comma yields the empty drawing |
| App.MergeTraits | src/App.tsx:101-108 | a null analysis stays null, and otherwise the feedback and career paths are kept; MergeTraitsFacts describes the new traits |
| App.MergeTraitsFacts | src/App.tsx:100-110 | a null analysis stays null; otherwise only the traits change, to every old trait and unlocked skill, each once; when the old traits have no repeats they come first and in place |
| App.AnalysisAfterDebrief | src/App.tsx:100-110 | a debrief never creates or erases the analysis; UnlockedSkillsBecomeTraits ties the merge to the debrief screen's test |
| App.UnlockedSkillsBecomeTraits | src/App.tsx:101-110 | with no unlocked block the analysis is untouched; every skill the block shows becomes a trait; no trait is lost |
| App.Session.constructor | src/App.tsx:24-33 | the initial hook values |
| App.Session.HandleError | src/App.tsx:37-41 | the error screen with the chosen text; nothing else changes |
| App.Session.HandleAgeSubmit | src/App.tsx:43-46 | the age is stored and the dream screen shown |
| App.Session.BeginAnalysis | src/App.tsx:48-57 | a missing age gives the error screen with "Age not set" and no call; otherwise the loader, a cleared error and the request with the drawing payload |
| App.Session.AnalysisSettled | src/App.tsx:57-62 | success stores the analysis and shows the results; failure goes through `handleError` |
| App.Session.BeginSelectPath | src/App.tsx:65-71 | a missing age gives "Age not set"; otherwise the career is stored and the story requested |
| App.Session.SelectPathSettled | src/App.tsx:71-76 | success stores the story step and shows it; failure goes through `handleError` |
| App.Session.BeginStartMission | src/App.tsx:79-85 | nothing changes without a career or an age; otherwise the choice is stored and the mission requested |
| App.Session.StartMissionSettled | src/App.tsx:85-90 | success stores the mission and shows it; failure goes through `handleError` |
| App.Session.BeginMissionComplete | src/App.tsx:93-98 | nothing changes without a career, a choice or an age; otherwise the loader and the debrief request |
| App.Session.MissionCompleteSettled | src/App.tsx:98-115 | success stores the debrief, merges non-empty unlocked skills into the traits, and shows the debrief; failure goes through `handleError` |
| App.Session.BeginGeneratePlan | src/App.tsx:118-123 | nothing changes without a career, an analysis or an age; otherwise the loader and the plan request with the current traits |
| App.Session.GeneratePlanSettled | src/App.tsx:123-128 | success stores the plan and shows it; failure goes through `handleError` |
| App.Session.ResetSimulation | src/App.tsx:132-140 | story, career, choice, mission, debrief and plan cleared, results screen; age, analysis and error kept |
| App.Session.ResetApp | src/App.tsx:142-148 | exactly the initial hook values |
| MissionPlay.Toggle | src/components/MiniMission.tsx:21-29 | the clicked id flips membership and no other id changes |
| MissionPlay.ToggleTwice | src/components/MiniMission.tsx:21-29 | clicking the same object twice restores the selection |
| MissionPlay.RoundSucceeded | src/components/MiniMission.tsx:33-37 | the size-and-inclusion test as written; RoundSucceededIffSameSet proves it is set equality |
| MissionPlay.RoundSucceededIffSameSet | src/components/MiniMission.tsx:33-37 | the size-and-inclusion test is exactly set equality, both ways |
| MissionPlay.Skills | src/components/MiniMission.tsx:61 | the skills of the results, position by position |
| MissionPlay.FindSkill | src/components/MiniMission.tsx:61 | the first entry holding the skill, or the length when none does |
| MissionPlay.DedupBySkill | src/components/MiniMission.tsx:61 | the deduplication never lengthens the results and keeps at least one of a non-empty list; DedupBySkillFacts says which entries it keeps |
| MissionPlay.DedupBySkillFacts | src/components/MiniMission.tsx:61 | the `Map` keeps one entry per skill, in first-appearance order, each the last result recorded for its skill |
| MissionPlay.DedupOfDistinctSkills | src/components/MiniMission.tsx:61 | when every skill occurs once the deduplication changes nothing |
| MissionPlay.FinalResults | src/components/MiniMission.tsx:55-63 | what the completion timer reports; FinalResultsAreRecorded proves it equals the recorded results once the last round is scored |
| MissionPlay.FinalResultsAreRecorded | src/components/MiniMission.tsx:55-63 | after the last round is scored, the timer reports exactly the recorded results, whether or not two rounds share a skill |
| MissionPlay.MissionGame.constructor | src/components/MiniMission.tsx:11-15 | the initial hook values |
| MissionPlay.MissionGame.ObjectClick | src/components/MiniMission.tsx:19-30 | toggles the selection while playing, ignored otherwise; nothing else changes |
| MissionPlay.MissionGame.SubmitRound | src/components/MiniMission.tsx:32-42 | the round succeeds exactly when the selection equals the correct set; one result for the round's skill is appended and feedback shown |
| MissionPlay.MissionGame.Next | src/components/MiniMission.tsx:44-52 | the selection is cleared and play resumes; the index advances while below the last round, otherwise every recorded result, one per round, is handed on; the index stays in range |
| MissionPlay.MissionGame.FinishTimeout | src/components/MiniMission.tsx:54-66 | the timer hands on `FinalResults`, which equals the recorded results, one per round |
| AgeForm.AgeOutcome | src/components/AgeInput.tsx:14-20 | an age is accepted exactly when `parseInt` gives a number in 6..17, and it is that number |
| AgeForm.AcceptsWrittenAge | src/components/AgeInput.tsx:14-20 | white space, a numeral in range, then anything not starting with a digit is accepted with that age |
| AgeForm.RejectsOutOfRange | src/components/AgeInput.tsx:15-18 | a numeral outside 6..17, with or without a minus sign, is refused |
| AgeForm.RejectsNonNumeric | src/components/AgeInput.tsx:14-18 | text without a digit is refused |
| AgeForm.AgeInputForm.constructor | src/components/AgeInput.tsx:9-10 | empty text and no error |
| AgeForm.AgeInputForm.SetAge | src/components/AgeInput.tsx:35 | the text is replaced and the error kept |
| AgeForm.AgeInputForm.HandleSubmit | src/components/AgeInput.tsx:12-21 | hands on `AgeOutcome` of the text, always an age in 6..17; acceptance clears the error, refusal sets the range message |
| PlannerView.LinkText | src/components/RealWorldPlanner.tsx:23-29 | calendar URL, then YouTube URL, then a Khan platform, then any non-empty platform decide the label, in that order; "Learn More" exactly when none applies |
| PlannerView.RendersLink | src/components/RealWorldPlanner.tsx:38 | the link shows only for a non-empty URL; KhanCourseRendersLink uses it |
| PlannerView.KhanCourseRendersLink | src/components/RealWorldPlanner.tsx:38 | a Khan Academy course fixed up by the service always shows its link |
| PlannerView.GmailHref | src/components/RealWorldPlanner.tsx:53 | the compose link; GmailHrefFields proves its shape, that its fields split back apart and that subject and body decode to their UTF-8 bytes |
| PlannerView.GmailHrefFields | src/components/RealWorldPlanner.tsx:53 | the link is the compose address, `?`, and five `&`-separated fields that split back apart; there is no `?` or `#` after the first; subject and body decode to their UTF-8 bytes |
| PlannerView.GmailHrefIsJoin | src/components/RealWorldPlanner.tsx:53 | the template literal is the compose address, `?` and the joined fields |
| PlannerView.HrefShape | src/components/RealWorldPlanner.tsx:53 | the template regrouped field by field |
| PlannerView.GmailFieldsClean | src/components/RealWorldPlanner.tsx:53 | no field holds `&`, `?` or `#`, so neither does their join |
| PlannerView.GmailFieldsHaveNoDelimiter | src/components/RealWorldPlanner.tsx:53 | the five fields hold no `&`, `?` or `#` |
| PlannerView.JoinFive | src/components/RealWorldPlanner.tsx:53 | five joined fields, spelled out |
| ConclusionView.OwnIcon | src/components/SimulationConclusion.tsx:14-22 | the own keys of `iconMap`; KeywordIcons lists them |
| ConclusionView.GetIconAsWritten | src/components/SimulationConclusion.tsx:24-25 | the lookup as written; ConstructorKeyIsNotAnIcon shows an inherited member coming back, and GetIconAgrees that it agrees with GetIcon on every other key |
| ConclusionView.GetIcon | src/components/SimulationConclusion.tsx:24-25 | the lookup as intended; GetIconOfWord, GetIconIgnoresSpaces and LowerCaseKeywordIcon pin it down |
| ConclusionView.ConstructorKeyIsNotAnIcon | src/components/SimulationConclusion.tsx:14-25 | as written, the key "constructor" yields an inherited member, not the default icon |
| ConclusionView.GetIconAgrees | src/components/SimulationConclusion.tsx:24-25 | the corrected lookup agrees with the code on every key that does not name an inherited member |
| ConclusionView.GetIconOfWord | src/components/SimulationConclusion.tsx:25 | a key without white space names its own icon when the map has it, and the default otherwise |
| ConclusionView.GetIconIgnoresSpaces | src/components/SimulationConclusion.tsx:25 | white space anywhere in a key does not change its icon |
| ConclusionView.KeywordIcons | src/components/SimulationConclusion.tsx:14-22 | each of the six keywords names its own icon, and "Default" names the sparkles |
| ConclusionView.LowerCaseKeywordIcon | src/components/SimulationConclusion.tsx:25 | letter case matters: "focus" gets the default icon |
| ConclusionView.ShowsUnlockedSkills | src/components/SimulationConclusion.tsx:62 | the "New Strengths Unlocked" guard; App.UnlockedSkillsBecomeTraits ties it to the trait merge |
| ConclusionView.ShowsImage | src/components/SimulationConclusion.tsx:35 | the image guard; PlaceholderIffNoImage ties it to the image run |
| ConclusionView.PlaceholderIffNoImage | src/components/SimulationConclusion.tsx:35-41 | the placeholder shows exactly when the image run's last call produced no image; otherwise the picture is that call's data URL |

## Left out

- The backend calls (`generateContent`, `generateImages`) are inputs. The model does not decide their answers, their failures, or whether `JSON.parse` succeeds; an answer that parses is taken to have the expected shape.
- The wording of the prompts and schemas is advisory text for the backend. The system instructions and the prompts of `startSimulation`, `getMissionFeedback` and `generateRealWorldPlan` are not modelled. The analysis prompt variants, the career image prompt, the icon prompt and the results summary are.
- The `delay(500)` pauses, the backoff sleeps and the 2-second completion timer are timing. The backoff waits are recorded as values instead of being slept.
- `Math.random()` is floating point. The jitter is a supplied integer in [0, 1000) and the shuffle index a supplied integer `j <= i`.
- Concurrency is not modelled. `Promise.all` over the icon requests runs in node order. In `MiniMission`, `handleNext` and the completion timer both call `onComplete`, and which runs first is a timing race. In the model only whichever of the two runs first hands the results on: both require the ghost `handedOff` flag to be unset, and the first sets it. The model proves that either one would hand on the same results.
- MissionPlay.MissionGame.constructor: requires at least one round. With no rounds the source's first render reads `roundNumber` of an undefined `currentRound` (src/components/MiniMission.tsx:17 and 74) and throws; that crash is not modelled.
- MissionGrid.CachedImage: the grid is built with the intended lookup, so a `GameObject` image is always a string. The as-written lookup, which gives objects of type "__proto__" the value `Object.prototype`, is modelled only by `MissionGrid.CachedImageAsWritten` (see Findings).
- `MissionPlay.MissionGame.SubmitRound` and `MissionPlay.MissionGame.Next` require the round status that makes their buttons visible, since the component renders each button only in that status.
- `startSimulation` is not modelled; only its outcome enters the session, as a parameter of `App.Session.SelectPathSettled`.
- The module-load `API_KEY` check and the console logging are left out.
- `DreamMirror.tsx`, `DrawingCanvas.tsx`, `AnalysisDisplay.tsx`, `CareerSimulation.tsx`, `Loader.tsx`, the JSX markup and the CSS are not part of this model. The same goes for the growth-map layout, which is floating-point trigonometry.
- Strings are sequences of Unicode scalar values. JavaScript's UTF-16 code units and the `URIError` that `encodeURIComponent` throws on a lone surrogate are not modelled.
- `JsText.ToLower` lowers ASCII letters only. Real `toLowerCase` follows the full Unicode case mapping; the only test applied to its result looks for the ASCII word "khan", so the difference shows only for a platform name with non-ASCII upper-case letters.
- `JsNumber.ParseInt`: integers are unbounded. The model does not capture the rounding `parseInt` applies to numerals beyond 2^53, nor a NaN age reaching the session: `handleAgeSubmit` only ever receives an accepted integer.
- `App.ThemeClass` takes an integer age or null. A non-integer or NaN age cannot arise, because the age form hands on integers only.

## Findings

| source | as written | input that shows it | evidently intended | confidence | as-written member | corrected member |
|---|---|---|---|---|---|---|
| src/components/SimulationConclusion.tsx:14-25 | the lookup indexes a plain object before falling back to `iconMap.Default`, so a key naming an `Object.prototype` member (section 20.1.3 of ECMA-262) finds the inherited function, which is truthy | the icon keyword "constructor" yields `Object` itself, not an icon component | any key other than the map's own seven falls back to the sparkles icon | not executed | ConclusionView.ConstructorKeyIsNotAnIcon | ConclusionView.GetIconOfWord |
| src/services/geminiService.ts:399-412 | the image cache is a plain object; storing a string under the key "__proto__" runs the inherited accessor of section B.2.2.1 of ECMA-262, which ignores it, and reading that key yields `Object.prototype`, which the fallback to '' keeps, being truthy | a mission design with an object type named "__proto__": its objects get `Object.prototype` as their image instead of the URL fetched for that type | every type's objects carry the URL fetched for it, or '' | not executed | MissionGrid.ProtoTypeLosesItsImage | MissionGrid.CachedImageOfFetchedType |
