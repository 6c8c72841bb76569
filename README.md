# Creative-writing LLM benchmark, modelled in Dafny

The system benchmarks language models on a creative-writing prompt. Each selected model writes
an answer, and a judge model scores it on four rubric categories (character clarity,
originality, sensory detail, tone consistency) from 0 to 10. The results are ranked by their
total and saved in the browser's `localStorage`. A leaderboard aggregates the saved runs into
per-model statistics, bar charts and a line chart of "theme coherence" (total ÷ 4). Small API
routes read model lists and prices from `litellm-config.yaml` and forward chat requests.

The model has one Dafny module per source file:

- `Judge`: `normalizeScores`, `clamp0to10` and `judgePrompt` of `lib/judge.ts`.
- `Bench`: the library benchmark of `lib/bench.ts`, including the two-stage parse of the judge's reply.
- `BenchmarkRoute`: the `POST /api/benchmark` route, which validates its body, does not clamp scores, and times generation plus judging.
- `Storage`: the run history of `lib/storage.ts` (cap 50).
- `LeaderboardStore`: the run history of `lib/leaderboardStore.ts` (cap 200), `computeModelStats` and the hash colour.
- `ConfigModels`: the two line scanners and the merge of `GET /api/config-models`.
- `ModelMetadata`: `toK` and the `model_list` mapping of `GET /api/model-metadata`.
- `LitellmChat`: `POST /api/litellm-chat`.
- `LeaderboardMeta` and `ModelColors`: the two lookup tables with defaults.
- `HomePage`: the home page's state (a class), its storage helpers, validation, toggling, ordering and preview.
- `LeaderboardPage`: the leaderboard's derived tables (`byModel`, the three bar charts, `comparisonRows`, `filtered`).
- `ThemeChart`: the data of the theme-coherence line chart.

Shared helper modules:

- `Js`: JavaScript numbers, with NaN and the infinities, `??`, and `Math.round`.
- `Text`: `trim`, `split`, `toLowerCase`, decimal rendering.
- `Seqs`: `Array.from(new Set(...))`, `map`, `filter`, `slice`, `reverse`.
- `StableSort`: the stable descending `sort`.
- `Models`: the record types of `lib/models.ts`.
- `Backend`: chat requests and replies.
- `Loop`: the per-model loop shared by the two benchmarks.
- `Browser`: `localStorage` as a class with one slot.

Everything outside the program's own logic becomes a parameter of the operation that uses it.
This covers the network (`fetch` to LiteLLM and OpenAI), `JSON.parse`, `YAML.parse`,
`Number(string)`, the file system and `Date.now()`. The chat oracle receives the request's
sequence number, so replies may differ from call to call. The benchmark methods return the list
of requests they sent, which the lemmas use to state the order of the calls.

## Model

| member | source | states |
|---|---|---|
| Judge.Clamp0To10 | lib/judge.ts:3-6 | an integer in 0..10; 0 for anything that is not a finite number (NaN, ±Infinity, a string, a missing value); otherwise the half-up rounding of the value, pinned to 0 below 0.5 and to 10 from 9.5 |
| Judge.SubScore | lib/judge.ts:9-12 | a missing field counts as 0; every sub-score is an integer in 0..10 |
| Judge.NormalizeScores | lib/judge.ts:8-15 | each sub-score is the clamp of its field; the record is canonical (integer sub-scores in 0..10, total equal to their sum), so the total lies in 0..40 |
| Judge.EmptyScoresAreZero | lib/judge.ts:9-14 | the empty object normalises to all zeros |
| Judge.TotalIgnored | lib/judge.ts:13-14 | a `total` sent by the judge has no effect on the result |
| Judge.SubScoreFixed | lib/judge.ts:3-6 | an integer in 0..10 clamps to itself |
| Judge.CanonicalIsFixed | lib/judge.ts:8-15 | canonical records are fixed points of normalisation |
| Judge.NormalizeIdempotent | lib/judge.ts:8-15 | normalising a normalised record changes nothing |
| Judge.ClampExamples | lib/judge.ts:5 | 12 gives 10, -3 gives 0, 7.6 and 7.5 give 8 |
| Judge.JudgeTextExample | lib/judge.ts:4 | a judge value given as the string "8" scores 0, because `Number.isFinite` does not convert strings |
| Judge.JudgePromptIsTrimmedTemplate | lib/judge.ts:17-41 | the judge prompt is the rubric naming the four keys, the user prompt verbatim, then the model output; this equals the template passed through `trim`, which removes only the output's trailing white space |
| Judge.HeadEnds | lib/judge.ts:18-38 | the text before the output begins with the rubric's first letter and ends with the colon of "Model Output:", so `trim` cannot reach into it |
| Judge.TrimmedTemplate | lib/judge.ts:40 | trimming "\n" + head + "\n" + output + "\n" keeps the head whole and drops only the output's trailing white space |
| Bench.JudgeModelOf | lib/bench.ts:42 | an unset or empty `JUDGE_MODEL` gives "openai/gpt-4o-mini", any other value is used as is |
| Backend.ChatOutcome | lib/bench.ts:22-26 | a 2xx reply passes through; a non-2xx status throws the prefix ("LiteLLM error " here, "LiteLLM " in the benchmark route), the status, ": " and the body; a rejected fetch throws its own message |
| Bench.RunOneModel | lib/bench.ts:29-39 | a missing `content` becomes ""; the latency is the generation request's own elapsed time; a failed request is an error |
| Bench.BraceSpan | lib/bench.ts:56 | the greedy `{[\s\S]*}` match runs from the first `{` to the last `}` |
| Bench.BraceSpanNone | lib/bench.ts:56-57 | there is no match exactly when no `{` comes before a `}` |
| Bench.ParseJudgeText | lib/bench.ts:51-58 | the direct parse when it succeeds; otherwise the parse of the brace span, whose error propagates; with no span the value stays `{}` |
| Bench.JudgeOutcome | lib/bench.ts:41-61 | a failed judge request is an error; otherwise the scores are `normalizeScores` of what parsed, always canonical and in 0..40; an unparsable reply without braces scores all zeros |
| Bench.ScoreOutput | lib/bench.ts:41-61 | sends one judge request to `JudgeModelOf(env)` and returns `JudgeOutcome` of its reply |
| Bench.ReadVerdict | lib/bench.ts:48-60 | reading a judge reply gives `JudgeOutcome` of it |
| Bench.ReadJson | lib/bench.ts:51-58 | the try/catch assigns `raw` the value `ParseJudgeText` describes |
| Bench.TryModel | lib/bench.ts:65-68 | one generation request, then one judge request about its answer; a result names its model, carries the answer and the generation latency, and has canonical scores |
| Bench.RunModel | lib/bench.ts:65-68 | one loop iteration computes exactly `TryModel` for that model and position |
| Bench.Attempts | lib/bench.ts:65-68 | the loop body as a value equals `TryModel` at every model and position |
| Bench.RunModels | lib/bench.ts:64-69 | the loop processes the models in order and stops at the first error |
| Bench.RunBenchmark | lib/bench.ts:63-74 | the outcome is the first error, or the results sorted by descending total; the requests sent are the loop's |
| Bench.BenchmarkInOrder | lib/bench.ts:65-68 | without an error, request 2i asks model i for an answer and request 2i+1 asks the judge about that answer; result i names model i, with that answer (or "") and that latency, and the judge's scores |
| Bench.BenchmarkRanked | lib/bench.ts:63-73 | a successful benchmark returns one result per input model (the multiset of names equals the input list), in non-increasing total, with equal totals in input order and every score canonical |
| Bench.BenchLoopResults | lib/bench.ts:64-69 | a loop without error names the models in order, each with canonical scores |
| Bench.Ranking | lib/bench.ts:72 | sorting results that name the models keeps one per model, orders totals non-increasingly, keeps ties in input order and keeps canonical scores |
| Loop.DriveInOrder | lib/bench.ts:65-68 | a loop without error keeps every model's result in order and sends model i's requests as numbers 2i and 2i+1 |
| Loop.DriveNamesModels | lib/bench.ts:68 | a loop without error names the models in input order |
| Loop.DriveKeeps | lib/bench.ts:65-68 | every result has each property that every successful iteration's result has |
| Loop.DriveFailurePersists | lib/bench.ts:66-67 | after an error no later model is processed |
| Loop.DriveFirstFailure | lib/bench.ts:66-67 | the loop fails exactly when some model's iteration fails, and the error kept is the first failing model's |
| StableSort.SortDesc | lib/bench.ts:72 | the sorted copy is a permutation of its input |
| StableSort.SortDescSorted | lib/bench.ts:72 | the comparator `b.total - a.total` gives non-increasing totals |
| StableSort.SortDescStable | lib/bench.ts:72 | elements with equal totals keep their input order |
| StableSort.SortDescMap | lib/bench.ts:72 | sorting permutes any projection of the elements, such as the model names |
| StableSort.SortDescKeeps | lib/bench.ts:72 | sorting keeps every property all elements share |
| StableSort.SortDescHead | lib/leaderboardStore.ts:58-59 | the first element of the sorted copy is the earliest one with the greatest total |
| StableSort.FirstMaxIndex | lib/leaderboardStore.ts:58-59 | the index of the earliest element with the greatest key |
| BenchmarkRoute.AssertEnv | app/api/benchmark/route.ts:16-20 | the variable's value when it is set and non-empty, else the error "Missing <name> environment variable" |
| BenchmarkRoute.EnvError | app/api/benchmark/route.ts:23-24 | the base URL is checked before the master key; no error exactly when both are set |
| BenchmarkRoute.NormalizeScores | app/api/benchmark/route.ts:48-60 | each field is `Number(field ?? 0)`, kept unclamped and unrounded; the total is finite exactly when all four are, and is then their sum |
| BenchmarkRoute.NumbersKept | app/api/benchmark/route.ts:48-60 | numeric fields are kept exactly, and a judge's `total` is ignored |
| BenchmarkRoute.UnclampedExample | app/api/benchmark/route.ts:48-60 | 12, -3 and 7.6 stay as they are, and a missing field counts 0 |
| BenchmarkRoute.NaNTotal | app/api/benchmark/route.ts:49-58 | a field that converts to NaN makes the total NaN |
| BenchmarkRoute.JudgePromptIsTrimmedTemplate | app/api/benchmark/route.ts:62-80 | the judge prompt is its template with only the two outer line breaks removed |
| BenchmarkRoute.ReadBody | app/api/benchmark/route.ts:85-87 | the prompt defaults to "", a non-array `models` to [], and a falsy judge model to "openai/gpt-4o-mini" |
| BenchmarkRoute.AcceptableBody | app/api/benchmark/route.ts:89 | a body passes validation exactly when it has a non-empty prompt and a non-empty array of models |
| BenchmarkRoute.BlankPromptAccepted | app/api/benchmark/route.ts:85-89 | a prompt of white space passes: the route does not trim it |
| BenchmarkRoute.ReadScores | app/api/benchmark/route.ts:113-120 | missing judge content is parsed as "{}"; a parse error propagates; `null` throws when its first field is read |
| BenchmarkRoute.MissingJudgeContent | app/api/benchmark/route.ts:113-115 | with no judge content every score is 0 |
| BenchmarkRoute.TryModel | app/api/benchmark/route.ts:98-122 | the environment is checked first; a result names its model, carries the answer (or "") and the scores read from the judge, and its latency spans both requests |
| BenchmarkRoute.Attempts | app/api/benchmark/route.ts:98-122 | the loop body as a value equals `TryModel` at every model and position |
| BenchmarkRoute.ErrorText | app/api/benchmark/route.ts:130 | `e.message` when it is non-empty, else "Server error" |
| BenchmarkRoute.RunModel | app/api/benchmark/route.ts:98-122 | one loop iteration computes exactly `TryModel` for that model and position |
| BenchmarkRoute.RunModels | app/api/benchmark/route.ts:96-123 | the loop processes the models in order and stops at the first error |
| BenchmarkRoute.Post | app/api/benchmark/route.ts:82-134 | the response and the requests sent are those of validation, the loop, the sort by the comparator's order and the catch |
| BenchmarkRoute.RejectsInvalidBody | app/api/benchmark/route.ts:89-94 | status 400 is answered exactly for a parsed body that fails validation, with "Missing prompt or models", and then no request is sent |
| BenchmarkRoute.MissingEnv | app/api/benchmark/route.ts:16-24 | a missing variable gives one 500 response with its message, before any request |
| BenchmarkRoute.FailureIsFirstError | app/api/benchmark/route.ts:128-133 | after validation, a 500 response happens exactly when some iteration fails; it carries the first failing model's error (or "Server error") and no results |
| BenchmarkRoute.PostInOrder | app/api/benchmark/route.ts:98-123 | without an error, model i is asked at temperature 0.7 by request 2i and the judge at temperature 0 by request 2i+1; result i holds that answer, both requests' time and the judge's scores |
| BenchmarkRoute.PostRanked | app/api/benchmark/route.ts:125-127 | a successful response holds one result per model, ordered by non-increasing total on the extended number line (+Infinity first, -Infinity last), so that the comparator never asks to swap two results without a NaN total; ties stay in input order |
| BenchmarkRoute.Ranking | app/api/benchmark/route.ts:125 | sorting results that name the models keeps one per model, in non-increasing rank key, with results of equal key in input order |
| BenchmarkRoute.RankKeyIsComparator | app/api/benchmark/route.ts:125 | for totals that are not NaN, `b.total - a.total` is positive exactly when b's key is greater and negative exactly when a's key is greater; finite totals keep their order, and +Infinity and -Infinity lie above and below them |
| BenchmarkRoute.RankedForComparator | app/api/benchmark/route.ts:125 | a list in non-increasing rank key is one the comparator accepts: for no two results without a NaN total does it put the later one first |
| BenchmarkRoute.InfinitiesRankOutside | app/api/benchmark/route.ts:125 | results with totals -Infinity, 20 and +Infinity, in that order, are ranked +Infinity, 20, -Infinity |
| Storage.LoadRuns | lib/storage.ts:8-18 | the stored list; [] on the server and for an absent, unparsable or non-array entry |
| Storage.SaveRun | lib/storage.ts:20-25 | on the server nothing changes; otherwise the new run followed by the earlier runs, cut to 50, is stored and is what the next load returns |
| Storage.ClearRuns | lib/storage.ts:27-30 | the entry is removed (on the server nothing changes), and the next load returns [] |
| Seqs.Newest | lib/storage.ts:23 | `[run, ...prev].slice(0, cap)` holds min(cap, \|prev\|+1) runs, the new run first and the earlier runs in their order |
| LeaderboardStore.LoadRuns | lib/leaderboardStore.ts:26-36 | the stored list; [] on the server and for an absent, unparsable or non-array entry |
| LeaderboardStore.SaveRun | lib/leaderboardStore.ts:38-42 | the new run followed by the earlier runs, cut to 200, is stored; without a window `setItem` throws and nothing is stored |
| LeaderboardStore.ClearRuns | lib/leaderboardStore.ts:44-47 | the entry is removed (on the server nothing changes), and the next load returns [] |
| LeaderboardStore.RunWinner | lib/leaderboardStore.ts:58-59 | the winner of a run is the model of the first element of its sorted copy, that is, of the earliest result with the greatest total |
| LeaderboardStore.TallyRun | lib/leaderboardStore.ts:56-68 | one run adds each of its results to its model's sums, then one win to the winner if it is a non-empty name with an entry |
| LeaderboardStore.ComputeModelStats | lib/leaderboardStore.ts:50-75 | the loops build exactly the statistics `Summary` defines from the runs |
| LeaderboardStore.TallyIsSummary | lib/leaderboardStore.ts:56-74 | the dictionary the loops build gives, entry by entry, the statistics defined from the runs |
| LeaderboardStore.SummaryModels | lib/leaderboardStore.ts:61-74 | one entry per distinct model with a result, and `runs` is the number of results naming that model |
| LeaderboardStore.WinnerIsNamed | lib/leaderboardStore.ts:59-67 | a winner is the model of one of its run's results |
| LeaderboardStore.WinsAtMostResults | lib/leaderboardStore.ts:58-67 | a model's wins never exceed its number of results |
| LeaderboardStore.WinsAtMostRuns | lib/leaderboardStore.ts:58-67 | per model, `wins <= runs` |
| LeaderboardStore.WinnersAreNamed | lib/leaderboardStore.ts:67 | every awarded win goes to a model that has a result |
| LeaderboardStore.WinsAddUp | lib/leaderboardStore.ts:67-74 | the wins of all entries add up to the number of runs that awarded a win |
| LeaderboardStore.AwardsAtMostRuns | lib/leaderboardStore.ts:58-67 | a run awards at most one win, and only a run with results awards one |
| LeaderboardStore.WinnersPerRun | lib/leaderboardStore.ts:58-67 | when no result names the model "", every run with results awards exactly one win |
| LeaderboardStore.AverageInRange | lib/leaderboardStore.ts:63-71 | totals in 0..40 give averages in 0..40 |
| LeaderboardStore.TotalSumInRange | lib/leaderboardStore.ts:63 | a model's total sum lies between 0 and 40 times its number of results |
| LeaderboardStore.Utf16 | lib/leaderboardStore.ts:80 | the code units `length` counts and `charCodeAt` returns are all below 0x10000 |
| LeaderboardStore.Hash | lib/leaderboardStore.ts:79-80 | the unsigned 32-bit hash `h = (h * 31 + code) >>> 0` stays below 2^32 |
| LeaderboardStore.Hue | lib/leaderboardStore.ts:81 | the hue `h % 360` lies in 0..359 |
| LeaderboardStore.ColorForModel | lib/leaderboardStore.ts:78-83 | the hash loop gives the colour `hsl(<hue> 85% 60%)` of the model's hue, so equal names get equal colours |
| LeaderboardStore.ColorNamesHue | lib/leaderboardStore.ts:81-82 | the colour names the hue in one to three decimal digits that read back as the hue |
| ConfigModels.NameAt | app/api/config-models/route.ts:53 | a `model_name:` capture at a position is a non-empty run of characters other than white space and `#` |
| ConfigModels.NamePos | app/api/config-models/route.ts:53 | the first position where the pattern matches, with no match before it |
| ConfigModels.LineNameLeftmost | app/api/config-models/route.ts:53-54 | a line's value is the capture at the leftmost match, and there is none exactly when no position matches |
| ConfigModels.NameAtIsLongest | app/api/config-models/route.ts:53 | the capture is the longest run of value characters after `model_name:` and any white space |
| ConfigModels.FirstWhere | app/api/config-models/route.ts:37-40 | the position of the first `model_list:` line, with none before it |
| ConfigModels.ScanListIsValues | app/api/config-models/route.ts:34-55 | the flag is set exactly when there is a header line; with none the list is empty; otherwise it holds the values of the lines after the first header |
| ConfigModels.ScanListMembers | app/api/config-models/route.ts:34-55 | a value is collected exactly when some non-header line after the first header carries it |
| ConfigModels.ExtractModelList | app/api/config-models/route.ts:29-59 | the loop over the lines with the flag `inModelList`, then the dedupe, gives `ModelList(text)` |
| ConfigModels.ModelListMembers | app/api/config-models/route.ts:37-55 | a model is listed exactly when a `model_list:` line exists and a later non-header line names it; the "stop" check ends nothing |
| ConfigModels.ModelListDistinct | app/api/config-models/route.ts:58 | the list has no repeats |
| ConfigModels.ModelKey | app/api/config-models/route.ts:99 | a model key is never empty |
| ConfigModels.ModelKeyIff | app/api/config-models/route.ts:99 | a model-key line is exactly two white-space characters, a key without white space or `:`, then `:` with only white space around it |
| ConfigModels.KeyAfterIndentIff | app/api/config-models/route.ts:99 | after the indentation, a key is a run of key characters followed by a lone `:` |
| ConfigModels.KeyIsLongest | app/api/config-models/route.ts:99 | a key followed by a lone `:` is the longest run of key characters |
| ConfigModels.FieldLineShape | app/api/config-models/route.ts:108 | a field line starts with exactly four white-space characters and holds no `#`, so a trailing comment makes it unreadable |
| ConfigModels.StoppedIsFinal | app/api/config-models/route.ts:93-96 | once the scan breaks at a top-level key, the remaining lines change nothing |
| ConfigModels.NoHeaderNoInfo | app/api/config-models/route.ts:84-90 | before a `model_info:` line nothing is recorded |
| ConfigModels.InfoKeysAreModelKeys | app/api/config-models/route.ts:99-106 | every recorded model, and the current model, comes from a model-key line; field lines before the first key are ignored |
| ConfigModels.RepeatedKeyKeepsEntry | app/api/config-models/route.ts:101-102 | a model key seen again keeps its entry and becomes the current model |
| ConfigModels.ModelInfoNeedsHeader | app/api/config-models/route.ts:84-90 | text without a `model_info:` line gives no entries |
| ConfigModels.ScanKeepsCurrentRecorded | app/api/config-models/route.ts:101-102 | the current model of the scan always has an entry in `out` |
| ConfigModels.FieldLineStores | app/api/config-models/route.ts:108-118 | inside `model_info` with a current model, a field line changes only that model's entry and in it only the named field: `context` stores the text, `input_cost`, `output_cost`, `speed` and `latency` store `Number` of it, and any other field changes nothing |
| ConfigModels.FieldLineIgnored | app/api/config-models/route.ts:90-106 | a field line outside `model_info`, or before any model key inside it, changes nothing |
| ConfigModels.ModelInfoExampleResult | app/api/config-models/route.ts:74-122 | for a block with a model `m`, a `context: 128k` line, a `max_tokens` line and a `speed` line ending in a comment, the result is exactly `m` with context "128k" |
| ConfigModels.ReadInfoLine | app/api/config-models/route.ts:82-118 | the loop body for one line updates `inModelInfo`, `currentModel` and `out` as one step of the scan, and says whether the loop breaks |
| ConfigModels.ExtractModelInfo | app/api/config-models/route.ts:74-122 | the loop over the lines gives `ModelInfo(text)` |
| ConfigModels.Get | app/api/config-models/route.ts:124-147 | a missing or empty file gives no models; otherwise each listed model in list order, merged with its info |
| ConfigModels.GetListsModelList | app/api/config-models/route.ts:133-139 | the response lists exactly the models of `model_list`; one named only in `model_info` is dropped |
| Text.Trim | app/api/config-models/route.ts:35 | `trim` leaves no white space at either end, and gives "" exactly for blank text |
| Text.ReplaceTabs | app/api/config-models/route.ts:82 | no tab survives, and text without tabs is unchanged |
| Text.ReplaceTabsTab | app/api/config-models/route.ts:82 | a tab becomes two spaces |
| Text.ReplaceTabsOther | app/api/config-models/route.ts:82 | any other character is kept as it is |
| Text.ReplaceTabsAppend | app/api/config-models/route.ts:82 | the replacement distributes over concatenation, so with the two lemmas above it is fixed character by character, in order |
| Text.ReplaceTabsLength | app/api/config-models/route.ts:82 | the text grows by exactly one character per tab |
| Text.JoinSplit | app/api/config-models/route.ts:30 | splitting at line breaks loses nothing |
| Seqs.Dedup | app/api/config-models/route.ts:58 | `Array.from(new Set(s))` has exactly the elements of `s` |
| Seqs.DedupDistinct | app/api/config-models/route.ts:58 | the result has no repeats |
| Seqs.DedupOrder | app/api/config-models/route.ts:58 | the result keeps the order of first occurrence |
| Seqs.AddAll | app/leaderboard/page.tsx:116-118 | adding elements one by one to a set holding the distinct elements of `base` gives the distinct elements of `base` followed by them |
| ModelMetadata.ToK | app/api/model-metadata/route.ts:18-23 | "" exactly for an absent or non-positive count; the plain decimal for 1..999 |
| ModelMetadata.ScaledRoundTrip | app/api/model-metadata/route.ts:20-21 | a count rendered with a unit letter reads back as that count |
| ModelMetadata.ToKMillions | app/api/model-metadata/route.ts:20 | from a million on: digits and "M", the digits being the count in millions rounded half-up |
| ModelMetadata.ToKThousands | app/api/model-metadata/route.ts:21 | from a thousand to below a million: digits and "k", the digits being the count in thousands rounded half-up |
| ModelMetadata.ToKHalvesRoundUp | app/api/model-metadata/route.ts:21 | 1500 reads "2k" and 2500 reads "3k" |
| ModelMetadata.ToKTopOfThousands | app/api/model-metadata/route.ts:21 | 999500 reads "1000k", not "1M" |
| ModelMetadata.ToKExamples | app/api/model-metadata/route.ts:20-22 | 128000 reads "128k", a million "1M", 999 "999" |
| ModelMetadata.ToEntry | app/api/model-metadata/route.ts:43-57 | an entry's name is `model_name`, or "" when it is missing; `context_tokens` is `max_input_tokens` (an integer here), or null when it is missing; each per-1M price is the per-token price times a million, or null when there is none |
| ModelMetadata.MapEntries | app/api/model-metadata/route.ts:42-58 | the entries of the list in order, or the `TypeError` exactly when some element is `null` |
| ModelMetadata.NullItemFails | app/api/model-metadata/route.ts:42-66 | a `null` element anywhere in `model_list` makes the answer that error's message with no models |
| ModelMetadata.ContextIsToK | app/api/model-metadata/route.ts:53-54 | the context label is `toK` of the context size, which is "" for a falsy size |
| ModelMetadata.Get | app/api/model-metadata/route.ts:25-68 | a missing file gives its error and no models; any error, including the one a `null` list element throws, comes with no models; every listed model has a non-empty name |
| ModelMetadata.NamesKept | app/api/model-metadata/route.ts:42-59 | the names in the response are the non-empty names of the list, in list order |
| ModelMetadata.GetListsNamedEntries | app/api/model-metadata/route.ts:38-61 | a non-array `model_list` gives no error and no models; a list without `null` elements gives no error and its named entries, as a subsequence of the list |
| LitellmChat.Messages | app/api/litellm-chat/route.ts:8-12 | the body's `messages` when present; else one user message with the prompt when it is non-empty, or with the serialised body |
| LitellmChat.NormaliseModel | app/api/litellm-chat/route.ts:15-18 | the result has no `/`; a name without `/` is unchanged; otherwise the result is the suffix after the last `/` |
| LitellmChat.NormaliseExample | app/api/litellm-chat/route.ts:14-18 | "openai/gpt-4o-mini" becomes "gpt-4o-mini" |
| LitellmChat.Temperature | app/api/litellm-chat/route.ts:37 | the body's temperature unless it is absent or null (0 is kept); otherwise 0.7 |
| LitellmChat.Request | app/api/litellm-chat/route.ts:8-39 | no request exactly without a key; otherwise the chosen messages, `NormaliseModel` of the body's model ("gpt-4o-mini" by default, with no `/`) and the temperature |
| LitellmChat.Answer | app/api/litellm-chat/route.ts:43-62 | the content ("" when missing), or the upstream status and error, or 500 with the thrown message |
| LitellmChat.Post | app/api/litellm-chat/route.ts:3-62 | a body that is not JSON gives 500 with the parse error; a missing key gives 500 with its message before anything is sent |
| LitellmChat.PostForwardsRequest | app/api/litellm-chat/route.ts:20-50 | with a key, the response is the answer to exactly `Request`'s body |
| LitellmChat.PromptOnlyBody | app/api/litellm-chat/route.ts:8-37 | a prompt-only body sends one user message to "gpt-4o-mini" at temperature 0.7 |
| Seqs.Find | lib/leaderboardMeta.ts:18 | `find` gives the index of the first element that satisfies the test, with none before it, and none when no element does |
| LeaderboardMeta.GetMeta | lib/leaderboardMeta.ts:17-26 | the first table row naming the model, or the row with context "—" and zero prices |
| LeaderboardMeta.ListedModelGetsItsRow | lib/leaderboardMeta.ts:8-26 | each listed model gets its own table row |
| LeaderboardMeta.ListedMeta | lib/leaderboardMeta.ts:8-26 | the four listed models get their contexts and prices |
| ModelColors.ColorForModel | lib/modelColors.ts:9-11 | a listed model gets its table colour, any other the translucent white default |
| ModelColors.ListedColors | lib/modelColors.ts:1-4 | the two listed models get blue and yellow |
| ModelColors.OnlyListedAreColoured | lib/modelColors.ts:1-11 | a model gets a non-default colour exactly when it is listed |
| ModelColors.CommentedOutGetDefault | lib/modelColors.ts:5-6 | the two commented-out models get the default |
| HomePage.ReadRuns | app/page.tsx:39-47 | the stored list, or [] for an absent, unparsable or non-array entry |
| HomePage.SaveRun | app/page.tsx:49-54 | the new run goes in front of the stored list, with no cap, and the new length is returned; without storage nothing is stored |
| HomePage.ToggleModel | app/page.tsx:103-107 | a selected model is removed everywhere and the rest keep their order; any other model is appended |
| HomePage.ToggleTwice | app/page.tsx:103-107 | toggling an unselected model twice restores the selection |
| HomePage.ToggleBack | app/page.tsx:103-107 | toggling a selected model off and on moves it to the end |
| HomePage.Validate | app/page.tsx:116-118 | the form is valid exactly when the trimmed prompt and judge are non-empty and a model is selected; the errors come in that order |
| HomePage.Outcome | app/page.tsx:115-139 | an invalid form fails with its error; results are non-empty and are what the API returned; an empty result list is an error |
| HomePage.Shown | app/page.tsx:153 | the thrown message, or "Something went wrong." when it is empty |
| HomePage.Preview | app/page.tsx:284-289 | the whole output when expanded or at most 160 characters long; otherwise its first 160 characters and "…" |
| HomePage.PreviewIsBounded | app/page.tsx:286 | a collapsed preview has at most 161 characters and begins like the output |
| HomePage.DisplayOrder | app/page.tsx:274-276 | the listing is a permutation of the results |
| HomePage.DisplayOrderRanks | app/page.tsx:274-276 | the listing is non-increasing in total and keeps the API's order among equal totals |
| HomePage.DefaultsAgree | app/page.tsx:92-94 | the default selection is the first min(3, n) options and includes the default judge, the first option |
| HomePage.Page.constructor | app/page.tsx:57-74 | the first render: the sample prompt, no judge, no selection, nothing loaded |
| HomePage.Page.LoadSaved | app/page.tsx:77-81 | the run count is the number of saved runs, and the newest run's results are shown if there is one |
| HomePage.Page.LoadConfig | app/page.tsx:84-101 | with models, the judge is the first and the selection the first three; without models nothing else changes |
| HomePage.Page.Toggle | app/page.tsx:103-107 | the selection becomes `ToggleModel` of the old one, and nothing else changes |
| HomePage.Page.ToggleExpanded | app/page.tsx:292-297 | flips the model's expanded flag, and nothing else changes |
| HomePage.Page.RunBenchmark | app/page.tsx:109-157 | the API is called exactly when the form is valid; on results the run is saved and shown, otherwise the error is shown and nothing is saved; loading ends and the form is kept |
| HomePage.Page.Finish | app/page.tsx:141-153 | shows the error, or saves the run and shows its results and the new count |
| HomePage.Page.ClearRuns | app/page.tsx:159-164 | removes the entry and empties the display |
| LeaderboardPage.ThemeCoherence | app/leaderboard/page.tsx:18-21 | a dash exactly for an average that is not positive; otherwise the average over 4 |
| LeaderboardPage.ThemeCoherenceRange | app/leaderboard/page.tsx:18-21 | averages in (0, 40] give a coherence in (0, 10] |
| LeaderboardPage.LastConfig | app/leaderboard/page.tsx:58 | the last config entry naming the model, or none when no entry names it |
| LeaderboardPage.ByModel | app/leaderboard/page.tsx:56-60 | the loop maps each named model to the last config entry naming it, and no other key |
| LeaderboardPage.FindStats | app/leaderboard/page.tsx:121 | the first statistics entry naming the model, or none |
| LeaderboardPage.MaxValue | app/leaderboard/page.tsx:79 | `Math.max(1, ...values)` is at least 1 and every value, and is one of them |
| LeaderboardPage.Top | app/leaderboard/page.tsx:76-80 | at most 5 rows, non-increasing in value, drawn from the bars; the scale is at least 1 and at least every row |
| LeaderboardPage.TopIsLargest | app/leaderboard/page.tsx:76-77 | no bar left out is larger than a bar shown |
| LeaderboardPage.SortedTail | app/leaderboard/page.tsx:76-77 | in a descending list, an element past the first n is no larger than any of them |
| LeaderboardPage.SpeedValue | app/leaderboard/page.tsx:65-72 | the config's speed when it has one; otherwise 0 without statistics or with an average latency of 0, and else the inverse of the average latency |
| LeaderboardPage.LatencyValue | app/leaderboard/page.tsx:87-91 | 0 exactly for a latency that is not positive, otherwise its inverse |
| LeaderboardPage.CheapValue | app/leaderboard/page.tsx:104-105 | positive exactly for a positive input price, and then its inverse; 0 otherwise |
| LeaderboardPage.FastestBars | app/leaderboard/page.tsx:62-81 | min(5, n) bars in non-increasing order with a scale of at least 1; each is a charted model with its `SpeedValue`, and no model left out has a larger value than a model shown |
| LeaderboardPage.LatencyBars | app/leaderboard/page.tsx:83-99 | min(5, n) non-negative bars in non-increasing order with a scale of at least 1; each is a charted model with its `LatencyValue`, and no model left out has a larger value than a model shown |
| LeaderboardPage.CheapBars | app/leaderboard/page.tsx:101-113 | min(5, n) non-negative bars in non-increasing order with a scale of at least 1; each is a config's model with its `CheapValue`, and no config left out has a larger value than one shown |
| LeaderboardPage.ModelChart | app/leaderboard/page.tsx:62-81 | for models ranked by a value: min(5, n) rows in non-increasing order, each a model with its value, and no model left out larger than one shown |
| LeaderboardPage.RowsAreBars | app/leaderboard/page.tsx:76-77 | every row of a chart is one of its bars |
| LeaderboardPage.ValuesKept | app/leaderboard/page.tsx:76-77 | when each bar's value is a function of its label, so is each row's |
| LeaderboardPage.TopShowsLargest | app/leaderboard/page.tsx:76-77 | a bar that is not shown is no larger than any bar shown |
| LeaderboardPage.LabelsKept | app/leaderboard/page.tsx:74-77 | every shown bar carries a label of the input |
| LeaderboardPage.NonNegativeKept | app/leaderboard/page.tsx:76-77 | non-negative values stay non-negative |
| LeaderboardPage.RowFor | app/leaderboard/page.tsx:120-131 | a model's row: context "—" and no prices without config; zero average, wins and latency without statistics |
| LeaderboardPage.CollectModels | app/leaderboard/page.tsx:116-120 | the two loops give the distinct models of the statistics, then of the configs |
| LeaderboardPage.ComparisonRows | app/leaderboard/page.tsx:115-133 | one row per model of `TableModels`, in that order |
| LeaderboardPage.ComparisonModels | app/leaderboard/page.tsx:115-120 | the table has no duplicates and lists every model with statistics or config: the statistics' models first, then the config-only ones, each group in its own order |
| LeaderboardPage.Filtered | app/leaderboard/page.tsx:135-143 | an order-preserving subsequence of the rows, holding exactly the rows that pass all three filters |
| LeaderboardPage.NoFiltersShowAll | app/leaderboard/page.tsx:136-141 | with a blank search, no price limit and no context filter every row is shown |
| LeaderboardPage.PricelessRowsPass | app/leaderboard/page.tsx:139 | a row without a numeric input price is never excluded by the price limit |
| ThemeChart.ThemeFromTotal | components/ThemeCoherenceLineChart.tsx:23-27 | 0 for a missing total, a non-finite number or a string that does not convert to a finite number; otherwise a quarter of the total |
| ThemeChart.ThemeRange | components/ThemeCoherenceLineChart.tsx:26 | totals in 0..40 give points in 0..10 |
| ThemeChart.ChartRunOf | components/ThemeCoherenceLineChart.tsx:17-21 | a saved run as the chart reads it: its judge, and each result's model and numeric total |
| ThemeChart.Judges | components/ThemeCoherenceLineChart.tsx:31 | at most one judge per run |
| ThemeChart.JudgesListed | components/ThemeCoherenceLineChart.tsx:31 | no empty or absent judge is listed, and every non-empty judge of some run is |
| ThemeChart.JudgesDistinct | components/ThemeCoherenceLineChart.tsx:31 | the judges have no repeats and keep the order of first appearance |
| ThemeChart.LastN | components/ThemeCoherenceLineChart.tsx:34 | the newest min(8, n) runs, oldest first |
| ThemeChart.Labels | components/ThemeCoherenceLineChart.tsx:35 | "Run 1" to "Run k" for a window of k runs |
| ThemeChart.ModelSet | components/ThemeCoherenceLineChart.tsx:37-39 | the nested loops give the distinct models of the window's results, in order of first appearance |
| ThemeChart.OneLinePerModel | components/ThemeCoherenceLineChart.tsx:37-41 | the models have no repeats, and are exactly those with a result in some run of the window |
| ThemeChart.ResultModelsMembers | components/ThemeCoherenceLineChart.tsx:38 | a model is collected exactly when some run of the window has a result for it |
| ThemeChart.Point | components/ThemeCoherenceLineChart.tsx:43-46 | the theme of the first matching result's total, or 0 when the model has no result in that run |
| ThemeChart.SavedRunPoint | components/ThemeCoherenceLineChart.tsx:44-45 | for a saved run, the point is a quarter of the first matching result's total |
| ThemeChart.DatasetOf | components/ThemeCoherenceLineChart.tsx:41-60 | a line is labelled with its model and coloured with `colorForModel` of it, and has one point per run of the window |
| ThemeChart.Chart | components/ThemeCoherenceLineChart.tsx:29-63 | the labels of the window, and one line per distinct model of the window, in order of first appearance |

## Left out

- Rendering (JSX, CSS, the chart library, `AnimatedBar`, `LeaderboardChartCard`), React's scheduling of state updates and effects, and the `useMemo` caching are not modelled. The pages are modelled by their state and the values they derive.
- The network (`fetch` to LiteLLM and OpenAI), `JSON.parse`, `JSON.stringify`, `YAML.parse`, `Number(string)`, `fs` and `process.env` are parameters. Their own behaviour is not modelled.
- Time (`Date.now()`) is a parameter. Latencies are the elapsed times the chat oracle reports.
- `makePageSeed` (lib/leaderboardStore.ts:86-88) only returns `Math.random()` and is not modelled.
- `lib/vellumData.ts`, `lib/modelMetaClient.ts`, `lib/models.ts` beyond its record types, and `app/layout.tsx` are not part of this model.
- Concurrency: the requests of a benchmark are awaited one after another, and the model runs them in that order. Interleaved page actions (two clicks during one request) are not modelled.
- Floating point: numbers are exact reals. NaN and ±Infinity are modelled only where the source tests for them.
- Number formatting with `toFixed` is not modelled: the 2-decimal bar labels, the 1-decimal theme coherence and the 4-decimal price rounding in the model-metadata route.
- ModelMetadata.ToK: counts are modelled as integers; a fractional or non-finite `max_input_tokens` is not modelled.
- ModelMetadata.ToEntry: a `max_input_tokens` that is not a number is not modelled. The route has no `typeof` test for it, so a string such as `128k`, `"128000"` or `128_000` is returned as `context_tokens` unchanged. `toK` then coerces it: "128000" reads "128k", and text that is not a number is returned as it is. The model has only integer or absent sizes.
- ModelMetadata.ToEntry: a `model_name` that is not a string is not modelled. The route keeps it (`model_name: 123` gives the model 123, which the filter keeps). The model has only string or absent names.
- ModelMetadata.MapEntries: the thrown message is the wording Node gives the `TypeError`; other engines word it differently. A list element that is a number or a string reads every field as missing, so it is given as an item with neither name nor info.
- LeaderboardStore.ComputeModelStats: a result whose `latency_ms` is falsy counts 0, and all stored results are taken to have numeric totals and latencies. The stored records' shapes are not re-checked after `JSON.parse`.
- BenchmarkRoute.Ranking: a NaN total makes the comparator return NaN against every other total, which the sort reads as "equal". Such a comparator is inconsistent, and the order it produces depends on the engine. The model ranks a NaN total as a total of 0. Infinite totals are ranked as the comparator ranks them.
- BenchmarkRoute.PostRanked: the order is stated through the rank key; with a NaN total present it is the model's choice above, not a promise of the source.
- HomePage.DisplayOrder: the page's total is a number, and the `?? 0` for a `null` total is not modelled separately. The benchmark API sends `null` for a NaN or infinite total, since `JSON.stringify` writes those as `null`. The model takes the API reply as a parameter whose `null` totals are given as 0. Every modelled use treats 0 as JavaScript treats `null`: the display sort's `?? 0`, the sums and the winner sort of `computeModelStats`, and `themeFromTotal`, where `Number.isFinite(null)` is false and the result is 0.
- BenchmarkRoute.ReadBody: a `prompt` that is not a string is not converted with `String` (5 would become "5"); the prompt is taken to be a string or absent. `judgeModel` is taken to be a string.
- LeaderboardStore.ComputeModelStats: keys inherited from `Object.prototype` are not modelled. In the source, `per["constructor"] ||= ...` keeps the inherited function, so a model named "constructor" is missing from `Object.entries(per)`.
- ConfigModels.ExtractModelInfo: keys inherited from `Object.prototype` (such as "constructor" or "__proto__") are not modelled in `out`.
- LeaderboardPage.ByModel: keys inherited from `Object.prototype` (such as "__proto__") are not modelled in `byModel`.
- Storage.SaveRun: a `setItem` that throws because the storage quota is full is not modelled.
- LeaderboardStore.SaveRun: a `setItem` that throws because the storage quota is full is not modelled; only the throw without a window is.
- HomePage.SaveRun: a `setItem` that throws because the storage quota is full is not modelled; only the throw without storage is.
- HomePage.Preview: lengths are counted in characters, not in UTF-16 code units.
- LeaderboardPage.Filtered: `toLowerCase` is modelled as an ASCII fold. The price limit field is modelled as `None` (empty) or a number.
- LitellmChat.Messages: a `prompt` that is not a string is not converted with `String`; `model` is taken to be a string.
- ModelColors.ColorForModel: keys inherited from `Object.prototype` (such as "constructor") are not modelled.
- The status-200 wrapper, the `source` and `hint` fields of the config-models response and the `raw` field of the chat response are not modelled.
