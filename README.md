# Rare earths data visualizer — a Dafny model of its logic

The application is a one-page dashboard of U.S. Geological Survey rare-earth
statistics with an "Ask Gemini" chat panel. Most of it is React markup and
Recharts widgets. This project models the logic underneath:

- **The constant dataset** (`data.ts`), in module `Data`, with facts about
  the tables in `DataFacts`. It holds the production series, imports, prices,
  import shares, tariffs, world production and reserves, and the context
  summary `getGeminiContextSummary` returns.
- **The chart computations** (`DashboardContent.tsx`), in module `Dashboard`:
  - the ten countries with the largest reserves, from a stable sort by
    `reserves || 0`, largest first, cut after ten rows;
  - the series keys of the price chart;
  - palette cycling by `index % palette.length`;
  - the legend label of a production chart, `name.split('(')[0].trim()`.
- **The generation client** (`geminiService.ts`), in module `GeminiService`.
  `generateText` turns a prompt, the key configuration and how the remote
  call settled into the string the panel shows. The request it sends is part
  of the result.
- **The chat panel** (`GeminiFeature.tsx`), in module `GeminiFeature`.
  - The component's `useState` fields are a class, `ChatPanel`, whose methods
    `Edit`, `Submit` and `Resolve` update them in place.
  - Each method is tied to a pure step function on `PanelState`. The step
    functions carry the panel's invariant and the properties of a round.
  - `handleSubmit` is split at its `await`: `Submit` runs up to the call,
    `Resolve` runs once the call has settled.

The JavaScript built-ins the code leans on are modelled in `JsString`:

- `String.prototype.trim`, with the WhiteSpace and LineTerminator set of
  ECMA-262;
- `split(c)[0]`;
- `Array.prototype.join`.

`Types` holds the record shapes of `types.ts`. A `number | null` is an
`Option<int>`, and a price row is an ordered list of key/value fields.

### What the top-ten chart shows

The top-ten chart of the dashboard's own eleven-country table leaves out
**only Canada** (830,000 t), the smallest reserves. Tanzania (890,000 t) and
South Africa (860,000 t) are ranks 9 and 10 and are shown:
`Dashboard.TopReservesOfTable` and `Dashboard.TopTenOfRanking`.

## Model

| member | source | states |
|---|---|---|
| Dashboard.TopReserves | rare-earths-data-visualizer/components/DashboardContent.tsx:149 | The result has ten rows, or all the input's rows when there are fewer, largest reserves first, with `null` read as 0. It is a sub-multiset of the input, and all of it when the input has at most ten rows. Rows with equal reserves keep their table order: per key, the kept rows are a prefix of the input's rows of that key. No row left out has larger reserves than a row kept. The input is a value, so it is not reordered. |
| Dashboard.SortByReserves | rare-earths-data-visualizer/components/DashboardContent.tsx:149 | The comparator sort `(b.reserves || 0) - (a.reserves || 0)` as an insertion sort that keeps equal keys in table order. It keeps the length; its order, permutation and stability are proved in `SortByReservesSorted`, `SortStable` and `StableSortUnique`. |
| Dashboard.SortByReservesSorted | rare-earths-data-visualizer/components/DashboardContent.tsx:149 | The sort's result is non-increasing in reserves, `null` read as 0, and is a permutation of its input. |
| Dashboard.SortStable | rare-earths-data-visualizer/components/DashboardContent.tsx:149 | Stability: for every key, the rows with that key appear in the sorted result in the same order as in the input. |
| Dashboard.StableSortUnique | rare-earths-data-visualizer/components/DashboardContent.tsx:149 | Any arrangement that is sorted and keeps each key's rows in input order equals `SortByReserves`. So every stable sort, as ECMA-262 requires of `Array.prototype.sort`, gives the modelled order. |
| Dashboard.SortedByKeyGroupsUnique | rare-earths-data-visualizer/components/DashboardContent.tsx:149 | Two sorted sequences that agree key by key on their rows, in order, are equal. |
| Dashboard.WithKeyInsert | rare-earths-data-visualizer/components/DashboardContent.tsx:149 | Inserting a row puts it at the head of its key's rows and leaves the other keys' rows unchanged. |
| Dashboard.InsertSorted | rare-earths-data-visualizer/components/DashboardContent.tsx:149 | Inserting into a sorted sequence keeps it sorted. |
| Dashboard.Insert | rare-earths-data-visualizer/components/DashboardContent.tsx:149 | Insertion adds exactly the one row, as a multiset, and heads the result with it or with the old head. |
| Dashboard.SortedPrefixByKey | rare-earths-data-visualizer/components/DashboardContent.tsx:149 | The first `n` rows of the sort hold, for every key, the first rows of that key in table order. |
| Dashboard.SortedTake | rare-earths-data-visualizer/components/DashboardContent.tsx:149 | Cutting a sorted sequence keeps the prefix sorted. The rows cut are exactly the rest, and none of them outranks a kept row. |
| Dashboard.SortedTakeDominates | rare-earths-data-visualizer/components/DashboardContent.tsx:149 | In a sorted sequence no row from position `n` on outranks a row before it. |
| Dashboard.WithKeyPrefix | rare-earths-data-visualizer/components/DashboardContent.tsx:149 | A prefix of a sequence selects, per key, a prefix of that key's rows. |
| Dashboard.SortedReservesTable | rare-earths-data-visualizer/data.ts:74-86 | Stable-sorting the dashboard's reserves table gives China, Brazil, India, Australia, Russia, Vietnam, United States, Greenland, Tanzania, South Africa, Canada. |
| Dashboard.TopOfEleven | rare-earths-data-visualizer/components/DashboardContent.tsx:149 | For an eleven-row table the top ten is its ranking without the last row. |
| Dashboard.TopReservesOfTable | rare-earths-data-visualizer/data.ts:74-86 | The reserves chart shows the first ten ranks of the table. |
| Dashboard.TopTenOfRanking | rare-earths-data-visualizer/data.ts:74-86 | The ten shown start with China (44,000,000) and end with Tanzania then South Africa. Canada (830,000) is the only table row not shown. |
| Dashboard.SameRowsDistinctKeys | rare-earths-data-visualizer/data.ts:74-86 | Two tables with the same rows and no repeated reserves figure agree on every key's rows. |
| Dashboard.Without | rare-earths-data-visualizer/components/DashboardContent.tsx:56 | `filter(key => key !== k)` keeps exactly the keys other than `k`. |
| Dashboard.WithoutAppend | rare-earths-data-visualizer/components/DashboardContent.tsx:56 | The filter keeps order: filtering a concatenation concatenates the filtered parts. |
| Dashboard.PriceKeys | rare-earths-data-visualizer/components/DashboardContent.tsx:56 | Applies to a first row with plain keys. No rows give no keys. Otherwise a key is listed exactly when it is one of the first row's keys and is not `year`. |
| Dashboard.PriceKeysAfterYear | rare-earths-data-visualizer/components/DashboardContent.tsx:56 | A first row keyed `year` followed by other keys gives exactly those other keys, in their order. |
| Dashboard.PriceChartSeries | rare-earths-data-visualizer/components/DashboardContent.tsx:56 | The price chart's series are the four oxides, in the rows' order. |
| Dashboard.CycleColor | rare-earths-data-visualizer/components/DashboardContent.tsx:69 | `palette[index % palette.length]` always names a colour of the palette. The first `palette.length` indices get the palette's colours in order. |
| Dashboard.CycleSameColor | rare-earths-data-visualizer/components/DashboardContent.tsx:97 | With distinct colours, two indices share a colour exactly when they are equal modulo the palette's length. |
| Dashboard.DashboardColorsDistinct | rare-earths-data-visualizer/components/DashboardContent.tsx:57-97 | The four price series get four different line colours. The five import-source slices get five different pie colours. |
| Dashboard.LegendName | rare-earths-data-visualizer/components/DashboardContent.tsx:32 | The legend is the part of the name before the first `(` with its surrounding whitespace removed (`TrimmedOf` that part). So it has no `(` and no whitespace at either end, and it is a piece of the name standing before any `(`. |
| Dashboard.LegendNameNoParen | rare-earths-data-visualizer/components/DashboardContent.tsx:32 | A name with no `(` is only trimmed. |
| Dashboard.LegendNameOfLabel | rare-earths-data-visualizer/components/DashboardContent.tsx:32 | `label (unit)` gives `label`. |
| Dashboard.MineralConcentratesLegend | rare-earths-data-visualizer/data.ts:9 | The mineral-concentrates chart's legend is "Mineral Concentrates Production". |
| Dashboard.CompoundsMetalsLegend | rare-earths-data-visualizer/data.ts:20 | The compounds-and-metals chart's legend is "Compounds and Metals Production". |
| JsString.Trim | rare-earths-data-visualizer/data.ts:118 | `trim` is never longer than the string, and it is empty exactly when the string is blank. |
| JsString.TrimIsTrimmed | rare-earths-data-visualizer/data.ts:118 | `trim` gives a slice of the string with only whitespace around it and none at its ends. |
| JsString.TrimmedUnique | rare-earths-data-visualizer/data.ts:118 | There is only one such slice, so `Trim` is the trim. |
| JsString.TrimPadded | rare-earths-data-visualizer/data.ts:118 | Whitespace, text with non-white ends, whitespace: the trim is the text. |
| JsString.BeforeFirst | rare-earths-data-visualizer/components/DashboardContent.tsx:32 | `split(c)[0]` is a prefix without `c`. It is the whole string, or the string continues with `c`. |
| JsString.BeforeFirstAt | rare-earths-data-visualizer/components/DashboardContent.tsx:32 | A string that has no `c` up to some occurrence of `c` splits there: `split(c)[0]` is everything before it. |
| JsString.Join | rare-earths-data-visualizer/services/geminiService.ts:25 | `join` of nothing is empty, and of one string is that string. |
| JsString.JoinEnds | rare-earths-data-visualizer/data.ts:89-118 | A join of a non-empty list starts with its first string and ends with its last. |
| JsString.JoinSnoc | rare-earths-data-visualizer/services/geminiService.ts:25 | Joining one more element appends the separator and that element. |
| Types.ObjectKeysGet | rare-earths-data-visualizer/components/DashboardContent.tsx:56-69 | For an object with distinct keys, none an array index, the keys `Object.keys` lists are exactly its own properties: the `i`-th listed key reads back the `i`-th field's value, as each `Line` reads `row[key]`, and the object has no other own property. |
| Types.RoleName | rare-earths-data-visualizer/types.ts:46 | A role prints as `user` exactly for the user and `model` exactly for the model. |
| Data.TrimIndentedTemplate | rare-earths-data-visualizer/data.ts:89-118 | A template laid out as newline, lines, newline, indentation trims to the lines joined by newlines. |
| Data.ContextSummary | rare-earths-data-visualizer/data.ts:89-118 | `getGeminiContextSummary` returns the template's 27 lines joined by newlines: the template with its surrounding whitespace removed. |
| Data.SummaryLineEnds | rare-earths-data-visualizer/data.ts:91-117 | The summary text starts and ends with a character that is not whitespace. |
| DataFacts.ProductionSeriesYears | rare-earths-data-visualizer/data.ts:8-28 | Both production series cover 2020 to 2024, one point a year, strictly ascending. |
| DataFacts.CoversYearsAscending | rare-earths-data-visualizer/data.ts:10-16 | A series with one point per year from `first` to `last` is strictly ascending. |
| DataFacts.CompoundsMetals2020Absent | rare-earths-data-visualizer/data.ts:22 | The 2020 compounds-and-metals point is absent, not zero. Every other production point has a figure. |
| DataFacts.ReservesComplete | rare-earths-data-visualizer/data.ts:74-86 | The reserves table has eleven rows, each with a figure. |
| DataFacts.ImportSharesSumTo100 | rare-earths-data-visualizer/data.ts:46-52 | The import-source shares add up to 100. |
| DataFacts.ImportMetalsAreSums | rare-earths-data-visualizer/data.ts:30-36 | Every `Metals` figure is the sum of its two written parts. |
| DataFacts.PriceRowsShareKeys | rare-earths-data-visualizer/data.ts:38-44 | Every price row has the keys `year` and then the four oxides, in that order. All are plain keys. |
| DataFacts.PriceRowPlain | rare-earths-data-visualizer/data.ts:38-44 | A row keyed `year` and then the four oxides has distinct keys, none of them an array index. |
| DataFacts.SummaryMetalImports | rare-earths-data-visualizer/data.ts:35 | The 2024 imports row is 8,000 t of compounds and 220 + 90 = 310 t of metals, the figures the summary's import lines state. |
| GeminiService.GenerateText | rare-earths-data-visualizer/services/geminiService.ts:17-50 | Without a key the result is the configuration message and nothing is sent. With a key exactly one request goes out, carrying the prompt alone. Present, non-empty response text is returned verbatim. Missing or empty text gives the no-response sentinel. A thrown `Error` gives `Error from Gemini: ` plus its message. Anything else thrown gives the unknown-error message. Every outcome yields a string. |
| GeminiService.RequestFor | rare-earths-data-visualizer/services/geminiService.ts:27-29 | The request names the model and holds one user content whose only part is the prompt. |
| GeminiService.HistoryIrrelevant | rare-earths-data-visualizer/services/geminiService.ts:25-29 | Neither the reply nor the request depends on the history. |
| GeminiService.ReplyNeverEmpty | rare-earths-data-visualizer/services/geminiService.ts:17-50 | The resolved string is never empty. |
| GeminiService.ReplyKinds | rare-earths-data-visualizer/services/geminiService.ts:17-50 | The resolved string is one of the five kinds and nothing else. |
| GeminiService.FullPrompt | rare-earths-data-visualizer/services/geminiService.ts:25 | The transcript ends with the new user turn and the open `model:` turn. Its whole shape is proved in `FullPromptNoHistory` and `FullPromptIsTranscript`. |
| GeminiService.FullPromptNoHistory | rare-earths-data-visualizer/services/geminiService.ts:17 | With the default empty history the transcript is `\nuser: ` + prompt + `\nmodel:`. |
| GeminiService.FullPromptIsTranscript | rare-earths-data-visualizer/services/geminiService.ts:25 | With a history, the transcript is the history plus the new user message, one `role: text` line each, joined by newlines, then an open `model:` turn. |
| GeminiService.HistoryLinesSnoc | rare-earths-data-visualizer/services/geminiService.ts:25 | Appending a message appends its `role: text` line. |
| GeminiService.HistoryLineInjective | rare-earths-data-visualizer/services/geminiService.ts:25 | A `role: text` line determines its message: two messages that print the same line are equal. |
| GeminiFeature.QuestionOf | rare-earths-data-visualizer/components/GeminiFeature.tsx:25-31 | A question read back from a string is one whose prompt is that string. |
| GeminiFeature.QuestionOfPrompt | rare-earths-data-visualizer/components/GeminiFeature.tsx:25-31 | The question can be read back from its prompt. |
| GeminiFeature.PromptInjective | rare-earths-data-visualizer/components/GeminiFeature.tsx:25-31 | Different questions give different prompts. |
| GeminiFeature.Prompt | rare-earths-data-visualizer/components/GeminiFeature.tsx:25-31 | The prompt opens with a newline and the `Context:` line, and the summary follows it directly. The question stands right after the `Question: ` label and right before the closing newline and indentation, which end the prompt. The prompt reads back its question (`QuestionOfPrompt`). |
| GeminiFeature.MessageOr | rare-earths-data-visualizer/components/GeminiFeature.tsx:38-39 | The rejection's message when it is present and non-empty, else the fallback. |
| GeminiFeature.SubmitEnabledTrim | rare-earths-data-visualizer/components/GeminiFeature.tsx:76 | The button's enabled condition is `!isLoading` and a non-empty trimmed input. |
| GeminiFeature.EditStep | rare-earths-data-visualizer/components/GeminiFeature.tsx:68-71 | Typing replaces the input while the field is enabled, and changes nothing while loading. |
| GeminiFeature.SubmitStep | rare-earths-data-visualizer/components/GeminiFeature.tsx:15-31 | Submit changes the state exactly when the button is enabled (`!isLoading && userInput.trim()`). Otherwise nothing changes and nothing is sent. An accepted submit appends the untrimmed input as a user message, clears the error, sets loading, keeps the input and sends the prompt built from the summary and the question. |
| GeminiFeature.ModelText | rare-earths-data-visualizer/components/GeminiFeature.tsx:35-39 | A fulfilled call appends the response text as it came. A rejection appends `Error: ` followed by its message when that is present and non-empty, and by `Failed to connect` otherwise. |
| GeminiFeature.ResolveStep | rare-earths-data-visualizer/components/GeminiFeature.tsx:33-44 | For a call that fulfils, or rejects with an object whose `message` is a string or missing, exactly one model message is appended: the response text, or `Error: ` plus the message or `Failed to connect`. A rejection sets the error to its message or the default. Either way loading stops, the input is cleared and nothing is awaited. |
| GeminiFeature.InitialValid | rare-earths-data-visualizer/components/GeminiFeature.tsx:8-11 | The initial state satisfies the panel invariant. |
| GeminiFeature.EditValid | rare-earths-data-visualizer/components/GeminiFeature.tsx:68-71 | Typing keeps the invariant. |
| GeminiFeature.SubmitValid | rare-earths-data-visualizer/components/GeminiFeature.tsx:15-31 | Submitting keeps the invariant. A request is awaited exactly while loading. Roles alternate user and model. The transcript ends on the unanswered question exactly while loading. The awaited prompt is built from that question. No error shows while waiting. |
| GeminiFeature.ResolveValid | rare-earths-data-visualizer/components/GeminiFeature.tsx:33-44 | Settling keeps the invariant. |
| GeminiFeature.AlternatingSnoc | rare-earths-data-visualizer/components/GeminiFeature.tsx:22 | Appending the role the parity calls for keeps roles alternating. |
| GeminiFeature.Round | rare-earths-data-visualizer/components/GeminiFeature.tsx:15-45 | From an idle panel with a question, a round appends exactly the question and one answer. Earlier entries are unchanged. The panel ends idle with an empty input. |
| GeminiFeature.RoundWithService | rare-earths-data-visualizer/components/GeminiFeature.tsx:33-40 | This application's `generateText` never rejects, so the `catch` branch is dead: with the real service a round never sets an error, and it appends the service's non-empty reply. Without a key that reply is the configuration message. |
| GeminiFeature.ChatPanel.constructor | rare-earths-data-visualizer/components/GeminiFeature.tsx:8-13 | A new panel has an empty input and transcript, is idle and shows no error. Its summary is the context summary. |
| GeminiFeature.ChatPanel.Edit | rare-earths-data-visualizer/components/GeminiFeature.tsx:68-71 | Updates the fields as `EditStep` says and keeps the invariant. |
| GeminiFeature.ChatPanel.Submit | rare-earths-data-visualizer/components/GeminiFeature.tsx:15-31 | Updates the fields as `SubmitStep` says and keeps the invariant. It returns the prompt sent, or nothing when the submit is refused. |
| GeminiFeature.ChatPanel.Resolve | rare-earths-data-visualizer/components/GeminiFeature.tsx:33-44 | Updates the fields as `ResolveStep` says and keeps the invariant. |

## Left out

- JSX markup, Tailwind classes, the Recharts components, container sizing,
  `TextBlock` and the tariff table's markup. These are presentation through
  a library outside this model.
- The pie labels' placement and percentage text (`Math.cos`, `Math.sin`,
  `toFixed`). These are floating-point numerics.
- The Gemini SDK client and the network call. The call's outcome is an input
  (`RemoteOutcome`), and the request is part of the reply.
- Reading `process.env.API_KEY` and the `console.warn`/`console.error`
  logging. The key is a parameter (`Option<string>`), and logging has no
  effect on results.
- React's state batching and scheduling, and real asynchrony. `Submit` and
  `Resolve` are sequential steps, and the model has no interleaving of
  rounds.
- App.tsx is not part of this model. It is a static page shell.
- The prose constants `DOMESTIC_PRODUCTION_USE_TEXT` and `RECYCLING_TEXT`.
  They are only displayed.
- The chat panel's empty-transcript hint, the "thinking" indicator and the
  missing-key warning. These are conditional markup.
- JavaScript numbers are modelled as unbounded integers. Every figure in the
  dataset is a whole number far below 2^53, and the comparator's
  subtraction is exact on them.
- Types.Get: reads own properties only. The prototype chain is not
  modelled, so keys such as `toString` or `constructor` read as absent
  where JavaScript finds an inherited member. The chart reads only keys
  that `Object.keys` lists.
- Types.ObjectKeys: models `Object.keys` only for objects whose keys are
  distinct and none an array index, and requires this. The price rows are
  such objects (`DataFacts.PriceRowsShareKeys`), so the integer-key
  reordering of ECMA-262 is not modelled.
- Dashboard.PriceKeys: requires the first row, when there is one, to have
  such plain keys, for the same reason.
- GeminiService.GenerateText: is a total function. The source's
  `try`/`catch` (geminiService.ts:22-49) covers everything after the key
  check and turns every throw into a string, so the returned promise never
  rejects. `GeminiFeature.ServiceSettles` therefore always fulfils.
- GeminiFeature.ResolveStep: models rejections only for values whose
  `message` is a string or missing. A rejection with `null` or `undefined`
  would make `e.message` throw inside the `catch` (GeminiFeature.tsx:38), so
  no message would be appended and `handleSubmit` would reject after its
  `finally`; a non-string `message` would be shown converted to text. Both
  are unreachable with this application's `generateText`.
- GeminiFeature.ChatPanel.Submit: refuses a submit while loading. The button
  and the input are disabled then, so the form cannot fire; the handler
  itself checks only the trimmed input. A second round overlapping the
  first is not modelled.
- GeminiFeature.ChatPanel.Resolve: requires a request to be awaited.
  Settling is only reachable after an accepted submit.
