# Weather chatbot core, in Dafny

This project models the backend of a Japanese weather chatbot and the two text helpers its chat
window uses. It proves properties of that model. The model covers six parts:

- **The city extractor** (`CityExtractor`). It finds a city in a free-text message: an exact
  Japanese city or district name, a district mentioned anywhere, a Japanese city name mentioned
  anywhere, a pattern such as "weather in X", or a common English city token. It also normalises
  a given city name.
- **The weather gateway** (`WeatherService`). It maps a city name to the provider's spelling and
  asks the provider with up to three query strategies (`,JP`, bare, `,Japan`). It rewrites provider
  failures into fixed messages and formats the record. With coordinates it makes one request.
- **The suggestion generator** (`AiService`). It picks a theme context, decides which city the
  message is about and re-fetches weather for it. It then runs the model's tool-call loop of at
  most three rounds. As written, its `catch` block reads two variables declared inside the `try`
  block. So after waiting on a quota error, or at once on any other failure, it throws the
  `ReferenceError` "finalWeatherData is not defined". It never sends the retry and never builds
  the fallback answer (see "Findings"). The model also holds the `catch` its comments describe:
  one retry on a quota error, then a fenced JSON fallback answer when there is weather.
- **The chat handler** (`ChatApi`). It settles on a city, fetches weather only when it matches
  what the user asked about, and calls the generator. When the generator throws and weather is
  kept, it answers with a templated text. Otherwise it answers with a user-facing error.
- **The Express routes** (`Server`): `/api/weather`, `/api/chat` (the chat handler's POST logic,
  `ChatApi.PostChat`) and `/api/suggest`.
- **The chat window's helpers** (`ChatMessage`). `parseResponse` extracts a fenced JSON answer
  before handing it to the JSON parser. `renderTextResponse` classifies each non-blank line as a
  bullet, a numbered item or a paragraph.

`JsCore` holds the JavaScript primitives the code relies on:

- truthiness of strings, and `||`;
- `trim`, `toLowerCase`, `includes` and `indexOf`;
- `split` on one character;
- integer-to-text conversion.

`Json` holds `JSON.stringify(value, null, 2)` for the string, array and object values the fallback
answer is built from.

Everything outside the program is a function-typed parameter:

- the regular-expression captures of the extractor's patterns;
- the weather provider, a function from query to reply;
- the chat model, a function from conversation to reply;
- the delay a quota message asks for;
- the retry request;
- `JSON.parse`.

Pure code is modelled as functions. The loops are methods proved equal to those functions:

- the strategy loop;
- the tool-call loop and its inner loop over function calls;
- the handler and routes, which reassign their locals step by step.

The chat handler and the suggestion route take the generator's `catch` as a parameter
(`AiService.Catch`). With `AsWritten` they model the program as it runs: every model failure
reaches them as the `ReferenceError` (`ChatApi.AsWrittenChatOutcomes`,
`Server.AsWrittenSuggestOutcomes`). With `Corrected` they model the evidently intended program
(`ChatApi.ErrorsOnlyWithoutWeather`, `Server.SuggestOutcomes`,
`Server.CorrectedSuggestFailures`).

Some edge cases of the code are easy to miss. The model keeps them as written:

- The district scan takes the first district in table order that occurs anywhere in the message,
  even inside another word. So "Buenos Aires" resolves to Tokyo, because it contains "ueno"
  (`CityExtractor.BuenosAiresIsTokyo`).
- `normalizeCityName` is idempotent except on white space alone, which normalises to the empty
  string and then to `null` (`CityExtractor.NormalizeBlank`).
- The 404 message after all strategies names the trimmed input, not the mapped name.

## Model

| member | source | states |
|---|---|---|
| CityExtractor.Lookup | backend/services/cityExtractor.js:103-105 | a table lookup is absent exactly when no entry has the key, and a found value belongs to an entry with that key |
| CityExtractor.LookupAt | backend/services/cityExtractor.js:103-115 | the first entry with the key decides the lookup |
| CityExtractor.DistrictScan | backend/services/cityExtractor.js:117-122 | the result is the parent city of the first district, in table order, that occurs in the message as written or lower-cased; none exactly when no district occurs |
| CityExtractor.JapaneseScan | backend/services/cityExtractor.js:124-129 | the result is the English name of the first Japanese city name, in table order, occurring in the message; none exactly when none occurs |
| CityExtractor.FirstPattern | backend/services/cityExtractor.js:132-134 | the first pattern, in order, whose capture group is non-empty; none exactly when no pattern captures |
| CityExtractor.CommonScan | backend/services/cityExtractor.js:149-162 | the capitalised first common city token contained in the lower-cased message; none exactly when none is contained |
| CityExtractor.Capitalize | backend/services/cityExtractor.js:158 | upper-cases the first character and keeps the rest |
| CityExtractor.ExtractCityFromMessage | backend/services/cityExtractor.js:93-96 | a falsy message yields `null` |
| CityExtractor.NormalizeCityName | backend/services/cityExtractor.js:165-166 | the result is `null` exactly when the input is falsy |
| CityExtractor.DistrictKeysUnambiguous | backend/services/cityExtractor.js:2-58 | no district key belongs to two cities |
| CityExtractor.DistrictLookupAt | backend/services/cityExtractor.js:2-58 | looking up any district key gives that entry's parent city |
| CityExtractor.JapaneseLookupAt | backend/services/cityExtractor.js:61-82 | looking up any Japanese city name gives its English name |
| CityExtractor.DistrictNotJapanese | backend/services/cityExtractor.js:2-82 | the district table and the Japanese-name table share no key |
| CityExtractor.EnglishCanonical | backend/services/cityExtractor.js:61-82 | every English city name is trimmed and is no key of either table, as written or lower-cased |
| CityExtractor.DistrictKeyResolves | backend/services/cityExtractor.js:108-115 | a message that is exactly a district key extracts, and normalises, to its parent city |
| CityExtractor.DistrictKeyAnyCase | backend/services/cityExtractor.js:108-115 | a message whose trimmed, lower-cased text is a district key (" SHIBUYA ") extracts, and normalises (lines 177-182), to that district's parent city; no earlier stage catches it |
| CityExtractor.JapaneseNameResolves | backend/services/cityExtractor.js:103-105 | a message that is exactly a Japanese city name extracts, and normalises, to its English name |
| CityExtractor.TableValues | backend/services/cityExtractor.js:2-82 | every value of either table is an English city name |
| CityExtractor.UnmatchedCanonical | backend/services/cityExtractor.js:185-186 | a trimmed non-empty text that is no key of either table normalises to itself |
| CityExtractor.NormalizeCanonical | backend/services/cityExtractor.js:165-187 | every truthy result of normalisation is canonical |
| CityExtractor.CanonicalFixed | backend/services/cityExtractor.js:165-187 | a canonical name normalises to itself |
| CityExtractor.NormalizeIdempotent | backend/services/cityExtractor.js:165-187 | normalising a truthy result again changes nothing |
| CityExtractor.NormalizeBlank | backend/services/cityExtractor.js:166-168 | white space alone normalises to the empty string, and that to `null` |
| CityExtractor.CommonCapitalized | backend/services/cityExtractor.js:150-158 | each capitalised common token is the English city name |
| CityExtractor.ResolveCapturedCanonical | backend/services/cityExtractor.js:135-145 | a pattern capture resolves to a table value or to its trimmed text, which is canonical when non-empty |
| CityExtractor.ExtractCanonical | backend/services/cityExtractor.js:93-163 | every truthy extracted city is canonical, so normalising it again changes nothing |
| CityExtractor.BuenosAiresNotKey | backend/services/cityExtractor.js:103-115 | "Buenos Aires" is no key of either table |
| CityExtractor.TokyoHit | backend/services/cityExtractor.js:118-121 | any mention of a Tokyo district scans to Tokyo, whichever district the scan hits first |
| CityExtractor.JapaneseFirstHit | backend/services/cityExtractor.js:124-129 | the Japanese-name scan returns the English name of the first Japanese city name the message contains |
| CityExtractor.JapaneseScanned | backend/services/cityExtractor.js:98-129 | a message that is no key of either table and mentions no district extracts to the English name of the first Japanese city name it contains |
| CityExtractor.ScannedToTokyo | backend/services/cityExtractor.js:98-122 | a message that is no key but mentions a Tokyo district extracts to Tokyo |
| CityExtractor.BuenosAiresIsTokyo | backend/services/cityExtractor.js:118-122 | "Buenos Aires" extracts to Tokyo, because the district scan matches "ueno" inside a word |
| CityExtractor.CommonScanOsaka | backend/services/cityExtractor.js:156-159 | "osaka" scans to "Osaka" |
| WeatherService.Strategies | backend/services/weatherService.js:73-80 | three strategies, all for the mapped name |
| WeatherService.Round | backend/services/weatherService.js:129-130 | the nearest integer, with halves rounded up |
| WeatherService.RunStrategies | backend/services/weatherService.js:82-105 | the strategy loop's outcome and requests equal the recursive strategy specification |
| WeatherService.GetWeatherData | backend/services/weatherService.js:54-123 | the gateway's outcome and requests equal its specification `Fetch` |
| WeatherService.MapCityName | backend/services/weatherService.js:60-68 | when neither the trimmed input nor its lower-case form is a key, the trimmed input is sent as is |
| WeatherService.MapCityNameAnyCase | backend/services/weatherService.js:60-65 | any letter case and surrounding white space of an English city name maps to that name |
| WeatherService.MapCityNameJapanese | backend/services/weatherService.js:60-62 | a trimmed Japanese city name maps to its English name |
| WeatherService.MapCityNameExamples | backend/services/weatherService.js:60-68 | "TOKYO" and "東京" both map to "Tokyo" |
| WeatherService.TriedPrefix | backend/services/weatherService.js:83-99 | the requests sent are a non-empty prefix of the strategies |
| WeatherService.SkipAdvancing | backend/services/weatherService.js:90-97 | strategies answered with 404 or no response are passed over, keeping the last error |
| WeatherService.AtMostThreeRequests | backend/services/weatherService.js:58-99 | a city makes one to three requests, in strategy order |
| WeatherService.StopsAt | backend/services/weatherService.js:86-95 | the first reply that is a success or a non-404 HTTP error ends the loop and decides the outcome |
| WeatherService.FirstSuccessWins | backend/services/weatherService.js:86-89 | the first successful strategy gives the formatted record, and later strategies are not tried |
| WeatherService.OtherStatusStops | backend/services/weatherService.js:93-95 | a non-404 HTTP error stops the loop and becomes the provider-message error |
| WeatherService.LastErrorDecides | backend/services/weatherService.js:101-105 | when every strategy moves on, all three are sent; a final 404 names the trimmed input, and no response passes its error through |
| WeatherService.StrategyTransparency | backend/services/weatherService.js:73-99 | a record found by the second strategy after a 404 equals the one the first strategy would give from the same data |
| WeatherService.CityTakesPrecedence | backend/services/weatherService.js:58-106 | with a truthy city the coordinates are ignored and only name queries are sent |
| WeatherService.CoordinateBranch | backend/services/weatherService.js:106-117 | without a city, two truthy coordinates make exactly one request, and its 404 becomes the fixed message; otherwise nothing is sent and the call fails |
| WeatherService.FormatRoundsTemperatures | backend/services/weatherService.js:125-141 | formatting copies the fields and rounds only the two temperatures, each to the nearest integer |
| Json.EscapeChar | backend/services/aiService.js:357 | a character is written as itself or as an escape sequence starting with a backslash |
| Json.Quote | backend/services/aiService.js:357 | a string literal starts and ends with a double quote |
| Json.RenderKeeps | backend/services/aiService.js:357 | a character that is not part of the layout or of an escape appears in the serialised text only if some string or key holds it |
| Json.ObjectBraces | backend/services/aiService.js:357 | a serialised object starts with `{` and ends with `}` |
| AiService.ThemeContextSelects | backend/services/aiService.js:11-20 | a known theme selects its own context, and any other theme selects the general one |
| AiService.LooksLikeCityExamples | backend/services/aiService.js:71-75 | "Sapporo" looks like a city name; "Tokyo weather" and "東京の天気" do not |
| AiService.CityInMessageSources | backend/services/aiService.js:77-79 | the city in the message is the requested city, else a canonical extracted city, else the short trimmed message without a space |
| AiService.WeatherToolReports | backend/services/aiService.js:39-63 | the tool succeeds exactly when the gateway does, copies the gateway's eight summary fields, and fails with a non-empty error text |
| AiService.ExecuteWeatherFunction | backend/services/aiService.js:39-63 | the tool's result equals its specification |
| AiService.RequestedCityWins | backend/services/aiService.js:77-79 | a non-empty requested city is the city in the message, whatever the message says |
| AiService.RefetchNeverLoses | backend/services/aiService.js:82-103 | weather handed in is never lost by the re-fetch |
| AiService.RefetchKeepsOrReplaces | backend/services/aiService.js:81-103 | weather is replaced only by a successful fetch for a mismatched city, and such a fetch always replaces it; a failed fetch keeps it; given weather is never lost; with no city or matching weather nothing changes |
| AiService.WeatherCalls | backend/services/aiService.js:181-182 | only `get_weather` calls, every one of them, and no more than there are calls |
| AiService.WeatherCallsAppend | backend/services/aiService.js:181-182 | the selection is a filter: a single call is kept exactly when it is `get_weather`, and a list's calls are its parts' calls in order, each as often as it occurs |
| AiService.RespondFollowsCalls | backend/services/aiService.js:180-216 | one function response per `get_weather` call, in call order |
| AiService.ToolLoopGrows | backend/services/aiService.js:166-225 | the conversation only grows, by at most one non-empty batch of responses per round |
| AiService.NoWeatherCallsEnd | backend/services/aiService.js:172-177 | a reply that asks for no weather ends the loop with its text |
| AiService.RunToolLoop | backend/services/aiService.js:161-227 | the loop of at most three rounds equals its recursive specification |
| AiService.RetryWait | backend/services/aiService.js:234-240 | the wait is the requested delay capped at a minute, or a minute when no delay is given |
| AiService.TryGenerate | backend/services/aiService.js:66-227 | the `try` block equals its specification: the re-fetch, then the tool-call loop |
| AiService.GenerateAISuggestion | backend/services/aiService.js:65-278 | the generator as written equals its specification `Generation` |
| AiService.GenerateAISuggestionIntended | backend/services/aiService.js:228-277 | the generator with the intended `catch` equals its specification `IntendedGeneration` |
| AiService.GenerateWith | backend/services/aiService.js:65-278 | the generator with the `catch` given, as written or corrected, equals `Generate` |
| AiService.AtMostFourTurns | backend/services/aiService.js:161-225 | the model gets the first prompt, carrying the settled weather, and at most three batches of responses |
| AiService.PromptBlocks | backend/services/aiService.js:118-132 | the prompt carries the weather when there is some, and asks for a lookup only without weather and with a city |
| AiService.FailureTextsDiffer | backend/services/aiService.js:266-276 | the three failure texts a caller can see are distinct |
| AiService.AsWrittenAlwaysThrows | backend/services/aiService.js:228-277 | as written, any model failure ends in the `ReferenceError`; the intended `catch` never does |
| AiService.AttemptKeepsWeather | backend/services/aiService.js:82-225 | the `try` block never ends with less weather than it was handed |
| AiService.FailingModelKeepsWeather | backend/services/aiService.js:77-164 | when the model fails on its first message and the weather is already for the requested city, the `try` ends with the model's error and keeps that weather |
| AiService.AsWrittenLosesFallback | backend/services/aiService.js:270-273 | as written, a non-quota failure with weather at hand loses the fallback answer that the intended `catch` returns |
| AiService.IntendedWithWeatherSucceeds | backend/services/aiService.js:261-273 | with the intended `catch`, a generation that has weather never fails |
| AiService.IntendedErrors | backend/services/aiService.js:261-276 | an error reaches the caller only without weather, and it is the quota text exactly on the quota path |
| AiService.WaitOnlyOnQuota | backend/services/aiService.js:231-240 | the generator waits only on the quota path, and at most a minute |
| AiService.AdviceBounds | backend/services/aiService.js:287-346 | at most two recommendations and one tip; other themes get neither |
| AiService.AdviceThresholds | backend/services/aiService.js:291-343 | below 10 °C is cold and from 20 °C on is warm; the tips and recommendation counts follow these thresholds per theme |
| AiService.RecommendationsJson | backend/services/aiService.js:352 | one JSON value per recommendation |
| AiService.TipsJson | backend/services/aiService.js:353 | one JSON value per tip |
| AiService.AdviceForFree | backend/services/aiService.js:291-346 | no fixed text of the fallback holds a backquote |
| AiService.FallbackObjectFree | backend/services/aiService.js:348-355 | the fallback object holds a backquote only where the city or description does |
| AiService.FallbackFenceFree | backend/services/aiService.js:357 | the serialised fallback object holds no backquote when the city and description hold none |
| ChatMessage.SkipSpace | frontend/src/components/ChatMessage.jsx:10 | skips exactly the white space after the opening fence |
| ChatMessage.FenceCaptureMeaning | frontend/src/components/ChatMessage.jsx:10-11 | the capture is the text after the first opening fence and its white space, up to the first closing fence, without edge white space |
| ChatMessage.ParseResponseSources | frontend/src/components/ChatMessage.jsx:5-23 | only the assistant's messages are parsed; a fence wins over a bare object; other text is never parsed |
| ChatMessage.FenceRoundTrip | frontend/src/components/ChatMessage.jsx:10-12 | fencing a text with no backquote and no edge white space and extracting it gives the text back |
| ChatMessage.FallbackAnswerParses | frontend/src/components/ChatMessage.jsx:10-12 | the generator's fallback answer is parsed as exactly its serialised object |
| ChatMessage.NonBlank | frontend/src/components/ChatMessage.jsx:81 | keeps exactly the lines that are not blank |
| ChatMessage.NonBlankAppend | frontend/src/components/ChatMessage.jsx:81 | filtering keeps the lines in order |
| ChatMessage.DigitRun | frontend/src/components/ChatMessage.jsx:95 | the leading run of ASCII digits |
| ChatMessage.RenderTextResponse | frontend/src/components/ChatMessage.jsx:79-107 | one entry per non-blank line |
| ChatMessage.RenderTextResponseIntended | frontend/src/components/ChatMessage.jsx:79-107 | one entry per non-blank line, with the corrected bullet text |
| ChatMessage.ClassifyOrder | frontend/src/components/ChatMessage.jsx:86-103 | a marked trimmed line is a bullet; a numbered item is an unmarked line with a number; other lines are shown as they are |
| ChatMessage.NumberedExamples | frontend/src/components/ChatMessage.jsx:95 | "1. Tokyo" is numbered; "1.Tokyo" and "1." are not |
| ChatMessage.IndentedBulletKeepsMarker | frontend/src/components/ChatMessage.jsx:87-92 | as written, " - rain" is a bullet still showing " - rain"; the corrected version shows "rain" |
| ChatMessage.MarkerAfterIndent | frontend/src/components/ChatMessage.jsx:90 | the marker pattern anchored at the start misses a marker after indentation |
| ChatMessage.IntendedBulletText | frontend/src/components/ChatMessage.jsx:87-90 | with the correction, a bullet's text is the trimmed line after the marker and its white space |
| ChatApi.ResolveCity | backend/api/chat.js:27-46 | the handler's city equals its specification and is canonical when truthy |
| ChatApi.FetchForChat | backend/server.js:74-100 | the kept weather equals its specification; an error is recorded exactly when a fetch was made and failed |
| ChatApi.ProcessChat | backend/services/chatService.js:4-11 | the chat service equals the generator, with the `catch` given, the default theme and the extracted city as fallback |
| ChatApi.PostChat | backend/server.js:42-137 | the POST logic equals its specification `Chat`, and the weather error is recorded exactly for a failed fetch |
| ChatApi.Handler | backend/api/chat.js:5-98 | the handler equals its specification `Handle` |
| ChatApi.ChecksPrecedeServices | backend/api/chat.js:12-25 | method and body checks answer 200, 405 or 400 without depending on any service |
| ChatApi.CityToUseCases | backend/api/chat.js:28-46 | a given city wins, an extracted city is used as extracted, a coordinates-only request keeps the falsy city, and any truthy result is canonical |
| ChatApi.KeptWeatherMatches | backend/api/chat.js:52-61 | weather reaches the generator only after a successful fetch and, if the user named a city, only for the same city ignoring case |
| ChatApi.CoordinatesOnlyDiscarded | backend/api/chat.js:58-61 | a coordinates-only request whose message names a city never keeps the fetched weather |
| ChatApi.FetchFailureSwallowed | backend/api/chat.js:62-64 | a failed fetch does not fail the request; the generator is asked without weather |
| ChatApi.ErrorsOnlyWithoutWeather | backend/api/chat.js:67-78 | with the corrected `catch`, the generator answers whenever weather is kept and the reply is 200; a 500 happens only without weather |
| ChatApi.AsWrittenChatOutcomes | backend/api/chat.js:67-97 | with the `catch` as written: a model answer is passed through; a model failure with weather kept (a quota error included) gets the template answer; without weather it gets 500 with the generic text and the `ReferenceError`'s message |
| ChatApi.UndefinedIsGeneric | backend/api/chat.js:84-97 | the `ReferenceError`'s message is answered with the generic text, not the rate-limit text |
| ChatApi.FriendlyTextsDiffer | backend/api/chat.js:87-90 | the two user-facing error texts differ |
| ChatApi.FailureClassified | backend/api/chat.js:84-97 | the rate-limit text is shown exactly when the message mentions "quota" or "429"; the details are the message, or the default text |
| ChatApi.QuotaMessageClassified | backend/api/chat.js:89-90 | the generator's quota failure reaches the user as the rate-limit text |
| Server.WeatherRoute | backend/server.js:25-39 | the route equals its specification `Weather` |
| Server.SuggestRoute | backend/server.js:140-154 | the route equals its specification `Suggest` |
| Server.WeatherOutcomes | backend/server.js:25-39 | 400 exactly when the location is missing; otherwise the provider is asked; 200 with the record exactly when the fetch succeeds; 500 with a non-empty error |
| Server.SuggestOutcomes | backend/server.js:140-154 | a missing prompt gets 400 whatever the generator and its `catch`; with the corrected `catch` and weather the reply is 200 |
| Server.CorrectedSuggestFailures | backend/server.js:140-154 | with the corrected `catch`, a 500 happens only without weather and carries the quota text or the generation-failed text |
| Server.AsWrittenSuggestOutcomes | backend/server.js:140-154 | with the `catch` as written, a model answer is passed through, and every model failure, with weather or without, gets 500 with the `ReferenceError`'s message |

## Left out

- I/O is left out: HTTP, CORS headers, logging, Express and serverless plumbing. The provider, the
  chat model, the retry request and `JSON.parse` are parameters.
- The provider is a pure function of the query. Identical requests get identical replies, and
  timing and concurrency are not modelled.
- The regular expressions are not modelled. The extractor's patterns are a capture parameter, and
  the fence pattern and list patterns are written out as functions.
- Object-prototype keys are not modelled: the maps are ordered lists, so a message such as
  "constructor" does not hit an inherited property.
- Lengths count code points; JavaScript counts UTF-16 units, which differ only outside the Basic
  Multilingual Plane. Case mapping is ASCII only.
- Floating point is not modelled: temperatures are reals rounded with `Math.round`, and the
  retry delay is a whole number of milliseconds given by a parameter.
- `encodeURIComponent` and the URL text are not modelled. A query records the mapped name and the
  strategy suffix.
- Prompt wording and the function-response message texts are left out. The prompt records the
  theme, context, message, weather and the city to look up.
- `formatWeatherData` on a malformed provider body (a `TypeError`) is left out, and so is a
  `response.text()` that throws.
- `generateFallbackResponse` does not read its `userMessage` and `themeContext` parameters, so
  the model does not take them.
- The generator receives the eight summary fields rather than the handler's whole record. It reads
  only those fields.
- A `theme` of `null` and one of `undefined` are both an absent theme. Both select the general
  context.
- Non-string message bodies (a number sent as `message`) are not modelled.
- Server.Suggest: the caller's `weatherData` is taken to be absent or a well-formed eight-field
  record with a string `city` and whole-degree temperatures. A truthy `weatherData` without a
  string `city` makes the re-fetch test throw a `TypeError` once a city is found in the prompt, so
  as written the reply is then 500 "finalWeatherData is not defined" even when the model would
  have answered. A fractional temperature such as 12.5 would reach the prompt and the fallback text
  as "12.5". The model cannot express either input.

## Findings

| source | as written | input that shows it | evidently intended | confidence | as-written member | corrected member |
|---|---|---|---|---|---|---|
| backend/services/aiService.js:228-276 | the `catch` block reads `finalWeatherData` and `themeContext`, which are `let`/`const` locals of the `try` block, so every failure of the model throws `ReferenceError: finalWeatherData is not defined` | model fails with "fetch failed" while weather for the requested city is at hand | the fallback answer built from the weather (or the quota/generation error without weather) | high; not executed | AiService.AsWrittenLosesFallback | AiService.IntendedWithWeatherSucceeds |
| frontend/src/components/ChatMessage.jsx:87-92 | the marker is tested on the trimmed line but stripped from the raw line with a pattern anchored at its start, so an indented bullet keeps its marker | the line " - rain" | the bullet text "rain" | high; not executed | ChatMessage.IndentedBulletKeepsMarker | ChatMessage.IntendedBulletText |
