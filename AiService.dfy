/** The suggestion generator: picks the theme's context, works out which city the message is
    about, fetches that city's weather when the weather at hand is for another city, asks the
    language model (which may call back for weather up to three times), and on a model failure
    waits out a quota error or falls back to a templated JSON answer.

    The language model is a function from the conversation so far to its reply; the quota-delay
    parse and the single retry request are functions too. */
module AiService {
  import opened JsCore
  import CityExtractor
  import WeatherService
  import opened Json

  // ---------------------------------------------------------------------------------------------
  // Theme contexts

  const ThemeNames: seq<string> :=
    ["travel", "outings", "fashion", "music", "agriculture", "sports", "food", "general"]

  const ThemeTexts: seq<string> := [
    "旅行・観光に関する提案をしてください。天気を考慮した観光スポット、アクティビティ、旅行のヒントを提供してください。",
    "お出かけ・外出に関する提案をしてください。天気に適した外出先、アクティビティ、イベント情報を提供してください。",
    "ファッション・服装に関する提案をしてください。天気に適した服装、スタイリング、アクセサリーの提案をしてください。",
    "音楽・エンターテイメントに関する提案をしてください。天気に合った音楽、コンサート、音楽イベントの提案をしてください。",
    "農業・ガーデニングに関する提案をしてください。天気を考慮した農作業、ガーデニング、植物のケアに関する提案をしてください。",
    "スポーツ・運動に関する提案をしてください。天気に適したスポーツ、運動、フィットネス活動の提案をしてください。",
    "グルメ・食事に関する提案をしてください。天気に合った料理、レストラン、食材、レシピの提案をしてください。",
    GeneralContext
  ]

  const GeneralContext := "一般的な提案をしてください。天気を考慮した様々な活動やアドバイスを提供してください。"

  /** `themeContexts`, in declaration order. */
  const ThemeContexts: CityExtractor.Table := CityExtractor.Zip(ThemeNames, ThemeTexts)

  /** `themeContexts[theme] || themeContexts.general`. */
  function ThemeContext(theme: string): string {
    CityExtractor.Lookup(ThemeContexts, theme).GetOr(GeneralContext)
  }

  /** A named theme selects its own context; any other theme selects the general one. */
  lemma ThemeContextSelects(theme: string)
    ensures theme !in ThemeNames ==> ThemeContext(theme) == GeneralContext
    ensures forall i :: 0 <= i < |ThemeNames| && ThemeNames[i] == theme ==>
              ThemeContext(theme) == ThemeTexts[i]
  {
    forall i | 0 <= i < |ThemeNames| && ThemeNames[i] == theme
      ensures ThemeContext(theme) == ThemeTexts[i]
    {
      forall j | 0 <= j < i ensures ThemeContexts[j].0 != theme {
        assert ThemeNames[j] != ThemeNames[i];
      }
      CityExtractor.LookupAt(ThemeContexts, theme, i);
    }
  }

  // ---------------------------------------------------------------------------------------------
  // Which city the message is about

  /** `messageIsLikelyCity` of the trimmed message: short, one word, and not a weather question. */
  predicate LooksLikeCity(trimmed: string) {
    |trimmed| < 30 && !Contains(trimmed, " ") && !Contains(Lower(trimmed), "weather") &&
    !Contains(trimmed, "天気")
  }

  /** A bare city name looks like one; a question about the weather, in either language, does
      not. */
  lemma LooksLikeCityExamples(name: string, english: string, japanese: string)
    requires name == "Sapporo" && english == "Tokyo weather" && japanese == "東京の天気"
    ensures LooksLikeCity(name)
    ensures !LooksLikeCity(english) && !LooksLikeCity(japanese)
  {
    NotContainsFirst(name, " ");
    assert Lower(name) == "sapporo";
    NotContainsFirst(Lower(name), "weather");
    NotContainsFirst(name, "天気");
    ContainsAt(english, " ", 5);
    assert japanese[3..5] == "天気";
    ContainsAt(japanese, "天気", 3);
  }

  /** `cityInMessage`: the requested city, else the extracted city, else the trimmed message when
      it looks like a city. */
  function CityInMessage(userMessage: string, requestedCity: Option<string>,
                         capture: CityExtractor.Capture): (r: Option<string>)
  {
    var trimmed := Trim(userMessage);
    Or(requestedCity,
       Or(CityExtractor.ExtractCityFromMessage(Some(userMessage), capture),
          if LooksLikeCity(trimmed) then Some(trimmed) else None))
  }

  /** A city found in the message is the requested city when one was given; otherwise it is a
      name the extractor resolved (and which normalises to itself), or the whole trimmed message,
      short and without a space. */
  lemma CityInMessageSources(userMessage: string, requestedCity: Option<string>,
                             capture: CityExtractor.Capture)
    requires Truthy(CityInMessage(userMessage, requestedCity, capture))
    ensures var r := CityInMessage(userMessage, requestedCity, capture);
            var extracted := CityExtractor.ExtractCityFromMessage(Some(userMessage), capture);
            if Truthy(requestedCity) then r == requestedCity
            else if Truthy(extracted) then
              r == extracted && CityExtractor.Canonical(r.value) &&
              CityExtractor.NormalizeCityName(r) == r
            else r.value == Trim(userMessage) && |r.value| < 30 && !Contains(r.value, " ")
  {
    var extracted := CityExtractor.ExtractCityFromMessage(Some(userMessage), capture);
    if !Truthy(requestedCity) && Truthy(extracted) {
      CityExtractor.ExtractCanonical(Some(userMessage), capture);
    }
  }

  /** A non-empty requested city is the city in the message, whatever the message says. */
  lemma RequestedCityWins(userMessage: string, city: string, capture: CityExtractor.Capture)
    requires city != ""
    ensures CityInMessage(userMessage, Some(city), capture) == Some(city)
  {
    assert Truthy(Some(city));
  }

  // ---------------------------------------------------------------------------------------------
  // The weather tool

  /** The eight fields the generator passes on: the gateway's record without the icon and the
      coordinates. */
  datatype WeatherSummary = WeatherSummary(
    city: string, country: string, temperature: int, feelsLike: int, description: string,
    main: string, humidity: int, windSpeed: real)

  function Summarize(w: WeatherService.WeatherRecord): WeatherSummary {
    WeatherSummary(w.city, w.country, w.temperature, w.feelsLike, w.description, w.main,
                   w.humidity, w.windSpeed)
  }

  /** What `executeWeatherFunction` returns: `success: true` with the summary, or
      `success: false` with an error text. */
  datatype ToolResult = ToolOk(data: WeatherSummary) | ToolErr(error: string)

  const DefaultWeatherError := "Failed to fetch weather data"

  /** `executeWeatherFunction(city)`: the gateway by name only, its failure caught. */
  function WeatherTool(city: Option<string>, provider: WeatherService.Provider): (r: ToolResult)
  {
    match WeatherService.Fetch(city, None, None, provider).0
    case Ok(w) => ToolOk(Summarize(w))
    case Err(m) => ToolErr(if m != "" then m else DefaultWeatherError)
  }

  /** The tool succeeds exactly when the gateway does, copies the gateway's eight summary fields
      (not the icon or the coordinates), and always has a non-empty error text when it fails. */
  lemma WeatherToolReports(city: Option<string>, provider: WeatherService.Provider)
    ensures var r := WeatherTool(city, provider);
            var g := WeatherService.Fetch(city, None, None, provider).0;
            (r.ToolOk? <==> g.Ok?) &&
            (r.ToolOk? ==> r.data.city == g.value.city && r.data.country == g.value.country &&
                           r.data.temperature == g.value.temperature &&
                           r.data.feelsLike == g.value.feelsLike &&
                           r.data.description == g.value.description &&
                           r.data.main == g.value.main && r.data.humidity == g.value.humidity &&
                           r.data.windSpeed == g.value.windSpeed) &&
            (r.ToolErr? ==> r.error != "" && (g.message != "" ==> r.error == g.message))
  {
  }

  /** `executeWeatherFunction` as it runs: one gateway call whose failure becomes a value. */
  method ExecuteWeatherFunction(city: Option<string>, provider: WeatherService.Provider)
    returns (r: ToolResult)
    ensures r == WeatherTool(city, provider)
  {
    var weather, _ := WeatherService.GetWeatherData(city, None, None, provider);
    match weather
    case Ok(w) =>
      r := ToolOk(Summarize(w));
    case Err(m) =>
      r := ToolErr(if m != "" then m else DefaultWeatherError);
  }

  /** The weather is fetched again when a city was found in the message and there is no weather,
      or the weather is for a city whose name differs, ignoring case. */
  predicate NeedsRefetch(cityInMessage: Option<string>, weather: Option<WeatherSummary>) {
    Truthy(cityInMessage) &&
    (weather.None? || Lower(weather.value.city) != Lower(cityInMessage.value))
  }

  /** `finalWeatherData` after the re-fetch. */
  function FinalWeather(cityInMessage: Option<string>, weather: Option<WeatherSummary>,
                        provider: WeatherService.Provider): Option<WeatherSummary>
  {
    if NeedsRefetch(cityInMessage, weather) then
      match WeatherTool(cityInMessage, provider)
      case ToolOk(d) => Some(d)
      case ToolErr(_) => weather
    else weather
  }

  /** The weather handed in is replaced only by a successful fetch for the city in the message,
      and such a fetch always replaces it; a failed fetch never loses it; with no city in the
      message, or weather already for that city, nothing is fetched. */
  lemma RefetchKeepsOrReplaces(cityInMessage: Option<string>, weather: Option<WeatherSummary>,
                               provider: WeatherService.Provider)
    ensures var r := FinalWeather(cityInMessage, weather, provider);
            var g := WeatherService.Fetch(cityInMessage, None, None, provider).0;
            (r == weather ||
             (NeedsRefetch(cityInMessage, weather) && g.Ok? && r == Some(Summarize(g.value)))) &&
            (weather.Some? ==> r.Some?) &&
            (!Truthy(cityInMessage) ==> r == weather) &&
            ((weather.Some? && Truthy(cityInMessage) &&
              Lower(weather.value.city) == Lower(cityInMessage.value)) ==> r == weather)
    ensures var r := FinalWeather(cityInMessage, weather, provider);
            var g := WeatherService.Fetch(cityInMessage, None, None, provider).0;
            NeedsRefetch(cityInMessage, weather) ==>
              (g.Ok? ==> r == Some(Summarize(g.value))) && (g.Err? ==> r == weather)
  {
    WeatherToolReports(cityInMessage, provider);
  }

  /** Weather handed in is never lost by the re-fetch. */
  lemma RefetchNeverLoses(cityInMessage: Option<string>, weather: Option<WeatherSummary>,
                          provider: WeatherService.Provider)
    ensures weather.Some? ==> FinalWeather(cityInMessage, weather, provider).Some?
  {
  }

  // ---------------------------------------------------------------------------------------------
  // The conversation with the language model

  /** The first message: which theme and context, the user's text, and which optional block is
      added — the weather, or else a request to look up the weather of the city in the
      message. */
  datatype Prompt = Prompt(theme: string, context: string, userMessage: string,
                           weather: Option<WeatherSummary>, askFor: Option<string>)

  /** A call the model asks for: the function's name and its `city` argument, if any. */
  datatype FunctionCall = FunctionCall(name: string, city: Option<string>)

  /** One function response sent back: the weather, or the error and the city asked for. */
  datatype FunctionResponse =
    | WeatherAnswer(data: WeatherSummary)
    | WeatherFailure(city: Option<string>, error: string)

  /** What the model is sent: the first prompt, then batches of function responses. */
  datatype Turn = Ask(prompt: Prompt) | Answers(responses: seq<FunctionResponse>)

  /** The model's reply to the conversation so far (its function calls and its text), or the
      message of the error `sendMessage` threw (absent when the error has none). */
  datatype ModelReply = Reply(calls: seq<FunctionCall>, text: string) | Failure(message: Option<string>)

  type Chat = seq<Turn> -> ModelReply

  const GetWeather := "get_weather"

  function FirstPrompt(userMessage: string, theme: string, finalWeather: Option<WeatherSummary>,
                       cityInMessage: Option<string>): Prompt
  {
    Prompt(theme, ThemeContext(theme), userMessage, finalWeather,
           if finalWeather.None? && Truthy(cityInMessage) then cityInMessage else None)
  }

  /** The calls to `get_weather`, in call order. */
  function WeatherCalls(calls: seq<FunctionCall>): (r: seq<FunctionCall>)
    ensures |r| <= |calls|
    ensures forall i :: 0 <= i < |r| ==> r[i].name == GetWeather && r[i] in calls
    ensures forall i :: 0 <= i < |calls| && calls[i].name == GetWeather ==> calls[i] in r
  {
    if calls == [] then []
    else
      var last := calls[|calls| - 1];
      var init := WeatherCalls(calls[..|calls| - 1]);
      assert forall i :: 0 <= i < |calls| - 1 ==> calls[..|calls| - 1][i] == calls[i];
      if last.name == GetWeather then init + [last] else init
  }

  /** `WeatherCalls` is a filter: it keeps each `get_weather` call, drops every other call, and
      takes the calls of a longer list in order, each as often as it occurs. */
  lemma {:induction false} WeatherCallsAppend(a: seq<FunctionCall>, b: seq<FunctionCall>)
    ensures WeatherCalls(a + b) == WeatherCalls(a) + WeatherCalls(b)
    ensures |a| == 1 ==> WeatherCalls(a) == if a[0].name == GetWeather then a else []
    decreases |b|
  {
    if |a| == 1 {
      assert a[..0] == [];
    }
    if b == [] {
      assert a + b == a;
    } else {
      var init := b[..|b| - 1];
      assert (a + b)[..|a + b| - 1] == a + init;
      WeatherCallsAppend(a, init);
    }
  }

  function Answer(call: FunctionCall, provider: WeatherService.Provider): FunctionResponse {
    match WeatherTool(call.city, provider)
    case ToolOk(d) => WeatherAnswer(d)
    case ToolErr(e) => WeatherFailure(call.city, e)
  }

  /** `functionResponses` after the loop over `calls`. */
  function Respond(calls: seq<FunctionCall>, provider: WeatherService.Provider)
    : seq<FunctionResponse>
  {
    if calls == [] then []
    else
      var last := calls[|calls| - 1];
      var init := Respond(calls[..|calls| - 1], provider);
      if last.name == GetWeather then init + [Answer(last, provider)] else init
  }

  /** One response per `get_weather` call, in call order; other calls get none. */
  lemma {:induction false} RespondFollowsCalls(calls: seq<FunctionCall>,
                                               provider: WeatherService.Provider)
    ensures |Respond(calls, provider)| == |WeatherCalls(calls)|
    ensures forall i :: 0 <= i < |WeatherCalls(calls)| ==>
              Respond(calls, provider)[i] == Answer(WeatherCalls(calls)[i], provider)
    decreases |calls|
  {
    if calls != [] {
      RespondFollowsCalls(calls[..|calls| - 1], provider);
    }
  }

  /** The loop from the reply `reply` on, with `rounds` iterations left: how it ends and the
      conversation it leaves. */
  function ToolLoop(chat: Chat, provider: WeatherService.Provider, history: seq<Turn>,
                    reply: ModelReply, rounds: nat): (Attempt, seq<Turn>)
    decreases rounds
  {
    match reply
    case Failure(m) => (Threw(m), history)
    case Reply(calls, text) =>
      if rounds == 0 || calls == [] then (Answered(text), history)
      else
        var responses := Respond(calls, provider);
        if responses == [] then (Answered(text), history)
        else
          var next := history + [Answers(responses)];
          ToolLoop(chat, provider, next, chat(next), rounds - 1)
  }

  /** How the attempt inside the `try` ends: with the model's text, or with an error message. */
  datatype Attempt = Answered(text: string) | Threw(message: Option<string>)

  /** The conversation only grows, by at most one non-empty batch of function responses per
      round. */
  lemma {:induction false} ToolLoopGrows(chat: Chat, provider: WeatherService.Provider,
                                         history: seq<Turn>, reply: ModelReply, rounds: nat)
    ensures var h := ToolLoop(chat, provider, history, reply, rounds).1;
            |history| <= |h| <= |history| + rounds && h[..|history|] == history &&
            forall i :: |history| <= i < |h| ==> h[i].Answers? && h[i].responses != []
    decreases rounds
  {
    if reply.Reply? && rounds > 0 && reply.calls != [] {
      var responses := Respond(reply.calls, provider);
      if responses != [] {
        var next := history + [Answers(responses)];
        ToolLoopGrows(chat, provider, next, chat(next), rounds - 1);
        assert next[..|history|] == history;
      }
    }
  }

  /** A reply that asks for no weather ends the loop with its text. */
  lemma NoWeatherCallsEnd(chat: Chat, provider: WeatherService.Provider, history: seq<Turn>,
                          calls: seq<FunctionCall>, text: string, rounds: nat)
    requires WeatherCalls(calls) == []
    ensures ToolLoop(chat, provider, history, Reply(calls, text), rounds) == (Answered(text), history)
  {
    RespondFollowsCalls(calls, provider);
  }

  /** The tool-call loop as the source runs it: at most three rounds, each sending the responses
      to the `get_weather` calls of the last reply. */
  method RunToolLoop(chat: Chat, provider: WeatherService.Provider, prompt: Prompt)
    returns (a: Attempt, history: seq<Turn>)
    ensures (a, history) == ToolLoop(chat, provider, [Ask(prompt)], chat([Ask(prompt)]), 3)
  {
    history := [Ask(prompt)];
    var reply := chat(history);
    ghost var whole := ToolLoop(chat, provider, history, reply, 3);
    if reply.Failure? {
      return Threw(reply.message), history;
    }
    var maxIterations := 3;
    while maxIterations > 0
      invariant reply.Reply?
      invariant whole == ToolLoop(chat, provider, history, reply, maxIterations)
    {
      ghost var left := maxIterations;
      maxIterations := maxIterations - 1;
      var calls := reply.calls;
      if |calls| == 0 {
        break;
      }
      var responses: seq<FunctionResponse> := [];
      for k := 0 to |calls|
        invariant responses == Respond(calls[..k], provider)
      {
        assert calls[..k + 1][..k] == calls[..k];
        if calls[k].name == GetWeather {
          var result := ExecuteWeatherFunction(calls[k].city, provider);
          match result
          case ToolOk(d) =>
            responses := responses + [WeatherAnswer(d)];
          case ToolErr(e) =>
            responses := responses + [WeatherFailure(calls[k].city, e)];
        }
      }
      assert calls[..|calls|] == calls;
      if |responses| > 0 {
        history := history + [Answers(responses)];
        reply := chat(history);
        if reply.Failure? {
          return Threw(reply.message), history;
        }
      } else {
        break;
      }
    }
    a := Answered(reply.text);
  }

  // ---------------------------------------------------------------------------------------------
  // Generation, failure handling and the fallback answer

  /** The prompt of the single retry after a quota error. */
  datatype SimplePrompt = SimplePrompt(userMessage: string, weather: Option<WeatherSummary>,
                                       context: string)

  /** The services the generator talks to: the extractor's pattern captures, the weather provider,
      the chat model, the delay (in milliseconds) a quota message asks for, and the retry
      request. */
  datatype Env = Env(
    capture: CityExtractor.Capture, provider: WeatherService.Provider, chat: Chat,
    retryDelay: string -> Option<nat>, retry: SimplePrompt -> Result<string>)

  /** The quota path is taken only for a message mentioning both "429" and "quota". */
  predicate QuotaError(message: Option<string>) {
    Truthy(message) && Contains(message.value, "429") && Contains(message.value, "quota")
  }

  const MaxWait: nat := 60000

  /** The wait before the retry: the delay asked for, else a minute, and never more than a
      minute. */
  function RetryWait(delay: Option<nat>): (ms: nat)
    ensures ms <= MaxWait
    ensures delay.None? ==> ms == MaxWait
    ensures delay.Some? ==> ms <= delay.value && (delay.value <= MaxWait ==> ms == delay.value)
  {
    var d := delay.GetOr(MaxWait);
    if d < MaxWait then d else MaxWait
  }

  /** The text `${error.message}` produces. */
  function MessageText(message: Option<string>): string {
    if message.Some? then message.value else "undefined"
  }

  /** The message of the `ReferenceError` for reading an undeclared variable. */
  function NotDefinedMessage(name: string): string {
    name + " is not defined"
  }

  const UndefinedWeatherMessage := NotDefinedMessage("finalWeatherData")
  const QuotaExceededMessage :=
    "API quota exceeded." + " Please try again later or check your Gemini API quota."

  function GenerationFailedMessage(message: Option<string>): string {
    "AI generation failed: " + MessageText(message)
  }

  /** The body of the `try`: the weather it settles on and how the conversation ends. */
  function Attempted(userMessage: string, weather: Option<WeatherSummary>, theme: string,
                     requestedCity: Option<string>, env: Env)
    : (Attempt, Option<WeatherSummary>, seq<Turn>)
  {
    var city := CityInMessage(userMessage, requestedCity, env.capture);
    var finalWeather := FinalWeather(city, weather, env.provider);
    var first := [Ask(FirstPrompt(userMessage, theme, finalWeather, city))];
    var loop := ToolLoop(env.chat, env.provider, first, env.chat(first), 3);
    (loop.0, finalWeather, loop.1)
  }

  /** `generateAISuggestion` as written: the result, the milliseconds waited, and the
      conversation. `finalWeatherData` and `themeContext` are block-scoped to the `try`, so the
      `catch` cannot read them: after the quota wait, or at once otherwise, every failure ends in
      the `ReferenceError` for `finalWeatherData`, and no retry request is ever sent. */
  function Generation(userMessage: string, weather: Option<WeatherSummary>, theme: string,
                      requestedCity: Option<string>, env: Env): (Result<string>, nat, seq<Turn>)
  {
    var t := Attempted(userMessage, weather, theme, requestedCity, env);
    match t.0
    case Answered(text) => (Ok(text), 0, t.2)
    case Threw(m) =>
      (Err(UndefinedWeatherMessage), if QuotaError(m) then RetryWait(env.retryDelay(m.value)) else 0, t.2)
  }

  /** `generateAISuggestion` as its `catch` evidently means to work: a quota error is retried once
      with the simple prompt; a failed retry or any other failure falls back to the templated
      answer when there is weather, and otherwise reports the quota or the failure. */
  function IntendedGeneration(userMessage: string, weather: Option<WeatherSummary>, theme: string,
                              requestedCity: Option<string>, env: Env)
    : (Result<string>, nat, seq<Turn>)
  {
    Recovered(Attempted(userMessage, weather, theme, requestedCity, env), userMessage, theme, env)
  }

  /** The evidently intended `catch`, given how the `try` ended (`t`). */
  function Recovered(t: (Attempt, Option<WeatherSummary>, seq<Turn>), userMessage: string,
                     theme: string, env: Env): (Result<string>, nat, seq<Turn>)
  {
    var finalWeather := t.1;
    match t.0
    case Answered(text) => (Ok(text), 0, t.2)
    case Threw(m) =>
      if QuotaError(m) then
        var wait := RetryWait(env.retryDelay(m.value));
        match env.retry(SimplePrompt(userMessage, finalWeather, ThemeContext(theme)))
        case Ok(text) => (Ok(text), wait, t.2)
        case Err(_) =>
          if finalWeather.Some? then (Ok(FallbackResponse(finalWeather.value, theme)), wait, t.2)
          else (Err(QuotaExceededMessage), wait, t.2)
      else if finalWeather.Some? then (Ok(FallbackResponse(finalWeather.value, theme)), 0, t.2)
      else (Err(GenerationFailedMessage(m)), 0, t.2)
  }

  /** Which `catch` the generator runs: the one in the source, or the evidently intended one. */
  datatype Catch = AsWritten | Corrected

  /** The generator with the given `catch`. */
  function Generate(c: Catch, userMessage: string, weather: Option<WeatherSummary>, theme: string,
                    requestedCity: Option<string>, env: Env): (Result<string>, nat, seq<Turn>)
  {
    match c
    case AsWritten => Generation(userMessage, weather, theme, requestedCity, env)
    case Corrected => IntendedGeneration(userMessage, weather, theme, requestedCity, env)
  }

  /** The `try` block as it runs: the re-fetch, then the tool-call loop. */
  method TryGenerate(userMessage: string, weather: Option<WeatherSummary>, theme: string,
                 requestedCity: Option<string>, env: Env)
    returns (a: Attempt, finalWeather: Option<WeatherSummary>, history: seq<Turn>)
    ensures (a, finalWeather, history) ==
            Attempted(userMessage, weather, theme, requestedCity, env)
  {
    var cityInMessage := CityInMessage(userMessage, requestedCity, env.capture);
    finalWeather := weather;
    if NeedsRefetch(cityInMessage, weather) {
      var result := ExecuteWeatherFunction(cityInMessage, env.provider);
      if result.ToolOk? {
        finalWeather := Some(result.data);
      }
    }
    a, history := RunToolLoop(env.chat, env.provider,
                              FirstPrompt(userMessage, theme, finalWeather, cityInMessage));
  }

  /** `generateAISuggestion(userMessage, weatherData, theme, requestedCity)` as written. */
  method GenerateAISuggestion(userMessage: string, weather: Option<WeatherSummary>, theme: string,
                              requestedCity: Option<string>, env: Env)
    returns (r: Result<string>, waitMs: nat, history: seq<Turn>)
    ensures (r, waitMs, history) == Generation(userMessage, weather, theme, requestedCity, env)
  {
    var a, _, h := TryGenerate(userMessage, weather, theme, requestedCity, env);
    history := h;
    waitMs := 0;
    match a
    case Answered(text) =>
      r := Ok(text);
    case Threw(m) =>
      if QuotaError(m) {
        waitMs := RetryWait(env.retryDelay(m.value));
      }
      r := Err(UndefinedWeatherMessage);
  }

  /** `generateAISuggestion` with the `catch` able to read the weather and the theme context. */
  method GenerateAISuggestionIntended(userMessage: string, weather: Option<WeatherSummary>,
                                      theme: string, requestedCity: Option<string>, env: Env)
    returns (r: Result<string>, waitMs: nat, history: seq<Turn>)
    ensures (r, waitMs, history) ==
            IntendedGeneration(userMessage, weather, theme, requestedCity, env)
  {
    var a, finalWeather, h := TryGenerate(userMessage, weather, theme, requestedCity, env);
    assert IntendedGeneration(userMessage, weather, theme, requestedCity, env) ==
           Recovered((a, finalWeather, h), userMessage, theme, env);
    history := h;
    waitMs := 0;
    match a
    case Answered(text) =>
      r := Ok(text);
    case Threw(m) =>
      if QuotaError(m) {
        waitMs := RetryWait(env.retryDelay(m.value));
        var retried := env.retry(SimplePrompt(userMessage, finalWeather, ThemeContext(theme)));
        if retried.Ok? {
          r := Ok(retried.value);
        } else if finalWeather.Some? {
          r := Ok(FallbackResponse(finalWeather.value, theme));
        } else {
          r := Err(QuotaExceededMessage);
        }
      } else if finalWeather.Some? {
        r := Ok(FallbackResponse(finalWeather.value, theme));
      } else {
        r := Err(GenerationFailedMessage(m));
      }
  }

  /** The generator with the given `catch`, as the routes call it. */
  method GenerateWith(c: Catch, userMessage: string, weather: Option<WeatherSummary>,
                      theme: string, requestedCity: Option<string>, env: Env)
    returns (r: Result<string>, waitMs: nat, history: seq<Turn>)
    ensures (r, waitMs, history) == Generate(c, userMessage, weather, theme, requestedCity, env)
  {
    if c.AsWritten? {
      r, waitMs, history := GenerateAISuggestion(userMessage, weather, theme, requestedCity, env);
    } else {
      r, waitMs, history :=
        GenerateAISuggestionIntended(userMessage, weather, theme, requestedCity, env);
    }
  }

  /** `processChatMessage`: the requested city, else the extracted one, handed to the generator
      together with the theme, `general` when none is given. */
  function ProcessChatMessage(c: Catch, userMessage: string, weather: Option<WeatherSummary>,
                              theme: Option<string>, requestedCity: Option<string>, env: Env)
    : (Result<string>, nat, seq<Turn>)
  {
    Generate(c, userMessage, weather, theme.GetOr("general"),
             Or(requestedCity, CityExtractor.ExtractCityFromMessage(Some(userMessage), env.capture)),
             env)
  }

  // ---------------------------------------------------------------------------------------------
  // Properties of generation

  /** The model is sent the first prompt and at most three batches of function responses. */
  lemma AtMostFourTurns(userMessage: string, weather: Option<WeatherSummary>, theme: string,
                        requestedCity: Option<string>, env: Env)
    ensures var h := Generation(userMessage, weather, theme, requestedCity, env).2;
            1 <= |h| <= 4 && h[0].Ask? &&
            h[0].prompt.weather == FinalWeather(CityInMessage(userMessage, requestedCity, env.capture),
                                                weather, env.provider) &&
            forall i :: 1 <= i < |h| ==> h[i].Answers? && h[i].responses != []
  {
    var city := CityInMessage(userMessage, requestedCity, env.capture);
    var finalWeather := FinalWeather(city, weather, env.provider);
    var first := [Ask(FirstPrompt(userMessage, theme, finalWeather, city))];
    var h := ToolLoop(env.chat, env.provider, first, env.chat(first), 3).1;
    assert Generation(userMessage, weather, theme, requestedCity, env).2 == h;
    ToolLoopGrows(env.chat, env.provider, first, env.chat(first), 3);
    assert h[0] == h[..1][0] == first[0];
  }

  /** The first prompt carries the weather when there is some; only without weather does it ask
      the model to look up the city found in the message. */
  lemma PromptBlocks(userMessage: string, theme: string, finalWeather: Option<WeatherSummary>,
                     cityInMessage: Option<string>)
    ensures var p := FirstPrompt(userMessage, theme, finalWeather, cityInMessage);
            p.weather == finalWeather && (finalWeather.Some? ==> p.askFor.None?) &&
            (p.askFor.Some? <==> finalWeather.None? && Truthy(cityInMessage))
  {
  }

  /** The failure texts the caller can see are all different. */
  lemma FailureTextsDiffer(message: Option<string>)
    ensures GenerationFailedMessage(message) != QuotaExceededMessage
    ensures GenerationFailedMessage(message) != UndefinedWeatherMessage
    ensures QuotaExceededMessage != UndefinedWeatherMessage
  {
    assert GenerationFailedMessage(message)[2] == ' ' && QuotaExceededMessage[2] == 'I';
    assert GenerationFailedMessage(message)[0] == 'A' && UndefinedWeatherMessage[0] == 'f';
  }

  /** As written, any failure of the model leaves the generator as the `ReferenceError`, even
      when weather is at hand, while the evidently intended `catch` never ends that way. */
  lemma AsWrittenAlwaysThrows(userMessage: string, weather: Option<WeatherSummary>, theme: string,
                              requestedCity: Option<string>, env: Env)
    requires Attempted(userMessage, weather, theme, requestedCity, env).0.Threw?
    ensures Generation(userMessage, weather, theme, requestedCity, env).0 ==
            Err(UndefinedWeatherMessage)
    ensures IntendedGeneration(userMessage, weather, theme, requestedCity, env).0 !=
            Err(UndefinedWeatherMessage)
  {
    FailureTextsDiffer(Attempted(userMessage, weather, theme, requestedCity, env).0.message);
  }

  /** A concrete case: the model fails on its first message, with an error that is not about the
      quota, while weather for the requested city is at hand. As written the caller gets the
      `ReferenceError`; the evident intent is the templated answer. */
  lemma AsWrittenLosesFallback(userMessage: string, city: string, w: WeatherSummary,
                               theme: string, failure: string, env: Env)
    requires city != "" && w.city == city && '4' !in failure
    requires env.chat == ((h: seq<Turn>) => Failure(Some(failure)))
    ensures Generation(userMessage, Some(w), theme, Some(city), env).0 ==
            Err(UndefinedWeatherMessage)
    ensures IntendedGeneration(userMessage, Some(w), theme, Some(city), env).0 ==
            Ok(FallbackResponse(w, theme))
  {
    FailingModelKeepsWeather(userMessage, city, w, theme, failure, env);
    NotContainsFirst(failure, "429");
    assert !QuotaError(Some(failure));
  }

  /** A model that fails at once ends the attempt with its error, and weather already for the
      requested city is kept. */
  lemma FailingModelKeepsWeather(userMessage: string, city: string, w: WeatherSummary,
                                 theme: string, failure: string, env: Env)
    requires city != "" && w.city == city
    requires env.chat == ((h: seq<Turn>) => Failure(Some(failure)))
    ensures var t := Attempted(userMessage, Some(w), theme, Some(city), env);
            t.0 == Threw(Some(failure)) && t.1 == Some(w)
  {
    RequestedCityWins(userMessage, city, env.capture);
    var found := CityInMessage(userMessage, Some(city), env.capture);
    assert !NeedsRefetch(found, Some(w));
    var finalWeather := FinalWeather(found, Some(w), env.provider);
    assert finalWeather == Some(w);
    var first := [Ask(FirstPrompt(userMessage, theme, finalWeather, found))];
    assert env.chat(first) == Failure(Some(failure));
    var loop := ToolLoop(env.chat, env.provider, first, env.chat(first), 3);
    assert loop.0 == Threw(Some(failure));
  }

  /** With the intended `catch`, a generation that has weather never fails. */
  lemma IntendedWithWeatherSucceeds(userMessage: string, weather: Option<WeatherSummary>,
                                    theme: string, requestedCity: Option<string>, env: Env)
    requires weather.Some?
    ensures IntendedGeneration(userMessage, weather, theme, requestedCity, env).0.Ok?
  {
    AttemptKeepsWeather(userMessage, weather, theme, requestedCity, env);
  }

  /** With the intended `catch`, an error reaches the caller only without weather, and it is the
      quota message exactly when the quota path was taken. */
  lemma IntendedErrors(userMessage: string, weather: Option<WeatherSummary>, theme: string,
                       requestedCity: Option<string>, env: Env)
    requires IntendedGeneration(userMessage, weather, theme, requestedCity, env).0.Err?
    ensures var t := Attempted(userMessage, weather, theme, requestedCity, env);
            var r := IntendedGeneration(userMessage, weather, theme, requestedCity, env).0;
            t.0.Threw? && t.1.None? && weather.None? &&
            (r == Err(QuotaExceededMessage) <==> QuotaError(t.0.message)) &&
            (!QuotaError(t.0.message) ==> r == Err(GenerationFailedMessage(t.0.message)))
  {
    AttemptKeepsWeather(userMessage, weather, theme, requestedCity, env);
    var t := Attempted(userMessage, weather, theme, requestedCity, env);
    FailureTextsDiffer(t.0.message);
  }

  /** The attempt never loses the weather it was handed: at worst it keeps it. */
  lemma AttemptKeepsWeather(userMessage: string, weather: Option<WeatherSummary>, theme: string,
                            requestedCity: Option<string>, env: Env)
    ensures weather.Some? ==> Attempted(userMessage, weather, theme, requestedCity, env).1.Some?
  {
    var city := CityInMessage(userMessage, requestedCity, env.capture);
    var t := Attempted(userMessage, weather, theme, requestedCity, env);
    assert t.1 == FinalWeather(city, weather, env.provider);
    RefetchNeverLoses(city, weather, env.provider);
  }

  /** The generator waits only on the quota path, and never more than a minute. */
  lemma WaitOnlyOnQuota(userMessage: string, weather: Option<WeatherSummary>, theme: string,
                        requestedCity: Option<string>, env: Env)
    ensures var g := Generation(userMessage, weather, theme, requestedCity, env);
            var t := Attempted(userMessage, weather, theme, requestedCity, env);
            g.1 <= MaxWait && (g.1 > 0 ==> t.0.Threw? && QuotaError(t.0.message))
    ensures Generation(userMessage, weather, theme, requestedCity, env).1 ==
            IntendedGeneration(userMessage, weather, theme, requestedCity, env).1
  {
  }

  // ---------------------------------------------------------------------------------------------
  // generateFallbackResponse

  datatype Recommendation = Recommendation(icon: string, title: string, description: string)

  /** The theme- and temperature-dependent part of the templated answer. */
  datatype Advice = Advice(main: string, recommendations: seq<Recommendation>, tips: seq<string>)

  const ColdTip := "防寒対策をしっかりと"
  const HydrationTip := "水分補給を忘れずに"

  const TravelColdText := "寒い日なので、屋内の観光スポットや温かいカフェでのんびり過ごすのがおすすめです。"
  const TravelMildText := "過ごしやすい気温です。散策や観光に最適な日ですね。"
  const TravelWarmText := "暖かい日なので、屋外でのアクティビティを楽しめます。"
  const FashionColdText := "コートやダウンジャケットなど、しっかりとした防寒対策が必要です。"
  const FashionMildText := "カーディガンやライトジャケットがあると安心です。"
  const FashionWarmText := "軽装で快適に過ごせます。"
  const FoodColdText := "温かい鍋料理やスープ、ラーメンなどがおすすめです。"
  const FoodOtherText := "季節の食材を楽しめる料理がおすすめです。"
  const GeneralText := "天気に合わせた活動を楽しんでください。"

  const Museums := Recommendation("🏛️", "美術館・博物館", "文化的なひとときを")
  const Cafes := Recommendation("☕", "カフェ巡り", "温かい飲み物でほっこり")
  const CityWalk := Recommendation("🚶", "街歩き", "散策を楽しむのに最適")
  const ParkWalk := Recommendation("🌳", "公園散歩", "自然を感じながらリフレッシュ")
  const Sightseeing := Recommendation("🌸", "屋外観光", "お天気を満喫")
  const Sweets := Recommendation("🍦", "スイーツ", "冷たいデザートも美味しい")
  const Coat := Recommendation("🧥", "コート", "暖かいアウターを")
  const Muffler := Recommendation("🧣", "マフラー", "首元の防寒も大切")
  const LightOuter := Recommendation("👔", "ライトアウター", "温度調節しやすい服装")
  const LightClothes := Recommendation("👕", "軽装", "涼しい服装で")
  const Ramen := Recommendation("🍜", "ラーメン", "体を温めて")
  const HotPot := Recommendation("🍲", "鍋料理", "温かいお鍋で")
  const SeasonalDishes := Recommendation("🍱", "季節料理", "旬の食材を堪能")

  const TravelCold := Advice(TravelColdText, [Museums, Cafes], [ColdTip])
  const TravelMild := Advice(TravelMildText, [CityWalk, ParkWalk], [])
  const TravelWarm := Advice(TravelWarmText, [Sightseeing, Sweets], [HydrationTip])
  const FashionCold := Advice(FashionColdText, [Coat, Muffler], [])
  const FashionMild := Advice(FashionMildText, [LightOuter], [])
  const FashionWarm := Advice(FashionWarmText, [LightClothes], [])
  const FoodCold := Advice(FoodColdText, [Ramen, HotPot], [])
  const FoodOther := Advice(FoodOtherText, [SeasonalDishes], [])
  const GeneralAdvice := Advice(GeneralText, [], [])

  /** The branch on theme, then on the integer temperature. */
  function AdviceFor(theme: string, temp: int): Advice {
    if theme == "travel" || theme == "outings" then
      if temp < 10 then TravelCold else if temp < 20 then TravelMild else TravelWarm
    else if theme == "fashion" then
      if temp < 10 then FashionCold else if temp < 20 then FashionMild else FashionWarm
    else if theme == "food" then
      if temp < 10 then FoodCold else FoodOther
    else GeneralAdvice
  }

  /** At most two recommendations and one tip; themes without a template get neither. */
  lemma AdviceBounds(theme: string, temp: int)
    ensures var a := AdviceFor(theme, temp);
            |a.recommendations| <= 2 && |a.tips| <= 1 &&
            (theme !in {"travel", "outings", "fashion", "food"} ==>
               a.recommendations == [] && a.tips == [] && a == GeneralAdvice)
  {
  }

  /** The thresholds are strict: below 10 is cold, from 20 on is warm. */
  lemma AdviceThresholds(theme: string, temp: int)
    ensures theme == "travel" || theme == "outings" ==>
              |AdviceFor(theme, temp).recommendations| == 2 &&
              (AdviceFor(theme, temp).tips == [ColdTip] <==> temp < 10) &&
              (AdviceFor(theme, temp).tips == [HydrationTip] <==> 20 <= temp) &&
              (AdviceFor(theme, temp).tips == [] <==> 10 <= temp < 20)
    ensures theme == "fashion" || theme == "food" ==>
              (|AdviceFor(theme, temp).recommendations| == 2 <==> temp < 10) &&
              AdviceFor(theme, temp).tips == []
  {
    assert ColdTip[0] != HydrationTip[0];
  }

  function RecommendationJson(r: Recommendation): Json {
    JObject([Member("icon", JString(r.icon)), Member("title", JString(r.title)),
             Member("description", JString(r.description))])
  }

  function RecommendationsJson(rs: seq<Recommendation>): (r: seq<Json>)
    ensures |r| == |rs|
  {
    seq(|rs|, i requires 0 <= i < |rs| => RecommendationJson(rs[i]))
  }

  function TipsJson(tips: seq<string>): (r: seq<Json>)
    ensures |r| == |tips|
  {
    seq(|tips|, i requires 0 <= i < |tips| => JString(tips[i]))
  }

  const Greeting := "こんにちは！"
  const GreetingEnd := "の天気についてお答えします。"
  const SummaryStart := "現在"
  const SummaryFeels := "°C（体感"
  const SummaryCondition := "°C）、"
  const SummaryEnd := "です。"
  const Closing := "素敵な一日をお過ごしください！🌸"

  /** The `response` object of the fallback answer, members in declaration order. */
  function FallbackObject(w: WeatherSummary, theme: string): Json {
    var advice := AdviceFor(theme, w.temperature);
    JObject([
      Member("greeting", JString(Greeting + w.city + GreetingEnd)),
      Member("weather_summary",
             JString(SummaryStart + IntToString(w.temperature) + SummaryFeels +
                     IntToString(w.feelsLike) + SummaryCondition + w.description + SummaryEnd)),
      Member("main_suggestion", JString(advice.main)),
      Member("recommendations", JArray(RecommendationsJson(advice.recommendations))),
      Member("tips", JArray(TipsJson(advice.tips))),
      Member("closing", JString(Closing))
    ])
  }

  /** `generateFallbackResponse`: the object as indented JSON inside a `json` code fence. The
      message and theme context it is also given are not read. */
  function FallbackResponse(w: WeatherSummary, theme: string): string {
    "```json\n" + Stringify(FallbackObject(w, theme)) + "\n```"
  }

  // The fixed texts hold no backquote.

  predicate RecommendationFree(r: Recommendation) {
    '`' !in r.icon && '`' !in r.title && '`' !in r.description
  }

  predicate AdviceFree(a: Advice) {
    '`' !in a.main &&
    (forall i :: 0 <= i < |a.tips| ==> '`' !in a.tips[i]) &&
    forall i :: 0 <= i < |a.recommendations| ==> RecommendationFree(a.recommendations[i])
  }

  lemma TravelColdTextFree() ensures '`' !in TravelColdText {}
  lemma TravelMildTextFree() ensures '`' !in TravelMildText {}
  lemma TravelWarmTextFree() ensures '`' !in TravelWarmText {}
  lemma FashionColdTextFree() ensures '`' !in FashionColdText {}
  lemma FashionMildTextFree() ensures '`' !in FashionMildText {}
  lemma FashionWarmTextFree() ensures '`' !in FashionWarmText {}
  lemma FoodColdTextFree() ensures '`' !in FoodColdText {}
  lemma FoodOtherTextFree() ensures '`' !in FoodOtherText {}
  lemma GeneralTextFree() ensures '`' !in GeneralText {}

  lemma TipsFree()
    ensures '`' !in ColdTip && '`' !in HydrationTip
  {
  }

  lemma TravelColdRecommendationsFree()
    ensures RecommendationFree(Museums) && RecommendationFree(Cafes)
  {
  }

  lemma TravelMildRecommendationsFree()
    ensures RecommendationFree(CityWalk) && RecommendationFree(ParkWalk)
  {
  }

  lemma TravelWarmRecommendationsFree()
    ensures RecommendationFree(Sightseeing) && RecommendationFree(Sweets)
  {
  }

  lemma FashionRecommendationsFree()
    ensures RecommendationFree(Coat) && RecommendationFree(Muffler)
    ensures RecommendationFree(LightOuter) && RecommendationFree(LightClothes)
  {
  }

  lemma FoodRecommendationsFree()
    ensures RecommendationFree(Ramen) && RecommendationFree(HotPot)
    ensures RecommendationFree(SeasonalDishes)
  {
  }

  lemma AdviceForFree(theme: string, temp: int)
    ensures AdviceFree(AdviceFor(theme, temp))
  {
    TravelColdTextFree(); TravelMildTextFree(); TravelWarmTextFree();
    FashionColdTextFree(); FashionMildTextFree(); FashionWarmTextFree();
    FoodColdTextFree(); FoodOtherTextFree(); GeneralTextFree();
    TipsFree();
    TravelColdRecommendationsFree(); TravelMildRecommendationsFree();
    TravelWarmRecommendationsFree(); FashionRecommendationsFree(); FoodRecommendationsFree();
  }

  lemma TemplateFree()
    ensures '`' !in Greeting && '`' !in GreetingEnd && '`' !in SummaryStart
    ensures '`' !in SummaryFeels && '`' !in SummaryCondition && '`' !in SummaryEnd
    ensures '`' !in Closing
  {
  }

  lemma KeysFree()
    ensures '`' !in "greeting" && '`' !in "weather_summary" && '`' !in "main_suggestion"
    ensures '`' !in "recommendations" && '`' !in "tips" && '`' !in "closing"
  {
  }

  lemma RecommendationKeysFree()
    ensures '`' !in "icon" && '`' !in "title" && '`' !in "description"
  {
  }

  /** The recommendations and tips of backquote-free advice render as backquote-free JSON. */
  lemma AdviceJsonFree(a: Advice)
    requires AdviceFree(a)
    ensures Free(JArray(RecommendationsJson(a.recommendations)), '`')
    ensures Free(JArray(TipsJson(a.tips)), '`')
  {
    RecommendationKeysFree();
    var rs := RecommendationsJson(a.recommendations);
    forall i | 0 <= i < |rs| ensures Free(rs[i], '`') {
      assert rs[i] == RecommendationJson(a.recommendations[i]);
    }
    var ts := TipsJson(a.tips);
    forall i | 0 <= i < |ts| ensures Free(ts[i], '`') {
      assert ts[i] == JString(a.tips[i]);
    }
  }

  lemma IntTextFree(n: int, c: char)
    requires c != '-' && !('0' <= c <= '9')
    ensures c !in IntToString(n)
  {
  }

  lemma FallbackObjectFree(w: WeatherSummary, theme: string)
    requires '`' !in w.city && '`' !in w.description
    ensures Free(FallbackObject(w, theme), '`')
  {
    IntTextFree(w.temperature, '`');
    IntTextFree(w.feelsLike, '`');
    TemplateFree();
    KeysFree();
    AdviceForFree(theme, w.temperature);
    AdviceJsonFree(AdviceFor(theme, w.temperature));
  }

  /** The JSON inside the fence has no backquote when the city and the description have none, so
      the fence closes exactly where the generator put it. */
  lemma FallbackFenceFree(w: WeatherSummary, theme: string)
    requires '`' !in w.city && '`' !in w.description
    ensures '`' !in Stringify(FallbackObject(w, theme))
  {
    FallbackObjectFree(w, theme);
    RenderKeeps(FallbackObject(w, theme), 0, '`');
  }
}
