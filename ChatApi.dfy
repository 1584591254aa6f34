/** The serverless chat handler: checks the request, settles on a city, fetches weather that
    matches what the user asked about, asks the generator for an answer and turns a failure into
    a template answer or a user-facing error. */
module ChatApi {
  import opened JsCore
  import CityExtractor
  import opened WeatherService
  import AiService

  /** A JSON response body. */
  datatype Body =
    | NoBody
    | ErrorBody(error: string)
    | ErrorDetails(error: string, details: string)
    | ChatBody(response: string, weather: Option<WeatherRecord>)
    | WeatherBody(record: WeatherRecord)
    | SuggestionBody(suggestion: string)

  datatype Response = Response(status: int, body: Body)

  /** The fields of the request body the handler reads. */
  datatype ChatRequest = ChatRequest(
    message: Option<string>, city: Option<string>, lat: Option<CoordParam>,
    lon: Option<CoordParam>, theme: Option<string>)

  const MessageRequired := "Message is required"
  const MethodNotAllowed := "Method not allowed"
  const DefaultChatError := "Failed to process chat message"
  const QuotaFriendly := "APIの利用制限に達しました。しばらく時間をおいてから再度お試しください。"
  const GenericFriendly := "申し訳ございませんが、エラーが発生しました。もう一度お試しください。"

  /** The city the handler fetches weather for. With no city and no coordinates it is the city
      extracted from the message, else the trimmed message itself when that is shorter than 20
      characters and has no space; a given city is normalised; otherwise the given value stays. */
  function CityToUse(message: string, city: Option<string>, lat: Option<CoordParam>,
                     lon: Option<CoordParam>, capture: CityExtractor.Capture): Option<string>
  {
    if !Truthy(city) && !CoordTruthy(lat) && !CoordTruthy(lon) then
      var extracted := CityExtractor.ExtractCityFromMessage(Some(message), capture);
      if Truthy(extracted) then CityExtractor.NormalizeCityName(extracted)
      else
        var trimmed := Trim(message);
        if |trimmed| < 20 && !Contains(trimmed, " ") then CityExtractor.NormalizeCityName(Some(trimmed))
        else city
    else if Truthy(city) then CityExtractor.NormalizeCityName(city)
    else city
  }

  /** What the user asked about: the extracted city, else the trimmed message when it is shorter
      than 30 characters, else `null`. */
  function UserMentionedCity(message: string, capture: CityExtractor.Capture): Option<string> {
    Or(CityExtractor.ExtractCityFromMessage(Some(message), capture),
       if |Trim(message)| < 30 then Some(Trim(message)) else None)
  }

  /** The handler asks the gateway only with a truthy city or two truthy coordinates. */
  predicate ShouldFetch(cityToUse: Option<string>, lat: Option<CoordParam>, lon: Option<CoordParam>) {
    Truthy(cityToUse) || (CoordTruthy(lat) && CoordTruthy(lon))
  }

  /** The fetched city equals the city asked for, ignoring case; an absent city never matches. */
  predicate SameCity(w: WeatherRecord, cityToUse: Option<string>) {
    cityToUse.Some? && Lower(w.city) == Lower(cityToUse.value)
  }

  /** The weather the handler keeps: a successful fetch whose city matches `cityToUse`, unless
      the user mentioned no city; a failed fetch is dropped. */
  function ChatWeather(cityToUse: Option<string>, mentioned: Option<string>,
                       lat: Option<CoordParam>, lon: Option<CoordParam>,
                       provider: Provider): Option<WeatherRecord>
  {
    if !ShouldFetch(cityToUse, lat, lon) then None
    else
      match Fetch(cityToUse, lat, lon, provider).0
      case Err(_) => None
      case Ok(w) => if Truthy(mentioned) && !SameCity(w, cityToUse) then None else Some(w)
  }

  function Summary(weather: Option<WeatherRecord>): Option<AiService.WeatherSummary> {
    if weather.Some? then Some(AiService.Summarize(weather.value)) else None
  }

  /** The answer built from the weather alone when the generator fails. */
  function Template(w: WeatherRecord): string {
    w.city + "の現在の天気は" + w.description + "で、気温" + IntToString(w.temperature) +
    "°C（体感" + IntToString(w.feelsLike) + "°C）です。" + "天気に合わせた活動をお楽しみください。"
  }

  /** `error.message || 'Failed to process chat message'`. */
  function ErrorMessage(message: string): string {
    if message != "" then message else DefaultChatError
  }

  /** The user-facing text: the rate-limit text for a message mentioning "quota" or "429". */
  function FriendlyError(errorMessage: string): string {
    if Contains(errorMessage, "quota") || Contains(errorMessage, "429") then QuotaFriendly
    else GenericFriendly
  }

  /** The outer `catch`: status 500 with the user-facing text and the underlying message. */
  function Failure(message: string): Response {
    Response(500, ErrorDetails(FriendlyError(ErrorMessage(message)), ErrorMessage(message)))
  }

  /** The generator's outcome as the handler answers it. */
  function Answer(generated: Result<string>, weather: Option<WeatherRecord>): Response {
    match generated
    case Ok(text) => Response(200, ChatBody(text, weather))
    case Err(m) =>
      if weather.Some? then Response(200, ChatBody(Template(weather.value), weather))
      else Failure(m)
  }

  /** A POST to the chat endpoint, from the body check on, with the generator's `catch` `c`. */
  function Chat(req: ChatRequest, env: AiService.Env, c: AiService.Catch): Response {
    if !Truthy(req.message) then Response(400, ErrorBody(MessageRequired))
    else
      var message := req.message.value;
      var cityToUse := CityToUse(message, req.city, req.lat, req.lon, env.capture);
      var mentioned := UserMentionedCity(message, env.capture);
      var weather := ChatWeather(cityToUse, mentioned, req.lat, req.lon, env.provider);
      var generated := AiService.ProcessChatMessage(c, message, Summary(weather), req.theme,
                                                    Or(mentioned, cityToUse), env).0;
      Answer(generated, weather)
  }

  /** The whole handler: pre-flight requests end at once, other methods than POST are refused. */
  function Handle(httpMethod: string, req: ChatRequest, env: AiService.Env, c: AiService.Catch)
    : Response
  {
    if httpMethod == "OPTIONS" then Response(200, NoBody)
    else if httpMethod != "POST" then Response(405, ErrorBody(MethodNotAllowed))
    else Chat(req, env, c)
  }

  /** The settling of the city, step by step as the handler reassigns it. */
  method ResolveCity(message: string, city: Option<string>, lat: Option<CoordParam>,
                     lon: Option<CoordParam>, capture: CityExtractor.Capture)
    returns (cityToUse: Option<string>)
    ensures cityToUse == CityToUse(message, city, lat, lon, capture)
    ensures Truthy(cityToUse) ==> CityExtractor.Canonical(cityToUse.value)
  {
    cityToUse := city;
    if !Truthy(cityToUse) && !CoordTruthy(lat) && !CoordTruthy(lon) {
      var extracted := CityExtractor.ExtractCityFromMessage(Some(message), capture);
      if Truthy(extracted) {
        cityToUse := CityExtractor.NormalizeCityName(extracted);
      } else {
        var trimmed := Trim(message);
        if |trimmed| < 20 && !Contains(trimmed, " ") {
          cityToUse := CityExtractor.NormalizeCityName(Some(trimmed));
        }
      }
    } else if Truthy(cityToUse) {
      cityToUse := CityExtractor.NormalizeCityName(cityToUse);
    }
    CityToUseCases(message, city, lat, lon, capture);
  }

  /** The weather fetch: asked only with a target, dropped on a mismatch, and a failure kept
      only as its message. */
  method FetchForChat(cityToUse: Option<string>, mentioned: Option<string>,
                      lat: Option<CoordParam>, lon: Option<CoordParam>, provider: Provider)
    returns (weatherData: Option<WeatherRecord>, weatherError: Option<string>)
    ensures weatherData == ChatWeather(cityToUse, mentioned, lat, lon, provider)
    ensures weatherError.Some? <==>
            ShouldFetch(cityToUse, lat, lon) && Fetch(cityToUse, lat, lon, provider).0.Err?
    ensures weatherError.Some? ==> weatherError.value == Fetch(cityToUse, lat, lon, provider).0.message
  {
    weatherData, weatherError := None, None;
    if Truthy(cityToUse) || (CoordTruthy(lat) && CoordTruthy(lon)) {
      var fetched, _ := GetWeatherData(cityToUse, lat, lon, provider);
      if fetched.Ok? {
        weatherData := Some(fetched.value);
        if Truthy(mentioned) && !SameCity(fetched.value, cityToUse) {
          weatherData := None;
        }
      } else {
        weatherError := Some(fetched.message);
      }
    }
  }

  /** `processChatMessage`: the generator with the theme defaulting to `general` and the
      requested city falling back to the one extracted from the message. */
  method ProcessChat(c: AiService.Catch, message: string, weatherData: Option<WeatherRecord>,
                     theme: Option<string>, requestedCity: Option<string>, env: AiService.Env)
    returns (generated: Result<string>)
    ensures generated ==
            AiService.ProcessChatMessage(c, message, Summary(weatherData), theme, requestedCity, env).0
  {
    var city := Or(requestedCity, CityExtractor.ExtractCityFromMessage(Some(message), env.capture));
    var waitMs, history;
    generated, waitMs, history := AiService.GenerateWith(
      c, message, Summary(weatherData), theme.GetOr("general"), city, env);
  }

  /** A POST to the chat endpoint: the body check, the city, the weather fetch whose failure is
      swallowed (the Express route records its message), the generator, and the two ways a
      failure is answered. */
  method PostChat(req: ChatRequest, env: AiService.Env, c: AiService.Catch)
    returns (res: Response, weatherError: Option<string>)
    ensures res == Chat(req, env, c)
    ensures !Truthy(req.message) ==> weatherError.None?
    ensures Truthy(req.message) ==>
            var c := CityToUse(req.message.value, req.city, req.lat, req.lon, env.capture);
            (weatherError.Some? <==>
               ShouldFetch(c, req.lat, req.lon) && Fetch(c, req.lat, req.lon, env.provider).0.Err?)
  {
    if !Truthy(req.message) {
      return Response(400, ErrorBody(MessageRequired)), None;
    }
    var message := req.message.value;
    var cityToUse := ResolveCity(message, req.city, req.lat, req.lon, env.capture);
    var mentioned := UserMentionedCity(message, env.capture);
    var weatherData;
    weatherData, weatherError := FetchForChat(cityToUse, mentioned, req.lat, req.lon, env.provider);
    var generated := ProcessChat(c, message, weatherData, req.theme, Or(mentioned, cityToUse), env);
    assert Chat(req, env, c) == Answer(generated, weatherData);
    match generated
    case Ok(text) =>
      res := Response(200, ChatBody(text, weatherData));
    case Err(m) =>
      if weatherData.Some? {
        res := Response(200, ChatBody(Template(weatherData.value), weatherData));
      } else {
        res := Failure(m);
      }
  }

  /** The serverless handler: pre-flight requests end at once, methods other than POST are
      refused, and a POST is answered as above. */
  method Handler(httpMethod: string, req: ChatRequest, env: AiService.Env, c: AiService.Catch)
    returns (res: Response)
    ensures res == Handle(httpMethod, req, env, c)
  {
    if httpMethod == "OPTIONS" {
      return Response(200, NoBody);
    }
    if httpMethod != "POST" {
      return Response(405, ErrorBody(MethodNotAllowed));
    }
    var weatherError;
    res, weatherError := PostChat(req, env, c);
  }

  // ---------------------------------------------------------------------------------------------
  // Properties

  /** Method and body checks come first: their answers do not depend on the services. */
  lemma ChecksPrecedeServices(httpMethod: string, req: ChatRequest, env: AiService.Env,
                              other: AiService.Env, c: AiService.Catch, d: AiService.Catch)
    requires httpMethod != "POST" || !Truthy(req.message)
    ensures Handle(httpMethod, req, env, c) == Handle(httpMethod, req, other, d)
    ensures Handle(httpMethod, req, env, c).status in {200, 400, 405}
    ensures Handle(httpMethod, req, env, c).status == 400 <==>
            httpMethod == "POST" && !Truthy(req.message)
  {
  }

  /** Whatever truthy city the handler settles on is canonical: normalising it again changes
      nothing. A given city wins; without city and coordinates an extracted city is used as
      extracted; with coordinates alone the falsy city stays. */
  lemma {:induction false} CityToUseCases(message: string, city: Option<string>,
                                          lat: Option<CoordParam>, lon: Option<CoordParam>,
                                          capture: CityExtractor.Capture)
    ensures var r := CityToUse(message, city, lat, lon, capture);
            Truthy(r) ==> CityExtractor.Canonical(r.value) &&
                          CityExtractor.NormalizeCityName(r) == r
    ensures Truthy(city) ==>
            CityToUse(message, city, lat, lon, capture) == CityExtractor.NormalizeCityName(city)
    ensures var e := CityExtractor.ExtractCityFromMessage(Some(message), capture);
            !Truthy(city) && !CoordTruthy(lat) && !CoordTruthy(lon) && Truthy(e) ==>
            CityToUse(message, city, lat, lon, capture) == e
    ensures !Truthy(city) && (CoordTruthy(lat) || CoordTruthy(lon)) ==>
            CityToUse(message, city, lat, lon, capture) == city
  {
    var r := CityToUse(message, city, lat, lon, capture);
    var e := CityExtractor.ExtractCityFromMessage(Some(message), capture);
    if !Truthy(city) && !CoordTruthy(lat) && !CoordTruthy(lon) {
      if Truthy(e) {
        assert r == CityExtractor.NormalizeCityName(e);
        CityExtractor.ExtractCanonical(Some(message), capture);
        assert r == e;
      } else {
        var trimmed := Trim(message);
        if |trimmed| < 20 && !Contains(trimmed, " ") {
          assert r == CityExtractor.NormalizeCityName(Some(trimmed));
          if Truthy(r) {
            CityExtractor.NormalizeCanonical(Some(trimmed));
          }
        } else {
          assert r == city;
        }
      }
    } else if Truthy(city) {
      assert r == CityExtractor.NormalizeCityName(city);
      if Truthy(r) {
        CityExtractor.NormalizeCanonical(city);
      }
    } else {
      assert r == city;
    }
    if Truthy(r) {
      CityExtractor.CanonicalFixed(r.value);
    }
  }

  /** Weather reaches the generator only when it was fetched and, if the user mentioned a city,
      only when its city equals the city asked for, ignoring case. */
  lemma KeptWeatherMatches(cityToUse: Option<string>, mentioned: Option<string>,
                           lat: Option<CoordParam>, lon: Option<CoordParam>, provider: Provider)
    requires ChatWeather(cityToUse, mentioned, lat, lon, provider).Some?
    ensures var w := ChatWeather(cityToUse, mentioned, lat, lon, provider).value;
            ShouldFetch(cityToUse, lat, lon) &&
            Fetch(cityToUse, lat, lon, provider).0 == Ok(w) &&
            (Truthy(mentioned) ==> cityToUse.Some? && Lower(w.city) == Lower(cityToUse.value))
  {
  }

  /** A coordinates-only request whose message names a city never keeps the fetched weather:
      without a city to compare with, every fetched record counts as a mismatch. */
  lemma CoordinatesOnlyDiscarded(req: ChatRequest, env: AiService.Env)
    requires Truthy(req.message) && req.city.None?
    requires CoordTruthy(req.lat) && CoordTruthy(req.lon)
    requires Truthy(UserMentionedCity(req.message.value, env.capture))
    ensures var m := req.message.value;
            var c := CityToUse(m, req.city, req.lat, req.lon, env.capture);
            c.None? && ChatWeather(c, UserMentionedCity(m, env.capture), req.lat, req.lon,
                                   env.provider).None?
  {
  }

  /** A failed fetch does not fail the request: the generator is asked without weather. */
  lemma FetchFailureSwallowed(req: ChatRequest, env: AiService.Env, c: AiService.Catch)
    requires Truthy(req.message)
    requires var m := req.message.value;
             var cityToUse := CityToUse(m, req.city, req.lat, req.lon, env.capture);
             ShouldFetch(cityToUse, req.lat, req.lon) &&
             Fetch(cityToUse, req.lat, req.lon, env.provider).0.Err?
    ensures var m := req.message.value;
            var cityToUse := CityToUse(m, req.city, req.lat, req.lon, env.capture);
            var mentioned := UserMentionedCity(m, env.capture);
            Chat(req, env, c) ==
            Answer(AiService.ProcessChatMessage(c, m, None, req.theme, Or(mentioned, cityToUse), env).0,
                   None)
  {
  }

  /** With the corrected `catch`, the generator answers whenever it is given weather, so a 500
      happens only without weather and the template answer is never needed. */
  lemma {:induction false} ErrorsOnlyWithoutWeather(req: ChatRequest, env: AiService.Env)
    requires Truthy(req.message)
    ensures var m := req.message.value;
            var c := CityToUse(m, req.city, req.lat, req.lon, env.capture);
            var mentioned := UserMentionedCity(m, env.capture);
            var weather := ChatWeather(c, mentioned, req.lat, req.lon, env.provider);
            var generated := AiService.ProcessChatMessage(AiService.Corrected, m, Summary(weather),
                                                          req.theme, Or(mentioned, c), env).0;
            var r := Chat(req, env, AiService.Corrected);
            (weather.Some? ==> generated.Ok? && r == Response(200, ChatBody(generated.value, weather))) &&
            (r.status == 500 ==> weather.None? && generated.Err?)
  {
    var m := req.message.value;
    var c := CityToUse(m, req.city, req.lat, req.lon, env.capture);
    var mentioned := UserMentionedCity(m, env.capture);
    var weather := ChatWeather(c, mentioned, req.lat, req.lon, env.provider);
    if weather.Some? {
      AiService.IntendedWithWeatherSucceeds(m, Summary(weather), req.theme.GetOr("general"),
        Or(Or(mentioned, c), CityExtractor.ExtractCityFromMessage(Some(m), env.capture)), env);
    }
  }

  /** With the `catch` as written, every failure of the model reaches the handler as the
      `ReferenceError`: with weather kept the user gets the template answer (a quota error
      included), and without weather a 500 with the generic text and the `ReferenceError`'s
      message. A model that answers is passed through with the kept weather. */
  lemma {:induction false} AsWrittenChatOutcomes(req: ChatRequest, env: AiService.Env)
    requires Truthy(req.message)
    ensures var m := req.message.value;
            var c := CityToUse(m, req.city, req.lat, req.lon, env.capture);
            var mentioned := UserMentionedCity(m, env.capture);
            var weather := ChatWeather(c, mentioned, req.lat, req.lon, env.provider);
            var t := AiService.Attempted(m, Summary(weather), req.theme.GetOr("general"),
              Or(Or(mentioned, c), CityExtractor.ExtractCityFromMessage(Some(m), env.capture)), env).0;
            var r := Chat(req, env, AiService.AsWritten);
            (t.Answered? ==> r == Response(200, ChatBody(t.text, weather))) &&
            (t.Threw? && weather.Some? ==>
               r == Response(200, ChatBody(Template(weather.value), weather))) &&
            (t.Threw? && weather.None? ==>
               r == Response(500, ErrorDetails(GenericFriendly, AiService.UndefinedWeatherMessage)))
  {
    var m := req.message.value;
    var c := CityToUse(m, req.city, req.lat, req.lon, env.capture);
    var mentioned := UserMentionedCity(m, env.capture);
    var weather := ChatWeather(c, mentioned, req.lat, req.lon, env.provider);
    var theme := req.theme.GetOr("general");
    var city := Or(Or(mentioned, c), CityExtractor.ExtractCityFromMessage(Some(m), env.capture));
    var g := AiService.Generation(m, Summary(weather), theme, city, env).0;
    assert Chat(req, env, AiService.AsWritten) == Answer(g, weather);
    var t := AiService.Attempted(m, Summary(weather), theme, city, env).0;
    if t.Threw? {
      AiService.AsWrittenAlwaysThrows(m, Summary(weather), theme, city, env);
      UndefinedIsGeneric();
    }
  }

  /** The `ReferenceError`'s message mentions neither "quota" nor "429". */
  lemma UndefinedIsGeneric()
    ensures Failure(AiService.UndefinedWeatherMessage) ==
            Response(500, ErrorDetails(GenericFriendly, AiService.UndefinedWeatherMessage))
  {
    GenericText(AiService.UndefinedWeatherMessage);
  }

  lemma GenericText(s: string)
    requires s == "finalWeatherData is not defined"
    ensures Failure(s) == Response(500, ErrorDetails(GenericFriendly, s))
  {
    assert 'q' !in s && '4' !in s;
    NotContainsFirst(s, "quota");
    NotContainsFirst(s, "429");
  }

  /** The two user-facing texts differ. */
  lemma FriendlyTextsDiffer()
    ensures QuotaFriendly != GenericFriendly
  {
    assert |QuotaFriendly| == 37 && |GenericFriendly| == 34;
  }

  /** The rate-limit text is shown exactly when the message mentions "quota" or "429"; the
      details carry the message, or the default text when it is empty. */
  lemma FailureClassified(message: string)
    ensures var r := Failure(message);
            r.status == 500 && r.body.ErrorDetails? && r.body.details != "" &&
            (message != "" ==> r.body.details == message) &&
            (message == "" ==> r.body.details == DefaultChatError) &&
            (r.body.error == QuotaFriendly <==>
               Contains(r.body.details, "quota") || Contains(r.body.details, "429"))
  {
    FriendlyTextsDiffer();
  }

  /** The generator's own quota failure reaches the user as the rate-limit text. */
  lemma QuotaMessageClassified()
    ensures Failure(AiService.QuotaExceededMessage) ==
            Response(500, ErrorDetails(QuotaFriendly, AiService.QuotaExceededMessage))
  {
    var head := "API quota exceeded.";
    var s := AiService.QuotaExceededMessage;
    assert s[4..9] == head[4..9];
    ContainsAt(s, "quota", 4);
  }
}
