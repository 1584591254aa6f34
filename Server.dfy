/** The Express routes: the weather lookup and the stand-alone suggestion endpoint. The chat
    route runs the chat handler's POST logic, `ChatApi.PostChat`, which also records the weather
    fetch's error message. */
module Server {
  import opened JsCore
  import opened WeatherService
  import AiService
  import opened ChatApi

  const MissingLocation := "Please provide either city name or coordinates (lat, lon)"
  const DefaultWeatherError := "Failed to fetch weather data"
  const PromptRequired := "Prompt is required"
  const DefaultSuggestError := "Failed to generate suggestion"

  /** `GET /api/weather`: a city, or both coordinates, are required; the gateway's record is
      returned as is, and its error message (or a default text) with status 500. */
  function Weather(city: Option<string>, lat: Option<CoordParam>, lon: Option<CoordParam>,
                   provider: Provider): Response
  {
    if !Truthy(city) && (!CoordTruthy(lat) || !CoordTruthy(lon)) then
      Response(400, ErrorBody(MissingLocation))
    else
      match Fetch(city, lat, lon, provider).0
      case Ok(w) => Response(200, WeatherBody(w))
      case Err(m) => Response(500, ErrorBody(if m != "" then m else DefaultWeatherError))
  }

  method WeatherRoute(city: Option<string>, lat: Option<CoordParam>, lon: Option<CoordParam>,
                      provider: Provider)
    returns (res: Response)
    ensures res == Weather(city, lat, lon, provider)
  {
    if !Truthy(city) && (!CoordTruthy(lat) || !CoordTruthy(lon)) {
      return Response(400, ErrorBody(MissingLocation));
    }
    var weatherData, _ := GetWeatherData(city, lat, lon, provider);
    if weatherData.Ok? {
      res := Response(200, WeatherBody(weatherData.value));
    } else {
      res := Response(500, ErrorBody(if weatherData.message != "" then weatherData.message
                                     else DefaultWeatherError));
    }
  }

  /** `POST /api/suggest`: a prompt is required; the generator, with the `catch` `c`, runs with
      the default theme and no requested city, and its error message (or a default text) comes
      back with status 500. */
  function Suggest(prompt: Option<string>, weather: Option<AiService.WeatherSummary>,
                   env: AiService.Env, c: AiService.Catch): Response
  {
    if !Truthy(prompt) then Response(400, ErrorBody(PromptRequired))
    else
      match AiService.Generate(c, prompt.value, weather, "general", None, env).0
      case Ok(s) => Response(200, SuggestionBody(s))
      case Err(m) => Response(500, ErrorBody(if m != "" then m else DefaultSuggestError))
  }

  method SuggestRoute(prompt: Option<string>, weather: Option<AiService.WeatherSummary>,
                      env: AiService.Env, c: AiService.Catch)
    returns (res: Response)
    ensures res == Suggest(prompt, weather, env, c)
  {
    if !Truthy(prompt) {
      return Response(400, ErrorBody(PromptRequired));
    }
    var suggestion, waitMs, history :=
      AiService.GenerateWith(c, prompt.value, weather, "general", None, env);
    if suggestion.Ok? {
      res := Response(200, SuggestionBody(suggestion.value));
    } else {
      res := Response(500, ErrorBody(if suggestion.message != "" then suggestion.message
                                     else DefaultSuggestError));
    }
  }

  // ---------------------------------------------------------------------------------------------
  // Properties

  /** The weather route answers 400 exactly when the location is missing; every other request
      reaches the provider, and the answer is the record or a non-empty error. */
  lemma WeatherOutcomes(city: Option<string>, lat: Option<CoordParam>, lon: Option<CoordParam>,
                        provider: Provider)
    ensures var r := Weather(city, lat, lon, provider);
            (r.status == 400 <==> !Truthy(city) && (!CoordTruthy(lat) || !CoordTruthy(lon))) &&
            (r.status != 400 ==> |Fetch(city, lat, lon, provider).1| >= 1) &&
            (r.status == 200 <==> r.status != 400 && Fetch(city, lat, lon, provider).0.Ok?) &&
            (r.status == 200 ==> r.body == WeatherBody(Fetch(city, lat, lon, provider).0.value)) &&
            (r.status == 500 ==> r.body.ErrorBody? && r.body.error != "") &&
            r.status in {200, 400, 500}
  {
    if Truthy(city) {
      AtMostThreeRequests(city, lat, lon, provider);
    }
  }

  /** The suggestion route: a missing prompt is refused before the generator runs, whichever
      `catch` it has; with the corrected `catch` it always answers when given weather. */
  lemma SuggestOutcomes(prompt: Option<string>, weather: Option<AiService.WeatherSummary>,
                        env: AiService.Env, other: AiService.Env, c: AiService.Catch,
                        d: AiService.Catch)
    ensures !Truthy(prompt) ==>
            Suggest(prompt, weather, env, c) == Suggest(prompt, weather, other, d) ==
            Response(400, ErrorBody(PromptRequired))
    ensures Truthy(prompt) && weather.Some? ==>
            Suggest(prompt, weather, env, AiService.Corrected).status == 200
  {
    if Truthy(prompt) && weather.Some? {
      AiService.IntendedWithWeatherSucceeds(prompt.value, weather, "general", None, env);
    }
  }

  /** With the corrected `catch`, the suggestion route fails only without weather, and then with
      the quota text or the generation-failed text. */
  lemma CorrectedSuggestFailures(prompt: Option<string>, weather: Option<AiService.WeatherSummary>,
                                 env: AiService.Env)
    ensures var r := Suggest(prompt, weather, env, AiService.Corrected);
            r.status == 500 ==> (weather.None? &&
              (r.body == ErrorBody(AiService.QuotaExceededMessage) ||
               exists m :: r.body == ErrorBody(AiService.GenerationFailedMessage(m))))
  {
    if Truthy(prompt) {
      var g := AiService.IntendedGeneration(prompt.value, weather, "general", None, env).0;
      if g.Err? {
        AiService.IntendedErrors(prompt.value, weather, "general", None, env);
      }
    }
  }

  /** With the `catch` as written, the route passes a model's answer through and answers every
      failure, with weather or without, with status 500 and the `ReferenceError`'s message. */
  lemma AsWrittenSuggestOutcomes(prompt: Option<string>, weather: Option<AiService.WeatherSummary>,
                                 env: AiService.Env)
    requires Truthy(prompt)
    ensures var t := AiService.Attempted(prompt.value, weather, "general", None, env).0;
            var r := Suggest(prompt, weather, env, AiService.AsWritten);
            (t.Answered? ==> r == Response(200, SuggestionBody(t.text))) &&
            (t.Threw? ==> r == Response(500, ErrorBody(AiService.UndefinedWeatherMessage)))
  {
    assert AiService.UndefinedWeatherMessage != "" by {
      assert |AiService.UndefinedWeatherMessage| > 0;
    }
  }
}
