/** The weather gateway: maps a city name to the provider's spelling, asks the provider with up
    to three query strategies, rewrites provider failures into fixed messages, and formats the
    provider's record. The provider is a function from query to reply. */
module WeatherService {
  import opened JsCore
  import CityExtractor

  /** A `lat`/`lon` parameter as received: a JSON number or a query-string text. */
  datatype CoordParam = Number(x: real) | Text(s: string)

  /** JavaScript truthiness of a present coordinate parameter. */
  predicate CoordTruthy(c: Option<CoordParam>) {
    c.Some? &&
    match c.value
    case Number(x) => x != 0.0
    case Text(s) => s != ""
  }

  /** One request to the provider: `q=<name><suffix>`, or `lat=…&lon=…`. */
  datatype Query = ByName(name: string, suffix: string) | ByCoords(lat: CoordParam, lon: CoordParam)

  /** The provider's record, reduced to the fields that `formatWeatherData` reads. */
  datatype ProviderData = ProviderData(
    name: string, country: string, temp: real, feelsLike: real, description: string,
    main: string, humidity: int, windSpeed: real, icon: string, lat: real, lon: real)

  /** A provider reply: a 2xx body, an HTTP error status with the body's optional `message`,
      or an error with no response (network failure) and its message. */
  datatype ProviderReply =
    | Fetched(data: ProviderData)
    | HttpError(status: int, message: Option<string>)
    | NoResponse(error: string)

  type Provider = Query -> ProviderReply

  /** The record handed to callers. */
  datatype WeatherRecord = WeatherRecord(
    city: string, country: string, temperature: int, feelsLike: int, description: string,
    main: string, humidity: int, windSpeed: real, icon: string, lat: real, lon: real)

  /** `cityNameMap`: Japanese names, then lower-case English names, to the provider's names. */
  const CityNameMap: CityExtractor.Table :=
    CityExtractor.Zip(CityExtractor.JapaneseNames, CityExtractor.EnglishNames) +
    CityExtractor.Zip(CityExtractor.LowerEnglishNames, CityExtractor.EnglishNames)

  /** The name sent to the provider: the trimmed key's entry, else its lower-cased entry, else
      the trimmed key itself. */
  function MapCityName(city: string): (r: string)
    ensures (CityExtractor.Lookup(CityNameMap, Trim(city)).None? &&
             CityExtractor.Lookup(CityNameMap, Lower(Trim(city))).None?) ==> r == Trim(city)
  {
    var key := Trim(city);
    match CityExtractor.Lookup(CityNameMap, key)
    case Some(name) => name
    case None => CityExtractor.Lookup(CityNameMap, Lower(key)).GetOr(key)
  }

  /** The three query strategies, in the order they are tried. */
  function Strategies(name: string): (qs: seq<Query>)
    ensures |qs| == 3
    ensures forall i :: 0 <= i < 3 ==> qs[i].ByName? && qs[i].name == name
  {
    [ByName(name, ",JP"), ByName(name, ""), ByName(name, ",Japan")]
  }

  /** `Math.round`: the nearest integer, halves rounded up. */
  function Round(x: real): (r: int)
    ensures x - 0.5 < r as real <= x + 0.5
  {
    (x + 0.5).Floor
  }

  /** `formatWeatherData`. */
  function Format(d: ProviderData): WeatherRecord {
    WeatherRecord(d.name, d.country, Round(d.temp), Round(d.feelsLike), d.description, d.main,
                  d.humidity, d.windSpeed, d.icon, d.lat, d.lon)
  }

  /** A failed attempt that moves on to the next strategy: a 404, or no response at all. */
  predicate Advances(reply: ProviderReply) {
    reply.NoResponse? || (reply.HttpError? && reply.status == 404)
  }

  const CoordNotFoundMessage := "City not found. Please check the city name."
  const NeitherMessage := "Either city name or coordinates must be provided"

  function ApiErrorMessage(message: Option<string>): string {
    "Weather API error: " + (if Truthy(message) then message.value else "Unknown error")
  }

  function NotFoundMessage(cityKey: string): string {
    "City \"" + cityKey + "\" not found. Please check the city name."
  }

  /** The outer `catch`: an HTTP failure is rewritten by status; anything else passes through. */
  function Rewrite(reply: ProviderReply): Result<WeatherRecord>
    requires !reply.Fetched?
  {
    match reply
    case HttpError(status, message) =>
      if status == 404 then Err(CoordNotFoundMessage) else Err(ApiErrorMessage(message))
    case NoResponse(error) => Err(error)
  }

  /** After the last strategy: a final 404 names the trimmed input; any other last error is
      thrown as it is. */
  function Exhausted(cityKey: string, lastError: Option<ProviderReply>): Result<WeatherRecord> {
    match lastError
    case None => Err("Failed to fetch weather data")
    case Some(reply) =>
      if reply.HttpError? && reply.status == 404 then Err(NotFoundMessage(cityKey))
      else if reply.Fetched? then Err("Failed to fetch weather data")
      else Rewrite(reply)
  }

  /** The strategy loop from the remaining strategies `qs` on: the outcome and the requests it
      sends. */
  function TryStrategies(provider: Provider, cityKey: string, qs: seq<Query>,
                         lastError: Option<ProviderReply>): (Result<WeatherRecord>, seq<Query>)
  {
    if qs == [] then (Exhausted(cityKey, lastError), [])
    else
      var reply := provider(qs[0]);
      match reply
      case Fetched(d) => (Ok(Format(d)), [qs[0]])
      case HttpError(status, message) =>
        if status != 404 then (Rewrite(reply), [qs[0]])
        else
          var rest := TryStrategies(provider, cityKey, qs[1..], Some(reply));
          (rest.0, [qs[0]] + rest.1)
      case NoResponse(_) =>
        var rest := TryStrategies(provider, cityKey, qs[1..], Some(reply));
        (rest.0, [qs[0]] + rest.1)
  }

  /** The outcome after the requests `sent`, continuing with the strategies `qs`. */
  function Resume(provider: Provider, cityKey: string, sent: seq<Query>, qs: seq<Query>,
                  lastError: Option<ProviderReply>): (Result<WeatherRecord>, seq<Query>)
  {
    var rest := TryStrategies(provider, cityKey, qs, lastError);
    (rest.0, sent + rest.1)
  }

  /** `getWeatherData(city, lat, lon)`: its outcome and the requests it sends, in order. */
  function Fetch(city: Option<string>, lat: Option<CoordParam>, lon: Option<CoordParam>,
                 provider: Provider): (Result<WeatherRecord>, seq<Query>)
  {
    if Truthy(city) then
      TryStrategies(provider, Trim(city.value), Strategies(MapCityName(city.value)), None)
    else if CoordTruthy(lat) && CoordTruthy(lon) then
      var q := ByCoords(lat.value, lon.value);
      var reply := provider(q);
      (if reply.Fetched? then Ok(Format(reply.data)) else Rewrite(reply), [q])
    else (Err(NeitherMessage), [])
  }

  /** The strategy loop as the source runs it: each strategy in turn, keeping the last error. */
  method RunStrategies(provider: Provider, cityKey: string, strategies: seq<Query>)
    returns (r: Result<WeatherRecord>, sent: seq<Query>)
    ensures (r, sent) == TryStrategies(provider, cityKey, strategies, None)
  {
    ghost var whole := TryStrategies(provider, cityKey, strategies, None);
    var lastError: Option<ProviderReply> := None;
    sent := [];
    var i := 0;
    assert strategies[i..] == strategies && [] + whole.1 == whole.1;
    while i < |strategies|
      invariant 0 <= i <= |strategies|
      invariant sent == strategies[..i]
      invariant i == 0 ==> lastError.None?
      invariant i > 0 ==> lastError.Some? && Advances(lastError.value)
      invariant whole == Resume(provider, cityKey, sent, strategies[i..], lastError)
    {
      var reply := provider(strategies[i]);
      ghost var before := sent;
      assert strategies[i..][0] == strategies[i];
      sent := sent + [strategies[i]];
      if reply.Fetched? {
        r := Ok(Format(reply.data));
        return;
      }
      lastError := Some(reply);
      if reply.HttpError? && reply.status != 404 {
        r := Rewrite(reply);
        return;
      }
      assert strategies[i..][1..] == strategies[i + 1..];
      ghost var rest := TryStrategies(provider, cityKey, strategies[i + 1..], lastError);
      assert before + ([strategies[i]] + rest.1) == sent + rest.1;
      i := i + 1;
    }
    assert strategies[i..] == [] && sent + [] == sent;
    if lastError.Some? && lastError.value.HttpError? && lastError.value.status == 404 {
      r := Err(NotFoundMessage(cityKey));
    } else {
      r := Exhausted(cityKey, lastError);
    }
  }

  /** `getWeatherData(city, lat, lon)`: a city name goes through the strategy loop; otherwise two
      truthy coordinates make one request; otherwise nothing is sent. */
  method GetWeatherData(city: Option<string>, lat: Option<CoordParam>, lon: Option<CoordParam>,
                        provider: Provider)
    returns (r: Result<WeatherRecord>, sent: seq<Query>)
    ensures (r, sent) == Fetch(city, lat, lon, provider)
  {
    if Truthy(city) {
      var cityKey := Trim(city.value);
      r, sent := RunStrategies(provider, cityKey, Strategies(MapCityName(city.value)));
    } else if CoordTruthy(lat) && CoordTruthy(lon) {
      var q := ByCoords(lat.value, lon.value);
      var reply := provider(q);
      sent := [q];
      if reply.Fetched? {
        r := Ok(Format(reply.data));
      } else {
        r := Rewrite(reply);
      }
    } else {
      r, sent := Err(NeitherMessage), [];
    }
  }

  // ---------------------------------------------------------------------------------------------
  // Name mapping

  lemma CityNameEntry(j: nat)
    requires j < |CityNameMap|
    ensures |CityNameMap| == 40
    ensures j < 20 ==> CityNameMap[j] == (CityExtractor.JapaneseNames[j], CityExtractor.EnglishNames[j])
    ensures 20 <= j ==>
      CityNameMap[j] == (CityExtractor.LowerEnglishNames[j - 20], CityExtractor.EnglishNames[j - 20])
  {
  }

  lemma LowerNamesDistinct()
    ensures forall i, j :: 0 <= j < i < |CityExtractor.LowerEnglishNames| ==>
      CityExtractor.LowerEnglishNames[j] != CityExtractor.LowerEnglishNames[i]
  {
  }

  lemma SameLowerName(k: nat, i: nat)
    requires k < 20 && i < 20
    requires CityExtractor.LowerEnglishNames[k] == CityExtractor.LowerEnglishNames[i]
    ensures k == i
  {
    LowerNamesDistinct();
  }

  lemma LowerIdempotent(s: string)
    ensures Lower(Lower(s)) == Lower(s)
  {
  }

  lemma LowerNameShape(i: nat)
    requires i < |CityExtractor.LowerEnglishNames|
    ensures CityExtractor.RomajiWord(CityExtractor.LowerEnglishNames[i])
  {
    CityExtractor.LowerShapes();
    assert CityExtractor.LowerEnglishNames[i] in CityExtractor.LowerEnglishNames;
  }

  /** A key whose lower-cased form is a lower-case English city name is not a Japanese key. */
  lemma LowerKeyNotJapanese(t: string, i: nat, j: nat)
    requires i < 20 && j < 20 && Lower(t) == CityExtractor.LowerEnglishNames[i]
    ensures t != CityExtractor.JapaneseNames[j]
  {
    LowerNameShape(i);
    CityExtractor.JapaneseShape(j);
  }

  /** Any spelling of an English city name in any letter case, with any surrounding white space,
      maps to that city's English name (e.g. "TOKYO" and " tokyo " to "Tokyo"). */
  lemma MapCityNameAnyCase(city: string, i: nat)
    requires i < |CityExtractor.LowerEnglishNames|
    requires Lower(Trim(city)) == CityExtractor.LowerEnglishNames[i]
    ensures MapCityName(city) == CityExtractor.EnglishNames[i]
  {
    var t := Trim(city);
    if CityExtractor.Lookup(CityNameMap, t).Some? {
      ExactKeyHit(t, i);
    } else {
      LowerKeyHit(t, i);
    }
  }

  /** A key found as it is, whose lower-cased form is the i-th lower-case name, is that name. */
  lemma ExactKeyHit(t: string, i: nat)
    requires i < |CityExtractor.LowerEnglishNames|
    requires Lower(t) == CityExtractor.LowerEnglishNames[i]
    requires CityExtractor.Lookup(CityNameMap, t).Some?
    ensures CityExtractor.Lookup(CityNameMap, t).value == CityExtractor.EnglishNames[i]
  {
    var exact := CityExtractor.Lookup(CityNameMap, t);
    var j :| 0 <= j < |CityNameMap| && CityNameMap[j] == (t, exact.value);
    CityNameEntry(j);
    if j < 20 {
      LowerKeyNotJapanese(t, i, j);
      assert false;
    } else {
      var e := CityExtractor.EnglishNames[j - 20];
      CityExtractor.LowerName(j - 20);
      LowerIdempotent(e);
      assert t == Lower(e) == Lower(t);
      SameLowerName(j - 20, i);
    }
  }

  /** The lower-cased key finds the i-th English name in the lower-case half of the table. */
  lemma LowerKeyHit(t: string, i: nat)
    requires i < |CityExtractor.LowerEnglishNames|
    requires Lower(t) == CityExtractor.LowerEnglishNames[i]
    ensures CityExtractor.Lookup(CityNameMap, Lower(t)) == Some(CityExtractor.EnglishNames[i])
  {
    LowerNamesDistinct();
    CityNameEntry(20 + i);
    forall j | 0 <= j < 20 + i ensures CityNameMap[j].0 != Lower(t) {
      CityNameEntry(j);
      if j < 20 {
        LowerKeyNotJapanese(Lower(t), i, j);
        LowerIdempotent(t);
      }
    }
    CityExtractor.LookupAt(CityNameMap, Lower(t), 20 + i);
  }

  /** A Japanese city name, trimmed, maps to its English name (e.g. "東京" to "Tokyo"). */
  lemma MapCityNameJapanese(city: string, i: nat)
    requires i < |CityExtractor.JapaneseNames| && Trim(city) == CityExtractor.JapaneseNames[i]
    ensures MapCityName(city) == CityExtractor.EnglishNames[i]
  {
    CityExtractor.JapaneseNamesDistinct();
    CityNameEntry(i);
    CityExtractor.LookupAt(CityNameMap, Trim(city), i);
  }

  lemma MapCityNameExamples(upper: string, kanji: string)
    requires upper == "TOKYO" && kanji == "東京"
    ensures MapCityName(upper) == "Tokyo" && MapCityName(kanji) == "Tokyo"
  {
    TrimFixed(upper);
    TrimFixed(kanji);
    CityExtractor.LowerEach(upper, "tokyo");
    MapCityNameAnyCase(upper, 0);
    MapCityNameJapanese(kanji, 0);
  }

  // ---------------------------------------------------------------------------------------------
  // The strategy loop

  /** The requests of the loop are a non-empty prefix of the strategies. */
  lemma {:induction false} TriedPrefix(provider: Provider, cityKey: string, qs: seq<Query>,
                                       lastError: Option<ProviderReply>)
    requires qs != []
    ensures var sent := TryStrategies(provider, cityKey, qs, lastError).1;
      1 <= |sent| <= |qs| && sent == qs[..|sent|]
  {
    var reply := provider(qs[0]);
    if Advances(reply) && |qs| > 1 {
      TriedPrefix(provider, cityKey, qs[1..], Some(reply));
      var rest := TryStrategies(provider, cityKey, qs[1..], Some(reply)).1;
      assert [qs[0]] + rest == qs[..|rest| + 1];
    }
  }

  /** Strategies that 404 or get no response are passed over: the loop then behaves as if it
      started at strategy `i` with the `i`-th reply as the last error. */
  lemma {:induction false} SkipAdvancing(provider: Provider, cityKey: string, qs: seq<Query>,
                                         lastError: Option<ProviderReply>, i: nat)
    requires 0 < i <= |qs|
    requires forall j :: 0 <= j < i ==> Advances(provider(qs[j]))
    ensures TryStrategies(provider, cityKey, qs, lastError) ==
            Resume(provider, cityKey, qs[..i], qs[i..], Some(provider(qs[i - 1])))
  {
    var reply := provider(qs[0]);
    if i > 1 {
      SkipAdvancing(provider, cityKey, qs[1..], Some(reply), i - 1);
      assert qs[1..][..i - 1] == qs[1..i] && qs[1..][i - 1..] == qs[i..];
      assert qs[1..][i - 2] == qs[i - 1];
      var rest := TryStrategies(provider, cityKey, qs[i..], Some(provider(qs[i - 1]))).1;
      assert [qs[0]] + (qs[1..i] + rest) == qs[..i] + rest;
    } else {
      assert qs[1..] == qs[i..] && qs[..i] == [qs[0]];
    }
  }

  /** The strategies tried for a city name. */
  function CityStrategies(city: Option<string>): seq<Query>
    requires Truthy(city)
  {
    Strategies(MapCityName(city.value))
  }

  /** A city name makes at most three requests: the strategies, in order, up to the first that
      does not move on. */
  lemma AtMostThreeRequests(city: Option<string>, lat: Option<CoordParam>, lon: Option<CoordParam>,
                            provider: Provider)
    requires Truthy(city)
    ensures var sent := Fetch(city, lat, lon, provider).1;
      1 <= |sent| <= 3 && sent == CityStrategies(city)[..|sent|]
  {
    TriedPrefix(provider, Trim(city.value), CityStrategies(city), None);
  }

  /** The reply that ends the loop early, after strategies that moved on. */
  lemma {:induction false} StopsAt(provider: Provider, cityKey: string, qs: seq<Query>,
                                   lastError: Option<ProviderReply>, i: nat)
    requires i < |qs| && !Advances(provider(qs[i]))
    requires forall j :: 0 <= j < i ==> Advances(provider(qs[j]))
    ensures var reply := provider(qs[i]);
      TryStrategies(provider, cityKey, qs, lastError) ==
        (if reply.Fetched? then Ok(Format(reply.data)) else Rewrite(reply), qs[..i + 1])
  {
    if i > 0 {
      SkipAdvancing(provider, cityKey, qs, lastError, i);
      assert qs[i..][0] == qs[i];
      var rest := TryStrategies(provider, cityKey, qs[i..], Some(provider(qs[i - 1])));
      assert rest.1 == [qs[i]];
      assert qs[..i] + [qs[i]] == qs[..i + 1];
    } else {
      assert qs[..1] == [qs[0]];
    }
  }

  /** The first strategy that succeeds decides the record, formatted; later strategies are not
      tried. */
  lemma FirstSuccessWins(city: Option<string>, lat: Option<CoordParam>, lon: Option<CoordParam>,
                         provider: Provider, i: nat, d: ProviderData)
    requires Truthy(city) && i < 3
    requires forall j :: 0 <= j < i ==> Advances(provider(CityStrategies(city)[j]))
    requires provider(CityStrategies(city)[i]) == Fetched(d)
    ensures Fetch(city, lat, lon, provider) == (Ok(Format(d)), CityStrategies(city)[..i + 1])
  {
    StopsAt(provider, Trim(city.value), CityStrategies(city), None, i);
  }

  /** An HTTP error other than 404 ends the loop at once, reported with the provider's message. */
  lemma OtherStatusStops(city: Option<string>, lat: Option<CoordParam>, lon: Option<CoordParam>,
                         provider: Provider, i: nat, status: int, message: Option<string>)
    requires Truthy(city) && i < 3 && status != 404
    requires forall j :: 0 <= j < i ==> Advances(provider(CityStrategies(city)[j]))
    requires provider(CityStrategies(city)[i]) == HttpError(status, message)
    ensures Fetch(city, lat, lon, provider) ==
            (Err(ApiErrorMessage(message)), CityStrategies(city)[..i + 1])
  {
    StopsAt(provider, Trim(city.value), CityStrategies(city), None, i);
  }

  /** When every strategy moves on, all three are sent and only the last reply decides: a 404
      names the trimmed input (not the mapped name); no response passes its message through. */
  lemma LastErrorDecides(city: Option<string>, lat: Option<CoordParam>, lon: Option<CoordParam>,
                         provider: Provider)
    requires Truthy(city)
    requires forall j :: 0 <= j < 3 ==> Advances(provider(CityStrategies(city)[j]))
    ensures Fetch(city, lat, lon, provider).1 == CityStrategies(city)
    ensures var last := provider(CityStrategies(city)[2]);
      Fetch(city, lat, lon, provider).0 ==
        if last.NoResponse? then Err(last.error) else Err(NotFoundMessage(Trim(city.value)))
  {
    var qs := CityStrategies(city);
    SkipAdvancing(provider, Trim(city.value), qs, None, 3);
    assert qs[..3] == qs && qs[3..] == [];
  }

  /** Strategy transparency: a record found by the second strategy after a 404 is the record the
      first strategy would have produced from the same provider data. */
  lemma StrategyTransparency(city: Option<string>, lat: Option<CoordParam>, lon: Option<CoordParam>,
                             direct: Provider, retried: Provider, d: ProviderData)
    requires Truthy(city)
    requires direct(CityStrategies(city)[0]) == Fetched(d)
    requires retried(CityStrategies(city)[0]).HttpError? && retried(CityStrategies(city)[0]).status == 404
    requires retried(CityStrategies(city)[1]) == Fetched(d)
    ensures Fetch(city, lat, lon, direct).0 == Fetch(city, lat, lon, retried).0 == Ok(Format(d))
  {
    var qs := CityStrategies(city);
    assert forall j :: 0 <= j < 1 ==> Advances(retried(qs[j])) by {
      assert Advances(retried(qs[0]));
    }
    FirstSuccessWins(city, lat, lon, direct, 0, d);
    FirstSuccessWins(city, lat, lon, retried, 1, d);
    assert Fetch(city, lat, lon, retried).0 == Ok(Format(d));
  }

  /** A truthy city takes precedence: the coordinates are then ignored. */
  lemma CityTakesPrecedence(city: Option<string>, lat: Option<CoordParam>, lon: Option<CoordParam>,
                            lat2: Option<CoordParam>, lon2: Option<CoordParam>, provider: Provider)
    requires Truthy(city)
    ensures Fetch(city, lat, lon, provider) == Fetch(city, lat2, lon2, provider)
    ensures forall q :: q in Fetch(city, lat, lon, provider).1 ==> q.ByName?
  {
    AtMostThreeRequests(city, lat, lon, provider);
  }

  /** Without a city, two truthy coordinates make exactly one request, whose 404 becomes the fixed
      not-found message; with a falsy coordinate nothing is sent and the call fails. */
  lemma CoordinateBranch(city: Option<string>, lat: Option<CoordParam>, lon: Option<CoordParam>,
                         provider: Provider)
    requires !Truthy(city)
    ensures CoordTruthy(lat) && CoordTruthy(lon) ==>
      Fetch(city, lat, lon, provider).1 == [ByCoords(lat.value, lon.value)] &&
      var reply := provider(ByCoords(lat.value, lon.value));
      (reply.HttpError? && reply.status == 404 ==> Fetch(city, lat, lon, provider).0 == Err(CoordNotFoundMessage))
    ensures !(CoordTruthy(lat) && CoordTruthy(lon)) ==>
      Fetch(city, lat, lon, provider) == (Err(NeitherMessage), [])
  {
  }

  /** `formatWeatherData` copies the provider's fields and rounds only the two temperatures, each
      to the nearest integer. */
  lemma FormatRoundsTemperatures(d: ProviderData)
    ensures var w := Format(d);
      w.city == d.name && w.country == d.country && w.description == d.description &&
      w.main == d.main && w.humidity == d.humidity && w.windSpeed == d.windSpeed &&
      w.icon == d.icon && w.lat == d.lat && w.lon == d.lon &&
      d.temp - 0.5 < w.temperature as real <= d.temp + 0.5 &&
      d.feelsLike - 0.5 < w.feelsLike as real <= d.feelsLike + 0.5
  {
  }
}
