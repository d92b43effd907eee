/** The state kept by the `useWeatherApi` hook: one record holding the nine
    weather properties and an `isLoading` flag. `fetchData` first sets the
    flag and later, when both extractions have resolved, replaces the whole
    record with their merge and a cleared flag. The clock reading behind
    `new Date()` is a parameter. */
module WeatherHook {
  import opened Payload
  import Observation
  import Forecast

  /** The properties of every record the hook holds. */
  const HOOK_KEYS: set<string> := Observation.OBSERVATION_KEYS + Forecast.FORECAST_KEYS + {"isLoading"}

  /** The hook's initial state, `now` being the clock reading of `new Date()`. */
  function InitialElement(now: int): (r: Record)
    ensures r.Keys == HOOK_KEYS
    ensures r["isLoading"] == Bool(true)
    ensures r["observationTime"] == Instant(now)
  {
    map["observationTime" := Instant(now),
        "locationName" := Text(""),
        "humid" := Number(0),
        "temperature" := Number(0),
        "windSpeed" := Number(0),
        "description" := Text(""),
        "weatherCode" := Number(0),
        "rainPossibility" := Number(0),
        "comfortability" := Text(""),
        "isLoading" := Bool(true)]
  }

  /** `{ ...prev, isLoading: true }`. */
  function Loading(prev: Record): (r: Record)
    ensures r.Keys == prev.Keys + {"isLoading"}
    ensures r["isLoading"] == Bool(true)
    ensures forall k :: k in prev && k != "isLoading" ==> r[k] == prev[k]
  {
    prev["isLoading" := Bool(true)]
  }

  /** `{ ...weatherCurrent, ...weatherForecast, isLoading: false }`. */
  function Completed(current: Record, forecast: Record): (r: Record)
    ensures r.Keys == current.Keys + forecast.Keys + {"isLoading"}
    ensures r["isLoading"] == Bool(false)
    ensures forall k :: k in forecast && k != "isLoading" ==> r[k] == forecast[k]
    ensures forall k :: k in current && k !in forecast && k != "isLoading" ==> r[k] == current[k]
  {
    current + forecast + map["isLoading" := Bool(false)]
  }

  /** A record the hook can hold: exactly the ten properties, with a boolean flag. */
  ghost predicate WellFormed(r: Record) {
    r.Keys == HOOK_KEYS && r["isLoading"].Bool?
  }

  /** Setting the flag keeps a well-formed record well-formed, and doing it
      twice is the same as doing it once. */
  lemma LoadingKeepsShape(prev: Record)
    requires WellFormed(prev)
    ensures WellFormed(Loading(prev))
    ensures Loading(Loading(prev)) == Loading(prev)
  {
  }

  /** The record a successful fetch publishes: exactly the ten properties,
      the five observation properties copied from the observation record,
      the four forecast properties from the forecast record, and a cleared
      flag. The previous state does not take part. */
  lemma CompletedFromExtraction(observation: seq<ObsLocation>, forecast: seq<FcLocation>)
    requires Observation.CurrentWeatherOf(observation).Ok? && Forecast.ForecastOf(forecast).Ok?
    ensures var cur := Observation.CurrentWeatherOf(observation).value;
      var fc := Forecast.ForecastOf(forecast).value;
      var r := Completed(cur, fc);
      && WellFormed(r) && r["isLoading"] == Bool(false)
      && (forall k :: k in Observation.OBSERVATION_KEYS ==> r[k] == cur[k])
      && (forall k :: k in Forecast.FORECAST_KEYS ==> r[k] == fc[k])
  {
    CompletedShape(Observation.CurrentWeatherOf(observation).value, Forecast.ForecastOf(forecast).value);
  }

  /** The same for any records with the observation and forecast properties. */
  lemma CompletedShape(cur: Record, fc: Record)
    requires cur.Keys == Observation.OBSERVATION_KEYS && fc.Keys == Forecast.FORECAST_KEYS
    ensures var r := Completed(cur, fc);
      && WellFormed(r) && r["isLoading"] == Bool(false)
      && (forall k :: k in Observation.OBSERVATION_KEYS ==> r[k] == cur[k])
      && (forall k :: k in Forecast.FORECAST_KEYS ==> r[k] == fc[k])
  {
    assert Observation.OBSERVATION_KEYS !! Forecast.FORECAST_KEYS;
    assert "isLoading" !in Observation.OBSERVATION_KEYS + Forecast.FORECAST_KEYS;
  }

  /** The hook's state object. */
  class WeatherHookState {
    var weatherElement: Record

    ghost predicate Valid()
      reads this
    {
      WellFormed(weatherElement)
    }

    /** The `isLoading` property of the current record. */
    function IsLoading(): (b: bool)
      reads this
      requires Valid()
      ensures b <==> weatherElement["isLoading"] == Bool(true)
      ensures !b <==> weatherElement["isLoading"] == Bool(false)
    {
      weatherElement["isLoading"].flag
    }

    /** `useState({...})`: the initial state, loading. */
    constructor (now: int)
      ensures Valid() && IsLoading()
      ensures weatherElement == InitialElement(now)
    {
      weatherElement := InitialElement(now);
    }

    /** The synchronous part of `fetchData`: set the flag, keep the rest. */
    method StartFetch()
      requires Valid()
      modifies this
      ensures Valid() && IsLoading()
      ensures weatherElement == Loading(old(weatherElement))
    {
      LoadingKeepsShape(weatherElement);
      weatherElement := Loading(weatherElement);
    }

    /** The asynchronous part of `fetchData`, given the two parsed payloads.
        If either extraction throws, `Promise.all` rejects and the state is
        left as it was (still loading after a StartFetch); otherwise the
        whole record is replaced by the merge with the flag cleared,
        whatever it held before. */
    method CompleteFetch(observation: seq<ObsLocation>, forecast: seq<FcLocation>)
      requires Valid()
      modifies this
      ensures Valid()
      ensures var cur := Observation.CurrentWeatherOf(observation);
        var fc := Forecast.ForecastOf(forecast);
        if cur.Ok? && fc.Ok? then weatherElement == Completed(cur.value, fc.value) && !IsLoading()
        else weatherElement == old(weatherElement)
    {
      var weatherCurrent := Observation.FetchCurrentWeather(observation);
      var weatherForecast := Forecast.FetchWeatherForecast(forecast);
      if weatherCurrent.Ok? && weatherForecast.Ok? {
        CompletedFromExtraction(observation, forecast);
        weatherElement := Completed(weatherCurrent.value, weatherForecast.value);
      }
    }
  }

  /** `fetchData` invoked again while the first fetch is still in flight,
      and the two fetches resolving in order. The first completion already
      clears the flag although the second fetch is pending, and the record
      shown in the end is the one of the fetch that completed last. */
  method RefetchWhileInFlight(
    now: int,
    observation1: seq<ObsLocation>, forecast1: seq<FcLocation>,
    observation2: seq<ObsLocation>, forecast2: seq<FcLocation>)
    returns (loadingBefore: bool, loadingAfterFirst: bool, shown: Record)
    requires Observation.CurrentWeatherOf(observation1).Ok? && Forecast.ForecastOf(forecast1).Ok?
    requires Observation.CurrentWeatherOf(observation2).Ok? && Forecast.ForecastOf(forecast2).Ok?
    ensures loadingBefore && !loadingAfterFirst
    ensures shown == Completed(Observation.CurrentWeatherOf(observation2).value, Forecast.ForecastOf(forecast2).value)
  {
    var hook := new WeatherHookState(now);
    hook.StartFetch();
    hook.StartFetch();
    loadingBefore := hook.IsLoading();
    hook.CompleteFetch(observation1, forecast1);
    loadingAfterFirst := hook.IsLoading();
    hook.CompleteFetch(observation2, forecast2);
    shown := hook.weatherElement;
  }
}
