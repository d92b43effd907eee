/** The state kept by the `WeatherApp` component, which carries its own copy
    of the two extraction functions (the same code as in the hook, modelled
    by the Observation and Forecast modules) and a `fetchData` that replaces
    its record by the plain merge of the two extracted records, with no
    loading flag. The clock reading behind `new Date()` is a parameter. */
module WeatherApp {
  import opened Payload
  import Observation
  import Forecast
  import WeatherHook

  /** The properties of every record the component holds. */
  const APP_KEYS: set<string> := Observation.OBSERVATION_KEYS + Forecast.FORECAST_KEYS

  /** The component's initial state, `now` being the clock reading of `new Date()`. */
  function InitialElement(now: int): (r: Record)
    ensures r.Keys == APP_KEYS && "isLoading" !in r
    ensures r["observationTime"] == Instant(now)
    ensures forall k :: k in r && k != "observationTime" ==> r[k] == Text("") || r[k] == Number(0)
  {
    map["observationTime" := Instant(now),
        "locationName" := Text(""),
        "humid" := Number(0),
        "temperature" := Number(0),
        "windSpeed" := Number(0),
        "description" := Text(""),
        "weatherCode" := Number(0),
        "rainPossibility" := Number(0),
        "comfortability" := Text("")]
  }

  /** `{ ...weatherCurrent, ...weatherForecast }`: forecast properties win a collision. */
  function Merged(current: Record, forecast: Record): (r: Record)
    ensures r.Keys == current.Keys + forecast.Keys
    ensures forall k :: k in forecast ==> r[k] == forecast[k]
    ensures forall k :: k in current && k !in forecast ==> r[k] == current[k]
  {
    current + forecast
  }

  /** The record a successful fetch publishes is exactly the union of the five
      observation properties and the four forecast properties, with no
      `isLoading` property; the two property sets are disjoint, so nothing is
      overwritten. */
  lemma MergedFromExtraction(observation: seq<ObsLocation>, forecast: seq<FcLocation>)
    requires Observation.CurrentWeatherOf(observation).Ok? && Forecast.ForecastOf(forecast).Ok?
    ensures Observation.OBSERVATION_KEYS !! Forecast.FORECAST_KEYS
    ensures var cur := Observation.CurrentWeatherOf(observation).value;
      var fc := Forecast.ForecastOf(forecast).value;
      var r := Merged(cur, fc);
      && r.Keys == APP_KEYS && "isLoading" !in r
      && (forall k :: k in Observation.OBSERVATION_KEYS ==> r[k] == cur[k])
      && (forall k :: k in Forecast.FORECAST_KEYS ==> r[k] == fc[k])
  {
    MergedShape(Observation.CurrentWeatherOf(observation).value, Forecast.ForecastOf(forecast).value);
  }

  /** The same for any records with the observation and forecast properties. */
  lemma MergedShape(cur: Record, fc: Record)
    requires cur.Keys == Observation.OBSERVATION_KEYS && fc.Keys == Forecast.FORECAST_KEYS
    ensures Observation.OBSERVATION_KEYS !! Forecast.FORECAST_KEYS
    ensures var r := Merged(cur, fc);
      && r.Keys == APP_KEYS && "isLoading" !in r
      && (forall k :: k in Observation.OBSERVATION_KEYS ==> r[k] == cur[k])
      && (forall k :: k in Forecast.FORECAST_KEYS ==> r[k] == fc[k])
  {
    assert "isLoading" !in APP_KEYS;
  }

  /** The hook's state is the component's with the loading flag added: its
      initial state with the flag set, its published record with it cleared. */
  lemma HookAddsOnlyTheLoadingFlag(now: int, current: Record, forecast: Record)
    ensures WeatherHook.InitialElement(now) == InitialElement(now)["isLoading" := Bool(true)]
    ensures WeatherHook.Completed(current, forecast) == Merged(current, forecast)["isLoading" := Bool(false)]
  {
  }

  /** The component's state object. */
  class WeatherAppState {
    var weatherElement: Record

    /** The invariant: the component always holds exactly the nine
        properties, from the initial state on and after every fetch. */
    ghost predicate Valid()
      reads this
    {
      weatherElement.Keys == APP_KEYS
    }

    /** `useState({...})`: the nine default properties. */
    constructor (now: int)
      ensures Valid()
      ensures weatherElement == InitialElement(now)
    {
      weatherElement := InitialElement(now);
    }

    /** The body of `fetchData`, given the two parsed payloads. If either
        extraction throws, `Promise.all` rejects and the state is left as it
        was; otherwise the record is replaced by the merge. */
    method CompleteFetch(observation: seq<ObsLocation>, forecast: seq<FcLocation>)
      requires Valid()
      modifies this
      ensures Valid()
      ensures var cur := Observation.CurrentWeatherOf(observation);
        var fc := Forecast.ForecastOf(forecast);
        weatherElement == if cur.Ok? && fc.Ok? then Merged(cur.value, fc.value) else old(weatherElement)
    {
      var weatherCurrent := Observation.FetchCurrentWeather(observation);
      var weatherForecast := Forecast.FetchWeatherForecast(forecast);
      if weatherCurrent.Ok? && weatherForecast.Ok? {
        MergedFromExtraction(observation, forecast);
        weatherElement := Merged(weatherCurrent.value, weatherForecast.value);
      }
    }
  }
}
