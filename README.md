# Weather data pipeline of the weather-app widget

The widget gets two JSON payloads from a weather-data provider: a current
observation and a short-term forecast. It turns them into one record that the
card displays. This project models that data-shaping pipeline and proves what
it does:

- **Observation extraction** (`fetchCurrentWeather`). The element list of the
  first location record is folded by a `reduce` into a dictionary of the
  readings `WDSD`, `TEMP` and `HUMD`. A five-property record is then built
  from it: `observationTime`, `locationName`, `temperature`, `windSpeed`,
  `humid`. The `reduce` has no initial value, so element 0 itself is the
  accumulator and is never tested against the three names. A reading found
  only at index 0 therefore comes out `undefined`, and an empty element list
  throws. The model keeps this behaviour: module `Observation` seeds the
  fold with element 0's own two properties and visits elements 1 onward.
- **Forecast extraction** (`fetchWeatherForecast`). The element list is folded
  from `{}`. For each of `PoP`, `CI` and `Wx` the fold stores the `parameter`
  of the element's first time window. A four-property record is then built:
  `description`, `weatherCode`, `rainPossibility`, `comfortability`
  (module `Forecast`).
- **Hook state** (`useWeatherApi`). The initial record is loading. The
  synchronous step of `fetchData` sets `isLoading` and keeps everything else.
  Completion replaces the whole record with the spread of both extracted
  records plus `isLoading: false` (module `WeatherHook`, class
  `WeatherHookState`).
- **Component state** (`WeatherApp`). The component holds its own verbatim
  copy of the two extraction functions; the `Observation` and `Forecast`
  members model both copies. Its `fetchData` replaces the record with the
  plain spread of the two records, with no loading flag (module `WeatherApp`,
  class `WeatherAppState`).

Each fold is written twice:

- as a function over the element sequence (`Fold`, folding from the left);
- as a `while` loop (`ReduceElements`), proved equal to that function.

The record builders and the spread merges are functions. Records are
`map<string, Value>`, so object spread `{...a, ...b}` is the map union `a + b`.

The TypeErrors the JavaScript throws are modelled as `Result.Err`:

| failure | cause |
|---|---|
| `NoLocation` | `location[0]` is undefined |
| `EmptyReduce` | an empty element list is reduced without an initial value |
| `NoTimeWindow` | a selected forecast element has no `time[0]` |
| `MissingElement` | `Wx`, `PoP` or `CI` was never stored |

When either extraction fails, `Promise.all` rejects and the state is left as
it was.

Behaviour of the code worth knowing:

- Values are copied verbatim. Readings stay the strings of the payload, and
  nothing is coerced to a number.
- A failed fetch never clears `isLoading`, and no error state exists.
- `isLoading` is not kept true until the LAST fetch completes: when
  `fetchData` is re-invoked while a fetch is in flight, the first completion
  already clears the flag (`WeatherHook.RefetchWhileInFlight`).

## Model

| member | source | states |
|---|---|---|
| `Observation.Step` | src/useWeatherApi.js:55-58 | one reducer call: an element with a selected name sets that property to its `elementValue` and keeps every other property; any other element leaves the accumulator as it is |
| `Observation.Fold` | src/useWeatherApi.js:50-59 | the iteration of the reducer keeps every property of the accumulator, only ever adds selected names, and never changes a property that is not a selected name |
| `Observation.Reduce` | src/useWeatherApi.js:50-59 | the unseeded reduce fails (EmptyReduce) exactly when the element list is empty (same code at src/WeatherApp.js:151-160) |
| `Observation.ReduceElements` | src/useWeatherApi.js:50-59 | the loop, started with element 0 as accumulator and visiting elements 1.., computes the reduce, including its error on an empty list (same code at src/WeatherApp.js:151-160) |
| `Observation.FoldLastWins` | src/useWeatherApi.js:55-57 | a selected name is in the folded dictionary iff the seed or some visited element has it, and its value is the last such element's `elementValue` |
| `Observation.FoldPreservesAgreement` | src/useWeatherApi.js:50-59 | two accumulators that agree on a property still agree after the fold, so the seed's other properties never matter |
| `Observation.Selected` | src/useWeatherApi.js:55 | the kept elements are exactly those named `WDSD`, `TEMP` or `HUMD` |
| `Observation.FoldIgnoresOtherNames` | src/useWeatherApi.js:55-57 | dropping every element with another name leaves the fold unchanged |
| `Observation.RecordKey` | src/useWeatherApi.js:63-65 | each selected name fills one of the three reading properties |
| `Observation.RecordKeyInjective` | src/useWeatherApi.js:63-65 | distinct readings fill distinct properties, so none of the three overwrites another |
| `Observation.Lookup` | src/useWeatherApi.js:63-65 | reading a property gives its string, or `undefined` iff the reducer never set it |
| `Observation.ElementObject` | src/useWeatherApi.js:50 | the accumulator the unseeded reduce starts from holds element 0's own two properties and none of the selected names |
| `Observation.CurrentRecord` | src/useWeatherApi.js:60-66 | the returned object has exactly the five properties, time and name from the location record, every value a verbatim string or `undefined` (same code at src/WeatherApp.js:161-167) |
| `Observation.CurrentRecordOf` | src/useWeatherApi.js:50-66 | extraction from one location fails exactly when its element list is empty, with EmptyReduce |
| `Observation.CurrentWeatherOf` | src/useWeatherApi.js:49-66 | fails with NoLocation on no location and EmptyReduce on an empty element list, and otherwise yields the five properties with `observationTime`/`locationName` from `location[0]` and no value coerced (same code at src/WeatherApp.js:150-167) |
| `Observation.FetchCurrentWeather` | src/useWeatherApi.js:46-67 | the body after parsing, with the loop, computes `CurrentWeatherOf` |
| `Observation.SelectedFieldIsLastOccurrence` | src/useWeatherApi.js:50-65 | each reading is the last `elementValue` with its name at index 1 or later, and is `undefined` iff there is none there (a reading only at index 0 is lost) (same code at src/WeatherApp.js:151-166) |
| `Observation.OnlySelectedElementsMatter` | src/useWeatherApi.js:50-65 | the record depends only on the location's name and time and the selected elements from index 1 on; element 0 and elements with other names can change freely |
| `Observation.OnlyFirstLocationMatters` | src/useWeatherApi.js:49 | location records after `location[0]` are ignored (same code at src/WeatherApp.js:150) |
| `Forecast.Step` | src/useWeatherApi.js:85-88 | one reducer call: after a throw, or for an element with another name, the accumulator is unchanged; a selected element without a time window throws NoTimeWindow naming it; otherwise it stores its first window's `parameter` under its name and keeps every other entry |
| `Forecast.Fold` | src/useWeatherApi.js:73-89 | the iteration keeps a thrown error, throws only NoTimeWindow for a selected name, keeps every entry of the accumulator and only ever adds selected names |
| `Forecast.Reduce` | src/useWeatherApi.js:73-89 | `reduce(reducer, {})` yields only `PoP`/`CI`/`Wx` entries, and its only failure is NoTimeWindow for one of them (same code at src/WeatherApp.js:174-190) |
| `Forecast.ForecastRecordOf` | src/useWeatherApi.js:73-95 | extraction from one location passes the reducer's failure through, otherwise fails only with MissingElement, and on success yields exactly the four string properties (same code at src/WeatherApp.js:174-196) |
| `Forecast.ForecastRecord` | src/useWeatherApi.js:90-95 | succeeds iff `Wx`, `PoP` and `CI` were stored, else fails naming the first missing one in reading order; on success exactly the four properties, all strings (same code at src/WeatherApp.js:191-196) |
| `Forecast.ForecastOf` | src/useWeatherApi.js:72-95 | fails with NoLocation on no location, and on success yields exactly the four string properties (same code at src/WeatherApp.js:173-196) |
| `Forecast.FailureIsFinal` | src/useWeatherApi.js:86 | once the reducer has thrown, later elements do not change the outcome |
| `Forecast.ReduceElements` | src/useWeatherApi.js:73-89 | the loop from `{}`, stopping at the first selected element without a time window, computes the reduce (same code at src/WeatherApp.js:174-190) |
| `Forecast.FetchWeatherForecast` | src/useWeatherApi.js:69-96 | the body after parsing, with the loop, computes `ForecastOf` |
| `Forecast.FoldFailsAtFirstEmpty` | src/useWeatherApi.js:85-86 | the fold throws iff some selected element has no time window, and the error names the first such element |
| `Forecast.FoldLastWins` | src/useWeatherApi.js:85-87 | a selected name is stored iff some element has it, with the first-window `parameter` of the last such element; no other name is ever stored |
| `Forecast.Selected` | src/useWeatherApi.js:85 | the kept elements are exactly those named `PoP`, `CI` or `Wx` |
| `Forecast.FoldIgnoresOtherNames` | src/useWeatherApi.js:85-87 | dropping every element with another name leaves the fold unchanged |
| `Forecast.FoldIgnoresLaterWindows` | src/useWeatherApi.js:86 | lists that agree on names, on which time lists are empty and on each first window fold to the same result: later windows never matter |
| `Forecast.ForecastSucceedsIff` | src/useWeatherApi.js:85-94 | extraction from a location succeeds iff each of Wx, PoP, CI occurs and no selected element lacks a time window (same code at src/WeatherApp.js:186-195) |
| `Forecast.ForecastFieldMapping` | src/useWeatherApi.js:91-94 | description/weatherCode are the name/value of the last Wx's first window, rainPossibility the name of the last PoP's, comfortability the name of the last CI's (same code at src/WeatherApp.js:192-195) |
| `Forecast.OnlyFirstWindowsOfSelectedMatter` | src/useWeatherApi.js:85-94 | the record depends only on the selected elements and their first time windows (same code at src/WeatherApp.js:186-195) |
| `Forecast.OnlyFirstLocationMatters` | src/useWeatherApi.js:72 | location records after `location[0]` are ignored (same code at src/WeatherApp.js:173) |
| `WeatherHook.InitialElement` | src/useWeatherApi.js:10-21 | the initial record has the ten properties, `observationTime` the current clock reading, and is loading |
| `WeatherHook.Loading` | src/useWeatherApi.js:24 | `{...prev, isLoading: true}` adds or sets only the flag and keeps every other property |
| `WeatherHook.Completed` | src/useWeatherApi.js:31-35 | the spread has the union of both records' properties plus a false flag; forecast properties win a collision |
| `WeatherHook.LoadingKeepsShape` | src/useWeatherApi.js:24 | setting the flag keeps the ten-property shape and is idempotent |
| `WeatherHook.CompletedFromExtraction` | src/useWeatherApi.js:27-35 | a published record has exactly the ten properties, the five observation and four forecast values copied unchanged, and a false flag; the previous state does not take part |
| `WeatherHook.CompletedShape` | src/useWeatherApi.js:31-35 | spreading any record with the five observation properties and any with the four forecast properties gives exactly the ten properties, each value copied, and a false flag |
| `WeatherHook.WeatherHookState.IsLoading` | src/useWeatherApi.js:20 | the state is loading iff its `isLoading` property is `true`, and not loading iff it is `false` |
| `WeatherHook.WeatherHookState.constructor` | src/useWeatherApi.js:10-21 | the hook starts in the initial record, loading |
| `WeatherHook.WeatherHookState.StartFetch` | src/useWeatherApi.js:24 | the new state is the old one with only the flag set |
| `WeatherHook.WeatherHookState.CompleteFetch` | src/useWeatherApi.js:26-35 | if both extractions succeed the state is replaced wholesale by the merge, not loading; if either fails the state is unchanged |
| `WeatherHook.RefetchWhileInFlight` | src/useWeatherApi.js:23-37 | with two overlapping fetches, the flag is set before completion, is already false after the first completion, and the last completion's record is shown |
| `WeatherApp.InitialElement` | src/WeatherApp.js:118-128 | the nine default properties (empty strings and zeros, `observationTime` the clock reading), with no `isLoading` |
| `WeatherApp.Merged` | src/WeatherApp.js:136-139 | the spread has the union of both records' properties; forecast properties win a collision |
| `WeatherApp.MergedShape` | src/WeatherApp.js:136-139 | spreading any record with the five observation properties and any with the four forecast properties gives their disjoint union, with no `isLoading` |
| `WeatherApp.MergedFromExtraction` | src/WeatherApp.js:132-139 | a published record is exactly the disjoint union of the five observation and four forecast properties, with no `isLoading` |
| `WeatherApp.HookAddsOnlyTheLoadingFlag` | src/WeatherApp.js:118-139 | the hook's initial and published records are the component's with only the flag added (true resp. false) |
| `WeatherApp.WeatherAppState.constructor` | src/WeatherApp.js:118-128 | the component starts in its nine-property default record |
| `WeatherApp.WeatherAppState.CompleteFetch` | src/WeatherApp.js:130-140 | if both extractions succeed the record is replaced by their merge; otherwise unchanged |

## Left out

- Network I/O: `fetch`, `response.json()`, the hard-coded URLs and the API key (src/useWeatherApi.js:3-7, 47-48, 70-71; src/WeatherApp.js:8-12, 148-149, 171-172). The parsed `records.location` lists are inputs.
- The JSON around the properties read: the `records` wrapper is dropped, because `records.location` is the input, and the nested `time.obsTime` becomes `ObsLocation.obsTime`. Payload values are typed as strings, and every time window carries a `parameter`.
- The TypeErrors raised when `records`, `weatherElement`, `time` or `parameter` is missing from the payload: the datatypes always have these properties, so the model cannot express their absence.
- The reducer of fetchCurrentWeather writes into element 0's own object, mutating the payload. Nothing reads the payload afterwards, so the model folds into a copy of it.
- Concurrency of `Promise.all` and the async launch: completion is one `CompleteFetch` call given both payloads. In what order the two requests are issued and resolve is not modelled.
- React itself: `useState`, `useEffect` (the fetch on mount), `useCallback`, JSX rendering, styled components, icons, and src/index.js.
- `beautifyDate` (a wrapper of `Intl.DateTimeFormat`) and the `Math.round` applied at display time: floating-point presentation logic.
- `new Date()`: the clock is the parameter `now`, a reading in milliseconds.
- Any error state: the modelled sources have none, so a failed fetch only leaves the state as it was.
