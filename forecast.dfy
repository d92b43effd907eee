/** `fetchWeatherForecast`: the first forecast location's element list is
    folded, from an empty dictionary, into the `parameter` of the FIRST time
    window of each of `PoP`, `CI` and `Wx`, and a four-field record is built
    from those three parameters. */
module Forecast {
  import opened Payload

  /** The element names the reducer keeps. */
  const FORECAST_NAMES: seq<string> := ["PoP", "CI", "Wx"]

  /** The properties of the record fetchWeatherForecast returns. */
  const FORECAST_KEYS: set<string> := {"description", "weatherCode", "rainPossibility", "comfortability"}

  /** The accumulator: element names to `parameter` objects. */
  type Dict = map<string, Param>

  /** One call of the reducer. A selected element stores the parameter of its
      first time window; one without any time window throws, and a throw ends
      the fold. */
  function Step(acc: Result<Dict>, e: FcElement): (r: Result<Dict>)
    ensures acc.Err? || e.elementName !in FORECAST_NAMES ==> r == acc
    ensures acc.Ok? && e.elementName in FORECAST_NAMES ==>
      if |e.time| == 0 then r == Err(NoTimeWindow(e.elementName))
      else r.Ok? && r.value.Keys == acc.value.Keys + {e.elementName} && r.value[e.elementName] == e.time[0].parameter
    ensures r.Ok? ==> forall k :: k in acc.value && k != e.elementName ==> r.value[k] == acc.value[k]
  {
    if acc.Err? || e.elementName !in FORECAST_NAMES then acc
    else if |e.time| == 0 then Err(NoTimeWindow(e.elementName))
    else Ok(acc.value[e.elementName := e.time[0].parameter])
  }

  /** The reducer applied left to right to `es`, starting from `acc`. */
  function Fold(acc: Result<Dict>, es: seq<FcElement>): (r: Result<Dict>)
    ensures acc.Err? ==> r == acc
    ensures acc.Ok? && r.Err? ==> r.failure.NoTimeWindow? && r.failure.elementName in FORECAST_NAMES
    ensures r.Ok? ==> acc.Ok? && acc.value.Keys <= r.value.Keys
    ensures r.Ok? ==> forall k :: k in r.value && k !in acc.value ==> k in FORECAST_NAMES
    decreases |es|
  {
    if es == [] then acc else Step(Fold(acc, es[..|es| - 1]), es[|es| - 1])
  }

  /** `weatherElement.reduce(reducer, {})`. */
  function Reduce(es: seq<FcElement>): (r: Result<Dict>)
    ensures r.Err? ==> r.failure.NoTimeWindow? && r.failure.elementName in FORECAST_NAMES
    ensures r.Ok? ==> forall k :: k in r.value ==> k in FORECAST_NAMES
  {
    Fold(Ok(map[]), es)
  }

  /** The object literal returned by fetchWeatherForecast. Its properties are
      read in the order description, weatherCode, rainPossibility,
      comfortability, so a missing `Wx` is reported before a missing `PoP`,
      and that before a missing `CI`. */
  function ForecastRecord(dict: Dict): (r: Result<Record>)
    ensures r.Ok? <==> "Wx" in dict && "PoP" in dict && "CI" in dict
    ensures r.Err? ==> r.failure == MissingElement(if "Wx" !in dict then "Wx" else if "PoP" !in dict then "PoP" else "CI")
    ensures r.Ok? ==> r.value.Keys == FORECAST_KEYS && forall k :: k in r.value ==> r.value[k].Text?
  {
    if "Wx" !in dict then Err(MissingElement("Wx"))
    else if "PoP" !in dict then Err(MissingElement("PoP"))
    else if "CI" !in dict then Err(MissingElement("CI"))
    else Ok(map["description" := Text(dict["Wx"].parameterName),
                "weatherCode" := Text(dict["Wx"].parameterValue),
                "rainPossibility" := Text(dict["PoP"].parameterName),
                "comfortability" := Text(dict["CI"].parameterName)])
  }

  /** Extraction from one location record. */
  function ForecastRecordOf(loc: FcLocation): (r: Result<Record>)
    ensures Reduce(loc.weatherElement).Err? ==> r == Err(Reduce(loc.weatherElement).failure)
    ensures Reduce(loc.weatherElement).Ok? && r.Err? ==> r.failure.MissingElement?
    ensures r.Ok? ==> r.value.Keys == FORECAST_KEYS && forall k :: k in r.value ==> r.value[k].Text?
  {
    var dict := Reduce(loc.weatherElement);
    if dict.Err? then Err(dict.failure) else ForecastRecord(dict.value)
  }

  /** fetchWeatherForecast after the JSON is parsed: only `location[0]` is read. */
  function ForecastOf(locations: seq<FcLocation>): (r: Result<Record>)
    ensures |locations| == 0 ==> r == Err(NoLocation)
    ensures r.Ok? ==> r.value.Keys == FORECAST_KEYS && forall k :: k in r.value ==> r.value[k].Text?
  {
    if |locations| == 0 then Err(NoLocation) else ForecastRecordOf(locations[0])
  }

  /** Once the fold has thrown, the later elements make no difference. */
  lemma {:induction false} FailureIsFinal(acc: Result<Dict>, es: seq<FcElement>, k: nat)
    requires k <= |es| && Fold(acc, es[..k]).Err?
    ensures Fold(acc, es) == Fold(acc, es[..k])
    decreases |es|
  {
    if k < |es| {
      var init := es[..|es| - 1];
      assert init[..k] == es[..k];
      FailureIsFinal(acc, init, k);
    } else {
      assert es[..k] == es;
    }
  }

  /** The reducer, written as the loop it is. */
  method ReduceElements(es: seq<FcElement>) returns (r: Result<Dict>)
    ensures r == Reduce(es)
  {
    var dict: Dict := map[];
    var i := 0;
    while i < |es|
      invariant 0 <= i <= |es|
      invariant Fold(Ok(map[]), es[..i]) == Ok(dict)
    {
      var e := es[i];
      assert es[..i + 1][..i] == es[..i];
      if e.elementName in FORECAST_NAMES {
        if |e.time| == 0 {
          r := Err(NoTimeWindow(e.elementName));
          FailureIsFinal(Ok(map[]), es, i + 1);
          return;
        }
        dict := dict[e.elementName := e.time[0].parameter];
      }
      i := i + 1;
    }
    assert es[..i] == es;
    r := Ok(dict);
  }

  /** fetchWeatherForecast's body after the JSON is parsed. */
  method FetchWeatherForecast(locations: seq<FcLocation>) returns (r: Result<Record>)
    ensures r == ForecastOf(locations)
  {
    if |locations| == 0 {
      return Err(NoLocation);
    }
    var locationData := locations[0];
    var weatherElements := ReduceElements(locationData.weatherElement);
    if weatherElements.Err? {
      return Err(weatherElements.failure);
    }
    r := ForecastRecord(weatherElements.value);
  }

  // ---------------------------------------------------------------------
  // Properties of the fold

  /** Element `i` is selected but has no time window. */
  ghost predicate WithoutWindow(es: seq<FcElement>, i: int) {
    0 <= i < |es| && es[i].elementName in FORECAST_NAMES && |es[i].time| == 0
  }

  /** The fold throws exactly when some selected element has no time window,
      and the error names the first such element. */
  lemma {:induction false} FoldFailsAtFirstEmpty(d: Dict, es: seq<FcElement>)
    ensures Fold(Ok(d), es).Err? <==> exists i :: WithoutWindow(es, i)
    ensures Fold(Ok(d), es).Err? ==>
      exists i :: WithoutWindow(es, i) && (forall j :: 0 <= j < i ==> !WithoutWindow(es, j)) &&
        Fold(Ok(d), es) == Err(NoTimeWindow(es[i].elementName))
  {
    if es != [] {
      var init, last := es[..|es| - 1], es[|es| - 1];
      FoldFailsAtFirstEmpty(d, init);
      forall i | WithoutWindow(init, i) ensures WithoutWindow(es, i) {
      }
      if !WithoutWindow(es, |es| - 1) {
        forall i | WithoutWindow(es, i) ensures WithoutWindow(init, i) {
        }
      }
      if Fold(Ok(d), init).Ok? && WithoutWindow(es, |es| - 1) {
        forall j | 0 <= j < |es| - 1 ensures !WithoutWindow(es, j) {
          assert !WithoutWindow(init, j);
        }
      }
    }
  }

  /** `i` is the last index of `es` whose element is named `name`. */
  ghost predicate LastAt(es: seq<FcElement>, i: int, name: string) {
    0 <= i < |es| && es[i].elementName == name &&
    forall j :: i < j < |es| ==> es[j].elementName != name
  }

  /** When the fold succeeds, a selected name is present exactly when the seed
      or some element has it, its value is the first-window parameter of the
      LAST element with that name, and no other name is ever added. */
  lemma {:induction false} FoldLastWins(d: Dict, es: seq<FcElement>, name: string)
    requires Fold(Ok(d), es).Ok?
    ensures name in FORECAST_NAMES ==>
      (name in Fold(Ok(d), es).value <==> name in d || exists i :: 0 <= i < |es| && es[i].elementName == name)
    ensures name !in FORECAST_NAMES ==> (name in Fold(Ok(d), es).value <==> name in d)
    ensures name in FORECAST_NAMES ==> forall i :: LastAt(es, i, name) ==>
      |es[i].time| > 0 && name in Fold(Ok(d), es).value && Fold(Ok(d), es).value[name] == es[i].time[0].parameter
  {
    if es != [] {
      var init, last := es[..|es| - 1], es[|es| - 1];
      var prev := Fold(Ok(d), init);
      assert Fold(Ok(d), es) == Step(prev, last);
      assert prev.Ok?;
      FoldLastWins(d, init, name);
      if last.elementName != name {
        if last.elementName in FORECAST_NAMES {
          assert Fold(Ok(d), es).value == prev.value[last.elementName := last.time[0].parameter];
        } else {
          assert Fold(Ok(d), es) == prev;
        }
        forall i | 0 <= i < |es| && es[i].elementName == name
          ensures 0 <= i < |init| && init[i].elementName == name
        {
        }
        forall i | LastAt(es, i, name)
          ensures LastAt(init, i, name)
        {
        }
      } else if name in FORECAST_NAMES {
        assert Fold(Ok(d), es).value == prev.value[name := last.time[0].parameter];
      } else {
        assert Fold(Ok(d), es) == prev;
      }
    }
  }

  /** The elements whose names the reducer keeps, in order. */
  function Selected(es: seq<FcElement>): (r: seq<FcElement>)
    ensures forall e :: e in r <==> e in es && e.elementName in FORECAST_NAMES
    decreases |es|
  {
    if es == [] then []
    else Selected(es[..|es| - 1]) + (if es[|es| - 1].elementName in FORECAST_NAMES then [es[|es| - 1]] else [])
  }

  /** Elements with any other name leave the fold unchanged. */
  lemma {:induction false} FoldIgnoresOtherNames(acc: Result<Dict>, es: seq<FcElement>)
    ensures Fold(acc, Selected(es)) == Fold(acc, es)
  {
    if es != [] {
      var init, last := es[..|es| - 1], es[|es| - 1];
      FoldIgnoresOtherNames(acc, init);
      if last.elementName in FORECAST_NAMES {
        var s := Selected(init) + [last];
        assert Selected(es) == s;
        assert s[..|s| - 1] == Selected(init);
      } else {
        assert Selected(init) + [] == Selected(init);
        assert Selected(es) == Selected(init);
        assert Fold(acc, es) == Fold(acc, init);
      }
    }
  }

  /** Two element lists that agree on every element's name, on whether it
      has a time window, and on its first window's parameter. */
  ghost predicate SameFirstWindows(es1: seq<FcElement>, es2: seq<FcElement>) {
    |es1| == |es2| &&
    forall i :: 0 <= i < |es1| ==>
      es1[i].elementName == es2[i].elementName &&
      (|es1[i].time| == 0 <==> |es2[i].time| == 0) &&
      (|es1[i].time| > 0 ==> es1[i].time[0] == es2[i].time[0])
  }

  /** Time windows after the first never affect the fold. */
  lemma {:induction false} FoldIgnoresLaterWindows(acc: Result<Dict>, es1: seq<FcElement>, es2: seq<FcElement>)
    requires SameFirstWindows(es1, es2)
    ensures Fold(acc, es1) == Fold(acc, es2)
    decreases |es1|
  {
    if es1 != [] {
      var n := |es1| - 1;
      assert SameFirstWindows(es1[..n], es2[..n]);
      FoldIgnoresLaterWindows(acc, es1[..n], es2[..n]);
    }
  }

  // ---------------------------------------------------------------------
  // Properties of the extracted record

  /** Extraction from a location succeeds exactly when each of Wx, PoP and CI
      occurs and no selected element lacks a time window. */
  lemma ForecastSucceedsIff(loc: FcLocation)
    ensures ForecastRecordOf(loc).Ok? <==>
      (forall i :: !WithoutWindow(loc.weatherElement, i)) &&
      forall name :: name in FORECAST_NAMES ==>
        exists i :: 0 <= i < |loc.weatherElement| && loc.weatherElement[i].elementName == name
  {
    var es := loc.weatherElement;
    FoldFailsAtFirstEmpty(map[], es);
    if Reduce(es).Ok? {
      forall name | name in FORECAST_NAMES
        ensures name in Reduce(es).value <==> exists i :: 0 <= i < |es| && es[i].elementName == name
      {
        FoldLastWins(map[], es, name);
      }
      assert FORECAST_NAMES == ["PoP", "CI", "Wx"];
    }
  }

  /** The record mapping: description and weatherCode are the name and value
      of the first-window parameter of the last `Wx` element, rainPossibility
      the name of the last `PoP` element's, comfortability the name of the
      last `CI` element's. */
  lemma ForecastFieldMapping(loc: FcLocation, wx: nat, pop: nat, ci: nat)
    requires ForecastRecordOf(loc).Ok?
    requires LastAt(loc.weatherElement, wx, "Wx")
    requires LastAt(loc.weatherElement, pop, "PoP")
    requires LastAt(loc.weatherElement, ci, "CI")
    ensures var r := ForecastRecordOf(loc).value; var es := loc.weatherElement;
      && |es[wx].time| > 0 && |es[pop].time| > 0 && |es[ci].time| > 0
      && r["description"] == Text(es[wx].time[0].parameter.parameterName)
      && r["weatherCode"] == Text(es[wx].time[0].parameter.parameterValue)
      && r["rainPossibility"] == Text(es[pop].time[0].parameter.parameterName)
      && r["comfortability"] == Text(es[ci].time[0].parameter.parameterName)
  {
    var es := loc.weatherElement;
    FoldLastWins(map[], es, "Wx");
    FoldLastWins(map[], es, "PoP");
    FoldLastWins(map[], es, "CI");
  }

  /** The record depends only on the selected elements and their first time
      windows: other elements and later windows can change freely. */
  lemma OnlyFirstWindowsOfSelectedMatter(l1: FcLocation, l2: FcLocation)
    requires SameFirstWindows(Selected(l1.weatherElement), Selected(l2.weatherElement))
    ensures ForecastRecordOf(l1) == ForecastRecordOf(l2)
  {
    FoldIgnoresOtherNames(Ok(map[]), l1.weatherElement);
    FoldIgnoresOtherNames(Ok(map[]), l2.weatherElement);
    FoldIgnoresLaterWindows(Ok(map[]), Selected(l1.weatherElement), Selected(l2.weatherElement));
  }

  /** Only `location[0]` is read; the other location records are ignored. */
  lemma OnlyFirstLocationMatters(locations: seq<FcLocation>, others: seq<FcLocation>)
    requires |locations| >= 1
    ensures ForecastOf(locations[..1] + others) == ForecastOf(locations)
  {
  }
}
