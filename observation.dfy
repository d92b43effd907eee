/** `fetchCurrentWeather`: the first observation location's element list is
    folded into a dictionary of the three selected readings, and a
    five-field record is built from it. The fold is a `reduce` WITHOUT an
    initial value: element 0 itself is the accumulator and is never tested
    against the selected names, and an empty list throws. */
module Observation {
  import opened Payload

  /** The element names the reducer keeps. */
  const OBSERVED_NAMES: seq<string> := ["WDSD", "TEMP", "HUMD"]

  /** The properties of the record fetchCurrentWeather returns. */
  const OBSERVATION_KEYS: set<string> := {"observationTime", "locationName", "temperature", "windSpeed", "humid"}

  /** The accumulator: a JavaScript object whose properties hold strings. */
  type Dict = map<string, string>

  /** The record property a selected element name fills. */
  function RecordKey(name: string): (k: string)
    requires name in OBSERVED_NAMES
    ensures k in OBSERVATION_KEYS - {"observationTime", "locationName"}
  {
    if name == "TEMP" then "temperature" else if name == "WDSD" then "windSpeed" else "humid"
  }

  /** Distinct readings fill distinct properties, so none overwrites another. */
  lemma RecordKeyInjective(a: string, b: string)
    requires a in OBSERVED_NAMES && b in OBSERVED_NAMES
    ensures RecordKey(a) == RecordKey(b) ==> a == b
  {
  }

  /** Element 0 as the object the unseeded reduce starts from: only its own
      two properties, none of them a selected name. */
  function ElementObject(e: ObsElement): (d: Dict)
    ensures d.Keys == {"elementName", "elementValue"}
    ensures forall i :: 0 <= i < |OBSERVED_NAMES| ==> OBSERVED_NAMES[i] !in d
  {
    map["elementName" := e.elementName, "elementValue" := e.elementValue]
  }

  /** One call of the reducer: a selected element overwrites its entry. */
  function Step(dict: Dict, e: ObsElement): (r: Dict)
    ensures e.elementName !in OBSERVED_NAMES ==> r == dict
    ensures e.elementName in OBSERVED_NAMES ==>
      r.Keys == dict.Keys + {e.elementName} && r[e.elementName] == e.elementValue
    ensures forall k :: k in dict && k != e.elementName ==> k in r && r[k] == dict[k]
  {
    if e.elementName in OBSERVED_NAMES then dict[e.elementName := e.elementValue] else dict
  }

  /** The reducer applied left to right to `es`, starting from `acc`. */
  function Fold(acc: Dict, es: seq<ObsElement>): (r: Dict)
    ensures acc.Keys <= r.Keys
    ensures forall k :: k in r && k !in acc ==> k in OBSERVED_NAMES
    ensures forall k :: k in acc && k !in OBSERVED_NAMES ==> r[k] == acc[k]
    decreases |es|
  {
    if es == [] then acc else Step(Fold(acc, es[..|es| - 1]), es[|es| - 1])
  }

  /** `weatherElement.reduce(reducer)` with no initial value. */
  function Reduce(es: seq<ObsElement>): (r: Result<Dict>)
    ensures r.Err? <==> |es| == 0
    ensures r.Err? ==> r.failure == EmptyReduce
  {
    if |es| == 0 then Err(EmptyReduce) else Ok(Fold(ElementObject(es[0]), es[1..]))
  }

  /** Reading a property: `undefined` when the reducer never set it. */
  function Lookup(dict: Dict, name: string): (v: Value)
    ensures v == Undefined <==> name !in dict
    ensures name in dict ==> v == Text(dict[name])
  {
    if name in dict then Text(dict[name]) else Undefined
  }

  /** The object literal returned by fetchCurrentWeather. */
  function CurrentRecord(loc: ObsLocation, dict: Dict): (r: Record)
    ensures r.Keys == OBSERVATION_KEYS
    ensures r["observationTime"] == Text(loc.obsTime) && r["locationName"] == Text(loc.locationName)
    ensures forall k :: k in r ==> r[k].Text? || r[k].Undefined?
  {
    map["observationTime" := Text(loc.obsTime),
        "locationName" := Text(loc.locationName),
        "temperature" := Lookup(dict, "TEMP"),
        "windSpeed" := Lookup(dict, "WDSD"),
        "humid" := Lookup(dict, "HUMD")]
  }

  /** Extraction from one location record. */
  function CurrentRecordOf(loc: ObsLocation): (r: Result<Record>)
    ensures r.Err? <==> |loc.weatherElement| == 0
    ensures r.Err? ==> r.failure == EmptyReduce
  {
    var dict := Reduce(loc.weatherElement);
    if dict.Err? then Err(dict.failure) else Ok(CurrentRecord(loc, dict.value))
  }

  /** fetchCurrentWeather after the JSON is parsed: only `location[0]` is read. */
  function CurrentWeatherOf(locations: seq<ObsLocation>): (r: Result<Record>)
    ensures r.Err? <==> |locations| == 0 || |locations[0].weatherElement| == 0
    ensures |locations| == 0 ==> r == Err(NoLocation)
    ensures |locations| > 0 && r.Err? ==> r == Err(EmptyReduce)
    ensures r.Ok? ==> r.value.Keys == OBSERVATION_KEYS
    ensures r.Ok? ==> r.value["observationTime"] == Text(locations[0].obsTime)
    ensures r.Ok? ==> r.value["locationName"] == Text(locations[0].locationName)
    ensures r.Ok? ==> forall k :: k in r.value ==> r.value[k].Text? || r.value[k].Undefined?
  {
    if |locations| == 0 then Err(NoLocation) else CurrentRecordOf(locations[0])
  }

  /** The reducer, written as the loop it is: the accumulator starts as
      element 0 and elements 1.. are visited in order. */
  method ReduceElements(es: seq<ObsElement>) returns (r: Result<Dict>)
    ensures r == Reduce(es)
  {
    if |es| == 0 {
      return Err(EmptyReduce);
    }
    var dict := ElementObject(es[0]);
    var i := 1;
    while i < |es|
      invariant 1 <= i <= |es|
      invariant dict == Fold(ElementObject(es[0]), es[1..i])
    {
      var e := es[i];
      if e.elementName in OBSERVED_NAMES {
        dict := dict[e.elementName := e.elementValue];
      }
      assert es[1..i + 1][..i - 1] == es[1..i];
      i := i + 1;
    }
    assert es[1..i] == es[1..];
    r := Ok(dict);
  }

  /** fetchCurrentWeather's body after the JSON is parsed. */
  method FetchCurrentWeather(locations: seq<ObsLocation>) returns (r: Result<Record>)
    ensures r == CurrentWeatherOf(locations)
  {
    if |locations| == 0 {
      return Err(NoLocation);
    }
    var locationData := locations[0];
    var weatherElements := ReduceElements(locationData.weatherElement);
    if weatherElements.Err? {
      return Err(weatherElements.failure);
    }
    r := Ok(CurrentRecord(locationData, weatherElements.value));
  }

  // ---------------------------------------------------------------------
  // Properties of the fold

  /** `i` is the last index of `es` whose element is named `name`. */
  ghost predicate LastAt(es: seq<ObsElement>, i: int, name: string) {
    0 <= i < |es| && es[i].elementName == name &&
    forall j :: i < j < |es| ==> es[j].elementName != name
  }

  /** A selected name is in the folded dictionary exactly when the seed or
      some visited element has it, and its value is the last such element's. */
  lemma {:induction false} FoldLastWins(acc: Dict, es: seq<ObsElement>, name: string)
    requires name in OBSERVED_NAMES
    ensures name in Fold(acc, es) <==> name in acc || exists i :: 0 <= i < |es| && es[i].elementName == name
    ensures forall i :: LastAt(es, i, name) ==> Fold(acc, es)[name] == es[i].elementValue
  {
    if es != [] {
      var init, last := es[..|es| - 1], es[|es| - 1];
      var prev := Fold(acc, init);
      assert Fold(acc, es) == Step(prev, last);
      FoldLastWins(acc, init, name);
      if last.elementName == name {
        assert Fold(acc, es) == prev[name := last.elementValue];
      } else {
        assert name in Fold(acc, es) <==> name in prev;
        forall i | 0 <= i < |es| && es[i].elementName == name
          ensures 0 <= i < |init| && init[i].elementName == name
        {
        }
        forall i | LastAt(es, i, name)
          ensures LastAt(init, i, name)
        {
        }
      }
    }
  }

  /** Two accumulators that agree on a property still agree after folding. */
  ghost predicate AgreeAt(d1: Dict, d2: Dict, name: string) {
    (name in d1 <==> name in d2) && (name in d1 ==> d1[name] == d2[name])
  }

  lemma {:induction false} FoldPreservesAgreement(d1: Dict, d2: Dict, es: seq<ObsElement>, name: string)
    requires AgreeAt(d1, d2, name)
    ensures AgreeAt(Fold(d1, es), Fold(d2, es), name)
  {
    if es != [] {
      FoldPreservesAgreement(d1, d2, es[..|es| - 1], name);
    }
  }

  /** The elements whose names the reducer keeps, in order. */
  function Selected(es: seq<ObsElement>): (r: seq<ObsElement>)
    ensures forall e :: e in r <==> e in es && e.elementName in OBSERVED_NAMES
    decreases |es|
  {
    if es == [] then []
    else Selected(es[..|es| - 1]) + (if es[|es| - 1].elementName in OBSERVED_NAMES then [es[|es| - 1]] else [])
  }

  /** Elements with any other name leave the fold unchanged. */
  lemma {:induction false} FoldIgnoresOtherNames(acc: Dict, es: seq<ObsElement>)
    ensures Fold(acc, Selected(es)) == Fold(acc, es)
  {
    if es != [] {
      var init, last := es[..|es| - 1], es[|es| - 1];
      FoldIgnoresOtherNames(acc, init);
      if last.elementName in OBSERVED_NAMES {
        var s := Selected(init) + [last];
        assert Selected(es) == s;
        assert s[..|s| - 1] == Selected(init);
      } else {
        assert Selected(init) + [] == Selected(init);
        assert Selected(es) == Selected(init);
        assert Fold(acc, es) == Fold(acc, init);
      }
    }
  }

  // ---------------------------------------------------------------------
  // Properties of the extracted record

  /** Each reading is the `elementValue` of the LAST element at index 1 or
      later with its name, and `undefined` when no such element exists: an
      element at index 0 is never selected. */
  lemma SelectedFieldIsLastOccurrence(loc: ObsLocation, name: string)
    requires |loc.weatherElement| >= 1 && name in OBSERVED_NAMES
    ensures CurrentRecordOf(loc).Ok?
    ensures var r := CurrentRecordOf(loc).value; var es := loc.weatherElement;
      && (r[RecordKey(name)] == Undefined <==> forall i :: 1 <= i < |es| ==> es[i].elementName != name)
      && (forall i :: 1 <= i && LastAt(es, i, name) ==> r[RecordKey(name)] == Text(es[i].elementValue))
  {
    var es := loc.weatherElement;
    var seed, rest := ElementObject(es[0]), es[1..];
    FoldLastWins(seed, rest, name);
    var dict := Fold(seed, rest);
    assert CurrentRecordOf(loc).value == CurrentRecord(loc, dict);
    assert CurrentRecord(loc, dict)[RecordKey(name)] == Lookup(dict, name);
    assert name !in seed;
    if name in dict {
      var i :| 0 <= i < |rest| && rest[i].elementName == name;
      assert es[i + 1].elementName == name;
    } else {
      forall i | 1 <= i < |es| ensures es[i].elementName != name {
        assert rest[i - 1] == es[i];
      }
    }
    forall i | 1 <= i && LastAt(es, i, name) ensures Lookup(dict, name) == Text(es[i].elementValue) {
      assert rest[i - 1] == es[i];
      forall j | i - 1 < j < |rest| ensures rest[j].elementName != name {
        assert rest[j] == es[j + 1];
      }
      assert LastAt(rest, i - 1, name);
    }
  }

  /** The record depends only on `locationName`, `obsTime` and the selected
      elements from index 1 on: element 0 and every element with another name
      can be replaced, added or removed without changing it. */
  lemma OnlySelectedElementsMatter(l1: ObsLocation, l2: ObsLocation)
    requires |l1.weatherElement| >= 1 && |l2.weatherElement| >= 1
    requires l1.locationName == l2.locationName && l1.obsTime == l2.obsTime
    requires Selected(l1.weatherElement[1..]) == Selected(l2.weatherElement[1..])
    ensures CurrentRecordOf(l1) == CurrentRecordOf(l2)
  {
    var s1, s2 := ElementObject(l1.weatherElement[0]), ElementObject(l2.weatherElement[0]);
    var r1, r2 := l1.weatherElement[1..], l2.weatherElement[1..];
    FoldIgnoresOtherNames(s1, r1);
    FoldIgnoresOtherNames(s2, r2);
    var d1, d2 := Fold(s1, r1), Fold(s2, r2);
    forall name | name in OBSERVED_NAMES ensures Lookup(d1, name) == Lookup(d2, name) {
      FoldPreservesAgreement(s1, s2, Selected(r1), name);
    }
    assert CurrentRecord(l1, d1) == CurrentRecord(l2, d2);
  }

  /** Only `location[0]` is read; the other location records are ignored. */
  lemma OnlyFirstLocationMatters(locations: seq<ObsLocation>, others: seq<ObsLocation>)
    requires |locations| >= 1
    ensures CurrentWeatherOf(locations[..1] + others) == CurrentWeatherOf(locations)
  {
  }
}
