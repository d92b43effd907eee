/** The parsed JSON the two weather endpoints return, the values a record
    field can hold, and the ways extraction can fail. The network request and
    `response.json()` are not modelled: the parsed location lists are inputs. */
module Payload {

  /** One entry of an observation location's `weatherElement` list. */
  datatype ObsElement = ObsElement(elementName: string, elementValue: string)

  /** One entry of `records.location` of the observation payload;
      `obsTime` stands for the nested `time.obsTime`. */
  datatype ObsLocation = ObsLocation(
    locationName: string,
    obsTime: string,
    weatherElement: seq<ObsElement>)

  /** The `parameter` object of one forecast time window. */
  datatype Param = Param(parameterName: string, parameterValue: string)

  /** One entry of a forecast element's `time` list. */
  datatype TimeWindow = TimeWindow(parameter: Param)

  /** One entry of a forecast location's `weatherElement` list. */
  datatype FcElement = FcElement(elementName: string, time: seq<TimeWindow>)

  /** One entry of `records.location` of the forecast payload. */
  datatype FcLocation = FcLocation(locationName: string, weatherElement: seq<FcElement>)

  /** A JavaScript value as it can appear in the weather record: the strings
      copied from the payload, the numeric and boolean defaults of the initial
      state, the `new Date()` of the initial state (as a clock reading in
      milliseconds) and `undefined` for a field whose element was not found. */
  datatype Value = Text(text: string) | Number(number: int) | Bool(flag: bool) | Instant(millis: int) | Undefined

  /** A plain JavaScript object: property names to values. Object spread
      `{...a, ...b}` is `a + b` (later properties win). */
  type Record = map<string, Value>

  /** The TypeErrors the extraction code can throw. */
  datatype Failure =
    | NoLocation                        // `records.location[0]` is undefined
    | EmptyReduce                       // `reduce` of an empty array with no initial value
    | NoTimeWindow(elementName: string) // `time[0]` of a selected forecast element is undefined
    | MissingElement(elementName: string) // `weatherElements.Wx` (or PoP, CI) is undefined

  datatype Result<T> = Ok(value: T) | Err(failure: Failure)
}
