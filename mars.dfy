/**
 * Mars weather: the backend may report an error inside a successful response; the
 * renderer otherwise takes the latest sol and shows its three averages, each with
 * 'N/A' when the reading is missing or zero.
 */
module MarsWeather {
  import opened Wrappers
  import opened Text

  const NotAvailable := "N/A"
  const TemperatureUnit := "°C"
  const WindUnit := " m/s"
  const PressureUnit := " Pa"

  /** One sensor of a sol's record; `av` is its average, when the record carries one. */
  datatype Sensor = Sensor(av: Option<int>)

  /** The record of one sol: temperature (AT), wind speed (HWS), pressure (PRE), first reading time. */
  datatype SolRecord = SolRecord(
    at: Option<Sensor>,
    hws: Option<Sensor>,
    pre: Option<Sensor>,
    firstUtc: Option<string>)

  /**
   * The `data` member of the weather response: an error the backend may report with its
   * message, the list of sols, and the records keyed by sol.
   */
  datatype MarsData = MarsData(
    error: Option<string>,
    message: Option<string>,
    solKeys: Option<seq<string>>,
    records: map<string, SolRecord>)

  /**
   * The error the loader shows instead of rendering: `error: message` when the data
   * carries a non-empty error (an absent message reads 'undefined').
   */
  function BackendError(data: Option<MarsData>): (e: Option<string>)
    ensures e.Some? <==> data.Some? && Truthy(data.value.error)
    ensures e.Some? ==> e.value == data.value.error.value + ": " + Interpolated(data.value.message)
  {
    if data.Some? && Truthy(data.value.error) then
      Some(data.value.error.value + ": " + Interpolated(data.value.message))
    else None
  }

  /** `${s}` for a string member that may be absent. */
  function Interpolated(s: Option<string>): string {
    match s
    case Some(m) => m
    case None => "undefined"
  }

  datatype MarsView =
    | Unavailable
    | NoRecentData
    | SolMissing
    | Weather(temperature: string, wind: string, pressure: string, sol: string, updated: Option<string>)

  /** The sensor carries an average that is not 0, the one value `||` passes through. */
  predicate Present(s: Option<Sensor>) {
    s.Some? && s.value.av.Some? && s.value.av.value != 0
  }

  /**
   * `sensor?.av || 'N/A'`, followed by the unit unless it is 'N/A': 'N/A' exactly when
   * the average is missing or zero, otherwise the average's digits and then the unit.
   */
  function Reading(s: Option<Sensor>, unit: string): (r: string)
    ensures r == NotAvailable <==> !Present(s)
    ensures Present(s) ==> r == IntToDecimal(s.value.av.value) + unit
  {
    if Present(s) then
      var d := IntToDecimal(s.value.av.value);
      assert (d + unit)[0] == d[0] && NotAvailable[0] == 'N';
      d + unit
    else NotAvailable
  }

  /** The sol the renderer reads: the last of the listed ones. */
  function LatestSol(keys: seq<string>): string
    requires keys != []
  {
    keys[|keys| - 1]
  }

  /**
   * Renders the weather. No data: unavailable. No sol list, or an empty one: no recent
   * data. A last sol without a record: not available. Otherwise the three averages
   * with units, the sol ('N/A' when its key is empty) and the first reading time when present.
   */
  function DisplayMars(data: Option<MarsData>): (v: MarsView)
    ensures v.Unavailable? <==> data.None?
    ensures v.NoRecentData? <==>
      data.Some? && (data.value.solKeys.None? || data.value.solKeys.value == [])
    ensures v.SolMissing? <==>
      data.Some? && data.value.solKeys.Some? && data.value.solKeys.value != []
      && LatestSol(data.value.solKeys.value) !in data.value.records
    ensures v.Weather? ==>
      var sol := LatestSol(data.value.solKeys.value);
      var rec := data.value.records[sol];
      && v.temperature == Reading(rec.at, TemperatureUnit)
      && v.wind == Reading(rec.hws, WindUnit)
      && v.pressure == Reading(rec.pre, PressureUnit)
      && v.sol == OrElse(Some(sol), NotAvailable)
      && (v.updated.Some? <==> Truthy(rec.firstUtc))
      && (v.updated.Some? ==> v.updated == rec.firstUtc)
  {
    if data.None? then Unavailable
    else if data.value.solKeys.None? || data.value.solKeys.value == [] then NoRecentData
    else
      var sol := LatestSol(data.value.solKeys.value);
      if sol !in data.value.records then SolMissing
      else
        var rec := data.value.records[sol];
        Weather(
          Reading(rec.at, TemperatureUnit),
          Reading(rec.hws, WindUnit),
          Reading(rec.pre, PressureUnit),
          if sol == "" then NotAvailable else sol,
          if Truthy(rec.firstUtc) then rec.firstUtc else None)
  }
}
