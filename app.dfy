/** The sensor-update service: the process-wide record of the latest
    readings, the validation performed by `update_data` before it replaces
    that record, and `get_data`, which returns it. */
module App {
  import opened Wrappers
  import opened Json
  import Py

  /** The readings a sensor must send, in the order they are coerced and
      handed to the classifier. */
  const RequiredKeys: seq<string> := ["temperature", "humidity", "ph", "rainfall"]

  /** The keys of the stored record. */
  const RecordKeys: set<string> := {"temperature", "humidity", "ph", "rainfall", "prediction"}

  datatype Bounds = Bounds(min: real, max: real)

  /** `VALID_RANGES`. Only the temperature and humidity entries are consulted. */
  const ValidRanges: map<string, Bounds> := map[
    "temperature" := Bounds(0.0, 60.0),
    "humidity" := Bounds(10.0, 100.0),
    "ph" := Bounds(3.0, 9.5),
    "rainfall" := Bounds(0.0, 500.0)
  ]

  /** The chained comparison `min <= x <= max` against `VALID_RANGES[field]`. */
  predicate Within(field: string, x: real)
    requires field in ValidRanges
  {
    ValidRanges[field].min <= x <= ValidRanges[field].max
  }

  datatype Readings = Readings(temperature: real, humidity: real, ph: real, rainfall: real)

  /** The feature row passed to the classifier. */
  function Features(rd: Readings): seq<real> {
    [rd.temperature, rd.humidity, rd.ph, rd.rainfall]
  }

  /** The classifier loaded at start-up, if any. `predict` gives the first
      label predicted for a one-row feature matrix, or the exception raised
      while computing it. */
  datatype Classifier =
    | NotLoaded
    | Loaded(predict: seq<real> -> Result<string, Py.Exception>)

  /** A JSON response `{"status": ..., "message": ...}` with its HTTP status code. */
  datatype Response = Response(code: int, status: string, message: string)

  const NoJsonData := Response(400, "error", "No JSON data received")
  const MissingFields := Response(400, "error", "Missing data fields")
  const DataUpdated := Response(200, "success", "Data updated")
  const InternalError := Response(500, "error", "Internal server error")

  const WaitingLabel := "N/A - Waiting for data"
  const NoModelLabel := "N/A - Model not loaded"

  /** The response the two exception handlers produce for an exception. */
  function ErrorFor(e: Py.Exception): (r: Response)
    ensures r.status == "error"
    ensures r.code == 400 <==> Py.IsValueOrTypeError(e)
    ensures r.code == 500 <==> !Py.IsValueOrTypeError(e)
    ensures Py.IsValueOrTypeError(e) ==> r.message == "Invalid data type: " + e.msg
    ensures !Py.IsValueOrTypeError(e) ==> r == Response(500, "error", "Internal server error")
  {
    if Py.IsValueOrTypeError(e) then Response(400, "error", "Invalid data type: " + e.msg)
    else InternalError
  }

  /** The shape every value of `latest_data` has: exactly the five keys,
      four numbers and a text label. */
  predicate IsRecord(m: map<string, Value>) {
    m.Keys == RecordKeys
    && m["temperature"].Float? && m["humidity"].Float? && m["ph"].Float? && m["rainfall"].Float?
    && m["prediction"].Str?
  }

  function ReadingsOf(m: map<string, Value>): Readings
    requires IsRecord(m)
  {
    Readings(m["temperature"].r, m["humidity"].r, m["ph"].r, m["rainfall"].r)
  }

  function PredictionOf(m: map<string, Value>): string
    requires IsRecord(m)
  {
    m["prediction"].s
  }

  /** The dictionary literal assigned to `latest_data` on success. */
  function RecordOf(rd: Readings, prediction: string): (m: map<string, Value>)
    ensures IsRecord(m)
    ensures ReadingsOf(m) == rd && PredictionOf(m) == prediction
  {
    map[
      "temperature" := Float(rd.temperature),
      "humidity" := Float(rd.humidity),
      "ph" := Float(rd.ph),
      "rainfall" := Float(rd.rainfall),
      "prediction" := Str(prediction)
    ]
  }

  /** `latest_data` as the process starts. */
  const InitialData: map<string, Value> := RecordOf(Readings(0.0, 0.0, 0.0, 0.0), WaitingLabel)

  predicate HasRequiredKeys(data: map<string, Value>) {
    forall k <- RequiredKeys :: k in data
  }

  /** `float()` applied to `data[k]` for each key k of `keys` in turn; the
      first call to raise decides the error. */
  function CoerceAll(data: map<string, Value>, keys: seq<string>, parseStr: string -> Option<real>)
    : (r: Result<seq<real>, Py.FloatError>)
    requires forall k <- keys :: k in data
    ensures r.Success? <==> forall i :: 0 <= i < |keys| ==> Py.ToFloat(data[keys[i]], parseStr).Success?
    ensures r.Success? ==>
      |r.value| == |keys|
      && forall i :: 0 <= i < |keys| ==> Py.ToFloat(data[keys[i]], parseStr) == Success(r.value[i])
    ensures r.Failure? ==>
      exists i :: 0 <= i < |keys|
        && Py.ToFloat(data[keys[i]], parseStr) == Failure(r.error)
        && forall j :: 0 <= j < i ==> Py.ToFloat(data[keys[j]], parseStr).Success?
  {
    if keys == [] then Success([])
    else
      var x :- Py.ToFloat(data[keys[0]], parseStr);
      var rest :- CoerceAll(data, keys[1..], parseStr);
      Success([x] + rest)
  }

  /** The four `float()` calls, in the order of `RequiredKeys`. */
  function Coerce(data: map<string, Value>, parseStr: string -> Option<real>): (r: Result<Readings, Py.FloatError>)
    requires HasRequiredKeys(data)
    ensures r.Success? <==>
      forall i :: 0 <= i < |RequiredKeys| ==> Py.ToFloat(data[RequiredKeys[i]], parseStr).Success?
    ensures r.Success? ==>
      forall i :: 0 <= i < |RequiredKeys| ==>
        Py.ToFloat(data[RequiredKeys[i]], parseStr) == Success(Features(r.value)[i])
    ensures r.Failure? ==>
      exists i :: 0 <= i < |RequiredKeys|
        && Py.ToFloat(data[RequiredKeys[i]], parseStr) == Failure(r.error)
        && forall j :: 0 <= j < i ==> Py.ToFloat(data[RequiredKeys[j]], parseStr).Success?
  {
    var xs :- CoerceAll(data, RequiredKeys, parseStr);
    Success(Readings(xs[0], xs[1], xs[2], xs[3]))
  }

  /** Coerce spelled out as the four consecutive `float()` calls of the
      handler: the first that raises decides the error, otherwise the four
      values become the readings in key order. */
  lemma CoerceInSequence(data: map<string, Value>, parseStr: string -> Option<real>)
    requires HasRequiredKeys(data)
    ensures
      var t := Py.ToFloat(data["temperature"], parseStr);
      var h := Py.ToFloat(data["humidity"], parseStr);
      var p := Py.ToFloat(data["ph"], parseStr);
      var f := Py.ToFloat(data["rainfall"], parseStr);
      Coerce(data, parseStr) ==
        if t.Failure? then Failure(t.error)
        else if h.Failure? then Failure(h.error)
        else if p.Failure? then Failure(p.error)
        else if f.Failure? then Failure(f.error)
        else Success(Readings(t.value, h.value, p.value, f.value))
  {
    var r := Coerce(data, parseStr);
    assert RequiredKeys[0] == "temperature" && RequiredKeys[1] == "humidity";
    assert RequiredKeys[2] == "ph" && RequiredKeys[3] == "rainfall";
    if r.Success? {
      var rd := r.value;
      assert Features(rd)[0] == rd.temperature && Features(rd)[1] == rd.humidity;
      assert Features(rd)[2] == rd.ph && Features(rd)[3] == rd.rainfall;
    } else {
      var i :| 0 <= i < |RequiredKeys|
        && Py.ToFloat(data[RequiredKeys[i]], parseStr) == Failure(r.error)
        && forall j :: 0 <= j < i ==> Py.ToFloat(data[RequiredKeys[j]], parseStr).Success?;
      assert i == 0 || Py.ToFloat(data[RequiredKeys[0]], parseStr).Success?;
      assert i <= 1 || Py.ToFloat(data[RequiredKeys[1]], parseStr).Success?;
      assert i <= 2 || Py.ToFloat(data[RequiredKeys[2]], parseStr).Success?;
    }
  }

  /** The two range checks; pH and rainfall are not checked. */
  function CheckRanges(rd: Readings): (r: Result<Readings, Py.Exception>)
    ensures r.Success? <==> 0.0 <= rd.temperature <= 60.0 && 10.0 <= rd.humidity <= 100.0
    ensures r.Success? ==> r.value == rd
    ensures r.Failure? && !(0.0 <= rd.temperature <= 60.0) ==>
      r.error == Py.ValueError("Invalid temperature reading")
    ensures r.Failure? && 0.0 <= rd.temperature <= 60.0 ==>
      r.error == Py.ValueError("Invalid humidity reading")
  {
    if !Within("temperature", rd.temperature) then Failure(Py.ValueError("Invalid temperature reading"))
    else if !Within("humidity", rd.humidity) then Failure(Py.ValueError("Invalid humidity reading"))
    else Success(rd)
  }

  /** The label stored as `prediction`. */
  function PredictCrop(model: Classifier, rd: Readings): (r: Result<string, Py.Exception>)
    ensures model.NotLoaded? ==> r == Success(NoModelLabel)
    ensures model.Loaded? ==> (r.Success? <==> model.predict(Features(rd)).Success?)
    ensures model.Loaded? && r.Failure? ==> Failure(r.error) == model.predict(Features(rd))
    ensures model.Loaded? && r.Success? ==>
      |r.value| == |model.predict(Features(rd)).value|
      && Py.Capitalize(r.value) == r.value
    ensures model.Loaded? && r.Success? ==> r.value == Py.Capitalize(model.predict(Features(rd)).value)
  {
    if model.NotLoaded? then Success(NoModelLabel)
    else
      var predicted :- model.predict(Features(rd));
      Py.CapitalizeIdempotent(predicted);
      Success(Py.Capitalize(predicted))
  }

  /** What one request to `update_data` does: reject it with a response, or
      replace the record (answering `DataUpdated`). */
  datatype Outcome = Rejected(response: Response) | Replaced(record: map<string, Value>)

  function ResponseOf(o: Outcome): Response {
    match o
    case Rejected(response) => response
    case Replaced(_) => DataUpdated
  }

  /** The body of the `try` block: coerce, range-check, predict, build the record. */
  function TryUpdate(data: map<string, Value>, model: Classifier, parseStr: string -> Option<real>)
    : (r: Result<map<string, Value>, Py.Exception>)
    requires HasRequiredKeys(data)
    ensures Coerce(data, parseStr).Failure? ==> r == Failure(Py.Raised(Coerce(data, parseStr).error))
    ensures r.Success? <==>
      Coerce(data, parseStr).Success?
      && 0.0 <= Coerce(data, parseStr).value.temperature <= 60.0
      && 10.0 <= Coerce(data, parseStr).value.humidity <= 100.0
      && PredictCrop(model, Coerce(data, parseStr).value).Success?
    ensures r.Success? ==>
      r.value == RecordOf(Coerce(data, parseStr).value, PredictCrop(model, Coerce(data, parseStr).value).value)
  {
    var coerced := Coerce(data, parseStr);
    if coerced.Failure? then Failure(Py.Raised(coerced.error)) else
    var checked :- CheckRanges(coerced.value);
    var crop :- PredictCrop(model, checked);
    Success(RecordOf(checked, crop))
  }

  lemma TryUpdateCoerceFailure(data: map<string, Value>, model: Classifier, parseStr: string -> Option<real>)
    requires HasRequiredKeys(data) && Coerce(data, parseStr).Failure?
    ensures TryUpdate(data, model, parseStr) == Failure(Py.Raised(Coerce(data, parseStr).error))
  {
  }

  /** The specification of `update_data` for a request body (None when
      `get_json()` yields None). */
  function Update(body: Option<map<string, Value>>, model: Classifier, parseStr: string -> Option<real>)
    : (o: Outcome)
    ensures o.Replaced? ==> IsRecord(o.record)
    ensures o.Rejected? ==>
      o.response.status == "error" && (o.response.code == 400 || o.response.code == 500)
  {
    if body.None? || body.value == map[] then Rejected(NoJsonData)
    else if !HasRequiredKeys(body.value) then Rejected(MissingFields)
    else
      match TryUpdate(body.value, model, parseStr)
      case Success(record) => Replaced(record)
      case Failure(e) => Rejected(ErrorFor(e))
  }

  /** A request is accepted exactly when the body is present, carries the
      four readings, each converts with `float()`, temperature lies in
      [0, 60] and humidity in [10, 100] (bounds included), and prediction
      does not raise; the record then holds the converted readings and the
      predicted label. */
  lemma UpdateAcceptsIff(body: Option<map<string, Value>>, model: Classifier, parseStr: string -> Option<real>)
    ensures Update(body, model, parseStr).Replaced? <==>
      body.Some? && HasRequiredKeys(body.value)
      && Coerce(body.value, parseStr).Success?
      && 0.0 <= Coerce(body.value, parseStr).value.temperature <= 60.0
      && 10.0 <= Coerce(body.value, parseStr).value.humidity <= 100.0
      && PredictCrop(model, Coerce(body.value, parseStr).value).Success?
    ensures Update(body, model, parseStr).Replaced? ==>
      var record := Update(body, model, parseStr).record;
      ReadingsOf(record) == Coerce(body.value, parseStr).value
      && PredictionOf(record) == PredictCrop(model, ReadingsOf(record)).value
  {
    if body.Some? && HasRequiredKeys(body.value) {
      assert RequiredKeys[0] in body.value;
    }
  }

  /** The process-wide state of the service. */
  class SensorStore {
    /** `latest_data`: replaced as a whole by every accepted update. */
    var latestData: map<string, Value>

    ghost predicate Valid()
      reads this
    {
      IsRecord(latestData)
    }

    constructor ()
      ensures Valid()
      ensures latestData == InitialData
      ensures ReadingsOf(latestData) == Readings(0.0, 0.0, 0.0, 0.0)
      ensures PredictionOf(latestData) == WaitingLabel
    {
      latestData := InitialData;
    }

    /** `get_data`: the current record, unchanged. */
    function GetData(): (r: map<string, Value>)
      requires Valid()
      reads this
      ensures r == latestData && r.Keys == RecordKeys
    {
      latestData
    }

    /** `update_data`: validate the body and, only if every step succeeds,
        replace the whole record. */
    method UpdateData(body: Option<map<string, Value>>, model: Classifier, parseStr: string -> Option<real>)
      returns (response: Response)
      requires Valid()
      modifies this
      ensures Valid()
      ensures response == ResponseOf(Update(body, model, parseStr))
      ensures Update(body, model, parseStr).Replaced? ==>
        latestData == Update(body, model, parseStr).record
      ensures Update(body, model, parseStr).Rejected? ==> latestData == old(latestData)
    {
      if body.None? || body.value == map[] {
        return NoJsonData;
      }
      var data := body.value;
      if !HasRequiredKeys(data) {
        return MissingFields;
      }
      assert RequiredKeys[0] in data;
      CoerceInSequence(data, parseStr);
      var temp := Py.ToFloat(data["temperature"], parseStr);
      if temp.Failure? {
        TryUpdateCoerceFailure(data, model, parseStr);
        return ErrorFor(Py.Raised(temp.error));
      }
      var humidity := Py.ToFloat(data["humidity"], parseStr);
      if humidity.Failure? {
        TryUpdateCoerceFailure(data, model, parseStr);
        return ErrorFor(Py.Raised(humidity.error));
      }
      var ph := Py.ToFloat(data["ph"], parseStr);
      if ph.Failure? {
        TryUpdateCoerceFailure(data, model, parseStr);
        return ErrorFor(Py.Raised(ph.error));
      }
      var rainfall := Py.ToFloat(data["rainfall"], parseStr);
      if rainfall.Failure? {
        TryUpdateCoerceFailure(data, model, parseStr);
        return ErrorFor(Py.Raised(rainfall.error));
      }
      var readings := Readings(temp.value, humidity.value, ph.value, rainfall.value);
      assert Coerce(data, parseStr) == Success(readings);

      if !Within("temperature", readings.temperature) {
        assert TryUpdate(data, model, parseStr) == Failure(Py.ValueError("Invalid temperature reading"));
        return ErrorFor(Py.ValueError("Invalid temperature reading"));
      }
      if !Within("humidity", readings.humidity) {
        assert TryUpdate(data, model, parseStr) == Failure(Py.ValueError("Invalid humidity reading"));
        return ErrorFor(Py.ValueError("Invalid humidity reading"));
      }
      assert CheckRanges(readings) == Success(readings);

      var predictedCrop := NoModelLabel;
      if model.Loaded? {
        var result := model.predict(Features(readings));
        if result.Failure? {
          assert TryUpdate(data, model, parseStr) == Failure(result.error);
          return ErrorFor(result.error);
        }
        predictedCrop := Py.Capitalize(result.value);
      }
      assert TryUpdate(data, model, parseStr) == Success(RecordOf(readings, predictedCrop));

      latestData := RecordOf(readings, predictedCrop);
      return DataUpdated;
    }
  }
}
