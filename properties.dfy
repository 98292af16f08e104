/** Properties of `update_data` over all request bodies, and of a sequence
    of requests served one after another. */
module UpdateProperties {
  import opened Wrappers
  import opened Json
  import Py
  import opened App

  /** A body of four JSON floating-point numbers. */
  function FloatBody(temperature: real, humidity: real, ph: real, rainfall: real): map<string, Value> {
    map[
      "temperature" := Float(temperature),
      "humidity" := Float(humidity),
      "ph" := Float(ph),
      "rainfall" := Float(rainfall)
    ]
  }

  /** An absent or empty body is refused before anything else is looked at:
      neither the classifier nor the float parser has any say. */
  lemma EmptyBodyRejected(body: Option<map<string, Value>>,
                          model: Classifier, parseStr: string -> Option<real>,
                          model': Classifier, parseStr': string -> Option<real>)
    requires body.None? || body.value == map[]
    ensures Update(body, model, parseStr) == Rejected(NoJsonData)
    ensures Update(body, model, parseStr) == Update(body, model', parseStr')
  {
  }

  /** A body lacking any of the four readings is refused with "Missing data
      fields" before any value is coerced. */
  lemma MissingFieldRejected(data: map<string, Value>, key: string,
                             model: Classifier, parseStr: string -> Option<real>,
                             model': Classifier, parseStr': string -> Option<real>)
    requires data != map[] && key in RequiredKeys && key !in data
    ensures Update(Some(data), model, parseStr) == Rejected(MissingFields)
    ensures Update(Some(data), model, parseStr) == Update(Some(data), model', parseStr')
  {
  }

  /** A reading that `float()` cannot convert is refused, whatever the other
      readings are, with the exception of the first such reading. Unless that
      is a JSON integer too large for a double, the answer is 400 (and
      `ErrorFor` gives the "Invalid data type: " message). */
  lemma UncoercibleRejected(data: map<string, Value>, key: string,
                            model: Classifier, parseStr: string -> Option<real>)
    requires HasRequiredKeys(data) && key in RequiredKeys
    requires Py.ToFloat(data[key], parseStr).Failure?
    ensures Coerce(data, parseStr).Failure?
    ensures Update(Some(data), model, parseStr) == Rejected(ErrorFor(Py.Raised(Coerce(data, parseStr).error)))
    ensures (forall i :: 0 <= i < |RequiredKeys| ==> !data[RequiredKeys[i]].Int?) ==>
      Update(Some(data), model, parseStr).response.code == 400
  {
    CoerceFailure(data, key, parseStr);
    TryUpdateCoerceFailure(data, model, parseStr);
    assert RequiredKeys[0] in data;
  }

  lemma CoerceFailure(data: map<string, Value>, key: string, parseStr: string -> Option<real>)
    requires HasRequiredKeys(data) && key in RequiredKeys
    requires Py.ToFloat(data[key], parseStr).Failure?
    ensures Coerce(data, parseStr).Failure?
    ensures (forall i :: 0 <= i < |RequiredKeys| ==> !data[RequiredKeys[i]].Int?) ==>
      !Coerce(data, parseStr).error.IntTooLarge?
  {
    var c := Coerce(data, parseStr);
    var i :| 0 <= i < |RequiredKeys| && RequiredKeys[i] == key;
    assert !c.Success?;
    var first :| 0 <= first < |RequiredKeys|
      && Py.ToFloat(data[RequiredKeys[first]], parseStr) == Failure(c.error);
    assert !data[RequiredKeys[first]].Int? ==> !c.error.IntTooLarge?;
  }

  /** Temperature is checked against [0, 60], bounds included, before humidity. */
  lemma TemperatureOutOfRangeRejected(data: map<string, Value>,
                                      model: Classifier, parseStr: string -> Option<real>)
    requires HasRequiredKeys(data) && Coerce(data, parseStr).Success?
    requires var t := Coerce(data, parseStr).value.temperature; t < 0.0 || t > 60.0
    ensures Update(Some(data), model, parseStr)
         == Rejected(Response(400, "error", "Invalid data type: " + "Invalid temperature reading"))
  {
    assert RequiredKeys[0] in data;
    assert CheckRanges(Coerce(data, parseStr).value).Failure?;
  }

  /** With temperature in range, humidity is checked against [10, 100],
      bounds included. */
  lemma HumidityOutOfRangeRejected(data: map<string, Value>,
                                   model: Classifier, parseStr: string -> Option<real>)
    requires HasRequiredKeys(data) && Coerce(data, parseStr).Success?
    requires 0.0 <= Coerce(data, parseStr).value.temperature <= 60.0
    requires var h := Coerce(data, parseStr).value.humidity; h < 10.0 || h > 100.0
    ensures Update(Some(data), model, parseStr)
         == Rejected(Response(400, "error", "Invalid data type: " + "Invalid humidity reading"))
  {
    var e := Py.ValueError("Invalid humidity reading");
    assert RequiredKeys[0] in data;
    assert CheckRanges(Coerce(data, parseStr).value) == Failure(e);
    assert TryUpdate(data, model, parseStr) == Failure(e);
  }

  /** pH and rainfall are never range-checked: with temperature and humidity
      anywhere in their ranges (the four bounds included) and no classifier,
      every pH and rainfall is stored, even ones outside the bounds that
      `VALID_RANGES` lists for them. */
  lemma PhAndRainfallUnchecked(temperature: real, humidity: real, ph: real, rainfall: real,
                               parseStr: string -> Option<real>)
    requires 0.0 <= temperature <= 60.0 && 10.0 <= humidity <= 100.0
    ensures
      var o := Update(Some(FloatBody(temperature, humidity, ph, rainfall)), NotLoaded, parseStr);
      o == Replaced(RecordOf(Readings(temperature, humidity, ph, rainfall), NoModelLabel))
  {
    var data := FloatBody(temperature, humidity, ph, rainfall);
    CoerceInSequence(data, parseStr);
  }

  /** A pH of 14 with 900 mm of rainfall is stored although `VALID_RANGES`
      bounds them by 9.5 and 500. */
  lemma UncheckedBoundsExample(parseStr: string -> Option<real>)
    ensures !Within("ph", 14.0) && !Within("rainfall", 900.0)
    ensures Update(Some(FloatBody(25.0, 50.0, 14.0, 900.0)), NotLoaded, parseStr).Replaced?
  {
    PhAndRainfallUnchecked(25.0, 50.0, 14.0, 900.0, parseStr);
  }

  /** On success the record is rebuilt from the request alone: exactly the
      five keys, the four coerced readings, and a prediction that is "N/A -
      Model not loaded" without a classifier, or else the capitalized label
      the classifier gives for [temperature, humidity, ph, rainfall]. */
  lemma AcceptedRecord(data: map<string, Value>, model: Classifier, parseStr: string -> Option<real>)
    requires Update(Some(data), model, parseStr).Replaced?
    ensures var o := Update(Some(data), model, parseStr);
      var t := Py.ToFloat(data["temperature"], parseStr);
      var h := Py.ToFloat(data["humidity"], parseStr);
      var p := Py.ToFloat(data["ph"], parseStr);
      var f := Py.ToFloat(data["rainfall"], parseStr);
      && ResponseOf(o) == Response(200, "success", "Data updated")
      && o.record.Keys == {"temperature", "humidity", "ph", "rainfall", "prediction"}
      && t.Success? && h.Success? && p.Success? && f.Success?
      && o.record["temperature"] == Float(t.value)
      && o.record["humidity"] == Float(h.value)
      && o.record["ph"] == Float(p.value)
      && o.record["rainfall"] == Float(f.value)
      && (model.NotLoaded? ==> o.record["prediction"] == Str("N/A - Model not loaded"))
      && (model.Loaded? ==>
            var result := model.predict([t.value, h.value, p.value, f.value]);
            result.Success? && o.record["prediction"] == Str(Py.Capitalize(result.value)))
  {
    CoerceInSequence(data, parseStr);
  }

  /** An exception raised by the classifier refuses the update with the
      handler's answer for it: 400 for a ValueError or TypeError, 500
      "Internal server error" for any other class. */
  lemma InferenceErrorRejected(data: map<string, Value>,
                               predict: seq<real> -> Result<string, Py.Exception>,
                               parseStr: string -> Option<real>)
    requires HasRequiredKeys(data) && Coerce(data, parseStr).Success?
    requires var rd := Coerce(data, parseStr).value;
      0.0 <= rd.temperature <= 60.0 && 10.0 <= rd.humidity <= 100.0
      && predict(Features(rd)).Failure?
    ensures var e := predict(Features(Coerce(data, parseStr).value)).error;
      var o := Update(Some(data), Loaded(predict), parseStr);
      o == Rejected(ErrorFor(e))
      && o.response.code == (if Py.IsValueOrTypeError(e) then 400 else 500)
  {
  }

  /** The record after one outcome: replaced on acceptance, otherwise kept. */
  function Next(state: map<string, Value>, o: Outcome): map<string, Value> {
    match o
    case Replaced(record) => record
    case Rejected(_) => state
  }

  /** The record after a sequence of outcomes, starting from `state`. */
  function Apply(state: map<string, Value>, outcomes: seq<Outcome>): map<string, Value>
    decreases |outcomes|
  {
    if outcomes == [] then state else Apply(Next(state, outcomes[0]), outcomes[1..])
  }

  /** The record after serving `bodies` in order, starting from `state`. */
  function Serve(state: map<string, Value>, bodies: seq<Option<map<string, Value>>>,
                 model: Classifier, parseStr: string -> Option<real>): map<string, Value>
  {
    Apply(state, seq(|bodies|, i requires 0 <= i < |bodies| => Update(bodies[i], model, parseStr)))
  }

  lemma {:induction false} ApplyAllRejected(state: map<string, Value>, outcomes: seq<Outcome>)
    requires forall i :: 0 <= i < |outcomes| ==> outcomes[i].Rejected?
    ensures Apply(state, outcomes) == state
    decreases |outcomes|
  {
    if outcomes != [] {
      assert outcomes[0].Rejected?;
      ApplyAllRejected(state, outcomes[1..]);
    }
  }

  lemma {:induction false} ApplyLastReplaced(state: map<string, Value>, outcomes: seq<Outcome>, i: nat)
    requires i < |outcomes| && outcomes[i].Replaced?
    requires forall j :: i < j < |outcomes| ==> outcomes[j].Rejected?
    ensures Apply(state, outcomes) == outcomes[i].record
    decreases |outcomes|
  {
    var rest := outcomes[1..];
    if i == 0 {
      ApplyAllRejected(outcomes[0].record, rest);
    } else {
      assert rest[i - 1] == outcomes[i];
      ApplyLastReplaced(Next(state, outcomes[0]), rest, i - 1);
    }
  }

  lemma {:induction false} ApplyKeepsShape(state: map<string, Value>, outcomes: seq<Outcome>)
    requires IsRecord(state)
    requires forall i :: 0 <= i < |outcomes| && outcomes[i].Replaced? ==> IsRecord(outcomes[i].record)
    ensures IsRecord(Apply(state, outcomes))
    decreases |outcomes|
  {
    if outcomes != [] {
      assert outcomes[0].Replaced? ==> IsRecord(outcomes[0].record);
      ApplyKeepsShape(Next(state, outcomes[0]), outcomes[1..]);
    }
  }

  /** Refused requests leave no trace: if no request of the sequence is
      accepted, the record is the starting one (in particular the initial
      all-zero record survives until the first accepted update). */
  lemma ServeAllRejected(state: map<string, Value>, bodies: seq<Option<map<string, Value>>>,
                         model: Classifier, parseStr: string -> Option<real>)
    requires forall i :: 0 <= i < |bodies| ==> Update(bodies[i], model, parseStr).Rejected?
    ensures Serve(state, bodies, model, parseStr) == state
  {
    ApplyAllRejected(state, seq(|bodies|, i requires 0 <= i < |bodies| => Update(bodies[i], model, parseStr)));
  }

  /** Last accepted write wins: after a sequence of requests the record is
      the one built by the last accepted request, whatever came before it. */
  lemma ServeLastAccepted(state: map<string, Value>, bodies: seq<Option<map<string, Value>>>,
                          model: Classifier, parseStr: string -> Option<real>, i: nat)
    requires i < |bodies| && Update(bodies[i], model, parseStr).Replaced?
    requires forall j :: i < j < |bodies| ==> Update(bodies[j], model, parseStr).Rejected?
    ensures Serve(state, bodies, model, parseStr) == Update(bodies[i], model, parseStr).record
  {
    ApplyLastReplaced(state, seq(|bodies|, i requires 0 <= i < |bodies| => Update(bodies[i], model, parseStr)), i);
  }

  /** Every record reachable by serving requests has the five-key shape. */
  lemma ServeKeepsShape(state: map<string, Value>, bodies: seq<Option<map<string, Value>>>,
                        model: Classifier, parseStr: string -> Option<real>)
    requires IsRecord(state)
    ensures IsRecord(Serve(state, bodies, model, parseStr))
  {
    ApplyKeepsShape(state, seq(|bodies|, i requires 0 <= i < |bodies| => Update(bodies[i], model, parseStr)));
  }
}
