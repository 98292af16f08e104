# Crop-prediction sensor service: the update handler

This project models the one piece of logic in the crop-prediction web
service (`app.py`): the process-wide record `latest_data` that holds the
latest sensor readings and predicted crop, the `update_data` handler that
validates a posted JSON body and replaces that record wholesale, and
`get_data`, which returns it.

The handler works in this order:

1. An absent or empty body is refused with 400 "No JSON data received".
2. A body missing any of `temperature`, `humidity`, `ph`, `rainfall` is refused with 400 "Missing data fields".
3. The four values go through `float()`, in that order.
4. Temperature must lie in [0, 60] and humidity in [10, 100], bounds included. pH and rainfall are not checked, although `VALID_RANGES` lists bounds for them.
5. If a classifier is loaded, it predicts from `[temperature, humidity, ph, rainfall]` and its first label is capitalized. Otherwise the prediction is "N/A - Model not loaded".
6. On success the record is replaced by a new five-key record and the answer is `{"status": "success", "message": "Data updated"}`.

Any failure leaves the record untouched. A `ValueError` or `TypeError` becomes 400 "Invalid data type: <message>". This includes the two range failures. Any other exception becomes 500 "Internal server error".

Files:

- `wrappers.dfy` (module `Wrappers`): `Option` and `Result`.
- `json.dfy` (module `Json`): the decoded JSON value. Integers and floats stay distinct, as Python's `json` module keeps them.
- `py.dfy` (module `Py`): the Python builtins the handler relies on:
  - the exception classes it tells apart;
  - `float()` on a JSON value: booleans become 1.0/0.0; null, lists and dicts raise `TypeError`; integers of magnitude at least 2^1024 - 2^970 raise `OverflowError`; text goes through an abstract parser;
  - `str.capitalize` on ASCII text.
- `app.dfy` (module `App`): the constants, the validation steps as functions, the specification `Update` of one request, and the class `SensorStore`. The class holds `latestData` (the `latest_data` dictionary), a constructor with the start-up record, `GetData`, and the method `UpdateData`, which is proved against `Update`.
- `properties.dfy` (module `UpdateProperties`): the handler's properties over all bodies, and the fold `Serve` of a sequence of requests, with last-accepted-write-wins lemmas.

Other variants of this service behave differently. They merge fields one by one, start pH at 6.5, clamp rainfall, and fall back to Maize or Coffee. `app.py` does none of this, and the model follows `app.py`:

- The code replaces the whole record on every accepted update. It does not merge field by field.
- The start-up pH is 0.0, not 6.5.
- The code has no soil moisture, location enrichment, irrigation alerts, crop-information lookup or "Maize/Coffee" fallback. With no classifier, the prediction is the fixed text "N/A - Model not loaded".
- Rainfall is passed to the classifier unclamped.
- Only temperature and humidity are range-checked (the strict policy for those two only).

## Model

| member | source | states |
|---|---|---|
| App.SensorStore.constructor | app.py:21-27 | the record starts with exactly the five keys, readings 0.0, 0.0, 0.0, 0.0 and prediction "N/A - Waiting for data" |
| App.SensorStore.GetData | app.py:86-88 | returns the current record as it is, with exactly the five keys; reading it changes nothing |
| App.SensorStore.UpdateData | app.py:40-84 | the answer is the one `Update` gives; on acceptance the record is the new one built from the request, otherwise the record is unchanged; the five-key shape is kept |
| App.Update | app.py:41-84 | every accepted request yields a well-formed five-key record; every refusal is an "error" with code 400 or 500 |
| App.UpdateAcceptsIff | app.py:43-78 | a request is accepted if and only if: the body is present; it has the four keys; all four convert; temperature is in [0, 60]; humidity is in [10, 100]; prediction does not raise. The stored readings are then the converted values and the stored prediction is the predicted label |
| App.ErrorFor | app.py:80-84 | ValueError and TypeError give 400 with "Invalid data type: " followed by the exception's message; every other class gives 500 "Internal server error" |
| App.RecordOf | app.py:71-77 | the new record has exactly the five keys and holds the given readings and prediction |
| App.CoerceAll | app.py:53-57 | `float()` over the keys in turn succeeds iff every conversion does; the values are then in key order; otherwise the error is that of the first key that fails |
| App.Coerce | app.py:53-57 | the same for the four required keys: the readings equal `float()` of temperature, humidity, ph and rainfall, in that order, and the first failing conversion decides the error |
| App.CoerceInSequence | app.py:53-57 | the conversion is the four calls in a row, so the first one that raises is the error reported |
| App.TryUpdateCoerceFailure | app.py:53-57 | a failed conversion ends the `try` block with the exception `float()` raised |
| App.TryUpdate | app.py:53-78 | the `try` block: a failed conversion raises that conversion's exception; it succeeds iff the four readings convert, temperature is in [0, 60], humidity is in [10, 100] and prediction succeeds; the record it then builds holds the converted readings and the predicted label |
| App.CheckRanges | app.py:59-63 | passes iff 0 <= temperature <= 60 and 10 <= humidity <= 100; the temperature error wins when both are out of range; pH and rainfall play no part |
| App.PredictCrop | app.py:65-69 | without a classifier the label is "N/A - Model not loaded"; with one, it succeeds iff prediction on [temperature, humidity, ph, rainfall] succeeds, the exception propagates unchanged, and the label is exactly `capitalize()` of the classifier's first label (already capitalized, as long as the raw label) |
| Py.ToFloatCases | app.py:54-57 | which JSON values `float()` accepts (booleans, floats, integers within the double range, parsable text), what value it gives, and which class it raises for the rest |
| Py.ToFloat | app.py:54-57 | `float()` succeeds iff the value is a boolean, a float, an integer of magnitude below 2^1024 - 2^970, or text the parser accepts; among the failures, the integer overflow is the one raised for integers |
| Py.Raised | app.py:54-57 | a rejection by `float()` is a ValueError or TypeError, except an integer too large, which is an OverflowError |
| Py.Lower | app.py:69 | lower-casing keeps the length and lower-cases each ASCII letter in place |
| Py.Capitalize | app.py:69 | capitalizing keeps the length, upper-cases the first character and lower-cases every other |
| Py.CapitalizeIdempotent | app.py:69 | capitalizing an already capitalized label changes nothing |
| Py.CapitalizeIgnoresCase | app.py:69 | labels that differ only in ASCII letter case are stored as the same prediction |
| UpdateProperties.EmptyBodyRejected | app.py:43-45 | an absent or empty body gives 400 "No JSON data received", whatever the classifier and the float parser |
| UpdateProperties.MissingFieldRejected | app.py:49-51 | a non-empty body lacking one required key gives 400 "Missing data fields", whatever the classifier and the float parser (no value is converted) |
| UpdateProperties.UncoercibleRejected | app.py:53-84 | if any reading fails `float()`, the request is refused with the error of the first failing reading; when no reading is a JSON integer, the code is 400 |
| UpdateProperties.CoerceFailure | app.py:53-57 | one failing reading makes the conversion fail; with no JSON integers the failure is never an overflow |
| UpdateProperties.TemperatureOutOfRangeRejected | app.py:60-61 | a temperature below 0 or above 60 gives 400 "Invalid data type: Invalid temperature reading" |
| UpdateProperties.HumidityOutOfRangeRejected | app.py:62-63 | with temperature in range, a humidity below 10 or above 100 gives 400 "Invalid data type: Invalid humidity reading" |
| UpdateProperties.PhAndRainfallUnchecked | app.py:59-78 | with temperature in [0, 60] and humidity in [10, 100] (bounds included) and no classifier, any pH and any rainfall are stored exactly as sent |
| UpdateProperties.UncheckedBoundsExample | app.py:32-33 | pH 14 and rainfall 900 fall outside `VALID_RANGES` and are still accepted |
| UpdateProperties.AcceptedRecord | app.py:65-78 | on success: the answer is 200 "Data updated"; the record has exactly the five keys; the readings are `float()` of the four inputs; the prediction is "N/A - Model not loaded" without a classifier, otherwise the capitalized label predicted from [temperature, humidity, ph, rainfall] |
| UpdateProperties.InferenceErrorRejected | app.py:66-84 | an exception during prediction refuses the update with `ErrorFor` of that exception: 400 "Invalid data type: …" for ValueError or TypeError, 500 "Internal server error" otherwise |
| UpdateProperties.ApplyAllRejected | app.py:71-77 | a sequence of refusals leaves the record as it was |
| UpdateProperties.ApplyLastReplaced | app.py:71-77 | after a sequence of outcomes the record is the one from the last acceptance |
| UpdateProperties.ApplyKeepsShape | app.py:71-77 | replacements that keep the five-key shape keep it for the whole sequence |
| UpdateProperties.ServeAllRejected | app.py:42-84 | refused requests leave no trace: if none is accepted, the record after any number of requests is the starting one, in particular the initial all-zero record |
| UpdateProperties.ServeLastAccepted | app.py:71-78 | last accepted write wins: after any sequence of requests the record is the one built by the last accepted request |
| UpdateProperties.ServeKeepsShape | app.py:71-77 | every record reachable by serving requests has exactly the five keys with four numbers and a text label |

## Left out

- Flask routing, `render_template`, `jsonify`'s serialisation and `app.run` are HTTP glue. Responses are modelled as a status code plus the `status` and `message` fields.
- `request.get_json()` is modelled as giving a JSON object or None. Flask's own 400/415 answers for a malformed body or a wrong content type are not modelled, and neither are top-level JSON values that are not objects.
- Loading the pickled model at start-up is file I/O. The model only distinguishes "no classifier" from "a classifier", and the truthiness of the loaded object is taken as "loaded".
- The scikit-learn `predict` call and the numpy array construction belong to a foreign library. The classifier is an arbitrary function from the feature row to a label or to the exception it raises.
- Py.ToFloat: CPython's parsing of text is an abstract parameter. Floats are modelled as exact reals, so rounding to the nearest double, NaN and the infinities (which `float()` and Python's `json` accept) are not modelled. The text of a ValueError quotes the string between single quotes, without `repr`'s escaping.
- Py.Capitalize: covers ASCII letters only. Title-casing and lower-casing of non-ASCII characters are not modelled.
- The `print` logging calls and the absence of locking around `latest_data` are not modelled. Requests are modelled one after another (`Serve`), not interleaved.
- model.py, the offline training script (CSV reading, fitting a random forest, writing the model with joblib), is I/O plus a foreign library and is not part of this model.
