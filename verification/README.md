# Dry bean inference client — Dafny model

This project models the inference client of a dry-bean classification
repository: the `infer` function in `Monitoring_dan_Logging/inference.py`.
`infer` sends rows of sixteen geometric bean features to an MLflow model-serving
endpoint and reports what came back. It does this in two pure steps:

1. **Request builder** (`Request`). The format name is compared exactly with
   `"dataframe_split"` and `"instances"`.
   - `"dataframe_split"` builds `{dataframe_split: {columns: FEATURE_COLUMNS, data: rows}}`.
     It builds this only if the fixed list of 16 column names has `NUM_FEATURES` entries.
   - `"instances"` builds `{instances: rows}`.
   - Any other name builds nothing, and no request is sent.
2. **Outcome classifier** (`Client`). This step covers the `try` block: the
   POST and `raise_for_status`. It then applies the `except` clauses in their
   order:
   - a success reply returns its parsed JSON, or its raw text when the body is not JSON;
   - a connection error returns None;
   - an HTTP error status (4xx or 5xx) returns None after showing the error body;
   - any other request exception returns None.

The model has these parts:
- `Json` holds JSON values as trees, with member lookup, array encoders and
  decoders that read arrays back.
- `Schema` holds the fixed feature schema.
- `Payload` values become request bodies through `Request.ToJson`.
- `Request.FromJson`, `Request.ColumnsSent` and `Request.RowsSent` read a body
  the way a schema-enforcing server would. The payload properties are stated
  against them.
- The HTTP call is a parameter `transport: Post -> Outcome`.
- `response.json()` is a parameter `parse: string -> Option<Json>`.
- Every failure path records a `Failure` tag that names the diagnostic path
  taken. For an HTTP error, that includes the detail that is shown.
- The model keeps `NoResult` (a failure) apart from `Parsed(Null)` (a success
  reply whose body is JSON `null`). Python returns the same None for both;
  `Client.ReturnsPythonNone` names that collapse.

The model follows the code on these points:
- The two format names are the literals `"dataframe_split"` and `"instances"`.
- The column-count check runs on every split-form call, after the format
  dispatch. It is not a start-up assertion, and the plain form skips it.
- Rows are never checked against the schema length. A short or long row is
  forwarded as it is.

## Model

| member | source | states |
|---|---|---|
| Request.BuildWith | Monitoring_dan_Logging/inference.py:32-53 | A payload is built exactly when the format is `"instances"`, or `"dataframe_split"` with a column list as long as the feature count. Any other format fails as unsupported. A split-form column mismatch fails as a column-count error. The split payload carries the given columns and the caller's rows; the plain payload carries the rows. |
| Request.Build | Monitoring_dan_Logging/inference.py:29-53 | With the fixed schema, a payload is built exactly for the two recognised format names. Every failure, including any near miss of the two literals, is an unsupported-format failure that carries the name given. |
| Request.PayloadRoundTrip | Monitoring_dan_Logging/inference.py:39-56 | The serialised body of any payload reads back as that same payload. |
| Request.ToJsonInjective | Monitoring_dan_Logging/inference.py:39-56 | Distinct payloads give distinct request bodies. |
| Request.DataframeSplitShape | Monitoring_dan_Logging/inference.py:39-44 | For any rows, the split body has `dataframe_split` as its only top-level key. Its columns read back as the 16 fixed names in order. Its data reads back as the caller's rows unchanged, whatever their lengths. |
| Request.SchemaConsistent | Monitoring_dan_Logging/inference.py:6-14 | The fixed column list has `NUM_FEATURES` = 16 names, so the split form never fails its column-count check. |
| Request.InstancesShape | Monitoring_dan_Logging/inference.py:46-49 | The plain form builds exactly `{instances: rows}`. It has no `columns` key, and its rows read back unchanged. |
| Client.TryPost | Monitoring_dan_Logging/inference.py:62-63 | A reply gets past `raise_for_status` exactly when the POST answered with a status outside 400-599. An error status raises an HTTP error that carries the reply. A connection error raises the connection exception and any other transport error the generic request exception. |
| Client.ReadReply | Monitoring_dan_Logging/inference.py:65-69 | A success reply takes no failure path. It is the parsed value exactly when the body parses, and otherwise the raw text. The caller receives None from it exactly when the body parses to JSON `null`. |
| Client.Handle | Monitoring_dan_Logging/inference.py:71-86 | Every handled exception returns None and records a failure. |
| Client.Classify | Monitoring_dan_Logging/inference.py:61-86 | The model's `NoResult` appears exactly when a failure path was taken. The caller receives Python's None exactly when a failure path was taken or a success reply parsed to JSON `null`. |
| Client.Infer | Monitoring_dan_Logging/inference.py:16-86 | A request is issued exactly for the two recognised formats. It goes to the given URL with the JSON content type and the 15-second timeout. The model's `NoResult` appears exactly when a failure is recorded, and a call that issues no request always returns None. |
| Client.InferDefault | Monitoring_dan_Logging/inference.py:16 | The default call always issues a request to `http://127.0.0.1:5005/invocations`. |
| Client.SuccessReturnsReply | Monitoring_dan_Logging/inference.py:63-69 | On a success status, a JSON body returns the parsed value and any other body returns the raw text. Neither is a failure. |
| Client.NullReplyReturnsNone | Monitoring_dan_Logging/inference.py:63-66 | A success reply whose body is JSON `null` takes no failure path, yet the caller receives None, the same value a failure returns. |
| Client.FailuresReturnNone | Monitoring_dan_Logging/inference.py:71-86 | A connection error, an error status or any other request exception returns None. Each goes through its own clause: connection first, then HTTP status, then the catch-all. |
| Client.HttpErrorIgnoresBody | Monitoring_dan_Logging/inference.py:74-83 | On an error status the result is None under any parser. Parsing only chooses between showing the structured detail and the raw text. |
| Client.UnsupportedFormatSendsNothing | Monitoring_dan_Logging/inference.py:51-62 | An unrecognised format issues no request and returns None with an unsupported-format failure. No transport or parser changes that. |
| Client.RecognisedFormatPostsPayload | Monitoring_dan_Logging/inference.py:39-62 | A recognised format issues one POST. Its body reads back as the built payload with the caller's rows. The result is the classification of that POST's outcome. |
| Client.SingleRequest | Monitoring_dan_Logging/inference.py:61-62 | Two transports that answer the issued POST alike give the same call, so no other request matters. |
| Client.DefaultSendsSchema | Monitoring_dan_Logging/inference.py:16-44 | The default call sends the split form, whose only top-level key is `dataframe_split`, with the 16 fixed column names. |
| Client.MockSuccessReturnsBody | Monitoring_dan_Logging/inference.py:61-66 | An endpoint that answers 200 with a JSON body gets that body returned unchanged. |
| Client.UnreachableEndpointReturnsNone | Monitoring_dan_Logging/inference.py:71-73 | With nothing listening, a request is still issued. The result is None through the connection-failure clause. |
| Client.PlainFormatSendsInstances | Monitoring_dan_Logging/inference.py:46-49 | The plain form sends exactly `{instances: rows}`. |
| Client.BadRequestShowsDetail | Monitoring_dan_Logging/inference.py:74-83 | A 400 reply with the JSON body `{"error": "bad schema"}` returns None, with that body as the structured detail shown. |

## Left out

- Client.Classify, Client.Infer, Client.ReadReply: `Parsed(Null)` is a
  success in the model, but Python hands it to the caller as the same None
  that a failure returns. The contracts say this through
  `ReturnsPythonNone`; the caller of the source cannot tell the two apart.
- Client.ReadReply: assumes every decode failure of `response.json()` is
  caught by `except json.JSONDecodeError` (inference.py line 67). That holds
  when requests' `JSONDecodeError` derives from the standard library's. When
  simplejson is installed it does not, and a non-JSON success body reaches
  the catch-all request-exception clause and returns None instead of the raw
  text. That library-configuration case is not modelled.

- The network call. `requests.post` is the parameter `transport`. Which
  transport failures count as connection errors, rather than other request
  exceptions, is taken as given. The 15-second timeout is recorded in each
  `Post` but has no effect in the model.
- HTTP errors raised by `requests.post` itself. An HTTP error arises only
  from `raise_for_status`. The status rule (400-599 raises) is the HTTP
  library's.
- JSON text. The output of `json.dumps` and the parsing in `response.json()`
  are not modelled (RFC 8259 text form). Bodies are JSON trees, and parsing is
  the parameter `parse`.
- Exceptions that are not request exceptions. They propagate out of `infer`
  in the source and are not modelled. One example is a `TypeError` from
  `json.dumps` on a value that cannot be serialised.
- Python floats. They are modelled as `real`, and NaN and infinities are not
  represented. The client never computes with feature values; it only
  forwards them.
- The text of every `print`. Only which diagnostic path runs is kept, as the
  `Failure` tag.
- Headers. The headers dict is modelled as its single Content-Type value.
- The `__main__` driver (`inference.py` lines 88-110). It is a hard-coded
  sample and a truthiness check on the result.
- `Membangun_model/modelling.py` and `Membangun_model/modelling_tuning.py`.
  Loading the data, the train/test split, KNN fitting and the grid search,
  the floating-point metrics and MLflow logging are all calls into libraries,
  with no logic of their own.
