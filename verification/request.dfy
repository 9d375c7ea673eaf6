/** The request builder: turns the caller's rows and a format name into the
    payload that is serialised as the body of the inference request. */
module Request {
  import opened Wrappers
  import opened Json
  import opened Schema

  /** A feature vector. Its length is not checked by the client. */
  type Row = seq<real>

  type Instances = seq<Row>

  /** The two format names the builder recognises, compared exactly. */
  const DataframeSplitFormat := "dataframe_split"
  const InstancesFormat := "instances"

  /** The keys of the payload objects. */
  const DataframeSplitKey := "dataframe_split"
  const ColumnsKey := "columns"
  const DataKey := "data"
  const InstancesKey := "instances"

  /** A payload the builder can produce. */
  datatype Payload =
    | DataframeSplit(columns: seq<string>, data: Instances)
    | PlainInstances(data: Instances)

  /** Why no payload was built; the source prints a message and returns None
      in both cases. */
  datatype BuildError =
    | UnsupportedFormat(format: string)
    | ColumnCountMismatch

  /** The dict that `json.dumps` serialises for a payload. */
  function ToJson(p: Payload): Json
  {
    match p
    case DataframeSplit(columns, data) =>
      Object([(DataframeSplitKey, Object([(ColumnsKey, StringArray(columns)), (DataKey, RowsArray(data))]))])
    case PlainInstances(data) =>
      Object([(InstancesKey, RowsArray(data))])
  }

  /** Reads a request body back into a payload: exactly one recognised
      top-level key, and for the split form exactly `columns` then `data`. */
  function FromJson(j: Json): Option<Payload>
  {
    if Keys(j) == [DataframeSplitKey] then
      var split :- Get(j, DataframeSplitKey);
      if Keys(split) == [ColumnsKey, DataKey] then
        var columns :- ColumnsSent(j);
        var data :- RowsSent(j);
        Some(DataframeSplit(columns, data))
      else None
    else if Keys(j) == [InstancesKey] then
      var data :- RowsSent(j);
      Some(PlainInstances(data))
    else None
  }

  /** The column names a schema-enforcing server finds in a request body:
      `body["dataframe_split"]["columns"]`. */
  function ColumnsSent(body: Json): Option<seq<string>>
  {
    var split :- Get(body, DataframeSplitKey);
    var columns :- Get(split, ColumnsKey);
    AsStrings(columns)
  }

  /** The rows a server finds in a request body: the split form's `data`,
      or else the plain form's `instances`. */
  function RowsSent(body: Json): Option<Instances>
  {
    match Get(body, DataframeSplitKey)
    case Some(split) =>
      var data :- Get(split, DataKey);
      AsRows(data)
    case None =>
      var data :- Get(body, InstancesKey);
      AsRows(data)
  }

  /** The builder against a given schema (`columns`, `numFeatures`). The
      format is dispatched first; the column count is checked only on the
      split path. */
  function BuildWith(columns: seq<string>, numFeatures: int, instances: Instances, format: string)
    : (r: Result<Payload, BuildError>)
    ensures r.Success? <==> format == InstancesFormat || (format == DataframeSplitFormat && |columns| == numFeatures)
    ensures format != DataframeSplitFormat && format != InstancesFormat ==> r == Failure(UnsupportedFormat(format))
    ensures format == DataframeSplitFormat && |columns| != numFeatures ==> r == Failure(ColumnCountMismatch)
    ensures r.Success? && format == DataframeSplitFormat ==> r.value == DataframeSplit(columns, instances)
    ensures r.Success? && format == InstancesFormat ==> r.value == PlainInstances(instances)
  {
    if format == DataframeSplitFormat then
      if |columns| != numFeatures then Failure(ColumnCountMismatch)
      else Success(DataframeSplit(columns, instances))
    else if format == InstancesFormat then
      Success(PlainInstances(instances))
    else
      Failure(UnsupportedFormat(format))
  }

  /** The builder of the source, against its fixed schema. */
  function Build(instances: Instances, format: string): (r: Result<Payload, BuildError>)
    ensures r.Success? <==> format == DataframeSplitFormat || format == InstancesFormat
    ensures r.Failure? ==> r.error == UnsupportedFormat(format)
  {
    BuildWith(FeatureColumns, NumFeatures, instances, format)
  }

  /** Serialising a payload loses nothing: reading the body back gives the
      same payload. */
  lemma PayloadRoundTrip(p: Payload)
    ensures FromJson(ToJson(p)) == Some(p)
  {
    var j := ToJson(p);
    StringsRoundTrip(if p.DataframeSplit? then p.columns else []);
    RowsRoundTrip(p.data);
    match p
    case DataframeSplit(columns, data) =>
      assert Keys(j) == [DataframeSplitKey];
      assert Keys(j.members[0].1) == [ColumnsKey, DataKey];
    case PlainInstances(data) =>
      assert Keys(j) == [InstancesKey];
  }

  /** Distinct payloads give distinct request bodies. */
  lemma ToJsonInjective(p: Payload, q: Payload)
    requires ToJson(p) == ToJson(q)
    ensures p == q
  {
    PayloadRoundTrip(p);
    PayloadRoundTrip(q);
  }

  /** The split form: one top-level key, the sixteen fixed column names in
      order whatever the rows are, and the rows forwarded unchanged even
      when a row is shorter or longer than the schema. */
  lemma DataframeSplitShape(instances: Instances)
    ensures Build(instances, DataframeSplitFormat).Success?
    ensures var body := ToJson(Build(instances, DataframeSplitFormat).value);
      && Keys(body) == [DataframeSplitKey]
      && ColumnsSent(body) == Some(FeatureColumns)
      && RowsSent(body) == Some(instances)
  {
    var body := ToJson(Build(instances, DataframeSplitFormat).value);
    var split := Object([(ColumnsKey, StringArray(FeatureColumns)), (DataKey, RowsArray(instances))]);
    assert body == Object([(DataframeSplitKey, split)]);
    assert Keys(body) == [DataframeSplitKey];
    assert Get(body, DataframeSplitKey) == Some(split);
    assert ColumnsKey[0] != DataKey[0];
    assert split.members[1..] == [(DataKey, RowsArray(instances))];
    assert Lookup(split.members[1..], DataKey) == Some(RowsArray(instances));
    assert split.members[0].0 != DataKey;
    assert Lookup(split.members, DataKey) == Lookup(split.members[1..], DataKey);
    assert Get(split, DataKey) == Some(RowsArray(instances));
    StringsRoundTrip(FeatureColumns);
    RowsRoundTrip(instances);
  }

  /** The fixed column list has exactly as many names as features, so the
      split form never fails its column-count check. */
  lemma SchemaConsistent()
    ensures |FeatureColumns| == NumFeatures
    ensures forall instances :: BuildWith(FeatureColumns, NumFeatures, instances, DataframeSplitFormat).Success?
  {
  }

  /** The plain form: exactly `{instances: rows}`, with no `columns` key
      anywhere a server would look for one. */
  lemma InstancesShape(instances: Instances)
    ensures Build(instances, InstancesFormat) == Success(PlainInstances(instances))
    ensures var body := ToJson(PlainInstances(instances));
      && Keys(body) == [InstancesKey]
      && ColumnsKey !in Keys(body)
      && ColumnsSent(body) == None
      && RowsSent(body) == Some(instances)
  {
    var body := ToJson(PlainInstances(instances));
    assert Keys(body) == [InstancesKey];
    assert DataframeSplitKey != InstancesKey;
    assert Get(body, DataframeSplitKey) == None;
    assert Get(body, InstancesKey) == Some(RowsArray(instances));
    RowsRoundTrip(instances);
    assert RowsSent(body) == AsRows(RowsArray(instances));
  }
}
