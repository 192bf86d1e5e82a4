/** The `IoTHubMessage` record of the agent: the message schema sent to IoT Hub,
    its construction from a platform record, its dictionary form (what `asdict`
    gives and what is serialised to JSON) and its reading back from a parsed
    message body. The JSON text itself is not modelled: a body is the dictionary
    that encodes to it and decodes from it. */
module IoTHubMessages {
  import opened PyValues

  /** The four fields of the dataclass. Python does not check the declared field
      types at run time, so each field holds whatever value it was given. */
  datatype IoTHubMessage = IoTHubMessage(physicalAddress: Value, instance: Value, ts: Value, value: Value)

  /** A platform record, a dictionary form of a message and a parsed JSON body. */
  type Dict = map<string, Value>

  const TopicKey := "topic"
  const TimestampKey := "timestamp"
  const ValueKey := "value"

  const PhysicalAddressField := "physical_address"
  const InstanceField := "instance"
  const TsField := "ts"
  const ValueField := "value"

  /** The keys of a message's dictionary form. */
  function MessageKeys(): set<string>
  {
    {PhysicalAddressField, InstanceField, TsField, ValueField}
  }

  /** A message whose fields have the types the dataclass declares. */
  predicate WellTyped(m: IoTHubMessage)
  {
    m.physicalAddress.Str? && m.instance.Str? && m.ts.Int? && m.value.Str?
  }

  /** `IoTHubMessage.from_vtron_record(instance, record)`. The keyword arguments
      are evaluated in order: `record["topic"]`, then the timestamp (a missing key,
      or a value without a `timestamp()` method, raises), then `str(record["value"])`. */
  function FromVtronRecord(instance: string, record: Dict): (r: Result<IoTHubMessage>)
    ensures r.Ok? <==>
      TopicKey in record && TimestampKey in record && record[TimestampKey].Time?
      && ValueKey in record && PyStr(record[ValueKey]).Ok?
    ensures r.Ok? ==>
      && r.value.physicalAddress == record[TopicKey]
      && r.value.instance == Str(instance)
      && r.value.ts == Int(record[TimestampKey].dt.epochNanos)
      && r.value.value == Str(PyStr(record[ValueKey]).value)
    ensures r.Ok? ==> (WellTyped(r.value) <==> record[TopicKey].Str?)
    ensures TopicKey !in record ==> r == Raised(KeyError(TopicKey))
    ensures TopicKey in record && TimestampKey !in record ==> r == Raised(KeyError(TimestampKey))
    ensures TopicKey in record && TimestampKey in record && !record[TimestampKey].Time? ==>
      r == Raised(AttributeError(TimestampKey))
    ensures TopicKey in record && TimestampKey in record && record[TimestampKey].Time? && ValueKey !in record ==>
      r == Raised(KeyError(ValueKey))
  {
    match Lookup(record, TopicKey)
    case Raised(e) => Raised(e)
    case Ok(topic) =>
      match Lookup(record, TimestampKey)
      case Raised(e) => Raised(e)
      case Ok(stamp) =>
        if !stamp.Time? then Raised(AttributeError(TimestampKey))
        else
          match Lookup(record, ValueKey)
          case Raised(e) => Raised(e)
          case Ok(v) =>
            match PyStr(v)
            case Raised(e) => Raised(e)
            case Ok(text) => Ok(IoTHubMessage(topic, Str(instance), Int(stamp.dt.epochNanos), Str(text)))
  }

  /** `asdict(message)`: the dictionary that `dump_to_json` and `dump_to_message`
      serialise. */
  function AsDict(m: IoTHubMessage): (d: Dict)
    ensures d.Keys == MessageKeys()
  {
    map[PhysicalAddressField := m.physicalAddress, InstanceField := m.instance,
        TsField := m.ts, ValueField := m.value]
  }

  /** `IoTHubMessage.from_message(message)` on the parsed body `body_as_json()`.
      The fields are read in the order ts, physical_address, instance, value, and
      copied without conversion. */
  function FromMessage(body: Dict): (r: Result<IoTHubMessage>)
    ensures r.Ok? <==> MessageKeys() <= body.Keys
    ensures r.Ok? ==> r.value.ts == body[TsField] && r.value.physicalAddress == body[PhysicalAddressField]
                      && r.value.instance == body[InstanceField] && r.value.value == body[ValueField]
    ensures TsField !in body ==> r == Raised(KeyError(TsField))
    ensures TsField in body && PhysicalAddressField !in body ==> r == Raised(KeyError(PhysicalAddressField))
    ensures TsField in body && PhysicalAddressField in body && InstanceField !in body ==>
      r == Raised(KeyError(InstanceField))
    ensures TsField in body && PhysicalAddressField in body && InstanceField in body && ValueField !in body ==>
      r == Raised(KeyError(ValueField))
  {
    match Lookup(body, TsField)
    case Raised(e) => Raised(e)
    case Ok(ts) =>
      match Lookup(body, PhysicalAddressField)
      case Raised(e) => Raised(e)
      case Ok(address) =>
        match Lookup(body, InstanceField)
        case Raised(e) => Raised(e)
        case Ok(instance) =>
          match Lookup(body, ValueField)
          case Raised(e) => Raised(e)
          case Ok(v) => Ok(IoTHubMessage(address, instance, ts, v))
  }

  /** Reading back the dictionary form of a message gives the message. */
  lemma MessageRoundTrip(m: IoTHubMessage)
    ensures FromMessage(AsDict(m)) == Ok(m)
  {
  }

  /** A body that reads as a message is, on the message's keys, the message's
      dictionary form; any other keys are ignored. */
  lemma BodyRoundTrip(body: Dict)
    requires FromMessage(body).Ok?
    ensures AsDict(FromMessage(body).value) == map k | k in MessageKeys() :: body[k]
  {
  }

  /** A message built from a record and serialised reads back as the same message,
      with a nanosecond integer timestamp and the record's topic. */
  lemma RecordToBodyRoundTrip(instance: string, record: Dict)
    requires FromVtronRecord(instance, record).Ok?
    ensures var m := FromVtronRecord(instance, record).value;
      FromMessage(AsDict(m)) == Ok(m) && AsDict(m)[TsField] == Int(record[TimestampKey].dt.epochNanos)
      && AsDict(m)[PhysicalAddressField] == record[TopicKey]
  {
    MessageRoundTrip(FromVtronRecord(instance, record).value);
  }

  /** The record of the agent's unit test converts to the hand-built message. The
      test's naive `datetime(2021, 6, 20, 3, 13)` is read here in UTC, which gives
      1624158780 seconds since the epoch; Python reads it in the local time zone. */
  lemma TestRecordConverts()
    ensures
      var record := map[TopicKey := Str("1194/analogOutput/567"),
                         TimestampKey := Time(UtcDateTime(2021, 6, 20, 3, 13, 0, "2021-06-20 03:13:00")),
                         ValueKey := Str("test_value")];
      FromVtronRecord("the_test_site", record)
        == Ok(IoTHubMessage(Str("1194/analogOutput/567"), Str("the_test_site"),
                            Int(1624158780000000000), Str("test_value")))
  {
  }
}
