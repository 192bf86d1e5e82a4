# IoT Hub historian agent — Dafny model

The IoT Hub historian is a VOLTTRON historian agent. It forwards platform records
(dictionaries with a `topic`, a `timestamp` and a `value`) to Azure IoT Hub. Each
record becomes one `IoTHubMessage`, serialised as JSON and handed to the device
client's `send_message`. The framework hears which records were delivered through
`report_handled`. This project models the agent's core:

- `py_values.dfy` (`PyValues`): the Python values the agent handles and the
  exceptions it can meet. It also models `str` on those values. `str` of an `int`
  with more than 4300 digits raises `ValueError`. CPython enforces this limit from
  3.11 on, and in the 3.10.7, 3.9.14, 3.8.14 and 3.7.14 security releases. Among
  the modelled values, this is the one way the agent's `except ValueError` clause
  can be reached.
- `iot_hub_message.dfy` (`IoTHubMessages`): the `IoTHubMessage` dataclass as a
  datatype, with its construction from a platform record and its dictionary form.
  The dictionary form is what `asdict` gives and what JSON encodes. Reading a
  parsed body back as a message is also here. Fields hold arbitrary values,
  because dataclass annotations are not checked at run time.
- `iot_hub_historian.dfy` (`HistorianAgent`): the agent's configuration state as
  a class. This covers `__init__`, `_initialize_config`, `configure` and the
  attaching of the device client in `historian_setup`. The file also holds the
  forwarding loop `publish_to_historian`. That method is proved against `Forward`,
  a pure function of the batch, the instance name and the device client. The
  device client is an oracle: its constant `failures` map says which call of
  `send_message` raises, and with what.

The model follows the code on two points:

- Only `ValueError` is caught while reading the configuration. A configuration
  without `iot_hub_device_connection_string` or `instance_name` makes
  `_initialize_config` raise `KeyError`, which then escapes `__init__` or
  `configure`. The `except ValueError` handler (agent.py:121-123) logs and
  returns; nothing catches the `KeyError`.
- Records are acknowledged one at a time. `completed` is emptied after every
  `report_handled`, so each call receives a one-record list, despite the log text
  "Failed to send max_size batch".

## Model

| member | source | states |
|---|---|---|
| PyValues.Lookup | IoTHubHistorian/iot_hub_historian/agent.py:37-40 | `d[key]` gives the stored value when the key is present, and raises `KeyError(key)` otherwise |
| PyValues.PyStr | IoTHubHistorian/iot_hub_historian/agent.py:119-120 | `str(v)` raises only for an int of more than 4300 digits, and then raises `ValueError`; a string is returned unchanged; an int gives a sign and decimal digits |
| PyValues.NatToDecimal | IoTHubHistorian/iot_hub_historian/agent.py:40 | the decimal spelling of a natural number has exactly its number of digits, only digit characters, and no leading zero |
| PyValues.DecimalRoundTrip | IoTHubHistorian/iot_hub_historian/agent.py:40 | reading back the decimal spelling of `n` gives `n` |
| PyValues.StrIntRoundTrip | IoTHubHistorian/iot_hub_historian/agent.py:40 | `int(str(i)) == i` whenever `str(i)` does not raise, so a record's integer value survives the conversion into the message's `value` |
| IoTHubMessages.FromVtronRecord | IoTHubHistorian/iot_hub_historian/agent.py:34-41 | succeeds iff topic and timestamp are present, the timestamp is a datetime, value is present and `str(value)` succeeds; the topic is copied unconverted, `instance` is the given name, `ts` is the timestamp's integer nanoseconds and `value` is `str(value)`; the message is well typed iff the topic is a string; each failure raises in argument order: `KeyError('topic')`, `KeyError('timestamp')`, `AttributeError` for a non-datetime timestamp, `KeyError('value')` |
| IoTHubMessages.AsDict | IoTHubHistorian/iot_hub_historian/agent.py:54-58 | the serialised dictionary has exactly the four field names as keys |
| IoTHubMessages.FromMessage | IoTHubHistorian/iot_hub_historian/agent.py:43-51 | succeeds iff the body holds all four field names; copies each field unconverted; a missing field raises `KeyError`, checked in the order ts, physical_address, instance, value |
| IoTHubMessages.MessageRoundTrip | IoTHubHistorian/iot_hub_historian/agent.py:43-58 | `from_message` on the dictionary form of any message gives that message back |
| IoTHubMessages.BodyRoundTrip | IoTHubHistorian/iot_hub_historian/agent.py:43-51 | a body that reads as a message equals that message's dictionary form on the four field names; other keys are ignored |
| IoTHubMessages.RecordToBodyRoundTrip | IoTHubHistorian/iot_hub_historian/agent.py:34-58 | a message built from a record reads back from its serialised form unchanged, carrying the record's topic and the integer nanosecond timestamp |
| IoTHubMessages.TestRecordConverts | IoTHubHistorian/tests/test_iot_hub_historian.py:60-63 | the unit test's record converts to the unit test's hand-built message; its naive timestamp 2021-06-20 03:13 is read in UTC, giving 1624158780 seconds since the epoch |
| HistorianAgent.Handle | IoTHubHistorian/iot_hub_historian/agent.py:121-123 | an exception is caught iff it is `ValueError`; any other escapes, unchanged |
| HistorianAgent.ReadConfig | IoTHubHistorian/iot_hub_historian/agent.py:116-126 | both settings are assigned iff both keys are present and both `str` calls succeed, and then with those strings; an exception escapes iff a key is missing before any `ValueError`, and it is a `KeyError`; a missing connection string raises `KeyError` for that key; only `ValueError` is caught |
| HistorianAgent.Merge | IoTHubHistorian/iot_hub_historian/agent.py:135-136 | the merged configuration has the keys of both; a key of `contents` takes its value from `contents`; any other key keeps the default |
| HistorianAgent.ContentsWin | IoTHubHistorian/iot_hub_historian/agent.py:128-140 | when `contents` names both settings as strings, `configure` assigns exactly those, whatever the defaults hold |
| HistorianAgent.EmptyConfigEscapes | IoTHubHistorian/iot_hub_historian/agent.py:116-120 | an empty configuration raises `KeyError('iot_hub_device_connection_string')` rather than being logged |
| HistorianAgent.DeviceClient.SendMessage | IoTHubHistorian/iot_hub_historian/agent.py:152 | each call appends its message to the client's log, and raises what the oracle fixes for that call number |
| HistorianAgent.SendResult | IoTHubHistorian/iot_hub_historian/agent.py:152 | with `device_client` unset, the call raises `AttributeError('device_client')`; a client raises exactly when its oracle names an exception for the next call number, and raises that exception |
| HistorianAgent.Convert | IoTHubHistorian/iot_hub_historian/agent.py:147-150 | with `instance_name` unset, building a message raises `AttributeError('instance_name')`; otherwise it is `from_vtron_record` with that name |
| HistorianAgent.StepFailure | IoTHubHistorian/iot_hub_historian/agent.py:147-152 | forwarding the record at position j raises nothing iff its message can be built and the send succeeds; a failed conversion raises its own exception, and otherwise the send's exception is raised |
| HistorianAgent.SentMessage | IoTHubHistorian/iot_hub_historian/agent.py:147-152 | when a client exists, a record hands `send_message` at most one message: its own, exactly when it converts |
| HistorianAgent.Forward | IoTHubHistorian/iot_hub_historian/agent.py:146-163 | the loop as a function of the instance name, the batch and the client: at most the whole batch is acknowledged; nothing is raised iff the whole batch is acknowledged, and then every record was sent; at most one message is sent beyond the acknowledged records; without a client nothing is sent or acknowledged |
| HistorianAgent.ForwardFirstFails | IoTHubHistorian/iot_hub_historian/agent.py:146-163 | a batch whose first record fails acknowledges nothing and raises that record's exception; it sends that record's message only if one was built and a client exists |
| HistorianAgent.ForwardCons | IoTHubHistorian/iot_hub_historian/agent.py:146-155 | a batch whose first record is sent without an exception acknowledges it, then forwards the rest with the client one call further on |
| HistorianAgent.ForwardStopsAtFirstFailure | IoTHubHistorian/iot_hub_historian/agent.py:146-163 | the acknowledged records are a prefix of the batch; nothing is raised iff the whole batch is acknowledged; every acknowledged record converted and sent without an exception; the record after the prefix is the first that fails, and its exception is the one raised |
| HistorianAgent.ForwardSendsInOrder | IoTHubHistorian/iot_hub_historian/agent.py:146-152 | the messages handed to `send_message` are those of the acknowledged records, in order, plus the failing record's message when it was its send that raised; nothing later is converted or sent |
| HistorianAgent.AllSentWhenNoFailure | IoTHubHistorian/iot_hub_historian/agent.py:146-155 | when no record fails, every record is sent once, in order, and acknowledged, and nothing is raised; an empty batch sends and acknowledges nothing |
| HistorianAgent.FailureAtRecord | IoTHubHistorian/iot_hub_historian/agent.py:145-163 | when record k is the first to fail, exactly records 0..k-1 are acknowledged and sent, in order; record k's message is sent only if its conversion succeeded and a client exists; record k's exception is re-raised |
| HistorianAgent.ForwardedPrefixStep | IoTHubHistorian/iot_hub_historian/agent.py:146-155 | forwarding one more record without an exception extends the forwarded prefix by that record and its message |
| HistorianAgent.Singletons | IoTHubHistorian/iot_hub_historian/agent.py:153-155 | one `report_handled` argument per acknowledged record, each a list holding just that record |
| HistorianAgent.IoTHubHistorian.Create | IoTHubHistorian/iot_hub_historian/agent.py:99-106 | the agent keeps a copy of `config` as `default_config` and initialises its settings from it; an exception escaping `_initialize_config` escapes the constructor |
| HistorianAgent.IoTHubHistorian.InitializeConfig | IoTHubHistorian/iot_hub_historian/agent.py:116-126 | assigns both settings or neither, as `ReadConfig` says; a `ValueError` leaves both unchanged and raises nothing; a `KeyError` escapes |
| HistorianAgent.IoTHubHistorian.Configure | IoTHubHistorian/iot_hub_historian/agent.py:128-140 | initialises the settings from the defaults overridden by `contents`; `default_config` is unchanged |
| HistorianAgent.IoTHubHistorian.HistorianSetup | IoTHubHistorian/iot_hub_historian/agent.py:168-173 | with no connection string set it raises `AttributeError` and keeps the old client; otherwise it installs the created client |
| HistorianAgent.IoTHubHistorian.ReportHandled | IoTHubHistorian/iot_hub_historian/agent.py:154 | appends its argument, as one call, to the log of acknowledgements |
| HistorianAgent.IoTHubHistorian.ForwardRecord | IoTHubHistorian/iot_hub_historian/agent.py:147-159 | the body of the loop for the j-th record: raises exactly that record's step failure; the client's log grows by the record's message when one was built; on success the record is reported once as a one-record list, `completed` is empty again and the client is one call further on; on failure nothing is reported |
| HistorianAgent.IoTHubHistorian.PublishToHistorian | IoTHubHistorian/iot_hub_historian/agent.py:142-163 | raises exactly what `Forward` raises; the client's log grows by `Forward`'s messages; `report_handled` is called once per acknowledged record, with a one-record list, in order |

## Left out

- The float arithmetic `int(timestamp() * 1000 * 1000 * 1000)` is not computed, and neither is `datetime.fromtimestamp` in the `datetime` property (agent.py:68-70). A datetime carries its nanosecond reading and its `str` text as given values. Local time zones and float rounding are outside the model. The unit test's datetime is read in UTC (`UtcDateTime`), where Python would use the local zone.
- The unit test's expected `ts` is a float. The model compares it as the equal integer, which is what Python's `==` does for an exactly representable value.
- JSON text is not modelled: `jsonapi.dumps`, the Azure `Message` wrapper, `body_as_json`, and the `message`/`iot_device_message` properties. A body is the dictionary that encodes to and decodes from the text.
- An encoding failure while serialising a message, such as a datetime topic, is not modelled. Neither is a body that is not a JSON object.
- Lists and dictionaries as record values are not among the modelled Python values.
- HistorianSetup: the `IoTHubDeviceClient.create_from_connection_string` and `connect` calls are SDK calls. The created client is a parameter, and their failures are not modelled.
- `shutdown_iot_hub` and the `onstop` handler only call into the SDK.
- DeviceClient.SendMessage: the network send is an oracle, fixed per call number when the client is created.
- Logging, the VIP configuration-store defaults and subscription (agent.py:108-114), the `iot_hub_historian` factory (agent.py:73-91) and `main` are host-framework plumbing.
- The base historian's batching and retry behaviour belongs to the framework, not to this agent.
- `_event_hubs_connection_string` reads attributes that are never set and is never called.
- The unit test `test_data_round_trip` calls methods the agent does not have, so it is not modelled.
- Python versions without the digit limit of `str` on an `int` are not modelled: 3.10 before 3.10.7, 3.9 before 3.9.14, 3.8 before 3.8.14 and 3.7 before 3.7.14. There, none of the modelled values makes `str` raise.
- `str` of a list or a dictionary that holds an over-long `int` raises `ValueError` too, but lists and dictionaries are not modelled values.
