/** The `IoTHubHistorian` agent: its configuration state, the device client it
    forwards through, and `publish_to_historian`, which sends a batch of platform
    records one message at a time and acknowledges each record to the host
    framework right after its message is sent. */
module HistorianAgent {
  import opened PyValues
  import opened IoTHubMessages

  type Record = Dict
  type Config = map<string, Value>

  const ConnectionStringKey := "iot_hub_device_connection_string"
  const InstanceNameKey := "instance_name"

  /** What `_initialize_config` does with a configuration: assigns both fields,
      returns early after logging a caught `ValueError`, or lets an exception escape. */
  datatype ConfigOutcome =
    | Assigned(connectionString: string, instanceName: string)
    | Caught(error: Exception)
    | Escaped(error: Exception)
  {
    function EscapedError(): Option<Exception>
    {
      if Escaped? then Some(error) else None
    }
  }

  /** The `except ValueError` clause of `_initialize_config`. */
  function Handle(e: Exception): (o: ConfigOutcome)
    ensures o.Caught? <==> e == ValueError
    ensures !o.Assigned? && o.error == e
  {
    if e.ValueError? then Caught(e) else Escaped(e)
  }

  /** The body of `_initialize_config(config)` as a value: both lookups and both
      `str` conversions happen before either field is assigned. */
  function ReadConfig(config: Config): (o: ConfigOutcome)
    ensures o.Assigned? <==>
      ConnectionStringKey in config && InstanceNameKey in config
      && PyStr(config[ConnectionStringKey]).Ok? && PyStr(config[InstanceNameKey]).Ok?
    ensures o.Assigned? ==>
      o.connectionString == PyStr(config[ConnectionStringKey]).value
      && o.instanceName == PyStr(config[InstanceNameKey]).value
    ensures o.Escaped? <==>
      ConnectionStringKey !in config
      || (PyStr(config[ConnectionStringKey]).Ok? && InstanceNameKey !in config)
    ensures o.Escaped? ==> o.error.KeyError?
    ensures ConnectionStringKey !in config ==> o == Escaped(KeyError(ConnectionStringKey))
    ensures o.Caught? ==> o.error == ValueError
  {
    match Lookup(config, ConnectionStringKey)
    case Raised(e) => Handle(e)
    case Ok(c) =>
      match PyStr(c)
      case Raised(e) => Handle(e)
      case Ok(connectionString) =>
        match Lookup(config, InstanceNameKey)
        case Raised(e) => Handle(e)
        case Ok(n) =>
          match PyStr(n)
          case Raised(e) => Handle(e)
          case Ok(instanceName) => Assigned(connectionString, instanceName)
  }

  /** `config = default_config.copy(); config.update(contents)`. */
  function Merge(defaults: Config, contents: Config): (config: Config)
    ensures config.Keys == defaults.Keys + contents.Keys
    ensures forall k :: k in contents ==> config[k] == contents[k]
    ensures forall k :: k in defaults && k !in contents ==> config[k] == defaults[k]
  {
    defaults + contents
  }

  /** A configuration that names both settings as strings assigns them, whatever
      the defaults say. */
  lemma ContentsWin(defaults: Config, contents: Config, connectionString: string, instanceName: string)
    requires ConnectionStringKey in contents && contents[ConnectionStringKey] == Str(connectionString)
    requires InstanceNameKey in contents && contents[InstanceNameKey] == Str(instanceName)
    ensures ReadConfig(Merge(defaults, contents)) == Assigned(connectionString, instanceName)
  {
  }

  /** An empty configuration makes `_initialize_config` raise `KeyError` rather
      than log and continue. */
  lemma EmptyConfigEscapes()
    ensures ReadConfig(map[]) == Escaped(KeyError(ConnectionStringKey))
  {
  }

  /** The device client as far as `publish_to_historian` uses it: `send_message`,
      whose success or failure is an oracle fixed when the client is created. */
  class DeviceClient {
    /** The exception the client raises on its n-th `send_message` call, if any. */
    const failures: map<nat, Exception>
    /** The number of `send_message` calls made so far. */
    var calls: nat
    /** The messages passed to `send_message`, in order. */
    ghost var attempts: seq<IoTHubMessage>

    ghost predicate Valid()
      reads this
    {
      |attempts| == calls
    }

    constructor (failures: map<nat, Exception>)
      ensures Valid() && this.failures == failures && attempts == []
    {
      this.failures := failures;
      calls := 0;
      attempts := [];
    }

    /** `send_message(message.iot_device_message)`: the wire body is the JSON
        encoding of `AsDict(message)`, which `FromMessage` reads back as `message`. */
    method SendMessage(message: IoTHubMessage) returns (raised: Option<Exception>)
      requires Valid()
      modifies this
      ensures Valid()
      ensures attempts == old(attempts) + [message]
      ensures raised == SendResult(Oracle(failures, old(calls)))
    {
      raised := if calls in failures then Some(failures[calls]) else None;
      calls := calls + 1;
      attempts := attempts + [message];
    }
  }

  /** What the agent's `self.device_client` is, seen from the forwarding loop:
      unset (before `historian_setup`), or a client whose next call has number `calls`. */
  datatype Sender = Missing | Oracle(failures: map<nat, Exception>, calls: nat)

  /** The sender after `n` more successful sends. */
  function Advance(s: Sender, n: nat): (t: Sender)
    ensures t.Missing? <==> s.Missing?
    ensures t.Oracle? ==> t.failures == s.failures && t.calls == s.calls + n
  {
    match s
    case Missing => Missing
    case Oracle(failures, calls) => Oracle(failures, calls + n)
  }

  /** The exception `self.device_client.send_message(...)` raises on the sender's next
      call: reading the unset attribute raises `AttributeError`, and a client raises
      what its oracle fixes for that call number. */
  function SendResult(s: Sender): (r: Option<Exception>)
    ensures s.Missing? ==> r == Some(AttributeError("device_client"))
    ensures s.Oracle? ==> (r.Some? <==> s.calls in s.failures)
    ensures s.Oracle? && r.Some? ==> r.value == s.failures[s.calls]
  {
    match s
    case Missing => Some(AttributeError("device_client"))
    case Oracle(failures, calls) => if calls in failures then Some(failures[calls]) else None
  }

  /** `IoTHubMessage.from_vtron_record(instance=self.instance_name, record=record)`:
      reading `self.instance_name` raises while it is unset. */
  function Convert(instanceName: Option<string>, record: Record): (r: Result<IoTHubMessage>)
    ensures instanceName.None? ==> r == Raised(AttributeError(InstanceNameKey))
    ensures instanceName.Some? ==> r == FromVtronRecord(instanceName.value, record)
  {
    match instanceName
    case None => Raised(AttributeError(InstanceNameKey))
    case Some(name) => FromVtronRecord(name, record)
  }

  /** The exception raised while forwarding `record` as the record at position `j`
      of a batch whose first send goes to `s`, provided every earlier record was
      forwarded; `None` when it is converted, sent and acknowledged. */
  function StepFailure(instanceName: Option<string>, record: Record, s: Sender, j: nat): (r: Option<Exception>)
    ensures r.None? <==> Convert(instanceName, record).Ok? && SendResult(Advance(s, j)).None?
    ensures Convert(instanceName, record).Raised? ==> r == Some(Convert(instanceName, record).exc)
    ensures Convert(instanceName, record).Ok? ==> r == SendResult(Advance(s, j))
  {
    match Convert(instanceName, record)
    case Raised(e) => Some(e)
    case Ok(_) => SendResult(Advance(s, j))
  }

  /** What one call of `publish_to_historian` does: the messages handed to
      `send_message`, the records acknowledged, and the exception it raises. */
  datatype Trace = Trace(attempts: seq<IoTHubMessage>, acked: seq<Record>, raised: Option<Exception>)

  /** The forwarding loop as a function of the agent's instance name, the batch
      and the device client. */
  function Forward(instanceName: Option<string>, batch: seq<Record>, s: Sender): (t: Trace)
    ensures |t.acked| <= |batch|
    ensures t.raised.None? <==> |t.acked| == |batch|
    ensures |t.acked| <= |t.attempts| <= |t.acked| + 1
    ensures t.raised.None? ==> |t.attempts| == |batch|
    ensures s.Missing? ==> t.attempts == [] && t.acked == []
    decreases |batch|
  {
    if batch == [] then Trace([], [], None)
    else
      match Convert(instanceName, batch[0])
      case Raised(e) => Trace([], [], Some(e))
      case Ok(m) =>
        if s.Missing? then Trace([], [], SendResult(s))
        else if SendResult(s).Some? then Trace([m], [], SendResult(s))
        else
          var rest := Forward(instanceName, batch[1..], Advance(s, 1));
          Trace([m] + rest.attempts, [batch[0]] + rest.acked, rest.raised)
  }

  /** A batch whose first record fails stops there: nothing is acknowledged, the
      record's message was handed to the client only if it had one and a client
      exists, and the record's exception is raised. */
  lemma ForwardFirstFails(instanceName: Option<string>, batch: seq<Record>, s: Sender)
    requires batch != [] && StepFailure(instanceName, batch[0], s, 0).Some?
    ensures var t := Forward(instanceName, batch, s);
      && t.acked == [] && t.raised == StepFailure(instanceName, batch[0], s, 0)
      && t.attempts == (if s.Oracle? then SentMessage(instanceName, batch[0]) else [])
  {
    assert Advance(s, 0) == s;
  }

  /** A batch whose first record is sent without an exception acknowledges it and
      goes on with the rest, the client having taken one more call. */
  lemma ForwardCons(instanceName: Option<string>, batch: seq<Record>, s: Sender)
    requires batch != [] && StepFailure(instanceName, batch[0], s, 0).None?
    ensures Convert(instanceName, batch[0]).Ok? && s.Oracle?
    ensures var t := Forward(instanceName, batch, s);
      var r := Forward(instanceName, batch[1..], Advance(s, 1));
      t == Trace([Convert(instanceName, batch[0]).value] + r.attempts, [batch[0]] + r.acked, r.raised)
  {
    assert Advance(s, 0) == s;
  }

  /** The batch is forwarded up to its first failing record: exactly the records
      before it are acknowledged, in order, and the exception of that record is
      the one raised. */
  lemma {:induction false} ForwardStopsAtFirstFailure(instanceName: Option<string>, batch: seq<Record>, s: Sender)
    ensures var t := Forward(instanceName, batch, s);
      var k := |t.acked|;
      && t.acked == batch[..k]
      && (forall j :: 0 <= j < k ==> StepFailure(instanceName, batch[j], s, j).None?)
      && (k < |batch| ==> t.raised == StepFailure(instanceName, batch[k], s, k) && t.raised.Some?)
    decreases |batch|
  {
    if batch != [] {
      if StepFailure(instanceName, batch[0], s, 0).Some? {
        ForwardFirstFails(instanceName, batch, s);
      } else {
        var s1 := Advance(s, 1);
        ForwardCons(instanceName, batch, s);
        ForwardStopsAtFirstFailure(instanceName, batch[1..], s1);
        var t := Forward(instanceName, batch, s);
        var r := Forward(instanceName, batch[1..], s1);
        assert batch[..|t.acked|] == [batch[0]] + batch[1..][..|r.acked|];
        forall j | 1 <= j < |t.acked|
          ensures StepFailure(instanceName, batch[j], s, j).None?
        {
          assert batch[j] == batch[1..][j - 1];
          assert Advance(s1, j - 1) == Advance(s, j);
        }
        if |t.acked| < |batch| {
          assert batch[|t.acked|] == batch[1..][|r.acked|];
          assert Advance(s1, |r.acked|) == Advance(s, |t.acked|);
        }
      }
    }
  }

  /** What forwarding `record` hands to `send_message`: its message, if it has one. */
  function SentMessage(instanceName: Option<string>, record: Record): (m: seq<IoTHubMessage>)
    ensures |m| <= 1
    ensures m != [] <==> Convert(instanceName, record).Ok?
    ensures m != [] ==> m[0] == Convert(instanceName, record).value
  {
    if Convert(instanceName, record).Ok? then [Convert(instanceName, record).value] else []
  }

  /** Every record of `records` converts to a message. */
  predicate AllConvert(instanceName: Option<string>, records: seq<Record>)
  {
    forall j :: 0 <= j < |records| ==> Convert(instanceName, records[j]).Ok?
  }

  /** The messages of `records`, in order. */
  function Messages(instanceName: Option<string>, records: seq<Record>): (p: seq<IoTHubMessage>)
    requires AllConvert(instanceName, records)
    ensures |p| == |records|
    ensures forall j :: 0 <= j < |records| ==> p[j] == Convert(instanceName, records[j]).value
  {
    seq(|records|, j requires 0 <= j < |records| => Convert(instanceName, records[j]).value)
  }

  lemma MessagesSnoc(instanceName: Option<string>, records: seq<Record>, record: Record)
    requires AllConvert(instanceName, records) && Convert(instanceName, record).Ok?
    ensures AllConvert(instanceName, records + [record])
    ensures Messages(instanceName, records + [record])
         == Messages(instanceName, records) + [Convert(instanceName, record).value]
  {
    var all := records + [record];
    forall j | 0 <= j < |all|
      ensures Convert(instanceName, all[j]).Ok?
    {
      if j < |records| {
        assert all[j] == records[j];
      }
    }
    var p := Messages(instanceName, all);
    var q := Messages(instanceName, records) + [Convert(instanceName, record).value];
    forall j | 0 <= j < |all|
      ensures p[j] == q[j]
    {
      if j < |records| {
        assert all[j] == records[j];
      }
    }
  }

  lemma MessagesCons(instanceName: Option<string>, record: Record, records: seq<Record>)
    requires Convert(instanceName, record).Ok? && AllConvert(instanceName, records)
    ensures AllConvert(instanceName, [record] + records)
    ensures Messages(instanceName, [record] + records)
         == [Convert(instanceName, record).value] + Messages(instanceName, records)
  {
    var all := [record] + records;
    forall j | 0 <= j < |all|
      ensures Convert(instanceName, all[j]).Ok?
    {
      if j > 0 {
        assert all[j] == records[j - 1];
      }
    }
    var p := Messages(instanceName, all);
    var q := [Convert(instanceName, record).value] + Messages(instanceName, records);
    forall j | 0 <= j < |all|
      ensures p[j] == q[j]
    {
      if j > 0 {
        assert all[j] == records[j - 1];
      }
    }
  }

  /** The messages handed to `send_message` are those of the acknowledged records,
      in order, followed by the message of the record whose send raised, if any. */
  lemma {:induction false} ForwardSendsInOrder(instanceName: Option<string>, batch: seq<Record>, s: Sender)
    ensures var t := Forward(instanceName, batch, s);
      var k := |t.acked|;
      && AllConvert(instanceName, t.acked)
      && t.attempts == Messages(instanceName, t.acked)
           + (if k < |batch| && s.Oracle? then SentMessage(instanceName, batch[k]) else [])
    decreases |batch|
  {
    if batch != [] {
      if StepFailure(instanceName, batch[0], s, 0).Some? {
        ForwardFirstFails(instanceName, batch, s);
        assert Messages(instanceName, []) == [];
      } else {
        var s1 := Advance(s, 1);
        ForwardCons(instanceName, batch, s);
        ForwardSendsInOrder(instanceName, batch[1..], s1);
        var r := Forward(instanceName, batch[1..], s1);
        MessagesCons(instanceName, batch[0], r.acked);
        if |r.acked| < |batch[1..]| {
          assert batch[1 + |r.acked|] == batch[1..][|r.acked|];
        }
      }
    }
  }

  /** The first `i` records of `batch` were each converted, sent without an
      exception and acknowledged, and `sent` holds their messages in order. */
  ghost predicate ForwardedPrefix(instanceName: Option<string>, batch: seq<Record>, s: Sender, i: nat,
                                  sent: seq<IoTHubMessage>)
  {
    && i <= |batch|
    && (forall j :: 0 <= j < i ==> StepFailure(instanceName, batch[j], s, j).None?)
    && AllConvert(instanceName, batch[..i])
    && sent == Messages(instanceName, batch[..i])
  }

  /** Forwarding one more record without an exception extends the prefix by that
      record and its message. */
  lemma ForwardedPrefixStep(instanceName: Option<string>, batch: seq<Record>, s: Sender, i: nat,
                            sent: seq<IoTHubMessage>)
    requires ForwardedPrefix(instanceName, batch, s, i, sent) && i < |batch|
    requires StepFailure(instanceName, batch[i], s, i).None?
    ensures Convert(instanceName, batch[i]).Ok?
    ensures ForwardedPrefix(instanceName, batch, s, i + 1, sent + [Convert(instanceName, batch[i]).value])
    ensures batch[..i + 1] == batch[..i] + [batch[i]]
  {
    assert batch[..i + 1] == batch[..i] + [batch[i]];
    MessagesSnoc(instanceName, batch[..i], batch[i]);
  }

  /** When every record converts and every send succeeds, each record is sent once
      and acknowledged once, in input order, and nothing is raised. */
  lemma AllSentWhenNoFailure(instanceName: Option<string>, batch: seq<Record>, s: Sender)
    requires forall j :: 0 <= j < |batch| ==> StepFailure(instanceName, batch[j], s, j).None?
    ensures var t := Forward(instanceName, batch, s);
      && t.acked == batch && t.raised.None?
      && AllConvert(instanceName, batch) && t.attempts == Messages(instanceName, batch)
  {
    ForwardStopsAtFirstFailure(instanceName, batch, s);
    ForwardSendsInOrder(instanceName, batch, s);
    assert batch[..|batch|] == batch;
  }

  /** When the k-th record is the first whose conversion or send raises, exactly
      the records before it are acknowledged, no later record is converted or sent,
      and its exception is the one raised. */
  lemma FailureAtRecord(instanceName: Option<string>, batch: seq<Record>, s: Sender, k: nat)
    requires k < |batch|
    requires forall j :: 0 <= j < k ==> StepFailure(instanceName, batch[j], s, j).None?
    requires StepFailure(instanceName, batch[k], s, k).Some?
    ensures var t := Forward(instanceName, batch, s);
      && t.acked == batch[..k] && t.raised == StepFailure(instanceName, batch[k], s, k)
      && AllConvert(instanceName, batch[..k])
      && t.attempts == Messages(instanceName, batch[..k])
           + (if s.Oracle? then SentMessage(instanceName, batch[k]) else [])
  {
    ForwardStopsAtFirstFailure(instanceName, batch, s);
    ForwardSendsInOrder(instanceName, batch, s);
  }

  /** One `report_handled` argument per record: a list holding only that record. */
  function Singletons(records: seq<Record>): (calls: seq<seq<Record>>)
    ensures |calls| == |records|
    ensures forall j :: 0 <= j < |records| ==> calls[j] == [records[j]]
  {
    seq(|records|, j requires 0 <= j < |records| => [records[j]])
  }

  lemma SingletonsSnoc(records: seq<Record>, record: Record)
    ensures Singletons(records + [record]) == Singletons(records) + [[record]]
  {
    assert (records + [record])[..|records|] == records;
  }

  class IoTHubHistorian {
    var defaultConfig: Config
    /** `self.iot_hub_device_connection_string`; `None` while the attribute is unset. */
    var connectionString: Option<string>
    /** `self.instance_name`; `None` while the attribute is unset. */
    var instanceName: Option<string>
    /** `self.device_client`; `null` until `historian_setup` has run. */
    var deviceClient: DeviceClient?
    /** The arguments of every `report_handled` call made so far, in order. */
    ghost var handled: seq<seq<Record>>

    /** The agent object before its `__init__` body has run. */
    constructor Blank()
      ensures defaultConfig == map[] && connectionString.None? && instanceName.None?
      ensures deviceClient == null && handled == []
    {
      defaultConfig := map[];
      connectionString, instanceName := None, None;
      deviceClient := null;
      handled := [];
    }

    /** `IoTHubHistorian(config)`: copies `config` into `default_config` and
        initialises the settings from it. An exception escaping `_initialize_config`
        escapes the constructor, and then there is no agent. */
    static method Create(config: Config) returns (agent: IoTHubHistorian?, raised: Option<Exception>)
      ensures raised == ReadConfig(config).EscapedError()
      ensures agent == null <==> raised.Some?
      ensures agent != null ==>
        && fresh(agent) && agent.defaultConfig == config && agent.deviceClient == null && agent.handled == []
        && (match ReadConfig(config)
            case Assigned(c, n) => agent.connectionString == Some(c) && agent.instanceName == Some(n)
            case _ => agent.connectionString.None? && agent.instanceName.None?)
    {
      var a := new IoTHubHistorian.Blank();
      a.defaultConfig := config;
      raised := a.InitializeConfig(config);
      agent := if raised.Some? then null else a;
    }

    /** `_initialize_config(config)`: both settings are read and converted with `str`
        before either is assigned; a `ValueError` is logged and leaves both unchanged,
        any other exception (a missing key's `KeyError`) escapes. */
    method InitializeConfig(config: Config) returns (raised: Option<Exception>)
      modifies this`connectionString, this`instanceName
      ensures raised == ReadConfig(config).EscapedError()
      ensures match ReadConfig(config)
        case Assigned(c, n) => connectionString == Some(c) && instanceName == Some(n)
        case _ => connectionString == old(connectionString) && instanceName == old(instanceName)
    {
      var failure: Option<Exception> := None;
      var c, n := "", "";
      var v := Lookup(config, ConnectionStringKey);
      if v.Raised? {
        failure := Some(v.exc);
      } else {
        var text := PyStr(v.value);
        if text.Raised? {
          failure := Some(text.exc);
        } else {
          c := text.value;
          var w := Lookup(config, InstanceNameKey);
          if w.Raised? {
            failure := Some(w.exc);
          } else {
            var name := PyStr(w.value);
            if name.Raised? {
              failure := Some(name.exc);
            } else {
              n := name.value;
            }
          }
        }
      }
      if failure.Some? {
        // except ValueError: log and return
        raised := if failure.value.ValueError? then None else failure;
        return;
      }
      connectionString, instanceName := Some(c), Some(n);
      raised := None;
    }

    /** `configure(config_name, action, contents)`: initialises the settings from
        `default_config` overridden by `contents`; `default_config` itself is kept. */
    method Configure(configName: string, action: string, contents: Config) returns (raised: Option<Exception>)
      modifies this`connectionString, this`instanceName
      ensures defaultConfig == old(defaultConfig)
      ensures raised == ReadConfig(Merge(defaultConfig, contents)).EscapedError()
      ensures match ReadConfig(Merge(defaultConfig, contents))
        case Assigned(c, n) => connectionString == Some(c) && instanceName == Some(n)
        case _ => connectionString == old(connectionString) && instanceName == old(instanceName)
    {
      var config := defaultConfig;
      config := config + contents;
      raised := InitializeConfig(config);
    }

    /** `historian_setup()`: reads the connection string and keeps the device client
        created from it and connected (`client` stands for that client). */
    method HistorianSetup(client: DeviceClient) returns (raised: Option<Exception>)
      modifies this`deviceClient
      ensures connectionString.None? ==>
        raised == Some(AttributeError(ConnectionStringKey)) && deviceClient == old(deviceClient)
      ensures connectionString.Some? ==> raised.None? && deviceClient == client
    {
      if connectionString.None? {
        raised := Some(AttributeError(ConnectionStringKey));
        return;
      }
      deviceClient := client;
      raised := None;
    }

    /** `report_handled(records)` of the host framework, recorded in the log. */
    method ReportHandled(records: seq<Record>)
      modifies this`handled
      ensures handled == old(handled) + [records]
    {
      handled := handled + [records];
    }

    ghost function CurrentSender(): Sender
      reads this, deviceClient
    {
      if deviceClient == null then Missing else Oracle(deviceClient.failures, deviceClient.calls)
    }

    /** The body of the `for` loop for one record: build its message, hand it to the
        device client and acknowledge the record with `completed` holding just it.
        Everything it can raise is re-raised by one of the two `except Exception`
        clauses, unchanged, so `failure` is what the loop raises. The record is the
        `j`-th of a batch whose first send went to `s`. */
    method ForwardRecord(record: Record, completed: seq<Record>, ghost s: Sender, ghost j: nat)
      returns (failure: Option<Exception>, completed': seq<Record>)
      requires completed == []
      requires deviceClient != null ==> deviceClient.Valid()
      requires CurrentSender() == Advance(s, j)
      modifies this`handled, deviceClient
      ensures deviceClient != null ==> deviceClient.Valid()
      ensures failure == StepFailure(instanceName, record, s, j)
      ensures completed' == []
      ensures deviceClient != null ==>
        deviceClient.attempts == old(deviceClient.attempts) + SentMessage(instanceName, record)
      ensures failure.None? ==> CurrentSender() == Advance(s, j + 1) && handled == old(handled) + [[record]]
      ensures failure.Some? ==> handled == old(handled)
    {
      completed' := completed;
      failure := None;
      var message := Convert(instanceName, record);
      if message.Raised? {
        failure := Some(message.exc);
        return;
      }
      if deviceClient == null {
        failure := Some(AttributeError("device_client"));
        return;
      }
      failure := deviceClient.SendMessage(message.value);
      if failure.Some? {
        return;
      }
      completed' := completed' + [record];
      assert completed' == [record];
      ReportHandled(completed');
      completed' := [];
    }

    /** `publish_to_historian(to_publish_list)`: forwards the batch as `Forward`
        says, calling `report_handled` once per sent record with a one-element list,
        and re-raises the first exception. */
    method PublishToHistorian(batch: seq<Record>) returns (raised: Option<Exception>)
      requires deviceClient != null ==> deviceClient.Valid()
      modifies this`handled, deviceClient
      ensures deviceClient == old(deviceClient)
      ensures deviceClient != null ==> deviceClient.Valid()
      ensures var t := old(Forward(instanceName, batch, CurrentSender()));
        && raised == t.raised
        && handled == old(handled) + Singletons(t.acked)
        && (deviceClient != null ==> deviceClient.attempts == old(deviceClient.attempts) + t.attempts)
    {
      ghost var s0 := CurrentSender();
      ghost var sent: seq<IoTHubMessage> := [];
      var completed: seq<Record> := [];
      var i := 0;
      while i < |batch|
        invariant ForwardedPrefix(instanceName, batch, s0, i, sent)
        invariant completed == []
        invariant deviceClient != null ==> deviceClient.Valid()
        invariant CurrentSender() == Advance(s0, i)
        invariant deviceClient != null ==> deviceClient.attempts == old(deviceClient.attempts) + sent
        invariant handled == old(handled) + Singletons(batch[..i])
      {
        var failure;
        failure, completed := ForwardRecord(batch[i], completed, s0, i);
        if failure.Some? {
          FailureAtRecord(instanceName, batch, s0, i);
          raised := failure;
          return;
        }
        ForwardedPrefixStep(instanceName, batch, s0, i, sent);
        SingletonsSnoc(batch[..i], batch[i]);
        sent := sent + [Convert(instanceName, batch[i]).value];
        i := i + 1;
      }
      AllSentWhenNoFailure(instanceName, batch, s0);
      raised := None;
    }
  }
}
