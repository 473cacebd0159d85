/**
 * The subscription lifecycle. `polling.js` keeps two module-level handles,
 * `sbClient` and `sbReceiver`: `pollForEvents` assigns both and subscribes
 * the receiver, `startPolling` does so only when the `active` flag is set,
 * and `stopPolling` closes whichever handles are set, receiver first,
 * without clearing them. Here they are the fields of one `Poller`; the
 * calls made on the bus client and the log lines are recorded in a ghost
 * trace.
 */
module Polling {
  import opened Wrappers
  import opened Json
  import opened Errors
  import EventTypes
  import Process
  import Schema

  datatype ServiceBusConfig = ServiceBusConfig(
    host: string,
    username: string,
    password: string,
    topicName: string,
    subscriptionName: string,
    useEmulator: bool)

  /** The configuration the module reads; `httpProxy` is `null` when unset. */
  datatype Config = Config(active: bool, httpProxy: Option<string>, serviceBus: ServiceBusConfig)

  /** `getWebSocketOptions()`: `{}` or a WebSocket whose agent goes through the proxy. */
  datatype WebSocketOptions = NoWebSocket | ProxiedWebSocket(proxyUrl: string)

  /** A `ServiceBusClient` handle, by the arguments it was built from. */
  datatype Client = Client(connectionString: string, options: WebSocketOptions)

  /** A receiver handle, by the client and the topic and subscription it was created for. */
  datatype Receiver = Receiver(client: Client, topicName: string, subscriptionName: string)

  /** What the poller does to the bus and to the log, in order. */
  datatype BusEvent =
    | ClientCreated(client: Client)
    | ReceiverCreated(receiver: Receiver)
    | Subscribed(receiver: Receiver, autoCompleteMessages: bool)
    | ReceiverClosed(receiver: Receiver)
    | ClientClosed(client: Client)
    | MessageDispatched(raw: JVal)
    | MessageCompleted(raw: JVal)      // `completeMessage`: never issued by `polling.js`
    | MessageDeadLettered(raw: JVal)   // `deadLetterMessage`: never issued by `polling.js`
    | Logged(message: string)          // `logger.info`
    | ErrorLogged(error: Error, message: string)  // `logger.error`

  const StartingLog: string := "Starting event polling"
  const StoppedLog: string := "Event polling stopped"
  const BusErrorLog: string := "Service Bus error occurred"

  predicate EndsWith(s: string, x: string) {
    |x| <= |s| && s[|s| - |x|..] == x
  }

  /** The shared-access key pair both forms carry. */
  function KeyPair(sb: ServiceBusConfig): string {
    "SharedAccessKeyName=" + sb.username + ";SharedAccessKey=" + sb.password
  }

  /** What follows the host in the connection string: the emulator form or the namespace form. */
  function AfterHost(sb: ServiceBusConfig): string {
    if sb.useEmulator then ";" + KeyPair(sb) + ";UseDevelopmentEmulator=true;"
    else ".servicebus.windows.net;" + KeyPair(sb)
  }

  /** `getConnectionString()`: the emulator or the production form of the connection string. */
  function GetConnectionString(sb: ServiceBusConfig): (r: string)
    ensures EventTypes.StartsWith(r, "Endpoint=sb://" + sb.host)
    ensures sb.useEmulator ==> EndsWith(r, ";" + KeyPair(sb) + ";UseDevelopmentEmulator=true;")
    ensures !sb.useEmulator ==> EndsWith(r, ".servicebus.windows.net;" + KeyPair(sb))
  {
    "Endpoint=sb://" + sb.host + AfterHost(sb)
  }

  /** The first character after the host: `;` for the emulator, `.` for a namespace. */
  lemma AfterHostStartsWith(sb: ServiceBusConfig)
    ensures |AfterHost(sb)| > 0
    ensures AfterHost(sb)[0] == if sb.useEmulator then ';' else '.'
  {
    if sb.useEmulator {
      var lead := ";" + KeyPair(sb);
      assert lead[0] == ';';
      assert AfterHost(sb) == lead + ";UseDevelopmentEmulator=true;";
    } else {
      var lead := ".servicebus.windows.net;";
      assert lead[0] == '.';
      assert AfterHost(sb) == lead + KeyPair(sb);
    }
  }

  /** For the same host, the two forms never coincide: the character after the host tells them apart. */
  lemma ConnectionStringShowsMode(sb1: ServiceBusConfig, sb2: ServiceBusConfig)
    requires sb1.host == sb2.host
    requires GetConnectionString(sb1) == GetConnectionString(sb2)
    ensures sb1.useEmulator == sb2.useEmulator
  {
    var lead := "Endpoint=sb://" + sb1.host;
    var r := GetConnectionString(sb1);
    assert r == lead + AfterHost(sb1) == lead + AfterHost(sb2);
    assert AfterHost(sb1) == r[|lead|..] == AfterHost(sb2);
    AfterHostStartsWith(sb1);
    AfterHostStartsWith(sb2);
  }

  /** `getWebSocketOptions()`: the proxy is used exactly when `httpProxy` is truthy. */
  function GetWebSocketOptions(httpProxy: Option<string>): (r: WebSocketOptions)
    ensures r.ProxiedWebSocket? <==> httpProxy.Some? && httpProxy.value != ""
    ensures r.ProxiedWebSocket? ==> r.proxyUrl == httpProxy.value
  {
    match httpProxy
    case Some(url) => if url != "" then ProxiedWebSocket(url) else NoWebSocket
    case None => NoWebSocket
  }

  /** The client `pollForEvents` builds from the configuration. */
  function ClientFor(config: Config): Client {
    Client(GetConnectionString(config.serviceBus), GetWebSocketOptions(config.httpProxy))
  }

  /** The receiver `pollForEvents` creates from the configuration. */
  function ReceiverFor(config: Config): Receiver {
    Receiver(ClientFor(config), config.serviceBus.topicName, config.serviceBus.subscriptionName)
  }

  /** What one `pollForEvents` does: build the client, create the receiver, subscribe without auto-complete. */
  function PollSteps(config: Config): seq<BusEvent> {
    [ClientCreated(ClientFor(config)), ReceiverCreated(ReceiverFor(config)), Subscribed(ReceiverFor(config), false)]
  }

  /** The close calls `stopPolling` makes: the receiver if set, then the client if set. */
  function CloseSteps(receiver: Option<Receiver>, client: Option<Client>): seq<BusEvent> {
    (if receiver.Some? then [ReceiverClosed(receiver.value)] else []) +
    (if client.Some? then [ClientClosed(client.value)] else [])
  }

  predicate Settles(e: BusEvent) {
    e.MessageCompleted? || e.MessageDeadLettered?
  }

  /**
   * No entry of `t` completes or dead-letters a message. No method of the
   * poller issues either event, so this holds by construction; it is kept
   * to record that the code settles nothing, whereas the repository's tests
   * expect messages to be completed and dead-lettered.
   */
  predicate SettlesNothing(t: seq<BusEvent>) {
    forall i :: 0 <= i < |t| ==> !Settles(t[i])
  }

  lemma SettlesNothingAppend(a: seq<BusEvent>, b: seq<BusEvent>)
    requires SettlesNothing(a) && SettlesNothing(b)
    ensures SettlesNothing(a + b)
  {
    forall i | 0 <= i < |a + b| ensures !Settles((a + b)[i]) {
      if i < |a| {
        assert (a + b)[i] == a[i];
      } else {
        assert (a + b)[i] == b[i - |a|];
      }
    }
  }

  class Poller {
    const config: Config
    var sbClient: Option<Client>
    var sbReceiver: Option<Receiver>
    ghost var trace: seq<BusEvent>

    /**
     * A receiver is only ever set together with the client it came from,
     * and after it was subscribed with `autoCompleteMessages: false`; no
     * message is ever completed or dead-lettered.
     */
    ghost predicate Valid()
      reads this
    {
      && (sbReceiver.Some? ==> sbClient.Some? && sbReceiver.value.client == sbClient.value)
      && (sbReceiver.Some? ==> Subscribed(sbReceiver.value, false) in trace)
      && SettlesNothing(trace)
    }

    /** The module as loaded: both handles `null`. */
    constructor (config: Config)
      ensures Valid()
      ensures this.config == config && sbClient == None && sbReceiver == None && trace == []
    {
      this.config := config;
      sbClient := None;
      sbReceiver := None;
      trace := [];
    }

    /** `pollForEvents()`: replace both handles and subscribe the new receiver. */
    method PollForEvents()
      requires Valid()
      modifies this
      ensures Valid()
      ensures sbClient == Some(ClientFor(config)) && sbReceiver == Some(ReceiverFor(config))
      ensures trace == old(trace) + PollSteps(config)
    {
      var client := ClientFor(config);
      sbClient := Some(client);
      SettlesNothingAppend(trace, [ClientCreated(client)]);
      trace := trace + [ClientCreated(client)];
      var receiver := Receiver(client, config.serviceBus.topicName, config.serviceBus.subscriptionName);
      sbReceiver := Some(receiver);
      SettlesNothingAppend(trace, [ReceiverCreated(receiver)]);
      trace := trace + [ReceiverCreated(receiver)];
      SettlesNothingAppend(trace, [Subscribed(receiver, false)]);
      trace := trace + [Subscribed(receiver, false)];
      assert PollSteps(config) == [ClientCreated(client), ReceiverCreated(receiver), Subscribed(receiver, false)];
    }

    /** `startPolling()`: nothing at all unless `active`; otherwise log and poll. */
    method StartPolling()
      requires Valid()
      modifies this
      ensures Valid()
      ensures !config.active ==> sbClient == old(sbClient) && sbReceiver == old(sbReceiver) && trace == old(trace)
      ensures config.active ==>
                sbClient == Some(ClientFor(config)) && sbReceiver == Some(ReceiverFor(config)) &&
                trace == old(trace) + [Logged(StartingLog)] + PollSteps(config)
    {
      if !config.active {
        return;
      }
      SettlesNothingAppend(trace, [Logged(StartingLog)]);
      trace := trace + [Logged(StartingLog)];
      PollForEvents();
    }

    /** `stopPolling()`: close the receiver, then the client, each only if set; the handles stay set. */
    method StopPolling()
      requires Valid()
      modifies this`trace
      ensures Valid()
      ensures sbClient == old(sbClient) && sbReceiver == old(sbReceiver)
      ensures trace == old(trace) + CloseSteps(sbReceiver, sbClient) + [Logged(StoppedLog)]
    {
      if sbReceiver.Some? {
        SettlesNothingAppend(trace, [ReceiverClosed(sbReceiver.value)]);
        trace := trace + [ReceiverClosed(sbReceiver.value)];
      }
      if sbClient.Some? {
        SettlesNothingAppend(trace, [ClientClosed(sbClient.value)]);
        trace := trace + [ClientClosed(sbClient.value)];
      }
      SettlesNothingAppend(trace, [Logged(StoppedLog)]);
      trace := trace + [Logged(StoppedLog)];
    }

    /**
     * The `processMessage` handler: `processEvent(message, sbReceiver)`,
     * whose second argument is ignored. A rejected call reaches the
     * `processError` handler, which only logs it; the message is not settled.
     */
    method ProcessMessage(raw: JVal, parse: JVal -> Result<JVal, Error>, publish: JVal -> Outcome<Error>,
                          f: Schema.Formats) returns (run: Process.Run)
      requires Valid() && sbReceiver.Some?
      modifies this`trace
      ensures Valid()
      ensures run == Process.ProcessEvent(raw, Process.AdapterPorts(parse, publish, f))
      ensures sbClient == old(sbClient) && sbReceiver == old(sbReceiver)
      ensures trace == old(trace) + [MessageDispatched(raw)] +
                       (if run.result.Failure? then [ErrorLogged(run.result.error, BusErrorLog)] else [])
    {
      SettlesNothingAppend(trace, [MessageDispatched(raw)]);
      trace := trace + [MessageDispatched(raw)];
      run := Process.ProcessEvent(raw, Process.AdapterPorts(parse, publish, f));
      if run.result.Failure? {
        ProcessError(run.result.error);
      }
    }

    /** The `processError` handler: log the error, nothing else. */
    method ProcessError(error: Error)
      requires Valid() && sbReceiver.Some?
      modifies this`trace
      ensures Valid()
      ensures sbClient == old(sbClient) && sbReceiver == old(sbReceiver)
      ensures trace == old(trace) + [ErrorLogged(error, BusErrorLog)]
    {
      SettlesNothingAppend(trace, [ErrorLogged(error, BusErrorLog)]);
      trace := trace + [ErrorLogged(error, BusErrorLog)];
    }
  }
}
