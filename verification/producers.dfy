/** The lifecycle wrapper around the asynchronous Kafka producer (package
    `producer`): construction, the logging switch, message creation, the
    closed-state gate on input, and the close sequence. The transport client
    is abstract: the wrapper only ever hands out its input sink and asks it
    to close. The asynchronous close is split into a request and a
    completion so that the model stays sequential. */
module Producers {
  import opened Wrappers
  import opened ProxyErrors

  /** Opaque handle on the transport's input channel. */
  datatype Sink = Sink(id: nat)

  /** The transport client as the wrapper sees it. */
  datatype Adapter = Adapter(input: Sink)

  /** An error value reported by the transport, known by its text. */
  datatype TransportError = TransportError(text: string)

  /** Opaque stand-ins for the user's error callback and the transport
      configuration override; neither affects the logic modelled here. */
  datatype Handler = Handler(id: nat)
  datatype TransportConfig = TransportConfig(id: nat)

  /** The transport configuration the client is built with: the caller's
      override, or the wrapper's defaults (delivery errors returned, every
      replica acknowledges, no compression). */
  datatype TransportSettings = Override(config: TransportConfig) | Defaults

  /** Construction settings; `None` brokers is a nil broker list. */
  datatype Config = Config(kafkaBrokers: Option<seq<string>>,
                           errHandler: Option<Handler>,
                           transportConfig: Option<TransportConfig>)

  datatype Producer = Producer(adapter: Adapter, closed: bool, loggingEnabled: bool)

  /** A message ready for the transport; `None` key is an unkeyed message. */
  datatype Message = Message(topic: string, key: Option<string>, value: string)

  /** The buffered channel on which a close reports its error. `Send` on a
      full buffer would block. */
  datatype ErrorChannel = ErrorChannel(capacity: nat, buffer: seq<TransportError>)

  /** How a close attempt ended: the producer afterwards and what its channel
      holds; the process exited on the fatal logging path; or the closer is
      stuck on a full channel. */
  datatype Completion =
    | Completed(producer: Producer, channel: ErrorChannel)
    | Terminated(cause: TransportError)
    | Blocked

  const NoBrokersMessage: string := "No Kafka Brokers set."
  const AlreadyClosedMessage: string := "Producer already closed."

  predicate BrokersSet(config: Config) {
    config.kafkaBrokers.Some? && |config.kafkaBrokers.value| > 0
  }

  /** The settings handed to the transport: the override when given. */
  function Settings(config: Config): (t: TransportSettings)
    ensures t.Override? <==> config.transportConfig.Some?
    ensures t.Override? ==> t.config == config.transportConfig.value
  {
    match config.transportConfig
    case Some(c) => Override(c)
    case None => Defaults
  }

  /** Builds a producer. A nil or empty broker list is refused before the
      transport is contacted; otherwise `connect` (the transport's
      constructor) is asked with the brokers and the transport settings, and
      its failure becomes a connection error carrying the transport's own
      text. */
  function New(config: Config, now: Timestamp,
               connect: (seq<string>, TransportSettings) -> Result<Adapter, TransportError>)
    : (r: Result<Producer, ProxyError>)
    ensures r.Success? <==>
              BrokersSet(config) && connect(config.kafkaBrokers.value, Settings(config)).Success?
    ensures !BrokersSet(config) ==>
              r.Failure? && KindOf(r.error.code) == Some(BrokersNotSet)
              && r.error.message == NoBrokersMessage && r.error.time == now
    ensures BrokersSet(config) && connect(config.kafkaBrokers.value, Settings(config)).Failure? ==>
              r.Failure? && KindOf(r.error.code) == Some(Connection)
              && r.error.message == connect(config.kafkaBrokers.value, Settings(config)).error.text
              && r.error.time == now
    ensures r.Success? ==>
              r.value.adapter == connect(config.kafkaBrokers.value, Settings(config)).value
              && !r.value.closed && !r.value.loggingEnabled
  {
    if !BrokersSet(config) then
      Failure(BrokersNotSetError(now, [NoBrokersMessage]))
    else
      match connect(config.kafkaBrokers.value, Settings(config))
      case Failure(err) => Failure(ConnectionError(now, [err.text]))
      case Success(adapter) => Success(Producer(adapter, false, false))
  }

  /** Without brokers the outcome is the same whatever the handler, the
      transport configuration or the transport itself would do. */
  lemma NewWithoutBrokersIgnoresRest(c1: Config, c2: Config, now: Timestamp,
                                     connect1: (seq<string>, TransportSettings) -> Result<Adapter, TransportError>,
                                     connect2: (seq<string>, TransportSettings) -> Result<Adapter, TransportError>)
    requires !BrokersSet(c1) && !BrokersSet(c2)
    ensures New(c1, now, connect1) == New(c2, now, connect2)
    ensures New(c1, now, connect1).Failure?
  {
  }

  function EnableLogging(p: Producer): (r: Producer)
    ensures r.loggingEnabled
    ensures r.adapter == p.adapter && r.closed == p.closed
  {
    p.(loggingEnabled := true)
  }

  /** A message for `topic` carrying `value`; the empty key means no key. */
  function CreateKeyMessage(topic: string, key: string, value: string): (m: Message)
    ensures m.topic == topic && m.value == value
    ensures m.key.None? <==> key == ""
    ensures m.key.Some? ==> m.key.value == key
  {
    Message(topic, if key != "" then Some(key) else None, value)
  }

  function CreateMessage(topic: string, value: string): (m: Message)
    ensures m.key.None?
    ensures m == CreateKeyMessage(topic, "", value)
  {
    CreateKeyMessage(topic, "", value)
  }

  /** The key as text, with the empty string for no key. */
  function KeyText(m: Message): string {
    m.key.GetOr("")
  }

  /** Key presence round-trips exactly through message creation. */
  lemma KeyRoundTrip(topic: string, key: string, value: string)
    ensures KeyText(CreateKeyMessage(topic, key, value)) == key
    ensures CreateKeyMessage(topic, key, value).key.Some? <==> key != ""
  {
  }

  function IsClosed(p: Producer): bool {
    p.closed
  }

  /** The closed flag over a producer's life: false when built, untouched by
      the logging switch and by a close request, true once a close has
      finished. */
  lemma IsClosedReflectsLifecycle(config: Config, now: Timestamp,
                                  connect: (seq<string>, TransportSettings) -> Result<Adapter, TransportError>,
                                  p: Producer, ch: ErrorChannel, outcome: Option<TransportError>)
    ensures New(config, now, connect).Success? ==> !IsClosed(New(config, now, connect).value)
    ensures IsClosed(EnableLogging(p)) == IsClosed(p)
    ensures CompleteClose(p, ch, outcome).Completed? ==> IsClosed(CompleteClose(p, ch, outcome).producer)
  {
  }

  /** Hands out the transport's input sink while open; refuses once closed. */
  function Input(p: Producer, now: Timestamp): (r: Result<Sink, ProxyError>)
    ensures r.Success? <==> !IsClosed(p)
    ensures r.Success? ==> r.value == p.adapter.input
    ensures r.Failure? ==>
              KindOf(r.error.code) == Some(ResourceClosed)
              && r.error.message == AlreadyClosedMessage && r.error.time == now
  {
    if !IsClosed(p) then Success(p.adapter.input)
    else Failure(ResourceClosedError(now, [AlreadyClosedMessage]))
  }

  /** Puts `e` on the channel, or `None` when the buffer is full and the
      sender would block. */
  function Send(ch: ErrorChannel, e: TransportError): (r: Option<ErrorChannel>)
    ensures r.Some? <==> |ch.buffer| < ch.capacity
    ensures r.Some? ==> r.value.capacity == ch.capacity && r.value.buffer == ch.buffer + [e]
  {
    if |ch.buffer| < ch.capacity then Some(ch.(buffer := ch.buffer + [e])) else None
  }

  /** Asking to close: a closed producer answers with no channel (nil) and
      does nothing; an open one starts a close that will report on a fresh
      channel of capacity one. The request itself leaves the producer as it
      is; only the completion marks it closed. */
  function RequestClose(p: Producer): (r: Option<ErrorChannel>)
    ensures r.None? <==> IsClosed(p)
    ensures r.Some? ==> r.value.capacity == 1 && |r.value.buffer| == 0
  {
    if IsClosed(p) then None else Some(ErrorChannel(1, []))
  }

  /** The close started by a request finishes, given what the transport's own
      close returned. A failure is put on the channel, unless logging is on,
      in which case the process exits. Either way a finished close marks the
      producer closed and touches nothing else. */
  function CompleteClose(p: Producer, ch: ErrorChannel, outcome: Option<TransportError>): (r: Completion)
    ensures r.Terminated? <==> outcome.Some? && p.loggingEnabled
    ensures r.Terminated? ==> r.cause == outcome.value
    ensures r.Blocked? <==> outcome.Some? && !p.loggingEnabled && |ch.buffer| >= ch.capacity
    ensures r.Completed? ==> r.producer == p.(closed := true)
    ensures r.Completed? && outcome.None? ==> r.channel == ch
    ensures r.Completed? && outcome.Some? ==>
              r.channel == ch.(buffer := ch.buffer + [outcome.value])
  {
    match outcome
    case Some(err) =>
      if p.loggingEnabled then Terminated(err)
      else
        (match Send(ch, err)
         case None => Blocked
         case Some(ch') => Completed(p.(closed := true), ch'))
    case None => Completed(p.(closed := true), ch)
  }

  /** Logging changes nothing but the fate of a failed close: input and
      close requests behave as before, a clean close finishes as before, and
      a failed close ends the process instead of being reported. */
  lemma LoggingOnlyAffectsFailedClose(p: Producer, now: Timestamp, ch: ErrorChannel, e: TransportError)
    ensures Input(EnableLogging(p), now) == Input(p, now)
    ensures RequestClose(EnableLogging(p)) == RequestClose(p)
    ensures CompleteClose(EnableLogging(p), ch, None) == Completed(EnableLogging(p).(closed := true), ch)
    ensures CompleteClose(EnableLogging(p), ch, Some(e)) == Terminated(e)
    ensures EnableLogging(EnableLogging(p)) == EnableLogging(p)
  {
  }

  /** A close of an open producer never blocks the closer, reports at most one
      error — the transport's own — and, unless the fatal logging path ends
      the process, leaves the producer closed. */
  lemma CloseReportsAtMostOnce(p: Producer, outcome: Option<TransportError>)
    requires !IsClosed(p)
    ensures RequestClose(p).Some?
    ensures var r := CompleteClose(p, RequestClose(p).value, outcome);
            && !r.Blocked?
            && (r.Completed? ==> IsClosed(r.producer) && |r.channel.buffer| <= 1)
            && (r.Completed? ==> (r.channel.buffer == [] <==> outcome.None?))
            && (r.Completed? && outcome.Some? ==> r.channel.buffer == [outcome.value])
            && (!p.loggingEnabled ==> r.Completed?)
  {
  }

  /** Once closed, input is refused with a closed-resource error and a further
      close request does nothing. */
  lemma ClosedIsFinal(p: Producer, ch: ErrorChannel, outcome: Option<TransportError>, now: Timestamp)
    requires CompleteClose(p, ch, outcome).Completed?
    ensures var q := CompleteClose(p, ch, outcome).producer;
            && Input(q, now).Failure?
            && Input(q, now).error.code == Code(ResourceClosed)
            && RequestClose(q).None?
  {
  }

  /** The effect of a sequence of `Close()` calls, each run to completion
      before the next (see `SecondCloseBeforeCompletion` for what happens
      otherwise): the producer at the end, how many times the
      transport's close ran, the errors reported, and whether the process
      exited. */
  datatype CloseRun = CloseRun(producer: Producer, transportCloses: nat,
                               reported: seq<TransportError>, terminated: bool)

  /** Runs `Close()` once per entry of `outcomes`; entry `i` is what the
      transport's close would return if the `i`-th call reached it. */
  function CloseRepeatedly(p: Producer, outcomes: seq<Option<TransportError>>): (r: CloseRun)
    decreases |outcomes|
  {
    if |outcomes| == 0 then CloseRun(p, 0, [], false)
    else
      match RequestClose(p)
      case None => CloseRepeatedly(p, outcomes[1..])
      case Some(ch) =>
        match CompleteClose(p, ch, outcomes[0])
        case Terminated(_) => CloseRun(p, 1, [], true)
        // a closer stuck on a full channel never marks the producer closed
        case Blocked => CloseRun(p, 1, [], false)
        case Completed(q, ch') =>
          var rest := CloseRepeatedly(q, outcomes[1..]);
          CloseRun(rest.producer, rest.transportCloses + 1, ch'.buffer + rest.reported, rest.terminated)
  }

  /** On a closed producer every `Close()` is a no-op. */
  lemma {:induction false} CloseWhenClosedIsNoOp(p: Producer, outcomes: seq<Option<TransportError>>)
    requires IsClosed(p)
    ensures CloseRepeatedly(p, outcomes) == CloseRun(p, 0, [], false)
    decreases |outcomes|
  {
    if |outcomes| > 0 {
      CloseWhenClosedIsNoOp(p, outcomes[1..]);
    }
  }

  /** However many times `Close()` is called on an open producer, each
      call's close finishing before the next call, the transport is closed
      exactly once, at most the first
      call's transport error is reported, and the producer ends closed
      unless the fatal logging path ended the process. */
  lemma CloseRunsTransportCloseOnce(p: Producer, outcomes: seq<Option<TransportError>>)
    requires !IsClosed(p) && |outcomes| >= 1
    ensures var r := CloseRepeatedly(p, outcomes);
            && r.transportCloses == 1
            && |r.reported| <= 1
            && (r.terminated <==> p.loggingEnabled && outcomes[0].Some?)
            && (!r.terminated ==> IsClosed(r.producer) && r.producer.adapter == p.adapter)
            && (!r.terminated ==> (r.reported == [] <==> outcomes[0].None?))
            && (outcomes[0].Some? && !r.terminated ==> r.reported == [outcomes[0].value])
  {
    CloseReportsAtMostOnce(p, outcomes[0]);
    var ch := RequestClose(p).value;
    var c := CompleteClose(p, ch, outcomes[0]);
    if c.Completed? {
      CloseWhenClosedIsNoOp(c.producer, outcomes[1..]);
    }
  }

  /** `Close()` returns before its close has finished, and only the finished
      close sets the flag. A second call made in between therefore starts a
      second close of the transport: both requests get a channel, and when
      both closes finish (logging off) each channel holds its own close's
      error, so two errors can be reported in all. */
  lemma SecondCloseBeforeCompletion(p: Producer, o1: Option<TransportError>, o2: Option<TransportError>)
    requires !IsClosed(p) && !p.loggingEnabled
    ensures RequestClose(p).Some?
    ensures var ch1 := RequestClose(p).value;
            var ch2 := RequestClose(p).value;
            var first := CompleteClose(p, ch1, o1);
            && first.Completed?
            && CompleteClose(first.producer, ch2, o2).Completed?
            && CompleteClose(first.producer, ch2, o2).channel.buffer == (if o2.Some? then [o2.value] else [])
            && first.channel.buffer == (if o1.Some? then [o1.value] else [])
  {
  }
}
