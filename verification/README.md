# go-kafkaproxy producer core, modelled in Dafny

This project models the sequential logic of go-kafkaproxy's producer wrapper
and its error taxonomy:

- `pkg/proxyerror/error.go` — `ProxyError` values with a numeric code, a
  creation time and a message built by joining the caller's fragments with
  `": "`; five factories fixing the codes 1 to 5; the `Error()` text
  `<time>: Error <code>: <message>`. Modelled in module `ProxyErrors`, with
  `strings.Join` in `Strings` and the `%d` rendering of the code in `Decimal`.
- `pkg/producer/producer.go` — the `Producer` lifecycle gate around the
  asynchronous Kafka client (the *adapter*): `New` with its broker check and
  connection-error mapping, `EnableLogging`, `CreateKeyMessage` /
  `CreateMessage` with the empty key meaning "no key", `IsClosed`, `Input`
  gated on the closed flag, and `Close`. Modelled in module `Producers`.

Everything is an immutable datatype with pure functions. The adapter is an
abstract value holding its input-sink token. The transport's constructor is
the function parameter `connect`, which receives the broker list and the
transport settings (the caller's override or the defaults). The adapter's close result is the parameter
`outcome`. The clock is the parameter `now`.

`Close` runs asynchronously in the source. Here it is two steps.
`RequestClose` is the synchronous part: it returns no channel (Go's nil) on a
closed producer, and otherwise a fresh error channel of capacity one.
`CompleteClose` is the goroutine: it takes the adapter's close outcome, puts
a failure on the channel, or ends the process on the logging path, and then
marks the producer closed. The request alone leaves the closed flag false, as
in the source, where only the goroutine writes it. `CloseRepeatedly` chains
whole `Close()` calls one after another.

Each operation is paired with a partner and an all-inputs lemma connecting
them:

- `Join` with `Split`: splitting a joined list gives the list back.
- The rendering of an error with a parser that recovers the code and message.
- Error codes with kinds: the mapping is one-to-one.
- Message creation with the key read back.
- A closed producer with the gate on input and close.
- Repeated closing with a count of how often the adapter's close ran.
- The logging switch with the input gate and the close sequence: logging
  changes only what happens to a failed close.

Three behaviours of the code worth noting:

- Close on a closed producer returns a nil channel. Nothing is ever
  delivered on it, and it is never closed.
- A failed adapter close is reported as the adapter's raw error. It is not
  wrapped in a `ResourceCloseError`.
- `Close()` returns before its close has finished. A second call made in
  that window, even by the same caller, starts a second close of the
  adapter (`SecondCloseBeforeCompletion`).

## Model

| member | source | states |
|---|---|---|
| ProxyErrors.Code | pkg/proxyerror/error.go:34-62 | every factory code lies between 1 and 5 |
| ProxyErrors.KindCodeRoundTrip | pkg/proxyerror/error.go:34-62 | decoding a factory's code gives that factory's kind back |
| ProxyErrors.CodeKindRoundTrip | pkg/proxyerror/error.go:34-62 | every code that decodes to a kind is that kind's code |
| ProxyErrors.CodesDistinct | pkg/proxyerror/error.go:34-62 | two factories share a code exactly when they are the same factory, so the five codes are pairwise distinct |
| ProxyErrors.CreateError | pkg/proxyerror/error.go:24-32 | the error keeps the given code and creation time; no fragments give the empty message, one fragment is the message unchanged, and two or more give the first fragment, `": "`, then the message of the remaining fragments |
| ProxyErrors.CreatedMessageSplitsBack | pkg/proxyerror/error.go:28 | a message joined from one or more fragments that hold no `": "` splits back into exactly those fragments |
| ProxyErrors.Raise | pkg/proxyerror/error.go:24-62 | an error built for a kind carries a code that decodes to that kind, with the joined message and the given time |
| ProxyErrors.CodeDependsOnlyOnFactory | pkg/proxyerror/error.go:24-62 | whatever the messages and timestamps, two created errors have equal codes exactly when they come from the same factory |
| ProxyErrors.BrokersNotSetError | pkg/proxyerror/error.go:34-38 | the error has code 1, the brokers-not-set kind, whatever the messages |
| ProxyErrors.ConnectionError | pkg/proxyerror/error.go:40-44 | the error has code 2, the connection kind, whatever the messages |
| ProxyErrors.ResourceCloseError | pkg/proxyerror/error.go:46-50 | the error has code 3, the resource-close kind, whatever the messages |
| ProxyErrors.ResourceClosedError | pkg/proxyerror/error.go:52-56 | the error has code 4, the closed-resource kind, whatever the messages |
| ProxyErrors.ResourceWriteError | pkg/proxyerror/error.go:58-62 | the error has code 5, the resource-write kind, whatever the messages |
| ProxyErrors.CodeAndMessageRoundTrip | pkg/proxyerror/error.go:21 | the text `<code>: <message>` reads back as that code and that message, for any message |
| ProxyErrors.RenderRoundTrip | pkg/proxyerror/error.go:19-22 | the rendered error starts with the time, then `: Error `, then the code, then the message, and code and message are recovered from it unchanged |
| Strings.SplitJoin | pkg/proxyerror/error.go:28 | joining a non-empty list of fragments that do not contain a self-non-overlapping separator, then splitting at that separator, gives the list back |
| Decimal.IntRoundTrip | pkg/proxyerror/error.go:21 | the decimal text printed for a code, minus sign included, parses back to that code |
| Producers.New | pkg/producer/producer.go:39-66 | a nil or empty broker list yields no producer and a code-1 error; otherwise the transport is built from the brokers and the override or default settings, and its failure yields no producer and a code-2 error stamped with the creation time whose message is the transport's error text; otherwise the producer holds the new adapter, open and with logging off |
| Producers.NewWithoutBrokersIgnoresRest | pkg/producer/producer.go:40-42 | without brokers, construction fails identically whatever the handler, the transport configuration or the transport |
| Producers.EnableLogging | pkg/producer/producer.go:70-72 | logging becomes on; the adapter and the closed flag are unchanged |
| Producers.LoggingOnlyAffectsFailedClose | pkg/producer/producer.go:153-166 | with logging on, input, close requests and a clean close behave exactly as without it, a failed close ends the process instead of being reported, and switching logging on twice is the same as once |
| Producers.IsClosedReflectsLifecycle | pkg/producer/producer.go:93-96 | the closed flag is false on a new producer, unchanged by the logging switch, and true after any finished close |
| Producers.CreateKeyMessage | pkg/producer/producer.go:75-86 | topic and value are kept unchanged; the message has a key exactly when the key is non-empty, and then it is that key |
| Producers.CreateMessage | pkg/producer/producer.go:89-91 | the message is keyless and equals the keyed form with the empty key |
| Producers.KeyRoundTrip | pkg/producer/producer.go:75-86 | reading the key back (empty for none) gives exactly the key passed in |
| Producers.Input | pkg/producer/producer.go:104-111 | an open producer hands out its adapter's input sink; a closed one hands out nothing and a code-4 "Producer already closed." error |
| Producers.Send | pkg/producer/producer.go:153-161 | a send succeeds exactly when the channel has room, and then appends the error and keeps the capacity |
| Producers.RequestClose | pkg/producer/producer.go:145-153 | closing a closed producer yields no channel; closing an open one yields an empty channel of capacity one |
| Producers.CompleteClose | pkg/producer/producer.go:154-167 | the process ends exactly when the adapter's close failed with logging on; the closer blocks only on a full channel; a finished close sets only the closed flag and adds exactly the adapter's error, if any, to the channel |
| Producers.CloseReportsAtMostOnce | pkg/producer/producer.go:145-170 | closing an open producer never blocks, reports the adapter's error and nothing else, and leaves it closed whether or not the adapter failed when logging is off |
| Producers.ClosedIsFinal | pkg/producer/producer.go:104-111 | after a finished close, input fails with the closed-resource code and another close request yields no channel |
| Producers.CloseWhenClosedIsNoOp | pkg/producer/producer.go:149-151 | any number of close calls on a closed producer close nothing, report nothing and change nothing |
| Producers.CloseRunsTransportCloseOnce | pkg/producer/producer.go:145-170 | successive close calls on an open producer, each call's close finishing before the next call, close the adapter exactly once and report at most the first call's adapter error; the process ends only on the logging path with an error, and otherwise the producer ends closed |
| Producers.SecondCloseBeforeCompletion | pkg/producer/producer.go:145-170 | a second close call made before the first close has finished also gets a channel and closes the adapter again, so with logging off each of the two channels can carry an error |

## Left out

- Configuration defaults (`pkg/producer/producer.go:44-52`): the default settings are the single value `Defaults`. Their three fields are read only by the external client, so `connect` sees either the caller's override or `Defaults`, and what it makes of them is up to the function supplied.
- Producers.New: takes a `Config` value, so the nil `*Config` case is not modelled. In the source, `New(nil)` panics at `pkg/producer/producer.go:40` when it reads the broker list through the nil pointer.
- Producers.New: does not start the signal watcher or the error router (`pkg/producer/producer.go:64-65`). Both are goroutines around OS signals and channels.
- `handleKeyInterrupt` (`pkg/producer/producer.go:113-129`): OS signal registration and a goroutine. Its read from the nil channel returned on the already-closed path is a concurrency path, not sequential logic.
- `handleErrors` (`pkg/producer/producer.go:131-141`): a goroutine draining the adapter's error channel, ending in `log.Fatalln` or the user's handler.
- `Get` (`pkg/producer/producer.go:98-101`): it returns a pointer to the adapter, and pointers are not modelled. The adapter is an abstract value.
- Producers.CloseRepeatedly runs each `Close()` to completion before the next. A call made before an earlier close has finished starts a second adapter close; `SecondCloseBeforeCompletion` records that for two calls. Longer interleavings and truly concurrent calls are not modelled, and no thread safety is claimed.
- Log output (`log.Println` lines) is not modelled. The `log.Fatal` path is the `Terminated` outcome, not a process exit.
- The clock and the time layout (`pkg/proxyerror/error.go:20-21, 27`): a timestamp is known only through its rendered text and is supplied by the caller.
- Error codes are Go `int`s. They are unbounded here because the factories only use 1 to 5.
