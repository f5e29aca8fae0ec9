# linux_kernel_monitor — a Dafny model of the control path

`linux_kernel_monitor` is a daemon. For each of three metric kinds (cpu, memory, io) it runs
a sampling task that pushes readings onto a shared FIFO queue. It listens on a Unix socket
for one-line control requests: `start`, `stop`, `list`, `set` and `store`. The
companion client `lkmonitorctl` turns command-line options into such a line and prints the
daemon's answer.

This project models, in Dafny, the logic of that control path:

- `text.dfy` (module `Text`): the pieces of Rust's standard library the code relies on.
  - `u8` and its decimal display and parse; `bool` display and parse.
  - `split_whitespace`, `trim` and `split(';')`.
- `wrappers.dfy`: `Option` and a `Result` whose error case is a panic with its message.
- `seqs.dfy` (module `Seqs`): general facts about sequences that the proofs share.
- `queue.dfy` (src/queue.rs): the FIFO as a class over a sequence.
- `metric.dfy` (src/metric.rs):
  - kinds and states, with their text forms;
  - the worker `Metric`: a task handle plus the messages still on its control channel;
  - the sampling loop `Run`, fed the messages it polls.
- `config.dfy` (src/config.rs):
  - the per-kind settings, as a value with functional setters;
  - `MonitorConfig`, a class holding those settings and the state map.
- `cli.dfy` (src/cli.rs): the request parser. Each `parse_*` function is a method proved equal
  to a specification function over the tokens.
- `lib.dfy` (module `Monitor`, src/lib.rs): the control loop.
  - `Registry` is the value the daemon's fields amount to.
  - Each command is a function over it (`StartStep`, `StopStep`, `InfoReply`, `SetStep`, `Dispatch`).
  - The class `LinuxKernelMonitor` does the same work in place, over its `MonitorConfig` and
    its three `Metric` objects. Each of its methods is proved to leave exactly the registry and
    reply the function gives.
- `client.dfy` (module `Client`, src/bin/lkmonitorctl.rs):
  - the value checks and the request line;
  - how the reply is printed;
  - the round trip from the client's options, through the service's parser, to commands the
    control loop can run.

The invariant `RegistryOk` holds across every command. It says three things:
- every kind has a state;
- a task runs exactly when the state is `Running`;
- a worker's channel holds only rates, never a stale "stop".

Under it, `stop` never unwraps a missing handle.

Behaviours of the code worth knowing, which the model keeps as they are:
- Replies are written back with no separator and no newline (src/cli.rs:168-175). They are
  not joined with `;`. Each reply ends in its own `;`, with two exceptions:
  - "Config successfully saved";
  - the empty reply of a `set` that carries neither a rate nor a flag.
- `start` on a `Disabled` kind spawns a task and marks the kind `Running` (src/lib.rs:155-164).
  The kind is not "sticky".
- `Metric::start` overwrites any handle; it reports no "already running" error
  (src/metric.rs:86-99).
- `set cpu` with no values reaches the service as a `Set` command that changes nothing and
  replies with the empty string.
- A blank request line panics in `args.remove(0)` (src/cli.rs:197-198).

Quirks of the code are stated as lemmas rather than smoothed over:
- `set` with a new rate and `enabled=true` on a disabled kind starts the task at the old rate
  while storing the new one (`Monitor.EnableWithRateStartsAtOldRate`).
- `set` with a new rate and `enabled=false` on a running kind leaves the rate on the stopped
  worker's channel (`Monitor.DisableWithRateLeavesRatePending`).
- `start` with a new rate on a running kind sends the rate but does not store it
  (`Monitor.StartStepOnRunning`).
- `validate_state`'s rejection message says "Invalid metric", as `validate_metric`'s does
  (`Client.ValidateState`).

## Model

| member | source | states |
|---|---|---|
| Text.TokenizeJoinWords | src/cli.rs:197 | `split_whitespace` of words joined by single spaces and ended by a newline gives back exactly those words |
| Text.U8ToStringParses | src/metric.rs:101-103 | the decimal text `set_refresh_rate` sends is one to three digits and `parse::<u8>` reads it back as the same rate |
| Text.SplitOn | src/bin/lkmonitorctl.rs:140 | `split(';')` yields one piece more than there are separators, and no piece contains one |
| Queue.Queue.constructor | src/queue.rs:39-44 | a new queue is empty |
| Queue.Queue.Enqueue | src/queue.rs:46-50 | the item is appended at the tail and the length grows by one |
| Queue.Queue.Dequeue | src/queue.rs:52-58 | on a non-empty queue, returns `Some` of the head and removes only the head |
| Queue.Queue.IsEmpty | src/queue.rs:60-63 | true exactly when the queue holds no item |
| Queue.EnqueueThenDrain | src/queue.rs:46-58 | items enqueued behind the queue's contents are dequeued after them, in the order they were enqueued, and the queue ends empty |
| Metric.MetricTypes | src/metric.rs:161-163 | exactly three kinds, every known kind among them, never `None` |
| Metric.MetricToStr | src/metric.rs:165-172 | `str_to_metric` maps each kind's name back to the kind |
| Metric.StrToMetric | src/metric.rs:174-181 | a known kind exactly for "cpu", "memory" and "io"; every other string gives `None` |
| Metric.StateToStr | src/metric.rs:183-190 | `str_to_state` maps each state's name back to `Some` of the state |
| Metric.StrToState | src/metric.rs:192-199 | `Some` exactly for the four state names |
| Metric.GetMetricCollector | src/metric.rs:150-157 | no collector exactly for `None`; otherwise a collector of the asked-for kind |
| Metric.AfterStopOfValidPending | src/metric.rs:73-84 | once "stop" is sent behind a channel of rates and the task is joined, nothing is left on the channel |
| Metric.Metric.constructor | src/metric.rs:42-51 | a new worker has its kind, no task and an empty channel |
| Metric.Metric.SendCommand | src/metric.rs:105-107 | the message is appended to the channel and the handle is untouched |
| Metric.Metric.Start | src/metric.rs:86-99 | a task with the given rate is recorded, the channel is untouched, the reply is "Metric '<k>' started with rate '<r>';" |
| Metric.Metric.Stop | src/metric.rs:73-84 | needs a handle; afterwards there is no handle and the channel is empty, and the reply is "Metric '<k>' stopped;" |
| Metric.Metric.SetRefreshRate | src/metric.rs:101-103 | the rate's decimal text is appended to the channel and parses back to the rate; the handle is untouched |
| Metric.FirstStop | src/metric.rs:133-136 | the first cycle whose poll is "stop": no earlier poll is "stop" |
| Metric.RateAfterReceived | src/metric.rs:133-140 | the rate in force is the starting rate or one received on the channel, and is the starting rate while nothing was received |
| Metric.CollectedAt | src/metric.rs:115-129 | cycle `i` enqueues the item collected in cycle `i` |
| Metric.SleepsAt | src/metric.rs:131 | cycle `j` sleeps for the rate in force after the polls of the cycles before it |
| Metric.Run | src/metric.rs:111-145 | the loop runs up to and including the first "stop" poll; it enqueues one item per cycle, in cycle order, and sleeps for the rate in force each cycle |
| Config.DefaultKindConfig | src/config.rs:148-155 | the default per-kind settings are enabled with rate 1 |
| Config.DefaultMetricsConfig | src/config.rs:18-26 | by default every kind is enabled with rate 1 |
| Config.MetricsConfig.GetRefreshRate | src/config.rs:29-36 | `None` has rate 0 |
| Config.MetricsConfig.GetEnabled | src/config.rs:47-54 | `None` is never enabled |
| Config.MetricsConfig.SetRefreshRate | src/config.rs:38-45 | the kind gets the new rate; every other kind's rate and every flag is unchanged; for `None` nothing changes |
| Config.MetricsConfig.SetEnabled | src/config.rs:56-63 | the kind gets the new flag; every other kind's flag and every rate is unchanged; for `None` nothing changes |
| Config.MonitorConfig.constructor | src/config.rs:72-102 | the loaded settings, or the defaults; exactly CPU, Memory and IO have a state; each is `Initialized` if enabled, else `Disabled` |
| Config.MonitorConfig.GetConfig | src/config.rs:104-106 | the stored settings: they give the same rate and flag for every kind as the monitor's own getters |
| Config.MonitorConfig.GetState | src/config.rs:108-110 | the kind's entry in the state map; it needs an entry (the `unwrap` at src/config.rs:109), which `Valid()` guarantees for CPU, Memory and IO |
| Config.MonitorConfig.GetRefreshRate | src/config.rs:116-118 | the stored settings' rate for the kind, so 0 for `None` |
| Config.MonitorConfig.GetEnabled | src/config.rs:124-126 | the stored settings' flag for the kind, so never enabled for `None` |
| Config.MonitorConfig.SetState | src/config.rs:112-114 | only that kind's state changes; the settings are untouched |
| Config.MonitorConfig.SetRefreshRate | src/config.rs:120-122 | the settings become the value-level `set_refresh_rate`; the states are untouched |
| Config.MonitorConfig.SetEnabled | src/config.rs:128-130 | the settings become the value-level `set_enabled`; the states are untouched |
| Cli.Keyword | src/cli.rs:347-356 | `get_command` maps each keyword back to its command |
| Cli.GetCommand | src/cli.rs:347-356 | a command other than `None` exactly for "start", "stop", "list", "set" and "store" |
| Cli.ForEachKind | src/cli.rs:246-249 | three commands in CPU, Memory, IO order, each with the same rate and flag and no state |
| Cli.PushForEachKind | src/cli.rs:246-249 | the loop appends exactly the per-kind expansion |
| Cli.StartCommands | src/cli.rs:225-253 | panics exactly when a rate token is not a `u8` or a flag token is not a `bool`; with no tokens, one command per kind; otherwise one command carrying the metric, rate and flag given |
| Cli.ParseStartCommand | src/cli.rs:225-253 | the front-consuming parse equals `StartCommands` |
| Cli.StopCommands | src/cli.rs:255-275 | with no token, one command per kind; otherwise one `Stop` for the named metric |
| Cli.ParseStopCommand | src/cli.rs:255-275 | equals `StopCommands`; every command is a `Stop` that names a metric |
| Cli.ListCommands | src/cli.rs:277-297 | a valid state token gives one `List` with that state and no metric; no token or an invalid one gives one `List` per kind |
| Cli.ParseListCommand | src/cli.rs:277-297 | equals `ListCommands` |
| Cli.LastParsedIsLast | src/cli.rs:309-332 | the last token that parses as the type is found exactly when some token does, and no later token parses as that type |
| Cli.SetCommands | src/cli.rs:299-345 | with no token, one (value-less) `Set` per kind; otherwise a single `Set` for the named metric |
| Cli.SetCommandsValues | src/cli.rs:309-332 | the rate is the last of the two value tokens that is a `u8`, the flag the last that is a `bool`, tried `u8` first; tokens that are neither are ignored |
| Cli.ParseSetCommand | src/cli.rs:299-345 | equals `SetCommands` |
| Cli.LineCommands | src/cli.rs:194-223 | a line with no tokens panics; a first token that is not a keyword gives an empty batch; "store" gives exactly one `Store` with no fields; every command has the first token's kind |
| Cli.ResponseText | src/cli.rs:168-175 | no replies write nothing and one reply is written as it is |
| Cli.ResponseTextAppend | src/cli.rs:168-175 | the replies go out back to back: the text of `a + b` is the text of `a` followed by the text of `b`, with nothing between |
| Cli.ParseArgs | src/cli.rs:194-223 | equals `LineCommands` |
| Monitor.InitialRegistry | src/lib.rs:29-58 | right after `init` the registry is consistent, each kind is `Initialized` if enabled and `Disabled` otherwise |
| Monitor.StartStep | src/lib.rs:136-169 | `start` keeps the registry consistent |
| Monitor.StartStepRuns | src/lib.rs:164 | after `start` the kind is `Running` whatever its state was, with a task; the stored settings and every other kind are unchanged |
| Monitor.StartStepOnRunning | src/lib.rs:144-154 | on a running kind the task is kept; with no rate, or with the stored rate, nothing changes and the reply is "already running"; a different rate is sent to the task but not stored |
| Monitor.StartStepOnIdle | src/lib.rs:155-162 | on a kind that is not running, a task is spawned with the given rate or the stored one and the reply is "started with rate" |
| Monitor.StopStep | src/lib.rs:171-196 | `Running` becomes `Stopped`, with the task stopped; `Stopped` replies "already stopped" and `Initialized`/`Disabled` reply "disabled", both changing nothing; settings never change |
| Monitor.StopIdempotent | src/lib.rs:179-186 | stopping twice leaves the registry as stopping once |
| Monitor.KindsInState | src/lib.rs:203-209 | the kinds in the asked-for state, each once, in CPU, Memory, IO order |
| Monitor.InfoLines | src/lib.rs:211-213 | the listed text is empty exactly when no kind is listed |
| Monitor.LinesUpToIsInfoLines | src/lib.rs:202-209 | building the text kind by kind gives the lines of exactly the kinds in the state, in order |
| Monitor.InfoReply | src/lib.rs:198-222 | with a state and some kind in it, the lines of exactly the kinds in that state, in CPU, Memory, IO order; with a state and no kind in it, "No metrics in state"; without a state, the given kind's line; never empty |
| Monitor.EnabledStep | src/lib.rs:234-253 | the `enabled` half keeps the registry consistent |
| Monitor.EnabledStepStores | src/lib.rs:234-253 | the flag is stored; only the kind's own state and worker can change |
| Monitor.EnabledStepActs | src/lib.rs:234-253 | same flag: only an "already" reply; running to off: task stopped, `Disabled`; disabled to on: task started with the stored rate, `Running`; otherwise only the flag is stored |
| Monitor.RateStep | src/lib.rs:255-268 | the `rate` half keeps the registry consistent |
| Monitor.RateStepSpec | src/lib.rs:255-268 | a different rate is stored and sent to the task only if the kind was `Running` on entry; the same rate only replies "already"; states never change |
| Monitor.SetStep | src/lib.rs:224-273 | `set` keeps the registry consistent |
| Monitor.SetStepStores | src/lib.rs:224-273 | afterwards the kind's stored flag and rate are exactly the given ones, or the old ones where none is given |
| Monitor.SetStepKeepsOtherSettings | src/lib.rs:224-273 | every other kind's stored flag and rate is unchanged |
| Monitor.SetStepTouchesOnlyItsKind | src/lib.rs:224-273 | only the kind's own state and worker can change; with neither value it changes nothing and replies nothing |
| Monitor.EnableWithRateStartsAtOldRate | src/lib.rs:244-262 | enabling a disabled kind together with a new rate runs its task at the old rate and sends no rate, while the new rate is stored |
| Monitor.DisableWithRateLeavesRatePending | src/lib.rs:240-262 | disabling a running kind together with a new rate stops its task and leaves the rate on its channel |
| Monitor.Apply | src/lib.rs:107-130 | each command keeps the registry consistent; `list` and `store` change nothing |
| Monitor.Dispatch | src/lib.rs:104-134 | a batch keeps the registry consistent, or panics with the unwrap message |
| Monitor.DispatchOkIff | src/lib.rs:104-134 | a batch runs to its end exactly when every command in it names what it needs, and then there is one reply per command other than `None` |
| Monitor.DispatchSnoc | src/lib.rs:107-131 | one command more appends its reply after the others and runs on the state the others left |
| Monitor.DispatchThree | src/lib.rs:107-131 | a batch of three commands is the three steps in turn, with their replies in order |
| Monitor.StopEachKind | src/lib.rs:171-196 | stopping the three kinds in turn halts each of them and keeps the settings |
| Monitor.StopAllLeavesNothingRunning | src/cli.rs:264-272 | a `stop` with no metric gives three replies; afterwards no kind runs; running kinds are `Stopped` and others are unchanged |
| Monitor.StartEachKind | src/lib.rs:136-169 | starting the three kinds in turn leaves each running with a task |
| Monitor.StartAllRunsEverything | src/cli.rs:242-250 | a `start` with no metric gives three replies and leaves every kind running with a task, settings unchanged |
| Monitor.QueriesChangeNothing | src/lib.rs:117-128 | a batch of `list` and `store` commands leaves the registry as it was |
| Monitor.LaunchOne | src/lib.rs:69-74 | a kind that is not `Disabled` gets a task with its stored rate and becomes `Running`; a `Disabled` one is untouched |
| Monitor.Launched | src/lib.rs:68-75 | the registry stays consistent and the settings unchanged through `launch_metrics` |
| Monitor.LaunchStartsEveryEnabledKind | src/lib.rs:68-75 | after `launch_metrics` every kind that was not `Disabled` runs a task with its stored rate, and the `Disabled` ones are untouched |
| Monitor.LinuxKernelMonitor.constructor | src/lib.rs:29-58 | the fields amount to the initial registry of the loaded (or default) settings, with fresh workers |
| Monitor.LinuxKernelMonitor.LaunchMetrics | src/lib.rs:68-75 | the fields become `Launched` of the old registry |
| Monitor.LinuxKernelMonitor.LaunchKind | src/lib.rs:70-73 | the fields become `LaunchOne` of the old registry |
| Monitor.LinuxKernelMonitor.StartMetric | src/lib.rs:136-169 | the loop over the workers leaves the registry and reply of `StartStep` |
| Monitor.LinuxKernelMonitor.StartOne | src/lib.rs:143-165 | the loop body for the kind's own worker does `StartStep` |
| Monitor.LinuxKernelMonitor.StartRunning | src/lib.rs:144-154 | the running branch does `StartStep` |
| Monitor.LinuxKernelMonitor.StartIdle | src/lib.rs:155-164 | the not-running branch does `StartStep` |
| Monitor.LinuxKernelMonitor.StopMetric | src/lib.rs:171-196 | the loop over the workers leaves the registry and reply of `StopStep` |
| Monitor.LinuxKernelMonitor.StopOne | src/lib.rs:177-187 | the loop body for the kind's own worker does `StopStep` |
| Monitor.LinuxKernelMonitor.MetricInfo | src/lib.rs:198-222 | changes nothing and replies `InfoReply` |
| Monitor.LinuxKernelMonitor.LinesInState | src/lib.rs:202-209 | the loop over the kinds gives the lines of exactly the kinds in the state, in order |
| Monitor.LinuxKernelMonitor.SetConfig | src/lib.rs:224-273 | the loop over the workers leaves the registry and reply of `SetStep` |
| Monitor.LinuxKernelMonitor.SetOne | src/lib.rs:233-269 | the loop body does the `enabled` half, then the `rate` half, and joins their replies |
| Monitor.LinuxKernelMonitor.SetEnabledOne | src/lib.rs:234-253 | no flag: nothing changes and nothing is replied; otherwise it does `EnabledStep` |
| Monitor.LinuxKernelMonitor.ChangeEnabled | src/lib.rs:236-249 | a new flag does `EnabledStep` |
| Monitor.LinuxKernelMonitor.DisableRunning | src/lib.rs:240-243 | turning a running kind off does `EnabledStep` |
| Monitor.LinuxKernelMonitor.EnableDisabled | src/lib.rs:244-248 | turning a disabled kind on does `EnabledStep` |
| Monitor.LinuxKernelMonitor.SetRateOne | src/lib.rs:255-268 | no rate: nothing changes and nothing is replied; otherwise it does `RateStep`, judged by the state on entry |
| Monitor.StoreReply | src/lib.rs:275-302 | "Config successfully saved" exactly when the settings were written, and it alone does not end in `;`; every failure reply starts "Error: failed to " and ends with the error's text and `;` |
| Monitor.LinuxKernelMonitor.StoreConfig | src/lib.rs:275-302 | changes nothing; the reply is `StoreReply` of the outcome of writing the current settings |
| Monitor.LinuxKernelMonitor.HandleCliCommands | src/lib.rs:104-134 | runs without panic exactly when `Dispatch` does, and then returns its replies and leaves its registry |
| Client.ValidateMetric | src/bin/lkmonitorctl.rs:49-56 | accepts exactly the names the service maps to a known kind, returning the name unchanged; a rejection starts "Invalid metric: '<name>'. Allowed values are: " |
| Client.ValidateState | src/bin/lkmonitorctl.rs:58-65 | accepts exactly the state names other than "initialized", returning the name unchanged; a rejection also starts "Invalid metric: '<name>'. Allowed values are: " |
| Client.RequestLine | src/bin/lkmonitorctl.rs:72-130 | no request exactly for `start` with a rate but no metric and for `set` with neither rate nor flag |
| Client.RequestLineIsWords | src/bin/lkmonitorctl.rs:72-130 | every request is the keyword and the given values, separated by single spaces and ended by a newline |
| Client.RequestWordsAreWords | src/bin/lkmonitorctl.rs:72-130 | every word of a request built from values clap accepted is non-empty and holds no whitespace |
| Client.RequestTokens | src/bin/lkmonitorctl.rs:72-130 | the service's tokenizer gives back exactly those words |
| Client.SetArguments | src/bin/lkmonitorctl.rs:110-120 | the service's `set` parse of the values gives back the metric and exactly the rate and flag given |
| Client.SetRoundTrip | src/bin/lkmonitorctl.rs:110-120 | a `set` request is parsed into one `Set` with the same metric, rate and flag |
| Client.StartRoundTrip | src/bin/lkmonitorctl.rs:83-99 | a `start` request is parsed into the metric and rate given, or one `Start` per kind |
| Client.StopRoundTrip | src/bin/lkmonitorctl.rs:100-109 | a `stop` request is parsed into the metric given, or one `Stop` per kind |
| Client.ListRoundTrip | src/bin/lkmonitorctl.rs:73-82 | a `list` request is parsed into the state given, or one `List` per kind |
| Client.IntendedDispatchable | src/bin/lkmonitorctl.rs:17-47 | no command a validated request stands for makes the service panic |
| Client.RequestRoundTrip | src/bin/lkmonitorctl.rs:72-130 | every request the client sends is parsed by the service into exactly the intended commands, none of which panics |
| Client.ReadLine | src/bin/lkmonitorctl.rs:138 | the line read is a prefix of the response, all of it when it has no newline |
| Client.NonEmpty | src/bin/lkmonitorctl.rs:141 | a piece is kept exactly when it is non-empty |
| Client.NonEmptyAppend | src/bin/lkmonitorctl.rs:140-141 | filtering keeps order: the kept pieces of `a + b` are those of `a` followed by those of `b` |
| Client.Printed | src/bin/lkmonitorctl.rs:140-144 | every printed line is non-empty and holds no semicolon |
| Client.ResponseLines | src/bin/lkmonitorctl.rs:140-144 | the loop prints exactly the non-empty pieces of the trimmed response, in order |
| Client.Terminated | src/cli.rs:168-175 | the text of the messages is empty exactly when there are none, and otherwise ends in a semicolon |
| Client.SplitTerminated | src/bin/lkmonitorctl.rs:140 | splitting the messages' text on ';' gives the messages and one empty piece |
| Client.PiecesOfTerminated | src/bin/lkmonitorctl.rs:140-144 | dropping the empty pieces gives back exactly the messages |
| Client.ReceivedAsSent | src/bin/lkmonitorctl.rs:138-140 | reading one line and trimming it leaves the service's text as sent |
| Client.PrintedTerminated | src/bin/lkmonitorctl.rs:136-144 | the client prints back exactly the messages, one per line, in order |
| Client.ResponseIsTerminated | src/cli.rs:168-175 | writing the semicolon-closed replies one after another gives the messages' terminated text |
| Client.PrintedReplies | src/cli.rs:168-175 | end to end, replies that are each one message closed by ';' are printed one per line, in order |
| Client.GuardAsWritten | src/bin/lkmonitorctl.rs:132 | the guard as written holds for every length but `usize::MAX` |
| Client.GuardAsWrittenLetsEmptyThrough | src/bin/lkmonitorctl.rs:132 | the empty request passes the guard as written |
| Client.ShouldSend | src/bin/lkmonitorctl.rs:132 | the intended guard holds exactly for a non-empty request |
| Client.RequestsAreSent | src/bin/lkmonitorctl.rs:132 | every request `main` forms passes the intended guard |
| Client.FormedRequestsPassBothGuards | src/bin/lkmonitorctl.rs:72-132 | a request built from values clap accepted is short enough for a `usize` and passes both the guard as written and the intended one |
| Client.Control | src/bin/lkmonitorctl.rs:67-148 | `main` sends exactly the request line, behind the intended guard; without one it prints nothing; with one it prints the pieces of the line read back |

## Left out

- Threads, joins and the crossbeam channels are not modelled as concurrency. A worker is its
  task handle plus the messages sent to it that it is not yet known to have read. The
  busy-wait `try_recv` loops and the condition-variable wait are also left out.
  - `receive_cli_command` and `receive_service_response` are the busy-wait loops. A batch is
    taken as delivered.
  - The condition-variable wait in `dequeue` becomes the precondition that the queue is
    non-empty.
- The Unix socket is not modelled: `Cli::new`, `CliServer::run`, `handle_cli_client`,
  `read_cli_command` and the client's `connect`, `write_all` and `flush`.
  - The request reaches the parser as a string.
  - The service's response reaches the client as a function `respond` from request to text.
  - The `EmptyRequest` error of `read_cli_command` is not modelled.
- Files and TOML are not modelled. `MonitorConfig::new` is given what reading the settings file
  gave (`None` when it is missing or unreadable). `store_config` is given the outcome of writing
  the file.
- The collectors (src/metric/cpu.rs, memory.rs, io.rs) and the logger (src/logger.rs) are not
  part of this model. A collector is a function from cycle number to queue item. Readings are
  carried as their rendered text.
- The `sleep` in `run` is recorded as the sequence of rates slept for, not timed.
- clap's own option parsing and the client's `exit(0)` and `eprintln!` paths are not modelled.
  A request that is not formed is `None`.
- The "Error while joining thread;" reply of `Metric::stop` is not modelled. Only a panicking
  collector can cause it.
- The "All metrics already stopped;" fallback of `stop_metric` (src/lib.rs:191-193) cannot be
  reached for a known kind; `StopMetric` gives the reply `StopStep` gives.
- `CpuConfig`, `MemoryConfig` and `IOConfig` are one datatype `KindConfig`. The getters of
  `CliCommand` are the datatype's destructors.
- Panics in the control loop are not modelled per method. An `unwrap` of a missing metric, or
  `get_state` of `None`, is modelled once, at the batch level: `Dispatch` and
  `HandleCliCommands` return `Panic` at the first command that is not `Dispatchable`. Each
  per-command method requires its command to be dispatchable.
- Monitor.LinuxKernelMonitor.HandleCliCommands: on a panic it states nothing about the registry
  beyond its consistency. In the source the control thread dies there, and the earlier commands'
  effects stay in place.
- Metric.Run: requires a "stop" among the polls and only rates otherwise. Without a "stop" the
  loop never ends. A message that is neither "stop" nor a `u8` panics in the source. The control
  loop never sends one (`ValidPending`).
- Metric.Metric.Stop: requires the channel to hold only rates. That is what lets the model
  conclude the joined task has consumed the channel through "stop".
- Metric.Metric.Stop: the "stop" message it sends is then consumed. The model does not keep a
  trace of every message ever sent.
- Client.Control: checks the intended guard `ShouldSend`, not the one written at
  src/bin/lkmonitorctl.rs:132. The two agree on every request built from values clap accepted
  (`Client.FormedRequestsPassBothGuards`).
- Text.IsWhitespace is Unicode `White_Space` as Rust defines it. There is no other Unicode
  handling: strings are sequences of characters, not UTF-8 bytes.

## Findings

| source | as written | input that shows it | evidently intended | confidence | as-written member | corrected member |
|---|---|---|---|---|---|---|
| src/bin/lkmonitorctl.rs:132 | `!command.len() > 0` is `(!len) > 0`: the bitwise complement of the length, compared with 0. It holds for every length except `usize::MAX` | the empty request "" (length 0) passes the guard and would be written to the socket | `command.len() > 0`: send only a non-empty request | not executed; no branch of `main` forms an empty request, so the difference stays latent | Client.GuardAsWritten, Client.GuardAsWrittenLetsEmptyThrough | Client.ShouldSend, Client.RequestsAreSent |
