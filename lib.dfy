/** The daemon's control loop (src/lib.rs): the registry of workers and
    states, and what each command does to it and replies.

    `Registry` is the value the daemon's fields amount to: the stored settings,
    the state of every kind and every kind's worker. The functions over it say
    what each command does; the class `LinuxKernelMonitor` does it in place,
    over its `MonitorConfig` and its three `Metric` objects, and each of its
    methods is proved to do what the function says. */
module Monitor {
  import opened Wrappers
  import opened Text
  import opened Metric
  import opened Seqs
  import opened Config
  import opened Cli

  /** A worker as the control loop sees it: its task handle and the messages
      still on its control channel. */
  datatype Worker = Worker(handle: Option<TaskHandle>, pending: seq<string>)

  /** The workers of the three kinds (`metrics`, one per kind). */
  datatype Workers = Workers(cpu: Worker, memory: Worker, io: Worker) {
    function Get(k: MetricType): Worker
      requires IsKnown(k)
    {
      match k
      case CPU => cpu
      case Memory => memory
      case IO => io
    }

    /** Replaces the worker of `k` and no other. */
    function With(k: MetricType, w: Worker): (ws: Workers)
      requires IsKnown(k)
      ensures ws.Get(k) == w
      ensures forall k' :: IsKnown(k') && k' != k ==> ws.Get(k') == Get(k')
    {
      match k
      case CPU => this.(cpu := w)
      case Memory => this.(memory := w)
      case IO => this.(io := w)
    }
  }

  datatype Registry = Registry(
    config: MetricsConfig,
    states: map<MetricType, MetricState>,
    workers: Workers)

  /** One kind is consistent: it has a state, a task runs exactly when the
      state is `Running`, and its channel holds only rates. */
  predicate KindOk(reg: Registry, k: MetricType) {
    && IsKnown(k) && k in reg.states
    && (reg.states[k] == Running <==> reg.workers.Get(k).handle.Some?)
    && ValidPending(reg.workers.Get(k).pending)
  }

  /** The invariant every command preserves. Under it, `stop` never unwraps a
      missing handle and a joined task never leaves "stop" behind. */
  predicate RegistryOk(reg: Registry) {
    KindOk(reg, CPU) && KindOk(reg, Memory) && KindOk(reg, IO)
  }

  lemma KnownKindOk(reg: Registry, k: MetricType)
    requires RegistryOk(reg) && IsKnown(k)
    ensures KindOk(reg, k)
  {
  }

  /** Giving one kind a new state and worker that agree with each other keeps
      the registry consistent, whatever the stored settings become. */
  lemma PutOk(reg: Registry, c: MetricsConfig, k: MetricType, st: MetricState, w: Worker)
    requires RegistryOk(reg) && IsKnown(k)
    requires (st == Running <==> w.handle.Some?) && ValidPending(w.pending)
    ensures RegistryOk(Registry(c, reg.states[k := st], reg.workers.With(k, w)))
  {
  }

  /** The same for a new worker under the kind's present state. */
  lemma PutWorkerOk(reg: Registry, c: MetricsConfig, k: MetricType, w: Worker)
    requires RegistryOk(reg) && IsKnown(k)
    requires (reg.states[k] == Running <==> w.handle.Some?) && ValidPending(w.pending)
    ensures RegistryOk(Registry(c, reg.states, reg.workers.With(k, w)))
  {
  }

  /** The stored settings play no part in consistency. */
  lemma ConfigOk(reg: Registry, c: MetricsConfig)
    requires RegistryOk(reg)
    ensures RegistryOk(reg.(config := c))
  {
  }

  /** A rate sent on a channel of rates leaves a channel of rates. */
  lemma SendRateOk(pending: seq<string>, rate: u8)
    requires ValidPending(pending)
    ensures ValidPending(pending + [U8ToString(rate)])
  {
    U8ToStringParses(rate);
  }

  /** The registry right after `init`: the loaded (or default) settings, each
      kind `Initialized` or `Disabled`, and no task running. */
  function InitialRegistry(c: MetricsConfig): (reg: Registry)
    ensures RegistryOk(reg)
    ensures forall k :: IsKnown(k) ==>
      reg.states[k] == (if c.GetEnabled(k) then Initialized else Disabled)
  {
    Registry(c,
      map[CPU := InitialState(c, CPU), Memory := InitialState(c, Memory), IO := InitialState(c, IO)],
      Workers(Worker(None, []), Worker(None, []), Worker(None, [])))
  }

  /** A state map with exactly the three kinds, each in its initial state, is
      the one `InitialRegistry` holds. */
  lemma InitialStates(c: MetricsConfig, states: map<MetricType, MetricState>)
    requires states.Keys == {CPU, Memory, IO}
    requires forall k :: k in states ==> states[k] == InitialState(c, k)
    ensures states == InitialRegistry(c).states
  {
  }

  // ----- Replies -----

  function AlreadyRunningReply(k: MetricType): string {
    "Metric '" + MetricToStr(k) + "' already running;"
  }

  function AlreadyRunningWithRateReply(k: MetricType, rate: u8): string {
    "'" + MetricToStr(k) + "' metric already running with rate '" + U8ToString(rate) + "';"
  }

  function RateSetReply(k: MetricType, rate: u8): string {
    "'" + MetricToStr(k) + "' metric 'rate' is set to '" + U8ToString(rate) + "';"
  }

  function RateAlreadyReply(k: MetricType, rate: u8): string {
    "'" + MetricToStr(k) + "' metric 'rate' is is already '" + U8ToString(rate) + "';"
  }

  function EnabledSetReply(k: MetricType, enabled: bool): string {
    "'" + MetricToStr(k) + "' metric 'enabled' is set to '" + BoolToString(enabled) + "';"
  }

  function EnabledAlreadyReply(k: MetricType, enabled: bool): string {
    "'" + MetricToStr(k) + "' metric 'enabled' is is already '" + BoolToString(enabled) + "';"
  }

  function AlreadyStoppedReply(k: MetricType): string {
    "Metric '" + MetricToStr(k) + "' already stopped;"
  }

  function DisabledReply(k: MetricType): string {
    "Metric '" + MetricToStr(k) + "' disabled;"
  }

  function NoMetricsReply(st: MetricState): string {
    "No metrics in state '" + StateToStr(st) + "';"
  }

  function StateLine(k: MetricType, st: MetricState, rate: u8): string {
    "Metric '" + MetricToStr(k) + "' is in state '" + StateToStr(st) + "' rate '" + U8ToString(rate) + "';"
  }

  /** The line `list` gives for one kind. */
  function InfoLine(reg: Registry, k: MetricType): (line: string)
    requires k in reg.states
    ensures line != []
  {
    StateLine(k, reg.states[k], reg.config.GetRefreshRate(k))
  }

  /** What writing the settings file came to: the file system and the TOML
      serializer are outside the model, so `store` is given this outcome. */
  datatype StoreOutcome =
    | Saved
    | CreateFailed(detail: string)
    | SerializeFailed(detail: string)
    | WriteFailed(detail: string)

  /** The reply for a step of `store_config` that failed with error `d`. */
  function StoreFailure(step: string, d: string): (r: string)
    ensures "Error: failed to " <= r && r[|r| - 1] == ';'
    ensures |r| > |d| + 1 && r[|r| - |d| - 1..] == d + ";"
  {
    var r := "Error: failed to " + step + " config file: " + d + ";";
    assert r == ("Error: failed to " + step + " config file: ") + (d + ";");
    r
  }

  /** The reply of `store_config`: the success message, which alone carries
      no closing semicolon, or an error naming the step that failed. */
  function StoreReply(o: StoreOutcome): (r: string)
    ensures r == "Config successfully saved" <==> o.Saved?
    ensures o.Saved? ==> r[|r| - 1] != ';'
    ensures !o.Saved? ==> "Error: failed to " <= r && r[|r| - 1] == ';'
    ensures !o.Saved? ==> |r| > |o.detail| + 1 && r[|r| - |o.detail| - 1..] == o.detail + ";"
  {
    match o
    case Saved => "Config successfully saved"
    case CreateFailed(d) => StoreFailure("create", d)
    case SerializeFailed(d) => StoreFailure("serialize", d)
    case WriteFailed(d) => StoreFailure("write", d)
  }

  // ----- Commands on the registry -----

  datatype Step = Step(next: Registry, reply: string)

  /** `start_metric` for kind `k`. The state on entry decides: a running task is
      only sent the new rate (when it differs from the stored one); otherwise a
      task is spawned with the given rate or the stored one. The kind is
      `Running` afterwards in every case, and the stored settings never change. */
  function StartStep(reg: Registry, k: MetricType, rate: Option<u8>): (s: Step)
    requires RegistryOk(reg) && IsKnown(k)
    ensures RegistryOk(s.next)
  {
    KnownKindOk(reg, k);
    var w := reg.workers.Get(k);
    var stored := reg.config.GetRefreshRate(k);
    if reg.states[k] == Running then
      if rate.Some? && stored != rate.value then
        var w' := w.(pending := w.pending + [U8ToString(rate.value)]);
        SendRateOk(w.pending, rate.value);
        PutOk(reg, reg.config, k, Running, w');
        Step(Registry(reg.config, reg.states[k := Running], reg.workers.With(k, w')), RateSetReply(k, rate.value))
      else
        PutOk(reg, reg.config, k, Running, w);
        var reply := if rate.Some? then AlreadyRunningWithRateReply(k, stored) else AlreadyRunningReply(k);
        Step(Registry(reg.config, reg.states[k := Running], reg.workers.With(k, w)), reply)
    else
      var r := rate.GetOr(stored);
      var w' := w.(handle := Some(TaskHandle(r)));
      PutOk(reg, reg.config, k, Running, w');
      Step(Registry(reg.config, reg.states[k := Running], reg.workers.With(k, w')), StartedReply(k, r))
  }

  /** After `start` the kind is `Running` whatever its state was, the stored
      settings are unchanged and no other kind is touched. */
  lemma StartStepRuns(reg: Registry, k: MetricType, rate: Option<u8>)
    requires RegistryOk(reg) && IsKnown(k)
    ensures var s := StartStep(reg, k, rate);
      && s.next.config == reg.config
      && s.next.states == reg.states[k := Running]
      && s.next.workers == reg.workers.With(k, s.next.workers.Get(k))
      && s.next.workers.Get(k).handle.Some?
  {
  }

  /** `start` on a running kind keeps its task: with no rate it only
      replies, and a rate that differs from the stored one is sent to the
      task but not stored. */
  lemma StartStepOnRunning(reg: Registry, k: MetricType, rate: Option<u8>)
    requires RegistryOk(reg) && IsKnown(k) && reg.states[k] == Running
    ensures var s := StartStep(reg, k, rate);
      && s.next.workers.Get(k).handle == reg.workers.Get(k).handle
      && (rate.None? ==> s.next == reg && s.reply == AlreadyRunningReply(k))
      && (rate.Some? && rate.value == reg.config.GetRefreshRate(k) ==>
        s.next == reg && s.reply == AlreadyRunningWithRateReply(k, rate.value))
      && (rate.Some? && rate.value != reg.config.GetRefreshRate(k) ==>
        && s.next.workers.Get(k).pending == reg.workers.Get(k).pending + [U8ToString(rate.value)]
        && s.next.config.GetRefreshRate(k) == reg.config.GetRefreshRate(k)
        && s.reply == RateSetReply(k, rate.value))
  {
  }

  /** `start` on a kind that is not running spawns a task with the given
      rate, or the stored one. */
  lemma StartStepOnIdle(reg: Registry, k: MetricType, rate: Option<u8>)
    requires RegistryOk(reg) && IsKnown(k) && reg.states[k] != Running
    ensures var s := StartStep(reg, k, rate);
      var r := rate.GetOr(reg.config.GetRefreshRate(k));
      && s.next.workers.Get(k) == Worker(Some(TaskHandle(r)), reg.workers.Get(k).pending)
      && s.reply == StartedReply(k, r)
  {
  }

  /** The state `stop` leaves a kind in. */
  function Halted(st: MetricState): MetricState {
    if st == Running then Stopped else st
  }

  /** `stop_metric` for kind `k`: a running task is stopped and joined, leaving
      the kind `Stopped`; any other state is left alone. */
  function StopStep(reg: Registry, k: MetricType): (s: Step)
    requires RegistryOk(reg) && IsKnown(k)
    ensures RegistryOk(s.next)
    ensures s.next.config == reg.config
    ensures s.next.states == reg.states[k := Halted(reg.states[k])]
    ensures reg.states[k] == Running ==>
      && s.next.states == reg.states[k := Stopped]
      && s.next.workers == reg.workers.With(k, Worker(None, []))
      && s.reply == StoppedReply(k)
    ensures reg.states[k] == Stopped ==> s == Step(reg, AlreadyStoppedReply(k))
    ensures reg.states[k] in {Initialized, Disabled} ==> s == Step(reg, DisabledReply(k))
  {
    KnownKindOk(reg, k);
    if reg.states[k] == Running then
      PutOk(reg, reg.config, k, Stopped, Worker(None, []));
      Step(reg.(states := reg.states[k := Stopped], workers := reg.workers.With(k, Worker(None, []))), StoppedReply(k))
    else if reg.states[k] == Stopped then
      Step(reg, AlreadyStoppedReply(k))
    else
      Step(reg, DisabledReply(k))
  }

  /** Stopping twice is stopping once. */
  lemma StopIdempotent(reg: Registry, k: MetricType)
    requires RegistryOk(reg) && IsKnown(k)
    ensures var once := StopStep(reg, k).next;
      StopStep(once, k).next == once
  {
    var once := StopStep(reg, k).next;
    assert once.states[k] in {Stopped, Initialized, Disabled};
  }

  /** Known kinds in strictly increasing registry order. */
  predicate InRegistryOrder(ks: seq<MetricType>) {
    && (forall i :: 0 <= i < |ks| ==> IsKnown(ks[i]))
    && (forall i, j :: 0 <= i < j < |ks| ==> KindIndex(ks[i]) < KindIndex(ks[j]))
  }

  predicate InState(reg: Registry, k: MetricType, st: MetricState) {
    k in reg.states && reg.states[k] == st
  }

  lemma SnocInOrder(ks: seq<MetricType>, k: MetricType)
    requires InRegistryOrder(ks) && IsKnown(k)
    requires forall x :: x in ks ==> KindIndex(x) < KindIndex(k)
    ensures InRegistryOrder(ks + [k])
  {
  }

  /** The first `n` kinds of the registry that are in state `st`, in registry
      order. */
  function KindsInState(reg: Registry, st: MetricState, n: nat): (r: seq<MetricType>)
    requires n <= 3
    ensures InRegistryOrder(r)
    ensures forall k :: k in r <==> IsKnown(k) && KindIndex(k) < n && InState(reg, k, st)
    ensures forall i :: 0 <= i < |r| ==> InState(reg, r[i], st)
  {
    if n == 0 then []
    else
      var prefix := KindsInState(reg, st, n - 1);
      var k := MetricTypes()[n - 1];
      assert KindIndex(k) == n - 1;
      if InState(reg, k, st) then SnocInOrder(prefix, k); prefix + [k] else prefix
  }

  /** The lines of `ks`, one after another. */
  function InfoLines(reg: Registry, ks: seq<MetricType>): (text: string)
    requires forall i :: 0 <= i < |ks| ==> ks[i] in reg.states
    ensures text == [] <==> ks == []
  {
    if ks == [] then [] else InfoLines(reg, ks[..|ks| - 1]) + InfoLine(reg, ks[|ks| - 1])
  }

  /** One kind more adds its line after the others. */
  lemma InfoLinesSnoc(reg: Registry, ks: seq<MetricType>, k: MetricType)
    requires forall i :: 0 <= i < |ks| ==> ks[i] in reg.states
    requires k in reg.states
    ensures InfoLines(reg, ks + [k]) == InfoLines(reg, ks) + InfoLine(reg, k)
  {
    assert (ks + [k])[..|ks|] == ks;
  }

  /** The text `metric_info` has built after looking at the first `n` kinds
      for state `st`, one kind at a time. */
  function LinesUpTo(reg: Registry, st: MetricState, n: nat): string
    requires RegistryOk(reg) && n <= 3
  {
    if n == 0 then ""
    else
      var k := MetricTypes()[n - 1];
      KnownKindOk(reg, k);
      LinesUpTo(reg, st, n - 1) + (if InState(reg, k, st) then InfoLine(reg, k) else "")
  }

  /** The step of `LinesUpToIsInfoLines` for a kind in `st`. */
  lemma LinesUpToKept(reg: Registry, st: MetricState, n: nat)
    requires RegistryOk(reg) && 0 < n <= 3 && InState(reg, MetricTypes()[n - 1], st)
    requires LinesUpTo(reg, st, n - 1) == InfoLines(reg, KindsInState(reg, st, n - 1))
    ensures LinesUpTo(reg, st, n) == InfoLines(reg, KindsInState(reg, st, n))
  {
    var k := MetricTypes()[n - 1];
    KnownKindOk(reg, k);
    KindsInStateStep(reg, st, n);
    InfoLinesSnoc(reg, KindsInState(reg, st, n - 1), k);
  }

  /** The step of `LinesUpToIsInfoLines` for a kind not in `st`. */
  lemma LinesUpToSkipped(reg: Registry, st: MetricState, n: nat)
    requires RegistryOk(reg) && 0 < n <= 3 && !InState(reg, MetricTypes()[n - 1], st)
    requires LinesUpTo(reg, st, n - 1) == InfoLines(reg, KindsInState(reg, st, n - 1))
    ensures LinesUpTo(reg, st, n) == InfoLines(reg, KindsInState(reg, st, n))
  {
    KindsInStateStep(reg, st, n);
    assert LinesUpTo(reg, st, n) == LinesUpTo(reg, st, n - 1) + "";
  }

  /** Building the text kind by kind gives the lines of exactly the kinds in
      `st`, in registry order. */
  lemma {:induction false} LinesUpToIsInfoLines(reg: Registry, st: MetricState, n: nat)
    requires RegistryOk(reg) && n <= 3
    ensures LinesUpTo(reg, st, n) == InfoLines(reg, KindsInState(reg, st, n))
  {
    if n > 0 {
      LinesUpToIsInfoLines(reg, st, n - 1);
      if InState(reg, MetricTypes()[n - 1], st) {
        LinesUpToKept(reg, st, n);
      } else {
        LinesUpToSkipped(reg, st, n);
      }
    }
  }

  /** One kind more is kept exactly when it is in `st`. */
  lemma KindsInStateStep(reg: Registry, st: MetricState, n: nat)
    requires 0 < n <= 3
    ensures var k := MetricTypes()[n - 1];
      KindsInState(reg, st, n) == if InState(reg, k, st) then KindsInState(reg, st, n - 1) + [k] else KindsInState(reg, st, n - 1)
  {
  }

  /** `metric_info`: with a state, the lines of every kind in that state, or a
      "none" reply; without, the line of the given kind. */
  function InfoReply(reg: Registry, state: Option<MetricState>, metric: Option<MetricType>): (text: string)
    requires RegistryOk(reg)
    requires state.Some? || (metric.Some? && IsKnown(metric.value))
    ensures text != []
    ensures state.Some? && (forall k :: IsKnown(k) ==> !InState(reg, k, state.value)) ==>
      text == NoMetricsReply(state.value)
    ensures state.Some? && (exists k :: IsKnown(k) && InState(reg, k, state.value)) ==>
      text == InfoLines(reg, KindsInState(reg, state.value, 3))
    ensures state.None? ==> text == InfoLine(reg, metric.value)
  {
    if state.Some? then
      var kinds := KindsInState(reg, state.value, 3);
      var lines := InfoLines(reg, kinds);
      if lines == [] then NoMetricsReply(state.value) else lines
    else
      KnownKindOk(reg, metric.value);
      InfoLine(reg, metric.value)
  }

  /** The `enabled` half of `set_config`. A change is stored; turning a running
      kind off stops its task and disables it, turning a disabled kind on starts
      a task with the stored rate. */
  function EnabledStep(reg: Registry, k: MetricType, enabled: bool): (s: Step)
    requires RegistryOk(reg) && IsKnown(k)
    ensures RegistryOk(s.next)
  {
    KnownKindOk(reg, k);
    var current := reg.config.GetEnabled(k);
    if enabled == current then
      Step(reg, EnabledAlreadyReply(k, current))
    else
      var c := reg.config.SetEnabled(k, enabled);
      var line := EnabledSetReply(k, enabled);
      if reg.states[k] == Running && !enabled then
        PutOk(reg, c, k, Disabled, Worker(None, []));
        Step(Registry(c, reg.states[k := Disabled], reg.workers.With(k, Worker(None, []))), line + StoppedReply(k))
      else if reg.states[k] == Disabled && enabled then
        var rate := c.GetRefreshRate(k);
        var w := reg.workers.Get(k).(handle := Some(TaskHandle(rate)));
        PutOk(reg, c, k, Running, w);
        Step(Registry(c, reg.states[k := Running], reg.workers.With(k, w)), line + StartedReply(k, rate))
      else
        ConfigOk(reg, c);
        Step(reg.(config := c), line)
  }

  /** The `enabled` half stores the flag and changes the state and the worker
      of its own kind only. */
  lemma EnabledStepStores(reg: Registry, k: MetricType, enabled: bool)
    requires RegistryOk(reg) && IsKnown(k)
    ensures var s := EnabledStep(reg, k, enabled);
      && s.next.config == reg.config.SetEnabled(k, enabled)
      && k in s.next.states && s.next.states == reg.states[k := s.next.states[k]]
      && s.next.workers == reg.workers.With(k, s.next.workers.Get(k))
  {
  }

  /** What the `enabled` half does to the task: nothing when the flag does not
      change; turning a running kind off stops and joins its task; turning a
      disabled kind on starts one with the stored rate; otherwise only the
      flag is stored. */
  lemma EnabledStepActs(reg: Registry, k: MetricType, enabled: bool)
    requires RegistryOk(reg) && IsKnown(k)
    ensures var s := EnabledStep(reg, k, enabled);
      && (enabled == reg.config.GetEnabled(k) ==> s == Step(reg, EnabledAlreadyReply(k, enabled)))
      && (enabled != reg.config.GetEnabled(k) && reg.states[k] == Running && !enabled ==>
        && s.next.states[k] == Disabled
        && s.next.workers.Get(k) == Worker(None, [])
        && s.reply == EnabledSetReply(k, enabled) + StoppedReply(k))
      && (enabled != reg.config.GetEnabled(k) && reg.states[k] == Disabled && enabled ==>
        && s.next.states[k] == Running
        && s.next.workers.Get(k) == Worker(Some(TaskHandle(reg.config.GetRefreshRate(k))), reg.workers.Get(k).pending)
        && s.reply == EnabledSetReply(k, enabled) + StartedReply(k, reg.config.GetRefreshRate(k)))
      && ((&& enabled != reg.config.GetEnabled(k)
           && !(reg.states[k] == Running && !enabled)
           && !(reg.states[k] == Disabled && enabled)) ==>
        s == Step(reg.(config := reg.config.SetEnabled(k, enabled)), EnabledSetReply(k, enabled)))
  {
  }

  /** The `rate` half of `set_config`. A different rate is stored, and sent to
      the task only if the kind was `Running` when the command began (`live`). */
  function RateStep(reg: Registry, k: MetricType, live: bool, rate: u8): (s: Step)
    requires RegistryOk(reg) && IsKnown(k)
    ensures RegistryOk(s.next)
  {
    KnownKindOk(reg, k);
    var current := reg.config.GetRefreshRate(k);
    if current == rate then
      Step(reg, RateAlreadyReply(k, current))
    else
      var c := reg.config.SetRefreshRate(k, rate);
      var w := reg.workers.Get(k);
      var w' := if live then w.(pending := w.pending + [U8ToString(rate)]) else w;
      SendRateOk(w.pending, rate);
      PutWorkerOk(reg, c, k, w');
      Step(Registry(c, reg.states, reg.workers.With(k, w')), RateSetReply(k, rate))
  }

  /** The `rate` half stores a different rate and sends it on the channel only
      when `live`; the same rate changes nothing. */
  lemma RateStepSpec(reg: Registry, k: MetricType, live: bool, rate: u8)
    requires RegistryOk(reg) && IsKnown(k)
    ensures var s := RateStep(reg, k, live, rate);
      && s.next.config == reg.config.SetRefreshRate(k, rate)
      && s.next.states == reg.states
      && s.next.workers == reg.workers.With(k, s.next.workers.Get(k))
      && (rate == reg.config.GetRefreshRate(k) ==> s == Step(reg, RateAlreadyReply(k, rate)))
      && (rate != reg.config.GetRefreshRate(k) ==>
        && s.reply == RateSetReply(k, rate)
        && s.next.workers.Get(k).handle == reg.workers.Get(k).handle
        && s.next.workers.Get(k).pending == reg.workers.Get(k).pending + (if live then [U8ToString(rate)] else []))
  {
  }

  /** `set_config`: the `enabled` half, then the `rate` half, both judged by the
      state the kind had when the command began. */
  function SetStep(reg: Registry, k: MetricType, rate: Option<u8>, enabled: Option<bool>): (s: Step)
    requires RegistryOk(reg) && IsKnown(k)
    ensures RegistryOk(s.next)
  {
    var live := reg.states[k] == Running;
    var first := if enabled.Some? then EnabledStep(reg, k, enabled.value) else Step(reg, "");
    var second := if rate.Some? then RateStep(first.next, k, live, rate.value) else Step(first.next, "");
    Step(second.next, first.reply + second.reply)
  }

  /** `set` stores exactly the values it is given for its own kind. */
  lemma SetStepStores(reg: Registry, k: MetricType, rate: Option<u8>, enabled: Option<bool>)
    requires RegistryOk(reg) && IsKnown(k)
    ensures var s := SetStep(reg, k, rate, enabled);
      && s.next.config.GetEnabled(k) == enabled.GetOr(reg.config.GetEnabled(k))
      && s.next.config.GetRefreshRate(k) == rate.GetOr(reg.config.GetRefreshRate(k))
  {
    var first := if enabled.Some? then EnabledStep(reg, k, enabled.value) else Step(reg, "");
    if enabled.Some? {
      EnabledStepStores(reg, k, enabled.value);
    }
    if rate.Some? {
      RateStepSpec(first.next, k, reg.states[k] == Running, rate.value);
    }
  }

  /** `set` leaves the stored settings of every other kind alone. */
  lemma SetStepKeepsOtherSettings(reg: Registry, k: MetricType, rate: Option<u8>, enabled: Option<bool>, k': MetricType)
    requires RegistryOk(reg) && IsKnown(k) && k' != k
    ensures var s := SetStep(reg, k, rate, enabled);
      && s.next.config.GetEnabled(k') == reg.config.GetEnabled(k')
      && s.next.config.GetRefreshRate(k') == reg.config.GetRefreshRate(k')
  {
    var first := if enabled.Some? then EnabledStep(reg, k, enabled.value) else Step(reg, "");
    if enabled.Some? {
      EnabledStepStores(reg, k, enabled.value);
    }
    if rate.Some? {
      RateStepSpec(first.next, k, reg.states[k] == Running, rate.value);
    }
  }

  /** `set` changes the state and the worker of its own kind only, and with
      neither a rate nor a flag it changes nothing and replies nothing. */
  lemma SetStepTouchesOnlyItsKind(reg: Registry, k: MetricType, rate: Option<u8>, enabled: Option<bool>)
    requires RegistryOk(reg) && IsKnown(k)
    ensures var s := SetStep(reg, k, rate, enabled);
      && k in s.next.states && s.next.states == reg.states[k := s.next.states[k]]
      && s.next.workers == reg.workers.With(k, s.next.workers.Get(k))
      && (enabled.None? && rate.None? ==> s == Step(reg, ""))
  {
    var first := if enabled.Some? then EnabledStep(reg, k, enabled.value) else Step(reg, "");
    if enabled.Some? {
      EnabledStepStores(reg, k, enabled.value);
    }
    if rate.Some? {
      RateStepSpec(first.next, k, reg.states[k] == Running, rate.value);
    }
  }

  /** Enabling a disabled kind together with a new rate starts its task with
      the rate stored before the command and sends it no rate message: the task
      runs at the old rate while the settings hold the new one. */
  lemma EnableWithRateStartsAtOldRate(reg: Registry, k: MetricType, rate: u8)
    requires RegistryOk(reg) && IsKnown(k)
    requires reg.states[k] == Disabled && !reg.config.GetEnabled(k)
    requires rate != reg.config.GetRefreshRate(k)
    ensures var s := SetStep(reg, k, Some(rate), Some(true));
      && s.next.states[k] == Running
      && s.next.config.GetRefreshRate(k) == rate
      && s.next.workers.Get(k).handle == Some(TaskHandle(reg.config.GetRefreshRate(k)))
      && s.next.workers.Get(k).pending == reg.workers.Get(k).pending
  {
    var first := EnabledStep(reg, k, true);
    EnabledStepStores(reg, k, true);
    EnabledStepActs(reg, k, true);
    RateStepSpec(first.next, k, false, rate);
  }

  /** Disabling a running kind together with a new rate stops its task and then
      sends the rate on its channel, where the next task started for the kind
      will read it. */
  lemma DisableWithRateLeavesRatePending(reg: Registry, k: MetricType, rate: u8)
    requires RegistryOk(reg) && IsKnown(k)
    requires reg.states[k] == Running && reg.config.GetEnabled(k)
    requires rate != reg.config.GetRefreshRate(k)
    ensures var s := SetStep(reg, k, Some(rate), Some(false));
      && s.next.states[k] == Disabled
      && s.next.workers.Get(k) == Worker(None, [U8ToString(rate)])
  {
    var first := EnabledStep(reg, k, false);
    EnabledStepStores(reg, k, false);
    EnabledStepActs(reg, k, false);
    RateStepSpec(first.next, k, true, rate);
  }

  // ----- Dispatch -----

  /** What the control loop can run without a panic: the commands that name a
      metric must name a known one (`unwrap` and `get_state` panic otherwise),
      and a `list` needs a state or a metric. */
  predicate Dispatchable(c: CliCommand) {
    match c.cmd
    case Start => c.metricType.Some? && IsKnown(c.metricType.value)
    case Stop => c.metricType.Some? && IsKnown(c.metricType.value)
    case Set => c.metricType.Some? && IsKnown(c.metricType.value)
    case List => c.state.Some? || (c.metricType.Some? && IsKnown(c.metricType.value))
    case Store => true
    case NoCommand => true
  }

  /** The message of the panic a non-dispatchable command causes. */
  const UnwrapNone := "called `Option::unwrap()` on a `None` value"

  /** One command of `handle_cli_commands` (not `None`). */
  function Apply(reg: Registry, c: CliCommand, persist: MetricsConfig -> StoreOutcome): (s: Step)
    requires RegistryOk(reg) && Dispatchable(c) && c.cmd != NoCommand
    ensures RegistryOk(s.next)
    ensures c.cmd in {List, Store} ==> s.next == reg
  {
    match c.cmd
    case Start => StartStep(reg, c.metricType.value, c.refreshRate)
    case Stop => StopStep(reg, c.metricType.value)
    case List => Step(reg, InfoReply(reg, c.state, c.metricType))
    case Set => SetStep(reg, c.metricType.value, c.refreshRate, c.enabled)
    case Store => Step(reg, StoreReply(persist(reg.config)))
  }

  /** The number of commands that get a reply: all but `None`. */
  function Replying(cmds: seq<CliCommand>): nat {
    if cmds == [] then 0
    else Replying(cmds[..|cmds| - 1]) + (if cmds[|cmds| - 1].cmd == NoCommand then 0 else 1)
  }

  datatype Batch = Batch(next: Registry, replies: seq<string>)

  /** `handle_cli_commands`: the commands in order, one reply for each that is
      not `None`, or a panic at the first command that cannot be run. */
  function Dispatch(reg: Registry, cmds: seq<CliCommand>, persist: MetricsConfig -> StoreOutcome): (r: Result<Batch>)
    requires RegistryOk(reg)
    ensures r.Ok? ==> RegistryOk(r.value.next)
    ensures r.Panic? ==> r.message == UnwrapNone
  {
    if cmds == [] then Ok(Batch(reg, []))
    else
      var init := cmds[..|cmds| - 1];
      var c := cmds[|cmds| - 1];
      var prior := Dispatch(reg, init, persist);
      if prior.Panic? then prior
      else if !Dispatchable(c) then Panic(UnwrapNone)
      else if c.cmd == NoCommand then prior
      else
        var s := Apply(prior.value.next, c, persist);
        Ok(Batch(s.next, prior.value.replies + [s.reply]))
  }

  /** A batch runs to its end exactly when every command in it can be run,
      and then it has one reply per command other than `None`. */
  lemma {:induction false} DispatchOkIff(reg: Registry, cmds: seq<CliCommand>, persist: MetricsConfig -> StoreOutcome)
    requires RegistryOk(reg)
    ensures Dispatch(reg, cmds, persist).Ok? <==> forall i :: 0 <= i < |cmds| ==> Dispatchable(cmds[i])
    ensures Dispatch(reg, cmds, persist).Ok? ==> |Dispatch(reg, cmds, persist).value.replies| == Replying(cmds)
  {
    if cmds != [] {
      var n := |cmds| - 1;
      var init := cmds[..n];
      DispatchOkIff(reg, init, persist);
      var prior := Dispatch(reg, init, persist);
      if prior.Panic? {
        var i :| 0 <= i < n && !Dispatchable(init[i]);
        assert init[i] == cmds[i];
      } else if Dispatchable(cmds[n]) {
        assert forall i :: 0 <= i < n ==> init[i] == cmds[i];
      }
    }
  }

  /** One command more: the batch's result on `cmds + [c]` from its result on
      `cmds`. */
  lemma DispatchSnoc(reg: Registry, cmds: seq<CliCommand>, c: CliCommand, persist: MetricsConfig -> StoreOutcome)
    requires RegistryOk(reg)
    requires Dispatch(reg, cmds, persist).Ok? && Dispatchable(c) && c.cmd != NoCommand
    ensures var prior := Dispatch(reg, cmds, persist).value;
      var s := Apply(prior.next, c, persist);
      Dispatch(reg, cmds + [c], persist) == Ok(Batch(s.next, prior.replies + [s.reply]))
  {
    SnocTake(cmds, c);
  }

  /** A batch of three runnable commands is the three steps in turn. */
  lemma DispatchThree(reg: Registry, c1: CliCommand, c2: CliCommand, c3: CliCommand, persist: MetricsConfig -> StoreOutcome)
    requires RegistryOk(reg)
    requires Dispatchable(c1) && Dispatchable(c2) && Dispatchable(c3)
    requires c1.cmd != NoCommand && c2.cmd != NoCommand && c3.cmd != NoCommand
    ensures var s1 := Apply(reg, c1, persist);
      var s2 := Apply(s1.next, c2, persist);
      var s3 := Apply(s2.next, c3, persist);
      Dispatch(reg, [c1, c2, c3], persist) == Ok(Batch(s3.next, [s1.reply, s2.reply, s3.reply]))
  {
    var empty: seq<CliCommand> := [];
    var s1 := Apply(reg, c1, persist);
    var s2 := Apply(s1.next, c2, persist);
    var s3 := Apply(s2.next, c3, persist);
    Snoc3(c1, c2, c3);
    Snoc3(s1.reply, s2.reply, s3.reply);
    DispatchSnoc(reg, empty, c1, persist);
    DispatchSnoc(reg, [c1], c2, persist);
    DispatchSnoc(reg, [c1, c2], c3, persist);
  }

  /** Stopping the three kinds in turn halts each of them. */
  lemma StopEachKind(reg: Registry)
    requires RegistryOk(reg)
    ensures var s1 := StopStep(reg, CPU);
      var s2 := StopStep(s1.next, Memory);
      var s3 := StopStep(s2.next, IO);
      && s3.next.config == reg.config
      && forall k :: IsKnown(k) ==> s3.next.states[k] == Halted(reg.states[k])
  {
    var s1 := StopStep(reg, CPU);
    var s2 := StopStep(s1.next, Memory);
    var s3 := StopStep(s2.next, IO);
    assert s3.next.states == reg.states[CPU := Halted(reg.states[CPU])][Memory := Halted(reg.states[Memory])][IO := Halted(reg.states[IO])];
  }

  /** `stop` with no metric stops every running task and leaves nothing
      running. */
  lemma StopAllLeavesNothingRunning(reg: Registry, persist: MetricsConfig -> StoreOutcome)
    requires RegistryOk(reg)
    ensures var r := Dispatch(reg, ForEachKind(Stop, None, None), persist);
      && r.Ok? && |r.value.replies| == 3
      && r.value.next.config == reg.config
      && forall k :: IsKnown(k) ==>
        && r.value.next.states[k] != Running
        && (reg.states[k] == Running ==> r.value.next.states[k] == Stopped)
        && (reg.states[k] != Running ==> r.value.next.states[k] == reg.states[k])
  {
    var c1, c2, c3 := CliCommand(Stop, Some(CPU), None, None, None),
      CliCommand(Stop, Some(Memory), None, None, None), CliCommand(Stop, Some(IO), None, None, None);
    assert ForEachKind(Stop, None, None) == [c1, c2, c3];
    DispatchThree(reg, c1, c2, c3, persist);
    StopEachKind(reg);
  }

  /** Starting the three kinds in turn leaves each of them running. */
  lemma StartEachKind(reg: Registry)
    requires RegistryOk(reg)
    ensures var s1 := StartStep(reg, CPU, None);
      var s2 := StartStep(s1.next, Memory, None);
      var s3 := StartStep(s2.next, IO, None);
      && s3.next.config == reg.config
      && forall k :: IsKnown(k) ==> s3.next.states[k] == Running && s3.next.workers.Get(k).handle.Some?
  {
    var s1 := StartStep(reg, CPU, None);
    var s2 := StartStep(s1.next, Memory, None);
    var s3 := StartStep(s2.next, IO, None);
    StartStepRuns(reg, CPU, None);
    StartStepRuns(s1.next, Memory, None);
    StartStepRuns(s2.next, IO, None);
    assert s3.next.states == reg.states[CPU := Running][Memory := Running][IO := Running];
    assert KindOk(s3.next, CPU) && KindOk(s3.next, Memory) && KindOk(s3.next, IO);
  }

  /** `start` with no metric leaves every kind running, whatever its state
      was, and changes no stored setting. */
  lemma StartAllRunsEverything(reg: Registry, persist: MetricsConfig -> StoreOutcome)
    requires RegistryOk(reg)
    ensures var r := Dispatch(reg, ForEachKind(Start, None, None), persist);
      && r.Ok? && |r.value.replies| == 3
      && r.value.next.config == reg.config
      && forall k :: IsKnown(k) ==> r.value.next.states[k] == Running && r.value.next.workers.Get(k).handle.Some?
  {
    var c1, c2, c3 := CliCommand(Start, Some(CPU), None, None, None),
      CliCommand(Start, Some(Memory), None, None, None), CliCommand(Start, Some(IO), None, None, None);
    assert ForEachKind(Start, None, None) == [c1, c2, c3];
    DispatchThree(reg, c1, c2, c3, persist);
    StartEachKind(reg);
  }

  /** A batch of `list` and `store` commands changes nothing. */
  lemma {:induction false} QueriesChangeNothing(reg: Registry, cmds: seq<CliCommand>, persist: MetricsConfig -> StoreOutcome)
    requires RegistryOk(reg)
    requires forall i :: 0 <= i < |cmds| ==> cmds[i].cmd in {List, Store, NoCommand}
    ensures Dispatch(reg, cmds, persist).Ok? ==> Dispatch(reg, cmds, persist).value.next == reg
  {
    if cmds != [] {
      QueriesChangeNothing(reg, cmds[..|cmds| - 1], persist);
    }
  }

  /** `launch_metrics` on one kind: a kind that is not `Disabled` gets a
      task with its stored rate and becomes `Running`. */
  function LaunchOne(reg: Registry, k: MetricType): (r: Registry)
    requires RegistryOk(reg) && IsKnown(k)
    ensures RegistryOk(r)
    ensures r.config == reg.config
    ensures reg.states[k] == Disabled ==> r == reg
    ensures reg.states[k] != Disabled ==>
      && r.states == reg.states[k := Running]
      && r.workers == reg.workers.With(k, Worker(Some(TaskHandle(reg.config.GetRefreshRate(k))), reg.workers.Get(k).pending))
  {
    KnownKindOk(reg, k);
    if reg.states[k] != Disabled then
      var w := reg.workers.Get(k).(handle := Some(TaskHandle(reg.config.GetRefreshRate(k))));
      reg.(states := reg.states[k := Running], workers := reg.workers.With(k, w))
    else reg
  }

  /** The registry after `launch_metrics` has handled the first `n` kinds. */
  function Launched(reg: Registry, n: nat): (r: Registry)
    requires RegistryOk(reg) && n <= 3
    ensures RegistryOk(r) && r.config == reg.config
  {
    if n == 0 then reg else LaunchOne(Launched(reg, n - 1), MetricTypes()[n - 1])
  }

  /** After `launch_metrics` every kind that was not `Disabled` runs a task
      with its stored rate, and the `Disabled` ones are untouched. */
  lemma LaunchStartsEveryEnabledKind(reg: Registry)
    requires RegistryOk(reg)
    ensures var r := Launched(reg, 3);
      forall k :: IsKnown(k) ==>
        if reg.states[k] == Disabled then
          r.states[k] == Disabled && r.workers.Get(k) == reg.workers.Get(k)
        else
          r.states[k] == Running && r.workers.Get(k).handle == Some(TaskHandle(reg.config.GetRefreshRate(k)))
  {
    var r1 := LaunchOne(reg, CPU);
    assert Launched(reg, 1) == r1;
    var r2 := LaunchOne(r1, Memory);
    assert Launched(reg, 2) == r2;
    var r3 := LaunchOne(r2, IO);
    assert Launched(reg, 3) == r3;
    forall k | IsKnown(k)
      ensures reg.states[k] == Disabled ==> r3.states[k] == Disabled && r3.workers.Get(k) == reg.workers.Get(k)
      ensures reg.states[k] != Disabled ==>
        r3.states[k] == Running && r3.workers.Get(k).handle == Some(TaskHandle(reg.config.GetRefreshRate(k)))
    {
      if k == CPU {
        assert r3.workers.Get(k) == r1.workers.Get(k) && r3.states[k] == r1.states[k];
      } else if k == Memory {
        assert r3.workers.Get(k) == r2.workers.Get(k) && r3.states[k] == r2.states[k];
      }
    }
  }

  // ----- The daemon -----

  function Snapshot(m: Metric): Worker
    reads m
  {
    Worker(m.handle, m.pending)
  }

  /** `LinuxKernelMonitor`: the settings and states, and one worker per kind in
      registry order. The logger and the command server are not modelled. */
  class LinuxKernelMonitor {
    const config: MonitorConfig
    const metrics: seq<Metric>

    /** The registry the fields amount to. */
    ghost function View(): Registry
      requires |metrics| == 3
      reads config, metrics
    {
      Registry(config.metricsConfig, config.states,
        Workers(Snapshot(metrics[0]), Snapshot(metrics[1]), Snapshot(metrics[2])))
    }

    ghost predicate Valid()
      reads this, config, metrics
    {
      && |metrics| == 3
      && metrics[0].metricType == CPU && metrics[1].metricType == Memory && metrics[2].metricType == IO
      && config.Valid()
      && RegistryOk(View())
    }

    /** The worker of a known kind. */
    function MetricOf(k: MetricType): (m: Metric)
      requires |metrics| == 3 && IsKnown(k)
      ensures m == metrics[KindIndex(k)]
    {
      metrics[KindIndex(k)]
    }

    /** The worker at position `i` is the one of kind `k` exactly when `i` is
        the kind's place in registry order. */
    lemma WorkerAt(i: nat, k: MetricType)
      requires Valid() && i < 3 && IsKnown(k)
      ensures metrics[i].metricType == k <==> i == KindIndex(k)
    {
    }

    /** `init`, given what reading the settings file gave. */
    constructor (loaded: Option<MetricsConfig>)
      ensures Valid()
      ensures View() == InitialRegistry(loaded.GetOr(DefaultMetricsConfig()))
      ensures fresh(config) && fresh(metrics[0]) && fresh(metrics[1]) && fresh(metrics[2])
    {
      var c := new MonitorConfig(loaded);
      var ms: seq<Metric> := [];
      var kinds := MetricTypes();
      for i := 0 to |kinds|
        invariant |ms| == i
        invariant forall j :: 0 <= j < i ==> ms[j].metricType == kinds[j] && fresh(ms[j])
        invariant forall j :: 0 <= j < i ==> ms[j].handle == None && ms[j].pending == []
        invariant c.metricsConfig == loaded.GetOr(DefaultMetricsConfig())
        invariant c.states.Keys == {CPU, Memory, IO}
        invariant forall k :: k in c.states ==> c.states[k] == InitialState(c.metricsConfig, k)
      {
        var k := kinds[i];
        var m := new Metric(k);
        if c.GetState(k) != Disabled {
          c.SetState(k, Initialized);
        }
        ms := ms + [m];
      }
      config := c;
      metrics := ms;
      new;
      InitialStates(c.metricsConfig, c.states);
    }

    /** `launch_metrics`: a task for every kind that is not `Disabled`, with
        its stored rate. */
    method LaunchMetrics()
      requires Valid()
      modifies config, metrics
      ensures Valid()
      ensures View() == Launched(old(View()), 3)
    {
      for i := 0 to |metrics|
        invariant Valid()
        invariant View() == Launched(old(View()), i)
      {
        var k := metrics[i].metricType;
        assert k == MetricTypes()[i];
        LaunchKind(k);
      }
    }

    /** The body of `launch_metrics`' loop. */
    method LaunchKind(k: MetricType)
      requires Valid() && IsKnown(k)
      modifies config, MetricOf(k)
      ensures Valid()
      ensures View() == LaunchOne(old(View()), k)
    {
      var m := MetricOf(k);
      if config.GetState(k) != Disabled {
        var _ := m.Start(config.GetRefreshRate(k));
        config.SetState(k, Running);
      }
    }

    /** `start_metric`: the loop finds the kind's worker; the state read before
        the loop decides what happens to it. */
    method StartMetric(c: CliCommand) returns (reply: string)
      requires Valid()
      requires c.metricType.Some? && IsKnown(c.metricType.value)
      modifies config, metrics
      ensures Valid()
      ensures View() == StartStep(old(View()), c.metricType.value, c.refreshRate).next
      ensures reply == StartStep(old(View()), c.metricType.value, c.refreshRate).reply
    {
      reply := "";
      var refreshRate := c.refreshRate;
      var k := c.metricType.value;
      var state := config.GetState(k);
      ghost var s := StartStep(View(), k, refreshRate);
      ghost var reg0 := View();
      ghost var at := KindIndex(k);
      for i := 0 to |metrics|
        invariant Valid()
        invariant i <= at ==> View() == reg0 && reply == ""
        invariant i > at ==> View() == s.next && reply == s.reply
      {
        WorkerAt(i, k);
        if metrics[i].metricType == k {
          reply := StartOne(k, state, refreshRate);
        }
      }
    }

    /** The body of `start_metric`'s loop for the kind's own worker. */
    method StartOne(k: MetricType, state: MetricState, refreshRate: Option<u8>) returns (reply: string)
      requires Valid() && IsKnown(k) && k in config.states && state == config.states[k]
      modifies config, MetricOf(k)
      ensures Valid()
      ensures View() == StartStep(old(View()), k, refreshRate).next
      ensures reply == StartStep(old(View()), k, refreshRate).reply
    {
      if state == Running {
        reply := StartRunning(k, refreshRate);
      } else {
        reply := StartIdle(k, refreshRate);
      }
    }

    /** `start_metric` on a running kind: only a different rate is sent. */
    method StartRunning(k: MetricType, refreshRate: Option<u8>) returns (reply: string)
      requires Valid() && IsKnown(k) && k in config.states && config.states[k] == Running
      modifies config, MetricOf(k)
      ensures Valid()
      ensures View() == StartStep(old(View()), k, refreshRate).next
      ensures reply == StartStep(old(View()), k, refreshRate).reply
    {
      ghost var s := StartStep(View(), k, refreshRate);
      var m := MetricOf(k);
      if refreshRate.Some? {
        if config.GetRefreshRate(k) != refreshRate.value {
          m.SetRefreshRate(refreshRate.value);
          reply := RateSetReply(m.metricType, refreshRate.value);
        } else {
          reply := AlreadyRunningWithRateReply(k, config.GetRefreshRate(k));
        }
      } else {
        reply := AlreadyRunningReply(k);
      }
      config.SetState(k, Running);
      assert View() == s.next;
    }

    /** `start_metric` on a kind that is not running: a task is spawned. */
    method StartIdle(k: MetricType, refreshRate: Option<u8>) returns (reply: string)
      requires Valid() && IsKnown(k) && k in config.states && config.states[k] != Running
      modifies config, MetricOf(k)
      ensures Valid()
      ensures View() == StartStep(old(View()), k, refreshRate).next
      ensures reply == StartStep(old(View()), k, refreshRate).reply
    {
      ghost var s := StartStep(View(), k, refreshRate);
      var m := MetricOf(k);
      if refreshRate.Some? {
        reply := m.Start(refreshRate.value);
        config.SetState(k, Running);
      } else {
        reply := m.Start(config.GetRefreshRate(k));
      }
      config.SetState(k, Running);
      assert View() == s.next;
    }

    /** `stop_metric`. The fallback reply for an empty result cannot be reached
        for a known kind: every branch of the loop sets a reply. */
    method StopMetric(c: CliCommand) returns (reply: string)
      requires Valid()
      requires c.metricType.Some? && IsKnown(c.metricType.value)
      modifies config, metrics
      ensures Valid()
      ensures View() == StopStep(old(View()), c.metricType.value).next
      ensures reply == StopStep(old(View()), c.metricType.value).reply
    {
      reply := "";
      var k := c.metricType.value;
      var state := config.GetState(k);
      ghost var s := StopStep(View(), k);
      ghost var reg0 := View();
      ghost var at := KindIndex(k);
      for i := 0 to |metrics|
        invariant Valid()
        invariant i <= at ==> View() == reg0 && reply == ""
        invariant i > at ==> View() == s.next && reply == s.reply
      {
        WorkerAt(i, k);
        if metrics[i].metricType == k {
          reply := StopOne(k, state);
        }
      }
    }

    /** The body of `stop_metric`'s loop for the kind's own worker. */
    method StopOne(k: MetricType, state: MetricState) returns (reply: string)
      requires Valid() && IsKnown(k) && k in config.states && state == config.states[k]
      modifies config, MetricOf(k)
      ensures Valid()
      ensures View() == StopStep(old(View()), k).next
      ensures reply == StopStep(old(View()), k).reply
    {
      var m := MetricOf(k);
      if state == Running {
        KnownKindOk(View(), k);
        reply := m.Stop();
        config.SetState(k, Stopped);
      } else if state == Stopped {
        reply := AlreadyStoppedReply(k);
      } else {
        reply := DisabledReply(k);
      }
    }

    /** `metric_info`: reads the registry and changes nothing. */
    method MetricInfo(c: CliCommand) returns (reply: string)
      requires Valid()
      requires c.state.Some? || (c.metricType.Some? && IsKnown(c.metricType.value))
      ensures reply == InfoReply(View(), c.state, c.metricType)
    {
      ghost var reg := View();
      reply := "";
      if c.state.Some? {
        var st := c.state.value;
        reply := LinesInState(st);
        if reply == "" {
          reply := NoMetricsReply(st);
        }
      } else {
        var k := c.metricType.value;
        KnownKindOk(reg, k);
        reply := reply + StateLine(k, config.GetState(k), config.GetRefreshRate(k));
      }
    }

    /** The loop of `metric_info` over the kinds, keeping those in `st`. */
    method LinesInState(st: MetricState) returns (reply: string)
      requires Valid()
      ensures reply == InfoLines(View(), KindsInState(View(), st, 3))
    {
      ghost var reg := View();
      var states := config.states;
      var settings := config.metricsConfig;
      reply := "";
      var kinds := MetricTypes();
      for i := 0 to |kinds|
        invariant reply == LinesUpTo(reg, st, i)
      {
        var k := kinds[i];
        KnownKindOk(reg, k);
        if states[k] == st {
          reply := reply + StateLine(k, states[k], settings.GetRefreshRate(k));
        }
      }
      LinesUpToIsInfoLines(reg, st, 3);
    }

    /** `set_config`. */
    method SetConfig(c: CliCommand) returns (reply: string)
      requires Valid()
      requires c.metricType.Some? && IsKnown(c.metricType.value)
      modifies config, metrics
      ensures Valid()
      ensures View() == SetStep(old(View()), c.metricType.value, c.refreshRate, c.enabled).next
      ensures reply == SetStep(old(View()), c.metricType.value, c.refreshRate, c.enabled).reply
    {
      reply := "";
      var k := c.metricType.value;
      var state := config.GetState(k);
      var refreshRate := c.refreshRate;
      var enabled := c.enabled;
      ghost var s := SetStep(View(), k, refreshRate, enabled);
      ghost var reg0 := View();
      ghost var at := KindIndex(k);
      for i := 0 to |metrics|
        invariant Valid()
        invariant i <= at ==> View() == reg0 && reply == ""
        invariant i > at ==> View() == s.next && reply == s.reply
      {
        WorkerAt(i, k);
        if metrics[i].metricType == k {
          reply := SetOne(k, state, refreshRate, enabled);
        }
      }
    }

    /** The body of `set_config`'s loop for the kind's own worker. */
    method SetOne(k: MetricType, state: MetricState, refreshRate: Option<u8>, enabled: Option<bool>) returns (reply: string)
      requires Valid() && IsKnown(k) && k in config.states && state == config.states[k]
      modifies config, MetricOf(k)
      ensures Valid()
      ensures View() == SetStep(old(View()), k, refreshRate, enabled).next
      ensures reply == SetStep(old(View()), k, refreshRate, enabled).reply
    {
      ghost var reg := View();
      ghost var first := if enabled.Some? then EnabledStep(reg, k, enabled.value) else Step(reg, "");
      var enabledPart := SetEnabledOne(k, state, enabled);
      assert View() == first.next && enabledPart == first.reply;
      ghost var second := if refreshRate.Some? then RateStep(first.next, k, state == Running, refreshRate.value) else Step(first.next, "");
      var ratePart := SetRateOne(k, state, refreshRate);
      assert View() == second.next && ratePart == second.reply;
      reply := enabledPart + ratePart;
    }

    /** The `enabled` half of `set_config`'s loop body: what it appends to
        the reply. */
    method SetEnabledOne(k: MetricType, state: MetricState, enabled: Option<bool>) returns (reply: string)
      requires Valid() && IsKnown(k) && k in config.states && state == config.states[k]
      modifies config, MetricOf(k)
      ensures Valid()
      ensures enabled.None? ==> View() == old(View()) && reply == ""
      ensures enabled.Some? ==>
        && View() == EnabledStep(old(View()), k, enabled.value).next
        && reply == EnabledStep(old(View()), k, enabled.value).reply
    {
      if enabled.None? {
        return "";
      }
      var current := config.GetEnabled(k);
      if enabled.value != current {
        reply := ChangeEnabled(k, state, enabled.value);
      } else {
        reply := EnabledAlreadyReply(k, current);
      }
    }

    /** A new `enabled` value: stored, and the task stopped or started as the
        state read before the loop requires. */
    method ChangeEnabled(k: MetricType, state: MetricState, enabled: bool) returns (reply: string)
      requires Valid() && IsKnown(k) && k in config.states && state == config.states[k]
      requires enabled != config.GetEnabled(k)
      modifies config, MetricOf(k)
      ensures Valid()
      ensures View() == EnabledStep(old(View()), k, enabled).next
      ensures reply == EnabledStep(old(View()), k, enabled).reply
    {
      if state == Running && enabled == false {
        reply := DisableRunning(k);
      } else if state == Disabled && enabled == true {
        reply := EnableDisabled(k);
      } else {
        ghost var s := EnabledStep(View(), k, enabled);
        config.SetEnabled(k, enabled);
        reply := EnabledSetReply(k, enabled);
        assert View() == s.next;
      }
    }

    /** Turning a running kind off: the flag is stored, the task stopped and
        joined, and the kind disabled. */
    method DisableRunning(k: MetricType) returns (reply: string)
      requires Valid() && IsKnown(k) && k in config.states && config.states[k] == Running
      requires config.GetEnabled(k)
      modifies config, MetricOf(k)
      ensures Valid()
      ensures View() == EnabledStep(old(View()), k, false).next
      ensures reply == EnabledStep(old(View()), k, false).reply
    {
      ghost var s := EnabledStep(View(), k, false);
      KnownKindOk(View(), k);
      var m := MetricOf(k);
      config.SetEnabled(k, false);
      var stopped := m.Stop();
      reply := EnabledSetReply(k, false) + stopped;
      config.SetState(k, Disabled);
      assert View() == s.next;
    }

    /** Turning a disabled kind on: the flag is stored and a task started with
        the stored rate. */
    method EnableDisabled(k: MetricType) returns (reply: string)
      requires Valid() && IsKnown(k) && k in config.states && config.states[k] == Disabled
      requires !config.GetEnabled(k)
      modifies config, MetricOf(k)
      ensures Valid()
      ensures View() == EnabledStep(old(View()), k, true).next
      ensures reply == EnabledStep(old(View()), k, true).reply
    {
      ghost var s := EnabledStep(View(), k, true);
      var m := MetricOf(k);
      config.SetEnabled(k, true);
      var started := m.Start(config.GetRefreshRate(k));
      reply := EnabledSetReply(k, true) + started;
      config.SetState(k, Running);
      assert View() == s.next;
    }

    /** The `rate` half of `set_config`'s loop body, judged by the state read
        before the loop: what it appends to the reply. */
    method SetRateOne(k: MetricType, state: MetricState, refreshRate: Option<u8>) returns (reply: string)
      requires Valid() && IsKnown(k)
      modifies config, MetricOf(k)
      ensures Valid()
      ensures refreshRate.None? ==> View() == old(View()) && reply == ""
      ensures refreshRate.Some? ==>
        && View() == RateStep(old(View()), k, state == Running, refreshRate.value).next
        && reply == RateStep(old(View()), k, state == Running, refreshRate.value).reply
    {
      if refreshRate.None? {
        return "";
      }
      ghost var s := RateStep(View(), k, state == Running, refreshRate.value);
      var m := MetricOf(k);
      var current := config.GetRefreshRate(k);
      if current != refreshRate.value {
        config.SetRefreshRate(k, refreshRate.value);
        if state == Running {
          m.SetRefreshRate(refreshRate.value);
        }
        reply := RateSetReply(k, refreshRate.value);
        assert View() == s.next;
      } else {
        reply := RateAlreadyReply(k, current);
      }
    }

    /** `store_config`, given the outcome of writing the file. */
    method StoreConfig(persist: MetricsConfig -> StoreOutcome) returns (reply: string)
      requires Valid()
      ensures reply == StoreReply(persist(View().config))
    {
      reply := StoreReply(persist(config.GetConfig()));
    }

    /** `handle_cli_commands`: one reply per command that is not `None`. */
    method HandleCliCommands(cmds: seq<CliCommand>, persist: MetricsConfig -> StoreOutcome)
      returns (r: Result<seq<string>>)
      requires Valid()
      modifies config, metrics
      ensures Valid()
      ensures var d := Dispatch(old(View()), cmds, persist);
        && (r.Ok? <==> d.Ok?)
        && (d.Ok? ==> r.value == d.value.replies && View() == d.value.next)
    {
      var results: seq<string> := [];
      for i := 0 to |cmds|
        invariant Valid()
        invariant Dispatch(old(View()), cmds[..i], persist) == Ok(Batch(View(), results))
      {
        var c := cmds[i];
        TakeSnoc(cmds, i);
        if !Dispatchable(c) {
          DispatchOkIff(old(View()), cmds, persist);
          return Panic(UnwrapNone);
        }
        if c.cmd != NoCommand {
          DispatchSnoc(old(View()), cmds[..i], c, persist);
        }
        match c.cmd {
          case Start =>
            var reply := StartMetric(c);
            results := results + [reply];
          case Stop =>
            var reply := StopMetric(c);
            results := results + [reply];
          case List =>
            var reply := MetricInfo(c);
            results := results + [reply];
          case Set =>
            var reply := SetConfig(c);
            results := results + [reply];
          case Store =>
            var reply := StoreConfig(persist);
            results := results + [reply];
          case NoCommand =>
        }
      }
      TakeTake(cmds, 0, |cmds|);
      r := Ok(results);
    }
  }
}
