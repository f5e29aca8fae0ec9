/** The per-kind settings and the state registry (src/config.rs). */
module Config {
  import opened Wrappers
  import opened Text
  import opened Metric

  /** `CpuConfig`, `MemoryConfig` and `IOConfig`: the three structs have the
      same fields and the same behaviour, so one datatype stands for all. */
  datatype KindConfig = KindConfig(enabled: bool, refreshRate: u8)

  /** The `Default` of each of the three per-kind structs. */
  function DefaultKindConfig(): (c: KindConfig)
    ensures c.enabled && c.refreshRate == 1
  {
    KindConfig(true, 1)
  }

  /** `MetricsConfig`: a copyable value, updated by the setters below, which
      return the updated value. */
  datatype MetricsConfig = MetricsConfig(cpuConfig: KindConfig, memoryConfig: KindConfig, ioConfig: KindConfig) {

    function GetRefreshRate(k: MetricType): (r: u8)
      ensures k == NoMetric ==> r == 0
    {
      match k
      case CPU => cpuConfig.refreshRate
      case Memory => memoryConfig.refreshRate
      case IO => ioConfig.refreshRate
      case NoMetric => 0
    }

    function GetEnabled(k: MetricType): (e: bool)
      ensures k == NoMetric ==> !e
    {
      match k
      case CPU => cpuConfig.enabled
      case Memory => memoryConfig.enabled
      case IO => ioConfig.enabled
      case NoMetric => false
    }

    /** Only `k`'s rate changes; `NoMetric` changes nothing. */
    function SetRefreshRate(k: MetricType, refreshRate: u8): (c: MetricsConfig)
      ensures IsKnown(k) ==> c.GetRefreshRate(k) == refreshRate
      ensures forall k' :: k' != k ==> c.GetRefreshRate(k') == GetRefreshRate(k')
      ensures forall k' :: c.GetEnabled(k') == GetEnabled(k')
      ensures k == NoMetric ==> c == this
    {
      match k
      case CPU => this.(cpuConfig := cpuConfig.(refreshRate := refreshRate))
      case Memory => this.(memoryConfig := memoryConfig.(refreshRate := refreshRate))
      case IO => this.(ioConfig := ioConfig.(refreshRate := refreshRate))
      case NoMetric => this
    }

    /** Only `k`'s enabled flag changes; `NoMetric` changes nothing. */
    function SetEnabled(k: MetricType, enabled: bool): (c: MetricsConfig)
      ensures IsKnown(k) ==> c.GetEnabled(k) == enabled
      ensures forall k' :: k' != k ==> c.GetEnabled(k') == GetEnabled(k')
      ensures forall k' :: c.GetRefreshRate(k') == GetRefreshRate(k')
      ensures k == NoMetric ==> c == this
    {
      match k
      case CPU => this.(cpuConfig := cpuConfig.(enabled := enabled))
      case Memory => this.(memoryConfig := memoryConfig.(enabled := enabled))
      case IO => this.(ioConfig := ioConfig.(enabled := enabled))
      case NoMetric => this
    }
  }

  /** `MetricsConfig::default()`, used when no configuration file is loaded. */
  function DefaultMetricsConfig(): (c: MetricsConfig)
    ensures forall k :: IsKnown(k) ==> c.GetEnabled(k) && c.GetRefreshRate(k) == 1
  {
    MetricsConfig(DefaultKindConfig(), DefaultKindConfig(), DefaultKindConfig())
  }

  /** The state a kind starts in: `Initialized` when enabled, else `Disabled`. */
  function InitialState(c: MetricsConfig, k: MetricType): MetricState {
    if c.GetEnabled(k) then Initialized else Disabled
  }

  /** `MonitorConfig`: the settings of every kind and the state of every kind. */
  class MonitorConfig {
    var metricsConfig: MetricsConfig
    var states: map<MetricType, MetricState>

    /** Every known kind has a state, so `get_state` on it never fails. */
    ghost predicate Valid()
      reads this
    {
      CPU in states && Memory in states && IO in states
    }

    /** `MonitorConfig::new` given what reading the configuration file gave:
        `None` when the file is missing or unreadable (the source then keeps
        the defaults). */
    constructor (loaded: Option<MetricsConfig>)
      ensures Valid()
      ensures metricsConfig == loaded.GetOr(DefaultMetricsConfig())
      ensures states.Keys == {CPU, Memory, IO}
      ensures forall k :: k in states ==> states[k] == InitialState(metricsConfig, k)
    {
      var initial := map[CPU := Initialized, Memory := Initialized, IO := Initialized];
      var config := DefaultMetricsConfig();
      if loaded.Some? {
        config := loaded.value;
      }
      var kinds := MetricTypes();
      for i := 0 to |kinds|
        invariant initial.Keys == {CPU, Memory, IO}
        invariant forall j :: 0 <= j < i ==> initial[kinds[j]] == InitialState(config, kinds[j])
      {
        if config.GetEnabled(kinds[i]) {
          initial := initial[kinds[i] := Initialized];
        } else {
          initial := initial[kinds[i] := Disabled];
        }
      }
      forall k | k in initial
        ensures initial[k] == InitialState(config, k)
      {
        assert k == kinds[KindIndex(k)];
      }
      metricsConfig := config;
      states := initial;
    }

    /** The stored settings (`get_config` lends a reference to them). */
    function GetConfig(): (c: MetricsConfig)
      reads this
      ensures forall k :: c.GetRefreshRate(k) == GetRefreshRate(k) && c.GetEnabled(k) == GetEnabled(k)
    {
      metricsConfig
    }

    /** Unwraps the map entry: `k` must have a state, which `Valid()`
        guarantees for every known kind. */
    function GetState(k: MetricType): (st: MetricState)
      reads this
      requires k in states
      ensures (k, st) in states.Items
    {
      states[k]
    }

    method SetState(k: MetricType, st: MetricState)
      modifies this
      ensures states == old(states)[k := st]
      ensures metricsConfig == old(metricsConfig)
    {
      states := states[k := st];
    }

    function GetRefreshRate(k: MetricType): (r: u8)
      reads this
      ensures r == metricsConfig.GetRefreshRate(k)
      ensures k == NoMetric ==> r == 0
    {
      metricsConfig.GetRefreshRate(k)
    }

    method SetRefreshRate(k: MetricType, refreshRate: u8)
      modifies this
      ensures metricsConfig == old(metricsConfig).SetRefreshRate(k, refreshRate)
      ensures states == old(states)
    {
      metricsConfig := metricsConfig.SetRefreshRate(k, refreshRate);
    }

    function GetEnabled(k: MetricType): (b: bool)
      reads this
      ensures b == metricsConfig.GetEnabled(k)
      ensures k == NoMetric ==> !b
    {
      metricsConfig.GetEnabled(k)
    }

    method SetEnabled(k: MetricType, enabled: bool)
      modifies this
      ensures metricsConfig == old(metricsConfig).SetEnabled(k, enabled)
      ensures states == old(states)
    {
      metricsConfig := metricsConfig.SetEnabled(k, enabled);
    }
  }
}
