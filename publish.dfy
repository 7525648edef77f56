/**
 * One poll cycle (main.go:64-85): fetch the statistics snapshot, and for
 * every output plugin whose type is not "null" emit three gauges tagged with
 * the node, cluster, plugin id and plugin type.
 */
module Publish {
  import opened Wrappers
  import opened Stats
  import opened Tagging

  /** One call of the metrics client's Gauge: metric name, value, tags and sample rate. */
  datatype Gauge = Gauge(name: string, value: Float64, tags: seq<string>, rate: real)

  /** The gauge names, in the order a plugin's gauges are emitted. */
  const GaugeNames: seq<string> := ["buffer_queue_len", "buffer_total_queued_size", "retry_count"]

  /** Every gauge is sent unsampled. */
  const SampleRate: real := 1.0

  /** The counter a plugin reports under `GaugeNames[j]`. */
  function Counter(p: PluginStat, j: nat): Float64
    requires j < 3
  {
    if j == 0 then p.bufferQueueLen
    else if j == 1 then p.bufferTotalQueueSize
    else p.retryCount
  }

  /** Only output plugins of a type other than "null" are reported. */
  predicate Qualifies(p: PluginStat) {
    p.outputPlugin && p.pluginType != "null"
  }

  /** The gauges one plugin yields: three if it qualifies, none otherwise. */
  function PluginGauges(c: Config, p: PluginStat): (gs: seq<Gauge>)
    ensures |gs| == if Qualifies(p) then 3 else 0
  {
    if Qualifies(p) then
      var tags := Tags(c, p);
      [Gauge("buffer_queue_len", p.bufferQueueLen, tags, 1.0),
       Gauge("buffer_total_queued_size", p.bufferTotalQueueSize, tags, 1.0),
       Gauge("retry_count", p.retryCount, tags, 1.0)]
    else []
  }

  /** The qualifying plugins of a snapshot, in snapshot order. */
  function Qualifying(ps: seq<PluginStat>): (qs: seq<PluginStat>)
    ensures |qs| <= |ps|
    ensures forall p :: p in qs <==> p in ps && Qualifies(p)
  {
    if ps == [] then []
    else
      var init, last := ps[..|ps| - 1], ps[|ps| - 1];
      assert ps == init + [last];
      Qualifying(init) + if Qualifies(last) then [last] else []
  }

  /** The plugins of a snapshot that are skipped, in snapshot order. */
  function Filtered(ps: seq<PluginStat>): (fs: seq<PluginStat>)
    ensures forall p :: p in fs <==> p in ps && !Qualifies(p)
  {
    if ps == [] then []
    else
      var init, last := ps[..|ps| - 1], ps[|ps| - 1];
      assert ps == init + [last];
      Filtered(init) + if Qualifies(last) then [] else [last]
  }

  /** Every plugin is either reported or skipped: nothing is lost and nothing counted twice. */
  lemma {:induction false} Partition(ps: seq<PluginStat>)
    ensures |Qualifying(ps)| + |Filtered(ps)| == |ps|
  {
    if ps != [] {
      Partition(ps[..|ps| - 1]);
    }
  }

  /**
   * The gauges emitted for the plugins `ps`, processed first to last; the
   * specification of the publishing loop. Three per qualifying plugin.
   */
  function Emissions(c: Config, ps: seq<PluginStat>): (gs: seq<Gauge>)
    ensures |gs| == 3 * |Qualifying(ps)|
  {
    if ps == [] then []
    else Emissions(c, ps[..|ps| - 1]) + PluginGauges(c, ps[|ps| - 1])
  }

  /** The outcome of one poll cycle: the gauges sent and the error returned (None for nil). */
  datatype CycleOutcome = CycleOutcome(emitted: seq<Gauge>, err: Option<Error>)

  /**
   * One poll cycle given the fetch result: a failed fetch is returned as the
   * error with nothing sent; a snapshot is published in full and nil returned.
   */
  function Cycle(c: Config, fetched: Result<FluentStats, Error>): (r: CycleOutcome)
    ensures r.err.Some? <==> fetched.Failure?
    ensures fetched.Failure? ==> r.err.value == fetched.error && r.emitted == []
    ensures fetched.Success? ==> |r.emitted| == 3 * |Qualifying(fetched.value.plugins)|
  {
    match fetched
    case Failure(e) => CycleOutcome([], Some(e))
    case Success(fs) => CycleOutcome(Emissions(c, fs.plugins), None)
  }

  /**
   * publishMetrics: fetch `<base>/api/plugins.json` and send the gauges of
   * every qualifying plugin, in snapshot order. `emitted` is the sequence of
   * Gauge calls made on the metrics client.
   */
  method PublishMetrics(c: Config, server: Server) returns (emitted: seq<Gauge>, err: Option<Error>)
    ensures CycleOutcome(emitted, err) == Cycle(c, GetMetrics(server, PluginsUrl(c.fluentUrl)))
  {
    var fetched := GetMetrics(server, PluginsUrl(c.fluentUrl));
    if fetched.Failure? {
      return [], Some(fetched.error);
    }
    var plugins := fetched.value.plugins;
    emitted := [];
    for i := 0 to |plugins|
      invariant emitted == Emissions(c, plugins[..i])
    {
      var p := plugins[i];
      var tags := Tags(c, p);
      if p.outputPlugin && p.pluginType != "null" {
        emitted := emitted + [Gauge("buffer_queue_len", p.bufferQueueLen, tags, 1.0)];
        emitted := emitted + [Gauge("buffer_total_queued_size", p.bufferTotalQueueSize, tags, 1.0)];
        emitted := emitted + [Gauge("retry_count", p.retryCount, tags, 1.0)];
      }
      assert plugins[..i + 1][..i] == plugins[..i];
    }
    assert plugins[..|plugins|] == plugins;
    return emitted, None;
  }

  /** Publishing two runs of plugins one after the other emits their gauges one after the other. */
  lemma {:induction false} EmissionsAppend(c: Config, ps: seq<PluginStat>, qs: seq<PluginStat>)
    ensures Emissions(c, ps + qs) == Emissions(c, ps) + Emissions(c, qs)
  {
    if qs == [] {
      assert ps + qs == ps;
    } else {
      var init, last := qs[..|qs| - 1], qs[|qs| - 1];
      assert (ps + qs)[..|ps + qs| - 1] == ps + init;
      EmissionsAppend(c, ps, init);
    }
  }

  /** Filtering two runs of plugins one after the other keeps their qualifying plugins one after the other. */
  lemma {:induction false} QualifyingAppend(ps: seq<PluginStat>, qs: seq<PluginStat>)
    ensures Qualifying(ps + qs) == Qualifying(ps) + Qualifying(qs)
  {
    if qs == [] {
      assert ps + qs == ps;
    } else {
      var init, last := qs[..|qs| - 1], qs[|qs| - 1];
      assert (ps + qs)[..|ps + qs| - 1] == ps + init;
      QualifyingAppend(ps, init);
    }
  }

  /**
   * Gauge `3 * k + j` is gauge number `j` of the `k`-th qualifying plugin:
   * it carries that gauge's name, that plugin's matching counter, that
   * plugin's four tags and sample rate 1.
   */
  lemma {:induction false} EmissionAt(c: Config, ps: seq<PluginStat>, k: nat, j: nat)
    requires k < |Qualifying(ps)| && j < 3
    ensures 3 * k + j < |Emissions(c, ps)|
    ensures var q := Qualifying(ps)[k];
      Emissions(c, ps)[3 * k + j] == Gauge(GaugeNames[j], Counter(q, j), Tags(c, q), SampleRate)
  {
    var init, last := ps[..|ps| - 1], ps[|ps| - 1];
    assert Emissions(c, ps) == Emissions(c, init) + PluginGauges(c, last);
    if k < |Qualifying(init)| {
      EmissionAt(c, init, k, j);
    } else {
      assert Qualifies(last) && Qualifying(ps)[k] == last;
    }
  }

  /**
   * Every emitted gauge is one of the three named gauges, is unsampled, and
   * carries the four tags of a plugin of the snapshot that qualifies.
   */
  lemma {:induction false} EmissionsFromQualifying(c: Config, ps: seq<PluginStat>)
    ensures forall g :: g in Emissions(c, ps) ==>
      g.name in GaugeNames && g.rate == SampleRate && |g.tags| == 4 &&
      exists p :: p in ps && Qualifies(p) && g.tags == Tags(c, p)
  {
    var gs := Emissions(c, ps);
    forall n | 0 <= n < |gs|
      ensures gs[n].name in GaugeNames && gs[n].rate == SampleRate && |gs[n].tags| == 4
      ensures exists p :: p in ps && Qualifies(p) && gs[n].tags == Tags(c, p)
    {
      var k, j := n / 3, n % 3;
      EmissionAt(c, ps, k, j);
      var q := Qualifying(ps)[k];
      assert q in Qualifying(ps);
    }
  }

  /** A plugin that does not qualify changes nothing, wherever it stands in the snapshot. */
  lemma NonQualifyingSilent(c: Config, ps: seq<PluginStat>, p: PluginStat, qs: seq<PluginStat>)
    requires !Qualifies(p)
    ensures Emissions(c, ps + [p] + qs) == Emissions(c, ps + qs)
  {
    SinglePlugin(c, p);
    EmissionsAppend(c, ps + [p], qs);
    EmissionsAppend(c, ps, [p]);
    EmissionsAppend(c, ps, qs);
    assert Emissions(c, ps + [p]) == Emissions(c, ps);
  }

  /**
   * A snapshot made of one plugin emits its three counters, in order,
   * when it qualifies, and nothing when it does not.
   */
  lemma SinglePlugin(c: Config, p: PluginStat)
    ensures Qualifies(p) ==>
      (Emissions(c, [p]) ==
       [Gauge("buffer_queue_len", p.bufferQueueLen, Tags(c, p), SampleRate),
        Gauge("buffer_total_queued_size", p.bufferTotalQueueSize, Tags(c, p), SampleRate),
        Gauge("retry_count", p.retryCount, Tags(c, p), SampleRate)])
    ensures !Qualifies(p) ==> Emissions(c, [p]) == []
  {
  }

  /**
   * The fetch's transport or read failure is what the cycle returns, and
   * nothing is sent; a body that is not JSON leaves the zero snapshot behind,
   * whose cycle sends nothing and returns nil.
   */
  lemma CycleErrors(c: Config, server: Server, e: Error)
    ensures var x := server(PluginsUrl(c.fluentUrl));
      !x.Delivered? ==> Cycle(c, GetMetrics(server, PluginsUrl(c.fluentUrl))) == CycleOutcome([], Some(x.err))
    ensures var x := server(PluginsUrl(c.fluentUrl));
      x == Delivered(ZeroStats, Some(e)) ==> Cycle(c, GetMetrics(server, PluginsUrl(c.fluentUrl))) == CycleOutcome([], None)
  {
  }

  /**
   * The worked example: plugin "out1" of type "file" with queue length 5,
   * queued size 1024 and retry count 2 yields exactly these three gauges.
   */
  lemma WorkedExample(c: Config)
    ensures var p := PluginStat("out1", "file", true,
                                Float64(0x4014_0000_0000_0000),   // 5.0
                                Float64(0x4090_0000_0000_0000),   // 1024.0
                                Float64(0x4000_0000_0000_0000));  // 2.0
      var tags := ["nodename:" + c.hostname, "kube_cluster:" + c.clusterName,
                   "plugin_id:out1", "plugin_type:file"];
      Cycle(c, Success(FluentStats([p]))) == CycleOutcome(
        [Gauge("buffer_queue_len", Float64(0x4014_0000_0000_0000), tags, 1.0),
         Gauge("buffer_total_queued_size", Float64(0x4090_0000_0000_0000), tags, 1.0),
         Gauge("retry_count", Float64(0x4000_0000_0000_0000), tags, 1.0)],
        None)
  {
    var p := PluginStat("out1", "file", true,
                        Float64(0x4014_0000_0000_0000),
                        Float64(0x4090_0000_0000_0000),
                        Float64(0x4000_0000_0000_0000));
    assert Qualifies(p);
    assert "plugin_id:" + "out1" == "plugin_id:out1";
    assert "plugin_type:" + "file" == "plugin_type:file";
    SinglePlugin(c, p);
    assert Tags(c, p) == ["nodename:" + c.hostname, "kube_cluster:" + c.clusterName,
                          "plugin_id:out1", "plugin_type:file"];
  }
}
