/**
 * The ping collector of collector/ping.go: it runs `mco ping` against one
 * identity, reads the exit status and the first latency reading of the
 * output, and sends status, latency, duration and error samples.
 *
 * The subprocess is the function `exec` from the argument vector to the
 * captured standard output and whether the command ran without error; the
 * `path.mco` and `collector.ping.timeout` flags are the fields of a
 * ProbeConfig; the wall-clock duration of a pass is a given number.
 */
module Ping {
  import opened Metrics
  import opened Options
  import opened TimeParse
  import Collector

  /** The outcome of one probe: 1 for a successful command, and the latency in seconds. */
  datatype PingMetric = PingMetric(status: int, time: real)

  /** A ping collector bound to one identity, with its two descriptors. */
  datatype PingCollector = PingCollector(identity: string, status: Desc, time: Desc)

  /** What the subprocess reports: its standard output and whether it ran without error. */
  datatype ProbeRun = ProbeRun(stdout: string, ok: bool)

  /** The values of the `path.mco` and `collector.ping.timeout` flags. */
  datatype ProbeConfig = ProbeConfig(mcoPath: string, timeout: string)

  /** The error strconv.ParseFloat returns, carrying the text it rejected. */
  datatype ParseError = ParseError(text: string)

  /** Default of the `collector.ping.timeout` flag. */
  const DefaultTimeout: string := "1"

  /** The configuration the flags hold when none is given. */
  const DefaultConfig: ProbeConfig := ProbeConfig(Collector.DefaultMcoPath, DefaultTimeout)

  /**
   * The argument vector of the probe: the mco binary, the `ping`
   * subcommand, the timeout after `--timeout` and the identity after `-I`.
   */
  function ProbeCommand(cfg: ProbeConfig, identity: string): (argv: seq<string>)
    ensures |argv| == 6 && argv[0] == cfg.mcoPath && argv[1] == "ping"
    ensures argv[2] == "--timeout" && argv[3] == cfg.timeout
    ensures argv[4] == "-I" && argv[5] == identity
  {
    [cfg.mcoPath, "ping", "--timeout", cfg.timeout, "-I", identity]
  }

  /** The latency a reading contributes: the converted value, or 0 when none was found. */
  function TimeOf(reading: TimeReading): real {
    if reading.Reading? then reading.seconds else 0.0
  }

  /** The descriptors of a collector are two distinct ones, both unlabelled. */
  predicate OwnDescs(c: PingCollector) {
    c.status != c.time && c.status.labelNames == [] && c.time.labelNames == []
  }

  /** NewPingCollector: a collector bound to `identity`, with the ping status and seconds descriptors. */
  function NewPingCollector(identity: string): (c: PingCollector)
    ensures c.identity == identity
    ensures OwnDescs(c)
    ensures c.status.fqName == BuildFQName(Collector.Namespace, "ping", "status")
    ensures c.time.fqName == BuildFQName(Collector.Namespace, "ping", "seconds")
    ensures c.status.help == "mco ping status, 1=successful 0=not successful"
    ensures c.time.help == "mco ping time in seconds"
  {
    var c := PingCollector(identity,
      Desc(BuildFQName(Collector.Namespace, "ping", "status"),
           "mco ping status, 1=successful 0=not successful", []),
      Desc(BuildFQName(Collector.Namespace, "ping", "seconds"),
           "mco ping time in seconds", []));
    assert |c.status.help| != |c.time.help|;
    c
  }

  /** Two collectors built for any identities describe the same metric families. */
  lemma NewPingCollectorShape(a: string, b: string)
    ensures NewPingCollector(a).status == NewPingCollector(b).status
    ensures NewPingCollector(a).time == NewPingCollector(b).time
    ensures NewPingCollector(a) != NewPingCollector(b) <==> a != b
  {
  }

  /**
   * The collector's own descriptors differ from the shared ones, which
   * carry the `collector` label; the shared two differ from each other.
   */
  predicate DistinctFrom(c: PingCollector, shared: Collector.ExporterDescs) {
    && OwnDescs(c)
    && shared.collectError.labelNames == ["collector"]
    && shared.collectDuration.labelNames == ["collector"]
    && shared.collectDuration != shared.collectError
  }

  lemma PackageDescsDistinct(identity: string)
    ensures DistinctFrom(NewPingCollector(identity), Collector.Exporter)
  {
    Collector.ExporterDescsDistinct();
  }

  /** Describe: sends the status descriptor, then the time descriptor. */
  method Describe(c: PingCollector) returns (ch: seq<Desc>)
    ensures ch == [c.status, c.time]
  {
    ch := [];
    ch := ch + [c.status];
    ch := ch + [c.time];
  }

  /**
   * ping: run the probe, set the status from the exit result, then look for
   * the first latency reading. No reading leaves the time at 0 and is no
   * error; a reading whose number does not parse returns the error with
   * the status already set and the time still 0.
   */
  method Ping(cfg: ProbeConfig, identity: string, exec: seq<string> -> ProbeRun)
    returns (metric: PingMetric, err: Option<ParseError>)
    ensures var run := exec(ProbeCommand(cfg, identity));
      metric.status == (if run.ok then 1 else 0)
    ensures var reading := ParseTime(exec(ProbeCommand(cfg, identity)).stdout);
      && (err.Some? <==> reading.Unparsable?)
      && (err.Some? ==> err.value == ParseError(reading.text))
      && metric.time == TimeOf(reading)
  {
    metric := PingMetric(0, 0.0);
    var run := exec(ProbeCommand(cfg, identity));
    if !run.ok {
      metric := metric.(status := 0);
    } else {
      metric := metric.(status := 1);
    }
    var timeMatch := FindTime(run.stdout);
    if timeMatch.Some? {
      MatchAtSound(run.stdout, timeMatch.value.start);
      var time := ParseDecimal(timeMatch.value.number);
      if time.None? {
        return metric, Some(ParseError(timeMatch.value.number));
      }
      var seconds := time.value;
      if timeMatch.value.unit == "ms" {
        seconds := seconds / 1000.0;
      }
      metric := metric.(time := seconds);
    }
    err := None;
  }

  /**
   * collect: one probe. On a parse error nothing is sent and the error is
   * returned; otherwise the status, the time and the pass's duration
   * (labelled "ping") are sent, in that order.
   */
  method CollectSamples(c: PingCollector, cfg: ProbeConfig, shared: Collector.ExporterDescs,
                        exec: seq<string> -> ProbeRun, elapsed: real)
    returns (ch: seq<Sample>, err: Option<ParseError>)
    ensures var run := exec(ProbeCommand(cfg, c.identity));
      var reading := ParseTime(run.stdout);
      && (err.Some? <==> reading.Unparsable?)
      && (err.Some? ==> ch == [])
      && (err.None? ==> ch == [
            Sample(c.status, if run.ok then 1.0 else 0.0, []),
            Sample(c.time, TimeOf(reading), []),
            Sample(shared.collectDuration, elapsed, ["ping"])])
  {
    ch := [];
    var metric;
    metric, err := Ping(cfg, c.identity, exec);
    if err.Some? {
      return;
    }
    ch := ch + [Sample(c.status, metric.status as real, [])];
    ch := ch + [Sample(c.time, metric.time, [])];
    ch := ch + [Sample(shared.collectDuration, elapsed, ["ping"])];
  }

  /**
   * Collect: the samples of collect, then exactly one `collect_error`
   * sample labelled "ping", whose value is 1 exactly when collect failed.
   */
  method Collect(c: PingCollector, cfg: ProbeConfig, shared: Collector.ExporterDescs,
                 exec: seq<string> -> ProbeRun, elapsed: real)
    returns (ch: seq<Sample>)
    requires DistinctFrom(c, shared)
    ensures var run := exec(ProbeCommand(cfg, c.identity));
      var reading := ParseTime(run.stdout);
      && |ch| > 0
      && ch[|ch| - 1] == Sample(shared.collectError, if reading.Unparsable? then 1.0 else 0.0, ["ping"])
      && CountOf(ch, shared.collectError) == 1
      && (reading.Unparsable? ==> |ch| == 1)
      && (!reading.Unparsable? ==>
            |ch| == 4
            && ch[0] == Sample(c.status, if run.ok then 1.0 else 0.0, [])
            && ch[1] == Sample(c.time, TimeOf(reading), [])
            && ch[2] == Sample(shared.collectDuration, elapsed, ["ping"]))
  {
    var err;
    ch, err := CollectSamples(c, cfg, shared, exec, elapsed);
    CountOfNone(ch, shared.collectError);
    ghost var sent := ch;
    if err.Some? {
      ch := ch + [Sample(shared.collectError, 1.0, ["ping"])];
    } else {
      ch := ch + [Sample(shared.collectError, 0.0, ["ping"])];
    }
    assert ch[..|ch| - 1] == sent;
  }

  /** The package's init: register "ping", enabled by default, with NewPingCollector as factory. */
  method Init(registry: Collector.Registry<PingCollector>)
    requires registry.Valid()
    modifies registry
    ensures registry.Valid()
    ensures registry.collectorState == old(registry.collectorState)["ping" := Collector.CollectorFlag("ping", true)]
    ensures registry.factories == old(registry.factories)["ping" := NewPingCollector]
  {
    registry.RegisterCollector("ping", true, NewPingCollector);
  }
}
