/**
 * The older copy of the ping collector, collectors/ping.go. Its probe,
 * collect and Collect are the same code as collector/ping.go and are the
 * members of module Ping; what differs is the constructor, which takes the
 * target as `host`, reads the namespace of its own package and words the
 * help texts "Mcollective ...", and its test of the parser on a recorded
 * `mco ping` output.
 */
module LegacyPing {
  import opened Metrics
  import opened Options
  import opened TimeParse
  import Collector
  import Ping

  /** NewPingCollector of the older package, for the namespace that package defines. */
  function NewPingCollector(namespace: string, host: string): (c: Ping.PingCollector)
    ensures c.identity == host
    ensures Ping.OwnDescs(c)
    ensures c.status.fqName == BuildFQName(namespace, "ping", "status")
    ensures c.time.fqName == BuildFQName(namespace, "ping", "seconds")
    ensures c.status.help == "Mcollective ping status, 1=successful 0=not successful"
    ensures c.time.help == "Mcollective ping time in seconds"
  {
    var c := Ping.PingCollector(host,
      Desc(BuildFQName(namespace, "ping", "status"),
           "Mcollective ping status, 1=successful 0=not successful", []),
      Desc(BuildFQName(namespace, "ping", "seconds"),
           "Mcollective ping time in seconds", []));
    assert |c.status.help| != |c.time.help|;
    c
  }

  /** The older package's init: "ping", enabled by default, built for that package's namespace. */
  method Init(registry: Collector.Registry<Ping.PingCollector>, namespace: string)
    requires registry.Valid()
    modifies registry
    ensures registry.Valid()
    ensures registry.collectorState == old(registry.collectorState)["ping" := Collector.CollectorFlag("ping", true)]
    ensures "ping" in registry.factories
    ensures forall host :: registry.factories["ping"](host) == NewPingCollector(namespace, host)
    ensures forall n :: n in old(registry.factories) && n != "ping" ==>
      n in registry.factories && registry.factories[n] == old(registry.factories)[n]
  {
    registry.RegisterCollector("ping", true, host => NewPingCollector(namespace, host));
  }

  /** The line of the recorded output before the reading. */
  const MockedHead: string := "\nprometheus               "

  /** The blank lines and the summary after the reading. */
  const MockedTail: string :=
    "\n" + "\n\n---- ping statistics ----\n1 replies max: 55.63 min: 55.63 avg: 55.63 \n"

  /** The standard output the package's test feeds to the probe. */
  const MockedStdout: string := MockedHead + "time=" + "55.63" + " " + "ms" + MockedTail

  /** 55.63 is read as the decimal it spells. */
  lemma MockedNumber()
    ensures IsNumberText("55.63")
    ensures ParseDecimal("55.63") == Some(55.63)
  {
    ParseDecimalFraction("55", "63");
    assert "55" + "." + "63" == "55.63";
    assert "55"[..1] == "5" && "63"[..1] == "6" && "5"[..0] == [] && "6"[..0] == [];
    assert DigitsValue("55") == 55 && DigitsValue("63") == 63;
    assert Pow10(2) == 100;
  }

  /**
   * The recorded output holds one reading, 55.63 milliseconds, and the
   * summary line after it does not change the result.
   */
  lemma MockedStdoutReading()
    ensures ParseTime(MockedStdout) == Reading(55.63 / 1000.0)
  {
    assert MockedTail[0] == '\n';
    MockedNumber();
    ParseTimeReading(MockedHead, "55.63", "ms", MockedTail);
  }

  /**
   * TestParseMmhealth: probing "prometheus" with a command that succeeds
   * and prints the recorded output gives status 1, a latency of 0.05563
   * seconds and no error.
   */
  method TestParseMmhealth() returns (metric: Ping.PingMetric, err: Option<Ping.ParseError>)
    ensures err.None?
    ensures metric == Ping.PingMetric(1, 0.05563)
  {
    MockedStdoutReading();
    var exec := (argv: seq<string>) => Ping.ProbeRun(MockedStdout, true);
    metric, err := Ping.Ping(Ping.DefaultConfig, "prometheus", exec);
  }
}
