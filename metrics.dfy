/**
 * The small part of the Prometheus client library the exporter relies on:
 * metric descriptors, constant gauge samples and fully-qualified names.
 * A channel of samples is represented by the sequence of values sent on it.
 */
module Metrics {

  /** The shape of a metric family: name, help text and label names. */
  datatype Desc = Desc(fqName: string, help: string, labelNames: seq<string>)

  /** One observation sent on a collector's channel (a constant gauge). */
  datatype Sample = Sample(desc: Desc, value: real, labelValues: seq<string>)

  /**
   * Joins namespace, subsystem and name with underscores, skipping an empty
   * namespace or subsystem; an empty name gives the empty name.
   */
  function BuildFQName(namespace: string, subsystem: string, name: string): string
  {
    if name == [] then []
    else if namespace != [] && subsystem != [] then namespace + "_" + subsystem + "_" + name
    else if namespace != [] then namespace + "_" + name
    else if subsystem != [] then subsystem + "_" + name
    else name
  }

  /**
   * An empty name gives the empty name; otherwise the name ends the result,
   * and a non-empty namespace starts it, followed by an underscore.
   */
  lemma BuildFQNameJoins(namespace: string, subsystem: string, name: string)
    ensures name == [] ==> BuildFQName(namespace, subsystem, name) == []
    ensures var r := BuildFQName(namespace, subsystem, name);
      name != [] ==> |r| >= |name| && r[|r| - |name|..] == name
    ensures var r := BuildFQName(namespace, subsystem, name);
      name != [] && namespace != [] ==> |r| > |namespace| && r[..|namespace| + 1] == namespace + "_"
    ensures var r := BuildFQName(namespace, subsystem, name);
      name != [] ==> |r| == |name| + (if namespace != [] then |namespace| + 1 else 0)
                                   + (if subsystem != [] then |subsystem| + 1 else 0)
  {
    var r := BuildFQName(namespace, subsystem, name);
    if name != [] {
      if namespace != [] && subsystem != [] {
        assert r == (namespace + "_") + (subsystem + "_" + name);
      } else if namespace != [] {
        assert r == (namespace + "_") + name;
      }
    }
  }

  /** How many samples of `samples` belong to descriptor `d`. */
  function CountOf(samples: seq<Sample>, d: Desc): (n: nat)
    ensures n <= |samples|
  {
    if samples == [] then 0
    else CountOf(samples[..|samples| - 1], d) + (if samples[|samples| - 1].desc == d then 1 else 0)
  }

  lemma {:induction false} CountOfNone(samples: seq<Sample>, d: Desc)
    requires forall k :: 0 <= k < |samples| ==> samples[k].desc != d
    ensures CountOf(samples, d) == 0
  {
    if samples != [] {
      CountOfNone(samples[..|samples| - 1], d);
    }
  }
}
