/**
 * The collector framework of collector/collector.go: the package-level
 * descriptors shared by all collectors, the registry that every collector
 * joins at start-up (an enablement flag and a factory per name), the
 * builder that instantiates the enabled collectors for one target host,
 * and the check that the mco binary exists.
 *
 * Command-line flags are given values: a flag declaration records its name,
 * help text and default, and the values given on the command line arrive
 * as a map from flag name to bool. The file-system lookup arrives as a
 * function from path to stat result.
 */
module Collector {
  import opened Metrics
  import opened Options

  const Namespace: string := "mcollective"

  /** Default of the `path.mco` flag. */
  const DefaultMcoPath: string := "/opt/puppetlabs/bin/mco"

  /** The two descriptors every collector of this package reports against. */
  datatype ExporterDescs = ExporterDescs(collectDuration: Desc, collectError: Desc)

  const Exporter: ExporterDescs := ExporterDescs(
    Desc(BuildFQName(Namespace, "exporter", "collector_duration_seconds"),
         "Collector time duration.", ["collector"]),
    Desc(BuildFQName(Namespace, "exporter", "collect_error"),
         "Indicates if error has occurred during collection", ["collector"]))

  /** The duration and error descriptors are two different descriptors. */
  lemma ExporterDescsDistinct()
    ensures Exporter.collectDuration != Exporter.collectError
  {
    assert |Exporter.collectDuration.help| != |Exporter.collectError.help|;
  }

  // ---------------------------------------------------------------------
  // Flags

  /** A declared boolean flag: its name, help text and default as text. */
  datatype Flag = Flag(name: string, help: string, defaultValue: string)

  /** `fmt.Sprintf("%v", b)` for a bool. */
  function FormatBool(b: bool): string {
    if b then "true" else "false"
  }

  /** strconv.ParseBool, the parser the flag library applies to a bool flag's text. */
  function ParseBool(s: string): Option<bool> {
    if s in {"1", "t", "T", "TRUE", "true", "True"} then Some(true)
    else if s in {"0", "f", "F", "FALSE", "false", "False"} then Some(false)
    else None
  }

  /** The default text of a flag reads back as the bool it was formatted from; `yes` and the empty text are rejected. */
  lemma FormatBoolReadsBack(b: bool)
    ensures ParseBool(FormatBool(b)) == Some(b)
    ensures ParseBool("yes") == None && ParseBool("") == None
  {
  }

  /**
   * The flag registerCollector declares for collector `name`: it is called
   * `collector.<name>`, its help states the default in words, and its
   * default text reads back as `isDefaultEnabled`.
   */
  function CollectorFlag(name: string, isDefaultEnabled: bool): (f: Flag)
    ensures f.name == "collector." + name
    ensures ParseBool(f.defaultValue) == Some(isDefaultEnabled)
    ensures f.help == "Enable the " + name + " collector (default: "
                      + (if isDefaultEnabled then "enabled" else "disabled") + ")."
  {
    var helpDefaultState := if isDefaultEnabled then "enabled" else "disabled";
    Flag("collector." + name,
         "Enable the " + name + " collector (default: " + helpDefaultState + ").",
         FormatBool(isDefaultEnabled))
  }

  /** The value a parsed flag holds: the one given on the command line, else its default. */
  function FlagValue(f: Flag, settings: map<string, bool>): bool {
    if f.name in settings then settings[f.name] else ParseBool(f.defaultValue) == Some(true)
  }

  /** The registered names whose flag is true. */
  function EnabledNames(state: map<string, Flag>, settings: map<string, bool>): (r: set<string>)
    ensures r <= state.Keys
  {
    set n | n in state && FlagValue(state[n], settings)
  }

  /**
   * A collector registered with default `d` is enabled exactly when its
   * flag is given as true, or is not given and `d` holds; in particular one
   * registered as disabled stays out unless the command line enables it.
   */
  lemma EnabledByFlag(state: map<string, Flag>, settings: map<string, bool>, name: string, d: bool)
    requires name in state && state[name] == CollectorFlag(name, d)
    ensures name in EnabledNames(state, settings) <==>
      if "collector." + name in settings then settings["collector." + name] else d
  {
  }

  // ---------------------------------------------------------------------
  // fileExists

  /** What os.Stat reports for a path. */
  datatype StatResult =
    | NotExist            // the error satisfies os.IsNotExist
    | Found(isDir: bool)  // no error; whether the path is a directory
    | StatFailed          // any other error (permission denied, a non-directory path component, ...)

  /** A Go call that either returns or dereferences a nil interface value and panics. */
  datatype Checked<T> = Returned(value: T) | NilDereference

  /**
   * fileExists as written: a missing path gives false, otherwise the
   * result of `info.IsDir()` is negated; for any other stat error `info`
   * is nil and the call panics.
   */
  function FileExistsAsWritten(st: StatResult): (r: Checked<bool>)
    ensures r.NilDereference? <==> st.StatFailed?
  {
    match st
    case NotExist => Returned(false)
    case Found(isDir) => Returned(!isDir)
    case StatFailed => NilDereference
  }

  /**
   * The check the code evidently intends: the path exists and is not a
   * directory. Wherever fileExists as written returns, the two agree.
   */
  function FileExists(st: StatResult): (r: bool)
    ensures r <==> st.Found? && !st.isDir
    ensures FileExistsAsWritten(st).Returned? ==> r == FileExistsAsWritten(st).value
  {
    match st
    case NotExist => false
    case Found(isDir) => !isDir
    case StatFailed => false
  }

  /** A stat error other than "does not exist" makes fileExists as written panic. */
  lemma FileExistsPanicsOnStatError()
    ensures FileExistsAsWritten(StatFailed) == NilDereference
    ensures !FileExists(StatFailed)
  {
  }

  // ---------------------------------------------------------------------
  // The registry and the builder

  /** The collectors built for one request, by name. */
  datatype McollectiveCollector<C> = McollectiveCollector(collectors: map<string, C>)

  /**
   * NewMcollectiveCollector builds the set, ends the process with an exit
   * code, or panics inside fileExists.
   */
  datatype BuildOutcome<C> = Built(value: McollectiveCollector<C>) | Exited(code: int) | Panicked

  /**
   * The package-level tables `collectorState` and `factories`, generic in
   * the collector type. A factory receives the target host (the logger
   * argument is not modelled).
   */
  class Registry<C> {
    var collectorState: map<string, Flag>
    var factories: map<string, string -> C>

    /** Both tables have the same names, and each name's flag is `collector.<name>`. */
    ghost predicate Valid()
      reads this
    {
      && collectorState.Keys == factories.Keys
      && forall n :: n in collectorState ==> collectorState[n].name == "collector." + n
    }

    /** The empty tables of a process that has not loaded any collector. */
    constructor ()
      ensures Valid()
      ensures collectorState == map[] && factories == map[]
    {
      collectorState := map[];
      factories := map[];
    }

    /** registerCollector: declare the flag and record it and the factory under `collector`. */
    method RegisterCollector(collector: string, isDefaultEnabled: bool, factory: string -> C)
      requires Valid()
      modifies this
      ensures Valid()
      ensures collectorState == old(collectorState)[collector := CollectorFlag(collector, isDefaultEnabled)]
      ensures factories == old(factories)[collector := factory]
    {
      var flag := CollectorFlag(collector, isDefaultEnabled);
      collectorState := collectorState[collector := flag];
      factories := factories[collector := factory];
    }

    /**
     * The loop of NewMcollectiveCollector: every registered name whose flag
     * is true is built by its own factory applied to `host`, and no other.
     * `invoked` records the names whose factory was called.
     */
    method BuildEnabled(host: string, settings: map<string, bool>)
      returns (collectors: map<string, C>, ghost invoked: set<string>)
      requires Valid()
      ensures collectors.Keys == EnabledNames(collectorState, settings)
      ensures forall k :: k in collectors ==> collectors[k] == factories[k](host)
      ensures invoked == EnabledNames(collectorState, settings)
    {
      invoked := {};
      collectors := map[];
      var remaining := collectorState.Keys;
      ghost var done: set<string> := {};
      while remaining != {}
        invariant remaining + done == collectorState.Keys && remaining !! done
        invariant forall k :: k in collectors <==> k in done && FlagValue(collectorState[k], settings)
        invariant forall k :: k in collectors ==> collectors[k] == factories[k](host)
        invariant invoked == collectors.Keys
        decreases remaining
      {
        var key :| key in remaining;
        if FlagValue(collectorState[key], settings) {
          var collector := factories[key](host);
          invoked := invoked + {key};
          collectors := collectors[key := collector];
        }
        remaining := remaining - {key};
        done := done + {key};
      }
    }

    /**
     * NewMcollectiveCollector as written: fileExists panics when os.Stat
     * fails with an error other than "does not exist"; a missing path or a
     * directory ends the process with status 1; otherwise exactly the
     * enabled collectors are built, each by its own factory applied to
     * `host`. `invoked` records the names whose factory was called.
     */
    method NewMcollectiveCollector(host: string, mcoPath: string, stat: string -> StatResult,
                                   settings: map<string, bool>)
      returns (r: BuildOutcome<C>, ghost invoked: set<string>)
      requires Valid()
      ensures r.Panicked? <==> stat(mcoPath).StatFailed?
      ensures r.Exited? <==> stat(mcoPath) == NotExist || stat(mcoPath) == Found(true)
      ensures r.Built? <==> stat(mcoPath) == Found(false)
      ensures !r.Built? ==> invoked == {}
      ensures r.Exited? ==> r.code == 1
      ensures r.Built? ==> r.value.collectors.Keys == EnabledNames(collectorState, settings)
      ensures r.Built? ==> forall k :: k in r.value.collectors ==> r.value.collectors[k] == factories[k](host)
      ensures r.Built? ==> invoked == EnabledNames(collectorState, settings)
    {
      invoked := {};
      var found := FileExistsAsWritten(stat(mcoPath));
      if found.NilDereference? {
        return Panicked, invoked;
      }
      if !found.value {
        return Exited(1), invoked;
      }
      var collectors;
      collectors, invoked := BuildEnabled(host, settings);
      r := Built(McollectiveCollector(collectors));
    }

    /**
     * NewMcollectiveCollector with the corrected fileExists: when the mco
     * path is not an existing non-directory, whatever os.Stat reported, no
     * collector is built and the process exits with status 1; otherwise as
     * written.
     */
    method NewMcollectiveCollectorCorrected(host: string, mcoPath: string, stat: string -> StatResult,
                                            settings: map<string, bool>)
      returns (r: BuildOutcome<C>, ghost invoked: set<string>)
      requires Valid()
      ensures !r.Panicked?
      ensures r.Exited? <==> !FileExists(stat(mcoPath))
      ensures r.Exited? ==> r.code == 1 && invoked == {}
      ensures r.Built? ==> r.value.collectors.Keys == EnabledNames(collectorState, settings)
      ensures r.Built? ==> forall k :: k in r.value.collectors ==> r.value.collectors[k] == factories[k](host)
      ensures r.Built? ==> invoked == EnabledNames(collectorState, settings)
    {
      invoked := {};
      if !FileExists(stat(mcoPath)) {
        return Exited(1), invoked;
      }
      var collectors;
      collectors, invoked := BuildEnabled(host, settings);
      r := Built(McollectiveCollector(collectors));
    }
  }
}
