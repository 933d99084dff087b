# mcollective / choria exporter: the ping collector and the collector registry

This project is a Dafny model of the core of a Prometheus exporter that checks MCollective/Choria
nodes. For each scrape the exporter builds the enabled collectors for one target host. The only
collector, `ping`, runs `mco ping --timeout <t> -I <identity>`. It reads the exit status and the
first `time=<number> <unit>` reading of the output, and sends gauges for the status, the latency in
seconds, the collection duration and a collection-error flag.

The model has six modules, one per file:

- `Options` (options.dfy) holds the `Option` type the parsers return.
- `Metrics` (metrics.dfy) covers the parts of the Prometheus client the code uses. These are
  descriptors, constant samples, and `BuildFQName`. A channel is the sequence of values sent on
  it.
- `TimeParse` (time_parse.dfy) is the text side of the probe. It has:
  - a hand-written scanner for the regular expression `time=([0-9.]+) ([a-z]+)`, which is
    leftmost and greedy like Go's `regexp`, proved against a declarative `PatternAt`;
  - `strconv.ParseFloat` restricted to text of digits and dots, over exact reals;
  - the `ms` rule;
  - the `\r?\n` flattening of the logged output.
- `Collector` (collector.dfy) models collector/collector.go:
  - the shared `collector_duration_seconds` and `collect_error` descriptors;
  - the flag each registered collector declares;
  - `fileExists`;
  - the class `Registry`, which holds the package-level `collectorState` and `factories` maps and
    provides `registerCollector` and `NewMcollectiveCollector`.
- `Ping` (ping.dfy) models collector/ping.go: `ping`, `collect`, `Collect`, `Describe`,
  `NewPingCollector` and the package `init`.
- `LegacyPing` (legacy_ping.dfy) models the older copy collectors/ping.go. Its `ping`, `collect`,
  `Collect` and `Describe` are the same code as in collector/ping.go, apart from logging and the
  field name `host`, so they are modelled by the `Ping` members. The module adds the older
  constructor and `init`, and the package's test of `ping` on a recorded output. `Ping.Ping`,
  `Ping.CollectSamples`, `Ping.Collect` and `Ping.Describe` therefore also model
  collectors/ping.go:83-115, 71-81, 61-69 and 56-59.

External effects are parameters:

- The subprocess is a function `exec` from the argument vector to the captured standard output
  and whether `cmd.Run` returned no error. This ties every run to the exact command built.
- `os.Stat` is a function from path to `StatResult`.
- `os.Exit(1)` is the `Exited(1)` outcome, and the nil dereference in `fileExists` is the
  `Panicked` outcome.
- The values given on the command line are a map from flag name to bool.
- `time.Since(collectTime).Seconds()` is the number `elapsed`.

Where the code could be read more than one way, the model follows the code:

- When the output has no reading, the time stays 0 and a `seconds` sample of 0 is still sent.
- `fileExists` tests only "not a directory", so a socket or device node counts as existing.
- `NewMcollectiveCollector` branches on `fileExists` as written. A stat error other than "does not
  exist" therefore panics before the exit is reached. The builder with the corrected check is
  `NewMcollectiveCollectorCorrected`; both share the loop `BuildEnabled`.
- On a parse error nothing but the `collect_error` sample is sent, not even the status.

## Model

| member | source | states |
|---|---|---|
| Ping.ProbeCommand | collector/ping.go:89-91 | the probe's argument vector is exactly mco path, `ping`, `--timeout`, the timeout, `-I`, the identity |
| Ping.Ping | collector/ping.go:87-119 | status is 1 exactly when the command ran without error, whatever the output; an error is returned exactly when the first reading's number does not parse, carrying that text, with the time left at 0; otherwise the time is the first reading converted by the ms rule, or 0 when there is none |
| Ping.CollectSamples | collector/ping.go:75-85 | on an error nothing is sent; otherwise exactly status, time and the duration sample labelled "ping" are sent, in that order, with the values of the probe |
| Ping.Collect | collector/ping.go:65-73 | the last sample is the one `collect_error` sample labelled "ping", valued 1 exactly when collect failed; on failure it is the only sample, otherwise it follows status, time and duration |
| Ping.Describe | collector/ping.go:60-63 | exactly the status descriptor, then the time descriptor |
| Ping.NewPingCollector | collector/ping.go:49-58 | the collector keeps its identity; its two descriptors are distinct and unlabelled, named `ping_status` and `ping_seconds` under the namespace, with the help texts "mco ping status, 1=successful 0=not successful" and "mco ping time in seconds" |
| Ping.NewPingCollectorShape | collector/ping.go:49-58 | collectors for any identities have the same descriptors and differ exactly when the identities differ |
| Ping.PackageDescsDistinct | collector/ping.go:53-56 | the collector's descriptors are different from the shared duration and error descriptors, which differ from each other |
| Ping.Init | collector/ping.go:45-47 | init registers "ping" enabled by default with NewPingCollector as its factory, keeping the registry consistent |
| TimeParse.FindFrom | collector/ping.go:103-104 | the scan from a position returns the first position where the pattern matches, and none when no position matches |
| TimeParse.NumberEnd | collector/ping.go:103 | the number group takes the longest run of digits and dots |
| TimeParse.UnitEnd | collector/ping.go:103 | the unit group takes the longest run of lower-case letters |
| TimeParse.MatchAtSound | collector/ping.go:103 | a match found at a position is an occurrence of the pattern there, with a non-empty number and unit |
| TimeParse.MatchAtGreedy | collector/ping.go:103 | every occurrence of the pattern at a position is found there, with the same number and a unit at least as long |
| TimeParse.FindTimeLeftmost | collector/ping.go:103-104 | the match found is an occurrence of the pattern and no occurrence starts before it |
| TimeParse.FindTimeNone | collector/ping.go:104-105 | no match is found exactly when the pattern occurs nowhere in the output |
| TimeParse.LaterReadingsIgnored | collector/ping.go:104 | text appended after a complete first reading does not change the match |
| TimeParse.SkipWithoutEquals | collector/ping.go:104 | a stretch of output without `=` holds no match |
| TimeParse.DotFrom | collector/ping.go:106 | the position of the first dot from a given position, or the end |
| TimeParse.ParseDecimalAccepts | collector/ping.go:106-110 | the number text parses exactly when it has at most one dot and at least one digit |
| TimeParse.ParseDecimalOneDot | collector/ping.go:106 | a text with one dot has the value of its whole part plus its fraction |
| TimeParse.ParseDecimalFraction | collector/ping.go:106 | digits, a dot and digits, not both empty, parse to that exact decimal |
| TimeParse.ParseDecimalInteger | collector/ping.go:106 | a non-empty digit string parses to its integer value |
| TimeParse.ParseDecimalExamples | collector/ping.go:106-110 | `1.2.3` and `.` are rejected; `7`, `.5` and `3.` are accepted with their values |
| TimeParse.ToSeconds | collector/ping.go:111-116 | `ms` is divided by 1000 and every other unit is kept as it is |
| TimeParse.ParseDecimalNonNegative | collector/ping.go:106 | a value parsed from digits and dots is never negative |
| TimeParse.ParseTimeOutcomes | collector/ping.go:103-116 | the reading as a whole: none exactly when the scan finds no match, an error only for matched number text with two dots or no digit, and a converted value that is never negative |
| TimeParse.ParseTimeNoReading | collector/ping.go:103-105 | no reading exactly when the pattern occurs nowhere |
| TimeParse.ParseTimeReading | collector/ping.go:103-116 | an output whose first `=` opens `time=<num> <unit>` yields the parse error of num, or num converted by the ms rule |
| TimeParse.ParseTimeFirstReading | collector/ping.go:104 | with two readings, the first one's value and unit are used |
| TimeParse.ParseTimeFirstUnparsable | collector/ping.go:104-110 | an unparsable first number is an error even when a good reading follows |
| TimeParse.FlattenLinesOneLine | collector/ping.go:95-96 | the logged output has no line feed and is no longer than the original |
| TimeParse.FlattenLinesUnits | collector/ping.go:95-96 | a lone `\n` and a `\r\n` pair each become one space, and every other single character is kept |
| TimeParse.FlattenLinesConcat | collector/ping.go:95-96 | output split anywhere except between the `\r` and the `\n` of a pair is rewritten part by part; a split right after a `\r` that is not followed by `\n` is allowed |
| TimeParse.FlattenLinesLoneReturn | collector/ping.go:95-96 | in `\r\r\n` the first `\r` opens no pair and is kept, and the pair after it becomes one space |
| TimeParse.FlattenLinesSingleLine | collector/ping.go:95-96 | output without a line feed is logged unchanged |
| Metrics.BuildFQNameJoins | collector/ping.go:53-56 | a fully-qualified name is empty for an empty name, otherwise ends with the name, starts with a non-empty namespace and an underscore, and has exactly the length of the non-empty parts joined by underscores |
| Collector.ExporterDescsDistinct | collector/collector.go:36-43 | the shared duration and error descriptors are different descriptors |
| Collector.CollectorFlag | collector/collector.go:57-66 | the flag is `collector.<name>`, its default reads back as the given default, and its help says "enabled" or "disabled" accordingly |
| Collector.FormatBoolReadsBack | collector/collector.go:65-66 | the default text written for a bool flag parses back as that bool, and the words `yes` and the empty text are rejected |
| Collector.EnabledNames | collector/collector.go:77-79 | only registered names are enabled |
| Collector.EnabledByFlag | collector/collector.go:66-79 | a registered collector is enabled exactly when its flag is given as true, or is not given and its default is enabled |
| Collector.FileExistsAsWritten | collector/collector.go:87-93 | fileExists dereferences a nil FileInfo exactly when os.Stat fails with an error other than "does not exist" |
| Collector.FileExists | collector/collector.go:87-93 | true exactly for a path that exists and is not a directory, and the same answer as fileExists wherever that returns |
| Collector.FileExistsPanicsOnStatError | collector/collector.go:88-92 | a stat error other than "does not exist" makes fileExists as written panic |
| Collector.Registry.constructor | collector/collector.go:33-34 | both tables start empty and consistent |
| Collector.Registry.RegisterCollector | collector/collector.go:56-69 | the name is bound to its `collector.<name>` flag and to its factory, nothing else changes, and both tables keep equal key sets |
| Collector.Registry.BuildEnabled | collector/collector.go:76-83 | the keys built are exactly the enabled names, each built by its own factory for the host, and only enabled factories are invoked |
| Collector.Registry.NewMcollectiveCollector | collector/collector.go:71-92 | as written: a stat error other than "does not exist" panics in fileExists; a missing path or a directory exits with status 1; an existing non-directory builds exactly the enabled collectors; no factory runs unless the set is built |
| Collector.Registry.NewMcollectiveCollectorCorrected | collector/collector.go:71-85 | with the corrected check it never panics: whenever the mco path is not an existing non-directory the process exits with status 1 and no factory runs; otherwise it builds as written |
| LegacyPing.NewPingCollector | collectors/ping.go:46-54 | the older constructor keeps the host and words its distinct, unlabelled descriptors "Mcollective ping ..." |
| LegacyPing.Init | collectors/ping.go:42-44 | init registers "ping" enabled by default with a factory that builds the older collector, leaving other names as they were |
| LegacyPing.MockedNumber | collectors/ping_test.go:24 | the recorded number `55.63` parses to 55.63 |
| LegacyPing.MockedStdoutReading | collectors/ping_test.go:23-29 | the recorded output reads as 55.63 ms, 0.05563 seconds; the summary line after it is ignored |
| LegacyPing.TestParseMmhealth | collectors/ping_test.go:21-41 | probing "prometheus" with a successful command printing the recorded output gives status 1, time 0.05563 and no error |

## Left out

- Logging through go-kit (`level.Error`, `level.Debug`) and the older package's logger is not modelled. Only the text it would log, the `\r?\n` flattening, is modelled.
- The logger argument that `NewPingCollector` and every factory receive is dropped. A factory is a function of the host.
- kingpin flag parsing is replaced by given values. The model does not cover the start-up error when the same flag is declared twice (registering one name twice only rebinds it here). It does not cover parsing the command-line text of a boolean flag either.
- `exec.Command`/`cmd.Run`, `os.Stat` and `os.Exit` are parameters, because they reach outside the program.
- Go's random map iteration order in `NewMcollectiveCollector` is not modelled. The loop picks names in an arbitrary order, and its result does not depend on that order.
- The `time.Now`/`time.Since` clock is not modelled. The duration of a pass is the input `elapsed`.
- The Prometheus client library is reduced to its values. `MustNewConstMetric` would panic on a label-count mismatch; that case is not modelled, because the code always passes matching labels.
- The HTTP handlers, routing and listener of choria_exporter.go and mcollective_exporter.go are not modelled, because they are I/O plumbing. The builder runs inside the handler, so net/http recovers the panic of `Panicked` and the process keeps serving; that recovery is not modelled.
- collectors/collector.go is not part of this model. The older package's `namespace` is a parameter of `LegacyPing.NewPingCollector`. Its `registerCollector` and `fileExists` are assumed to be the ones in collector/collector.go.
- TimeParse.ParseDecimal: does not model IEEE-754 rounding to the nearest float64. It also does not model the range error `strconv.ParseFloat` returns for a number beyond the float64 range. The value is the exact decimal.
- LegacyPing.TestParseMmhealth: states the exact 0.05563, while the test compares against 0.055630000000000006, the float64 result of 55.63/1000.
- Ping.Collect: requires that the collector's descriptors differ from the shared ones, so that the `collect_error` samples can be counted by descriptor. `Ping.PackageDescsDistinct` proves this for the descriptors the package builds.
- General regular expressions are not modelled. Only the one fixed pattern is scanned, and `FindStringSubmatch` returning three elements is taken to mean that the pattern matched.

## Findings

| source | as written | input that shows it | evidently intended | confidence | as-written member | corrected member |
|---|---|---|---|---|---|---|
| collector/collector.go:87-93 | when `os.Stat` fails with an error other than "does not exist", `info` is nil and `info.IsDir()` is still called | an mco path whose parent directory cannot be searched (permission denied), or one with a non-directory path component (`StatFailed`) | answer false, so that the exporter reports the missing mco binary and exits with status 1 (`Collector.Registry.NewMcollectiveCollectorCorrected`), where as written the builder panics (`Collector.Registry.NewMcollectiveCollector`) | not executed | Collector.FileExistsPanicsOnStatError | Collector.FileExists |
