# ros2-performance result pipeline, modelled in Dafny

This project models the sequential, string-level core of the ros2-performance
benchmark suite and proves properties of it. The core has four linked parts:

- **The latency report, written and read back.**
  - The writer is `log_trackers_latency_all_stats`, `log_trackers_latency_total_stats`
    and `log_total_stats`. For each tracker it prints a `;`-separated line under a
    titled 13-name header, and it prints a totals block with the summed counters.
  - The reader is `read_latency_file` in the visualization parser. It finds the
    `Subscriptions stats:` and `Publishers stats:` marker lines and slices out the
    two sections. It parses each section under a fixed schema, tags every row with
    its role, and adds metadata columns.
  - The reader's other half is `read_resources_file`.
- **Result-file naming and aggregation.**
  - The benchmark's `main` chooses a topology file for the architecture and names
    its four output files.
  - `aggregate_results` walks architectures, rmw implementations, durations,
    stress levels and the two ipc settings. It rebuilds the same file names from
    its templates, reads every file, tags the rows and concatenates them.
- **The name/id codec** of the benchmark factory: `node_<id>`, `topic_<id>` and
  `service_<id>`, and `item_name_to_id` with its hash fallback.
- **The topology generators** (`create_topology`). Two shapes exist:
  - one publisher node and one subscriber node (`set_topology_yaml.py`, and the
    textually identical `set_topology.py`, which also carries example inputs);
  - `num_nodes` replicated nodes with suffixed topic names (`set_topology_adv.py`).

## How the model is organised

| module | file | models |
|---|---|---|
| `Wrappers` | `wrappers.dfy` | `Option` and `Result`, with the `:-` failure propagation |
| `Seqs` | `seqs.dfy` | Python semantics the scripts rely on: `list.index` (first occurrence, `None` where Python raises), slices with negative bounds, and insertion-ordered dictionaries as sequences of pairs |
| `Text` | `text.dfy` | Decimal rendering and parsing, `;`-joining and splitting, and `readlines` with universal newlines |
| `Names` | `names.dfy` | `names_utilities.cpp` |
| `FileNames` | `file_names.dfy` | The parser's two `str.format` templates and POSIX `os.path.join` |
| `ExperimentPaths` | `experiment_paths.dfy` | The topology-file choice and the output paths in `quantif_experiment.cpp` |
| `StatLogger` | `stat_logger.dfy` | `stat_logger.cpp`. An output stream is the text it receives. |
| `Frame` | `frame.dfy` | The part of a pandas `DataFrame` the parser uses: `df[name] = value`, `add_extra_cols` and `pd.concat` |
| `ResultParser` | `result_parser.dfy` | `read_latency_file`, `read_resources_file`, and `pd.read_csv` with `header=0` |
| `Aggregation` | `aggregation.dfy` | `aggregate_results` and its two entry points |
| `ReportRoundTrip` | `report_round_trip.dfy` | A report written by the logger and read by the parser |
| `Topology` | `topology.dfy` | The three `create_topology` functions |
| `TopologyExample` | `topology_example.dfy` | The example inputs of `set_topology.py` |

Errors become values throughout:

- `open` on a missing file gives `FileNotFound`.
- `list.index` on a missing marker gives `MarkerNotFound`.
- pandas on a record with more fields than the schema has names gives
  `TooManyFields` (see `ResultParser.ReadCsv` under Left out for the case pandas
  treats differently).
- `std::stoi` overflow gives `OutOfRange`.
- The `IndexError` and `ValueError` of the topology generators are values too.

A walk stops at the first failing read, just as the first exception in the
script stops it.

## Model

| member | source | states |
|---|---|---|
| Names.IdToName | performance_test_factory/src/names_utilities.cpp:17-39 | The name starts with the kind's prefix. For a non-negative id the rest is the id's decimal digits. For a negative id the rest is `-` followed by the decimal digits of the id's magnitude, which read back as that magnitude. |
| Names.MatchItemName | performance_test_factory/src/names_utilities.cpp:49-51 | A match means the whole name is a prefix followed by one or more digits. No match means that, whatever prefix the name starts with, nothing or a non-digit follows it. |
| Names.Stoi | performance_test_factory/src/names_utilities.cpp:57-58 | Digits convert exactly when their value fits in an `int`, and then to that value. Otherwise the result is the error `std::stoi` throws. |
| Names.ItemNameToId | performance_test_factory/src/names_utilities.cpp:41-63 | A name that does not fully match `(node\|topic\|service)_digits` decodes to its hash. A matching name decodes to the number its digits denote, or fails when that number exceeds `INT_MAX`. |
| Names.RemoveItemPrefixesOfMatch | performance_test_factory/src/names_utilities.cpp:52-56 | On a matching name, removing every prefix occurrence leaves exactly the digits. |
| Names.IdToNameMatches | performance_test_factory/src/names_utilities.cpp:17-51 | Every name the encoder makes for a non-negative id matches the pattern, with that kind and the id's digits. |
| Names.DecodeEncode | performance_test_factory/src/names_utilities.cpp:17-58 | Round trip: decoding the name of any non-negative id, of any kind, gives back the id, whatever the hash. |
| Names.NegativeIdFallsBackToHash | performance_test_factory/src/names_utilities.cpp:17-62 | The name of a negative id fails the pattern and decodes to the hash of the name, not to the id. |
| Names.NearMissesFallBackToHash | performance_test_factory/src/names_utilities.cpp:49-62 | Matching is whole-string: `nodes_3`, `node_3a`, `xnode_3` and `node_` all take the hash fallback. |
| Names.LeadingZerosCollapse | performance_test_factory/src/names_utilities.cpp:57-58 | `topic_01` and `topic_1` both decode to 1, so the decoder is not injective. |
| Names.OverflowIsAnError | performance_test_factory/src/names_utilities.cpp:57-58 | A well-formed name whose digits exceed `INT_MAX` is an error, not an id. |
| Text.DigitsValueOfNatToString | performance_test_factory/src/names_utilities.cpp:21 | Reading back the decimal rendering of a number gives the number. |
| Text.SplitJoin | performance_metrics/src/stat_logger.cpp:89-101 | Splitting a `;`-joined line gives back its fields, provided no field holds a `;`. |
| Text.ReadLinesConcat | quantif_experiments/scripts/visualization/parser.py:86 | `readlines` on text written as whole lines without `\r` gives back exactly those lines. |
| Text.ConcatReadLines | quantif_experiments/scripts/visualization/parser.py:86 | Concatenating the lines `readlines` returns gives back the text with universal newlines applied (`\r\n` and a lone `\r` become `\n`), so the text itself when it holds no `\r`. |
| Text.ReturnNewlineBreaksLine | quantif_experiments/scripts/visualization/parser.py:86 | A file opened with `'r'` ends a line at `\r\n`, and the line read ends in a single `\n`. |
| Text.ReturnBreaksLine | quantif_experiments/scripts/visualization/parser.py:86 | A lone `\r` ends a line as well, and reads as `\n`. |
| Seqs.IndexOf | quantif_experiments/scripts/visualization/parser.py:88-89 | `list.index`: the position holds the value and no earlier position does. `None` means exactly that the value is absent. |
| Seqs.SliceBound | quantif_experiments/scripts/visualization/parser.py:91 | A bound within `0..n` is kept. A negative bound counts from the end, and one still negative after that becomes 0. A bound past the end becomes `n`. |
| Seqs.Lookup | quantif/scripts/set_topology_yaml.py:32-34 | `key in d` and `d[key]`: found exactly when some pair has the key, and then it is that pair's value. |
| FileNames.PathJoin | quantif_experiments/scripts/visualization/parser.py:117-121 | An absolute second part replaces the first. Otherwise the result starts with the first part and ends with the second. Exactly one character lies between them, and it is `/`, unless the first part is empty or already ends in `/`, when nothing does. |
| FileNames.PathJoinPlain | quantif_experiments/scripts/visualization/parser.py:120-136 | Joining a results directory, architecture, rmw and file name that are plain components gives `a/b/c/d`. |
| FileNames.TemplatesSpelledOut | quantif_experiments/scripts/visualization/parser.py:21-22 | Each template formats as its kind prefix, `_ipc-`, the ipc flag, `_`, the duration, `s_`, the stress level, then `.txt`. |
| ExperimentPaths.DirName | quantif_experiments/src/quantif_experiment.cpp:29-30 | The directory is the text before the last `/`. A path with no `/` is kept whole. |
| ExperimentPaths.ArchJsonFile | quantif_experiments/src/quantif_experiment.cpp:31-38 | Exactly `simple`, `medium`, `complex` and `complex_rt` have a bundled topology file. |
| ExperimentPaths.ResolveJsonPath | quantif_experiments/src/quantif_experiment.cpp:28-43 | A given topology path is used unchanged. Otherwise a known architecture maps to its file under `<dir>/../test_archs/`, and any other architecture is rejected. |
| ExperimentPaths.ExperimentSetup | quantif_experiments/src/quantif_experiment.cpp:28-70 | Set-up fails exactly for an unknown architecture with no topology path, before any output path exists. Otherwise the output directory is `path/arch/rmw/` and the four output files are named in it. |
| ExperimentPaths.ComplexRtAccepted | quantif_experiments/src/quantif_experiment.cpp:37-38 | `complex_rt` is accepted and uses `social_rt.json`. |
| ExperimentPaths.OutputPathsDistinct | quantif_experiments/src/quantif_experiment.cpp:63-70 | The four output paths differ only in their prefix, so no two of them coincide. |
| ExperimentPaths.OutputNamesMatchTemplates | quantif_experiments/src/quantif_experiment.cpp:45-68 | The `latency_all` and `resources` file names are exactly what the reader's templates produce from the same ipc flag, duration and load. |
| ExperimentPaths.OutputIsReadPath | quantif_experiments/src/quantif_experiment.cpp:57-68 | With plain directory names, the file the benchmark writes is the path the reader joins for the same run. |
| StatLogger.LogTrackersLatencyAllStats | performance_metrics/src/stat_logger.cpp:60-114 | No trackers means nothing is written. Otherwise the text is the section's lines written in order. |
| StatLogger.LatencyAllLayout | performance_metrics/src/stat_logger.cpp:66-113 | The section is either empty, or a blank line, the title line, the header line, then exactly one statistics line per tracker in vector order. |
| StatLogger.HeaderLineFields | performance_metrics/src/stat_logger.cpp:70-83 | The header is one line that splits into the 13 column names, in the order the parser's `ORIGINAL_LATENCY_HEADER` lists them. |
| StatLogger.StatsLineFields | performance_metrics/src/stat_logger.cpp:86-104 | The statistics line of a tracker whose names hold no `;`, `\n` or `\r` is one line. It splits back into the node name, entity name, size, received, late, too_late, lost and the six statistics. |
| StatLogger.LatencyTotals | performance_metrics/src/stat_logger.cpp:120-133 | Each total is the sum of that counter over all trackers. |
| StatLogger.TotalHeaderLineFields | performance_metrics/src/stat_logger.cpp:37-46 | The totals header is one line of the eight names in printing order. |
| StatLogger.TotalValueLineFields | performance_metrics/src/stat_logger.cpp:48-57 | The totals value line is one line that splits back into its eight values. |
| StatLogger.TotalStatsReadBack | performance_metrics/src/stat_logger.cpp:22-58 | The totals block reads back as two lines. Each count decodes from the value column whose header names it. |
| StatLogger.LogTrackersLatencyTotalStats | performance_metrics/src/stat_logger.cpp:116-140 | The text written reads back as two lines whose received, late, too_late and lost columns decode to the trackers' summed counters. |
| Frame.SetColumn | quantif_experiments/scripts/visualization/parser.py:78 | `df[name] = value`: every row holds the value in that column, which is appended when new. The row count and every other cell stay the same. |
| Frame.AddExtraCols | quantif_experiments/scripts/visualization/parser.py:75-78 | Every listed column holds its constant on every row, and a column of the same name is overwritten. The row count and every unlisted column are unchanged. |
| Frame.CellOfConcat | quantif_experiments/scripts/visualization/parser.py:99 | Row `k` of the concatenation holds the cells of row `k` of the first frame, or, past the first frame's rows, those of row `k - \|a.rows\|` of the second. |
| Frame.CellOfTaggedConcat | quantif_experiments/scripts/visualization/parser.py:97-99 | After tagging and concatenating, a row carries its own frame's tag and its own frame's other cells. |
| ResultParser.RowOf | quantif_experiments/scripts/visualization/parser.py:94-95 | A record takes the schema's names by position. Missing trailing fields become NaN, and more fields than names is an error. |
| ResultParser.RowsOf | quantif_experiments/scripts/visualization/parser.py:94-95 | Every record is read under the schema, one row per record, and the read fails exactly when some record is too long. |
| ResultParser.RowsOfFirstError | quantif_experiments/scripts/visualization/parser.py:94-95 | The error of a failed read is that of the first record that is too long. |
| ResultParser.ReadCsv | quantif_experiments/scripts/visualization/parser.py:94-95 | Lines holding only blanks are skipped. With `header=0` the first other line is dropped whatever it says. There is one row per later record under the given names, and a text with no record is an empty table under those names. The read fails exactly when some later record has more fields than there are names. |
| ResultParser.ReadCsvFirstError | quantif_experiments/scripts/visualization/parser.py:94-95 | A failed read reports the first record after the header that has more fields than there are names, with its field count. |
| ResultParser.LatencyData | quantif_experiments/scripts/visualization/parser.py:86-99 | A missing subscriptions marker, or else a missing publishers marker, is that marker's error and never a partial table. A read that succeeds has the 13-name schema plus the role column. |
| ResultParser.ReadLatencyFile | quantif_experiments/scripts/visualization/parser.py:80-102 | A missing file fails at `open`, after the warning, and is not skipped. A read has the schema, the role column and the extra columns. |
| ResultParser.ReadResourcesFile | quantif_experiments/scripts/visualization/parser.py:104-108 | A missing file is an error. A read has the 7-name schema plus the extra columns, and one row per non-blank line after the first. |
| ResultParser.SubscriberSectionSpan | quantif_experiments/scripts/visualization/parser.py:88-91 | The subscriptions section is exactly the lines strictly after the subscriptions marker and strictly before the line preceding the publishers marker. |
| ResultParser.SubscriberSectionWrapsAround | quantif_experiments/scripts/visualization/parser.py:91 | With the publishers marker on the first line, `pubs_idx - 1` is `-1`, and the slice runs to the line before the last. |
| ResultParser.PublisherSectionSpan | quantif_experiments/scripts/visualization/parser.py:89-92 | The publishers section is every line after the publishers marker, through the end of the file. |
| ResultParser.LatencyRowsByRole | quantif_experiments/scripts/visualization/parser.py:88-99 | A readable file yields every subscriptions record after the section header, tagged `Subscription`, then every publishers record after its header, tagged `Publisher`. File order is kept, and each field sits in its schema column. |
| ResultParser.ReadFileTagged | quantif_experiments/scripts/visualization/parser.py:101-107 | Both readers carry each extra column's value on every row. |
| Aggregation.FoldMeaning | quantif_experiments/scripts/visualization/parser.py:135-144 | Reading files one after another fails exactly when some file fails, and then with the first failure. Otherwise it is `None` only when nothing was read, and else the rows of every file in order. |
| Aggregation.ArchLoopIsFold | quantif_experiments/scripts/visualization/parser.py:115-144 | The nested loops read exactly the files of the walk, in its order, appending each one's rows. |
| Aggregation.AggregateMeaning | quantif_experiments/scripts/visualization/parser.py:110-145 | `aggregate_results` fails with the first visited file that fails. It returns `None` exactly when no file is visited. Otherwise its rows are those of every visited file, in walk order. |
| Aggregation.VisitedMembers | quantif_experiments/scripts/visualization/parser.py:115-127 | A file is visited exactly when its architecture and rmw are listed and their directories exist, its duration and stress are listed, and its ipc is 0 or 1. |
| Aggregation.FullWalkSize | quantif_experiments/scripts/visualization/parser.py:115-127 | With every directory present, the walk visits two files per architecture, rmw, duration and stress. |
| Aggregation.ExperimentWalkSize | quantif_experiments/scripts/visualization/parser.py:15-18 | With all directories present, the experiment configuration reads 54 files. |
| Aggregation.MissingFileFails | quantif_experiments/scripts/visualization/parser.py:82-85 | A file inside a visited rmw directory that does not exist makes the whole aggregation fail rather than be skipped. |
| Aggregation.ComplexRtNeverRead | quantif_experiments/scripts/visualization/parser.py:15 | `complex_rt` is not among the aggregated architectures, so none of its files is read. |
| Aggregation.AggregateRowsTagged | quantif_experiments/scripts/visualization/parser.py:128-141 | Every aggregated row carries the architecture, rmw, duration, stress level and ipc setting of a file in the walk. |
| Aggregation.AggregateLatencyResults | quantif_experiments/scripts/visualization/parser.py:147-151 | The latency aggregation has the latency schema, the role column and the five metadata columns. |
| Aggregation.AggregateResourcesResults | quantif_experiments/scripts/visualization/parser.py:153-157 | The resources aggregation has the resources schema and the five metadata columns. |
| Aggregation.WrittenFileIsRead | quantif_experiments/scripts/visualization/parser.py:120-141 | The file one benchmark run writes is the file the walk reads for that run's architecture, rmw, duration, load and ipc flag. |
| ReportRoundTrip.MarkedSections | quantif_experiments/scripts/visualization/parser.py:88-92 | In a file with two marked sections, each marker is found on its own line. The reader's slices recover each section's header and records. The blank line the writer puts before the publishers title is the one line the reader drops. |
| ReportRoundTrip.SectionBodyRecords | quantif_experiments/scripts/visualization/parser.py:94-95 | A written section, read back, loses its header record and keeps every tracker's fields. |
| ReportRoundTrip.ReportReadBack | quantif_experiments/scripts/visualization/parser.py:80-99 | A report written by the logger with both sections non-empty reads back as one row per subscription tracker, tagged `Subscription`, then one per publisher tracker, tagged `Publisher`. Each row holds its tracker's printed fields in schema order, and the dropped header names the columns in the writer's order. |
| ReportRoundTrip.NoSubscriptionsUnreadable | performance_metrics/src/stat_logger.cpp:106-108 | A report without subscription trackers has no subscriptions marker, so it cannot be read. |
| ReportRoundTrip.NoPublishersUnreadable | performance_metrics/src/stat_logger.cpp:106-108 | A report with subscriptions but no publisher trackers has no publishers marker, so it cannot be read. |
| Topology.MsgTypeOf | quantif/scripts/set_topology_yaml.py:37 | The message type at the topic's first index in `topics`. A topic that is not listed is a `ValueError`, and an index beyond `msg_types` is an `IndexError`. |
| Topology.ConfigFor | quantif/scripts/set_topology_yaml.py:31-34 | The topic's first configuration, or `{}` when there are no configurations or the topic has none. An empty list is an `IndexError`. |
| Topology.PublisherFor | quantif/scripts/set_topology_yaml.py:31-39 | An entry builds exactly when the configuration and the message type do, with the configuration's error first. `period_ms` defaults to 10 and `msg_pass_by` to `shared_ptr`, per key. |
| Topology.SubscriberFor | quantif/scripts/set_topology_yaml.py:50-53 | A subscriber entry holds only the topic name and its message type, and fails exactly when the type lookup does. |
| Topology.Entries | quantif/scripts/set_topology_yaml.py:29-40 | As many entries as the positive counts add up to, grouped by topic in the dictionary's order: topic `i`'s entries are its built entry, repeated, at the positions from the counts before it up to those counts plus its own. The loop fails exactly when some topic with a positive count fails. |
| Topology.EntriesFirstError | quantif/scripts/set_topology_yaml.py:29-40 | A failing loop raises the error of the first topic with a positive count, in the dictionary's order, whose entry fails; every earlier counted topic builds. |
| Topology.EntriesPerTopic | quantif/scripts/set_topology_yaml.py:29-40 | Each topic has exactly as many entries under its name as its count asks, and none for a non-positive or missing count. |
| Topology.PairedTopology | quantif/scripts/set_topology_yaml.py:22-56 | Two nodes, `publisher` then `subscriber`. The publisher node holds all publisher entries, grouped by topic in the order of `num_publishers`, and has no `subscribers` key. The subscriber node holds all subscriber entries, grouped in the order of `num_subscribers`, and has no `publishers` key. Failure happens exactly when some counted topic cannot be built. |
| Topology.PairedFirstError | quantif/scripts/set_topology_yaml.py:22-56 | A failing paired topology raises the first failing publisher topic's error, or, when every counted publisher topic builds, the first failing subscriber topic's error. |
| Topology.PairedPublisherOrigin | quantif/scripts/set_topology_yaml.py:29-40 | Every publisher entry lies in the block of a topic with a positive count and is that topic's entry: its name, its message type, and its first configuration's period and passing mode or their defaults. |
| Topology.PairedSubscriberOrigin | quantif/scripts/set_topology_yaml.py:48-53 | Every subscriber entry lies in the block of a counted topic and is that topic's name with its message type. |
| Topology.PairedPerTopic | scripts/topologies/set_topology.py:26-50 | Per topic, the paired topology has as many publisher and subscriber entries as the counts ask. |
| Topology.ReplicaNode | quantif/scripts/set_topology_adv.py:25-52 | Node `k` is named `node_k` and has both lists, each grouped by topic in the counts' order with `_k` on every topic name. It fails exactly when some counted topic cannot be built. |
| Topology.ReplicatedTopology | quantif/scripts/set_topology_adv.py:4-54 | `max(num_nodes, 0)` nodes named `node_0`, `node_1`, … in order, each with both lists of the full sizes. With no nodes it never fails. |
| Topology.ReplicatedFirstError | quantif/scripts/set_topology_adv.py:24-52 | A failing replicated topology raises the error of node `node_0`: its first failing publisher topic's, or, when every counted publisher topic builds, its first failing subscriber topic's. |
| Topology.ReplicatedTotals | quantif/scripts/set_topology_adv.py:24-50 | The total number of publishers (subscribers) is the node count times the summed publisher (subscriber) counts. |
| Topology.ReplicaPerTopic | quantif/scripts/set_topology_adv.py:32-50 | Node `k` holds its entries grouped by topic in the counts' order, has per topic as many entries named `topic_k` as the count asks, and no publisher entry has a `msg_pass_by` key. |
| Topology.ReplicaNamesDecode | quantif/scripts/set_topology_adv.py:26 | The node names decode back to their number through `item_name_to_id`. |
| TopologyExample.ExampleTopology | scripts/topologies/set_topology.py:56-79 | The example builds 107 publisher entries, 100 of them for `laser_topic`, and 10 subscriber entries. Laser publishers run every 20 ms. The byte topic publishes `stamped8mb` at the default 10 ms, passed by shared pointer. |

## Left out

- **File system.** It is a set of directories and a map from path to file
  text, so the real `os.path.isdir`, `os.path.isfile` and `open` calls are out.
  The warning `read_latency_file` prints for a missing file is left out, but the
  `open` failure that follows it is kept.
- **pandas type inference.** Cells keep the text of their field, or are NaN.
  Parsing numbers, quoting and the dtype of a column are not modelled.
- **The column union of `pd.concat`.** Every frame that is concatenated is
  proved to have the same columns, so the union is never needed.
- **Floating-point output of the logger.** `std::round`, `setprecision(4)`, the
  percentages, the average latency, `throughput / 1024` and division by zero
  are out. Each value is an opaque text that holds no `;`, `\n` or `\r`.
- **The `std::hash` fallback** of `item_name_to_id` is a function parameter, so
  `std::hash` itself and its truncation from `size_t` to `int` are out.
- **The `uint64_t` totals** are natural numbers, so their wrap-around is out.
- **The run itself.** The `mkdir -p` through `system()`, rclcpp, the executor,
  spinning, the resource logger thread and `sleep` in `quantif_experiment.cpp`
  are out.
- **Where the report is saved.** The code that writes the two titled sections
  into the latency file is in the system class, which is not part of this model.
  The report is the logger's output for the subscriptions trackers under
  `Subscriptions stats:`, then for the publishers trackers under
  `Publishers stats:`.
- **`experiments_options.hpp`** is a wrapper over cxxopts. Its options are a
  record of already-parsed values.
- **The `__main__` block of `parser.py`** is a demonstration script that uses an
  undefined name.
- **The plotting scripts** (`latency_stats.py`, `realtime_stats.py`,
  `resources_stats.py`, `lost_msgs_stats.py`), `run_psutil.py` and both
  `run_experiment.py` files: charts, process sampling and process launching.
- **YAML and JSON.** The load and dump at module level in the `set_topology*`
  scripts are out. The `{"nodes": ...}` wrapper is the node list itself.
- **`std::endl` flushing.** A stream is the text it receives.
- ReportRoundTrip.ReportReadBack: requires that tracker node and entity names hold no `;`, `\n` or `\r`. A name with any of them would split or break its record, since reading turns `\r` into a line break, and the round trip does not hold for it.
- Topology.ReplicatedTopology: the count of nodes is an integer, not another Python value `range` might accept.
- StatLogger.LogTrackersLatencyTotalStats: states the integer columns only. The average latency and the percentages are opaque texts.
- ResultParser.ReadCsv: a record with more fields than names is always `TooManyFields`. pandas instead turns the leading surplus fields into the index when the first record after the header is the wide one, and then fails only on records wider than that. Only space and tab count as blanks.
- Names.ItemNameToId: the hash is any function of the name, because `std::hash` is implementation-defined.
