# parallel-dbgen, modelled in Dafny

`parallel-dbgen.py` runs on every node of a Spark/HDFS cluster. It generates
one partition of the TPC-H data with `dbgen` and copies the resulting table
files into HDFS. Each node works out its partition without talking to the
others. An explicit integer `-p` is used as it is. Otherwise the node uses
its position in the slave file: the unlisted master is partition 1, and the
slave at position i is partition i + 2. The node then runs
`dbgen ... -S <partition> -C <num_parts>` and uploads its files. The master
also uploads `nation.tbl` and `region.tbl`. Every node uploads the six
partitioned tables as `<table>.tbl.<partition>` to
`<hdfs_output>/<table>/<table>.tbl.<partition>`.

The model has these modules:

- `Decimal` (decimal.dfy): Python 2 `int()` on a string, and the `%d`
  conversion. Reading back what `%d` wrote gives the same integer.
- `CommandLine` (command_line.dfy): the `for o, a in opts` loop as a method,
  proved equal to a fold. The fold is proved to keep, for each option, the
  value of the last pair that sets it. A `-s` or `-n` value that does not
  parse leaves the previous value in place.
- `Partition` (partition.dfy): partition resolution from the `-p` text, the
  slave addresses and the node's own address.
- `Upload` (upload.dfy): the ordered upload plan as `(local file, HDFS path)`
  pairs. Proved: the naming scheme, the master-only copies, and that the
  destinations of one node, and of nodes with different partitions, never
  coincide.
- `DbgenRun` (dbgen_run.dfy): a `Shell` class whose `log` records every
  command line passed to `execute`. It also holds `generate_data_to_hdfs`,
  its helpers and `main` as methods that append to that log, and
  cluster-level lemmas.

Three points where the code is easy to misread:

- The list lookup runs only when `-p` is present and is not an integer. A
  missing `-p` ends the run with the usage message (lines 131-137).
- The partition count given to dbgen with `-C` is the `-n` value.
  `len(slaves) + 1` is computed into `num_tasks` at line 147, and nothing
  reads it.
- No list position is reserved for the coordinator. Every listed address at
  position i (first occurrence) gets i + 2. An unlisted address gets 1.

## Model

| member | source | states |
|---|---|---|
| `Decimal.ParseInt` | parallel-dbgen.py:120 | `int()` of a non-empty run of digits is the number they spell in base 10; any text that parses contains a digit |
| `Decimal.IntToString` | parallel-dbgen.py:80 | `%d` writes digits only for a non-negative number, and `-` followed by digits for a negative one |
| `Decimal.ParseIntOfIntToString` | parallel-dbgen.py:136-137 | `int()` applied to the `%d` text of any integer, negative ones included, returns that integer |
| `Decimal.IntToStringInjective` | parallel-dbgen.py:80 | different partition numbers give different `%d` texts |
| `CommandLine.Step` | parallel-dbgen.py:107-122 | one loop turn changes only the option its flag names; `-s` and `-n` change it only when the value parses (decimal number, integer), and `-n` stores the parsed integer |
| `CommandLine.LastSetting` | parallel-dbgen.py:106-122 | the position found is that of a pair setting the option with no later pair setting it; `None` exactly when no pair sets it |
| `CommandLine.Fold` | parallel-dbgen.py:106-122 | after the loop, each option holds the value of the last pair that sets it (`-n` holds its integer), or `None` if no pair does |
| `CommandLine.FoldAppend` | parallel-dbgen.py:106-122 | one more pair on the command line is one more loop turn applied to the options so far |
| `CommandLine.ParseOptions` | parallel-dbgen.py:100-122 | the imperative loop over the pairs yields exactly the fold |
| `CommandLine.CompleteIffAllGiven` | parallel-dbgen.py:131-134 | the run continues past the check for unset options exactly when each of the five options is set by some pair |
| `Partition.FirstIndex` | parallel-dbgen.py:151 | `.index` returns a position holding the address with no earlier occurrence |
| `Partition.ResolvePartition` | parallel-dbgen.py:136-151 | an integer `-p` is the partition; otherwise an unlisted address gets 1 and a listed one gets its first position plus 2, which lies in 2 .. L + 1 |
| `Partition.ExplicitPartitionWins` | parallel-dbgen.py:136-137 | a `-p` written with `%d`, as the Spark driver in the header writes it, is the partition for every slave list and address |
| `Partition.FallbackMasterIff` | parallel-dbgen.py:146-151 | in fallback mode the partition is 1 exactly when the address is not listed, and never below 1 |
| `Partition.ListedAt` | parallel-dbgen.py:149-151 | in fallback mode, an address listed at i and nowhere earlier gets i + 2 |
| `Partition.ClusterPartitionsAreOneToOne` | parallel-dbgen.py:142-151 | with an unlisted master and distinct slaves, the master gets 1, slave i gets i + 2, and no two nodes share a partition |
| `Upload.PartitionedCopy` | parallel-dbgen.py:79-82 | the partitioned file keeps its local name inside its table's HDFS directory; that name starts with the table name and is never the master's `<table>.tbl` |
| `Upload.CopyPlan` | parallel-dbgen.py:60-71 | on partition 1 the plan starts with `nation.tbl`, then `region.tbl`; every plan ends with the six partitioned copies in the order supplier, part, partsupp, orders, lineitem, customer; 8 copies on partition 1, 6 otherwise |
| `Upload.MasterCopiesIffMaster` | parallel-dbgen.py:60-63 | the `nation.tbl` and `region.tbl` copies appear in the plan if and only if the partition is 1 |
| `Upload.PlanFollowsTables` | parallel-dbgen.py:79-87 | each copy lands in its table's directory under its local file name: `<t>.tbl` for nation and region, `<t>.tbl.<p>` otherwise |
| `Upload.HdfsPathInjective` | parallel-dbgen.py:81 | `<base>/<table>/<file>` determines table and file when the table name has no `/` |
| `Upload.PlanDestinationsDistinct` | parallel-dbgen.py:60-82 | no two copies of one node go to the same HDFS path |
| `Upload.PlansOfDifferentPartitionsDisjoint` | parallel-dbgen.py:79-82 | nodes with different partitions never write the same HDFS path |
| `DbgenRun.DbgenPath` | parallel-dbgen.py:44 | dbgen's directory lies inside the script's directory: the path is the script's directory followed by `/` |
| `DbgenRun.Render` | parallel-dbgen.py:55-56 | dbgen's command line starts with `<dbgen_path>/dbgen`; a copy's line (lines 86-87) starts with `HADOOP_EXECUTABLE` |
| `DbgenRun.RunPlan` | parallel-dbgen.py:55-71 | the dbgen command comes first, carries `-S <partition> -C <num_parts>`, and is the only one; then the copies in plan order; 1 + 6 + (2 on partition 1) commands |
| `DbgenRun.CopyPlanSpelledOut` | parallel-dbgen.py:60-71 | the upload plan is exactly the calls of lines 62-63 (partition 1 only) followed by the six `copy_partitioned_table` calls |
| `DbgenRun.RunPlanTexts` | parallel-dbgen.py:55-87 | the command lines of a run are dbgen's, then one line per copy of the upload plan, in plan order |
| `DbgenRun.Shell.Execute` | parallel-dbgen.py:74-76 | the command line is appended to the log and nothing else changes |
| `DbgenRun.CopyLocalFileToHdfs` | parallel-dbgen.py:85-87 | appends one `hadoop fs -copyFromLocal <local> <hdfs>` line |
| `DbgenRun.CopyPartitionedTable` | parallel-dbgen.py:79-82 | appends the copy of `<t>.tbl.<p>` to `<base>/<t>/<t>.tbl.<p>` |
| `DbgenRun.CopyPartitionedTables` | parallel-dbgen.py:65-71 | appends the six partitioned copies in source order |
| `DbgenRun.GenerateDataToHdfs` | parallel-dbgen.py:40-71 | appends exactly the command lines of the run plan, in order |
| `DbgenRun.RunMain` | parallel-dbgen.py:90-155 | with an option missing, no command is issued; otherwise the partition is resolved and the log grows by the run plan for `-h`, that partition, `-s` and `-n` |
| `DbgenRun.ClusterUploadsDisjoint` | parallel-dbgen.py:136-155 | in fallback mode on a well-formed cluster, no two nodes upload to the same HDFS path |
| `DbgenRun.ScenarioFold` | parallel-dbgen.py:106-122 | the pairs `-l /mnt/tpch -h <base> -s 1 -n 3 -p auto` leave every option set, with `-n` read as the integer 3 and `-p` kept as the text `auto` |
| `DbgenRun.ScenarioPartitions` | parallel-dbgen.py:136-151 | with `-p auto` and slaves `10.0.0.2`, `10.0.0.3`, the node `10.0.0.3` gets partition 3 and the unlisted `10.0.0.1` gets 1 |
| `DbgenRun.TwoSlaveScenario` | parallel-dbgen.py:106-155 | for those pairs the option check passes; the second slave's run plan is dbgen with the scale text `1` (see `DbgenRun.Render` under Left out) and `-S 3 -C 3`, the 3 coming from `-n 3`, followed by six copies, 7 commands in all |
| `DbgenRun.ThirdPartitionUploads` | parallel-dbgen.py:60-71 | partition 3 uploads the six `<table>.tbl.3` files in source order and neither `nation.tbl` nor `region.tbl`; partition 1 uploads `nation.tbl` |
| `DbgenRun.TwoSlaveRun` | parallel-dbgen.py:90-155 | `main` on the second slave of the scenario reports partition 3 and logs exactly the 7 command lines of its run plan |

## Left out

- `getopt` tokenisation and its error path (lines 92-98): the model starts from the `(flag, value)` pairs getopt returns.
- `usage()` and every `print` (lines 36-37, 49, 53, 75, 115, 122, 124-129, 152): console output only.
- `os.makedirs` and `os.chdir` (lines 47-54): the working directory is not modelled, so `GenerateDataToHdfs` takes no local output path. `-l` is still required.
- `subprocess.call` (line 76): commands are recorded in `Shell.log`, not run. The source ignores their exit statuses, and so does the model.
- Reading `SLAVE_FILE`, `strip()` of its lines, and `socket.gethostbyname`/`gethostname` (lines 142-144): the resolved slave addresses and the node's own address are inputs. An unreadable file or a failed lookup is not modelled.
- `os.path.dirname(os.path.abspath(__file__))` (line 44): the script's directory is an input.
- `CommandLine.IsDecimalNumber`: accepts the `float()` forms made of a sign, digits and a decimal point. Exponents, `inf` and `nan` are not accepted.
- `DbgenRun.Render`: carries the `-s` value as written. The `%.1f` rendering of the parsed float (line 55) is floating point and is not modelled.
- `DbgenRun.RunMain`: treats a missing `-n` or `-s` as `Usage`. In the source, the print at line 128 or 129 raises a `TypeError` before the check at line 131. Either way the run stops before any command.
- `Decimal.ParseInt`: follows Python 2 `int()` for base-10 text: surrounding blanks, a sign optionally followed by blanks, then digits. A trailing long-integer `L` suffix is rejected, as Python 2 `int()` rejects it.
