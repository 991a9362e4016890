/**
 * One run of the script on one node: the option fold, the partition, then
 * `generate_data_to_hdfs`, which hands dbgen's command line and then one
 * `hadoop fs -copyFromLocal` per table to `execute`. A `Shell` stands for
 * `execute`: it records each command line instead of running it.
 */
module DbgenRun {
  import opened Wrappers
  import opened Decimal
  import opened CommandLine
  import opened Partition
  import opened Upload

  /** `HADOOP_EXECUTABLE`. */
  const HadoopExecutable := "/root/ephemeral-hdfs/bin/hadoop"

  /** `dbgen_path`, for the directory the script lives in. */
  function DbgenPath(scriptDir: string): (path: string)
    ensures |path| > |scriptDir| && path[..|scriptDir|] == scriptDir && path[|scriptDir|] == '/'
  {
    scriptDir + "/tpch-dbgen"
  }

  /** A command the script runs. `scale` is the scale factor as written on the command line. */
  datatype Command =
    | Generate(dbgenPath: string, scale: string, partition: int, numParts: int)
    | CopyFromLocal(copy: Copy)

  /** The shell text of a command: it runs dbgen from its directory, or the hadoop client. */
  function Render(c: Command): (r: string)
    ensures c.Generate? ==>
      |r| > |c.dbgenPath| + 6 && r[..|c.dbgenPath| + 6] == c.dbgenPath + "/dbgen"
    ensures c.CopyFromLocal? ==>
      |r| > |HadoopExecutable| && r[..|HadoopExecutable|] == HadoopExecutable
  {
    match c
    case Generate(dbgenPath, scale, partition, numParts) =>
      dbgenPath + "/dbgen -b " + dbgenPath + "/dists.dss -v -f -s " + scale +
      " -S " + IntToString(partition) + " -C " + IntToString(numParts)
    case CopyFromLocal(Copy(localPath, hdfsPath)) =>
      HadoopExecutable + " fs -copyFromLocal " + localPath + " " + hdfsPath
  }

  function Texts(cmds: seq<Command>): seq<string> {
    seq(|cmds|, i requires 0 <= i < |cmds| => Render(cmds[i]))
  }

  /**
   * The commands of `generate_data_to_hdfs`, in the order they are issued:
   * dbgen first and only there, with `-S <partition> -C <numParts>`; then the
   * copies of the upload plan; 1 + 6 + 2 commands on the master, 1 + 6 on
   * any other node.
   */
  function RunPlan(dbgenPath: string, base: string, partition: int, scale: string, numParts: int): (cmds: seq<Command>)
    ensures |cmds| == 1 + 6 + (if partition == 1 then 2 else 0)
    ensures cmds[0] == Generate(dbgenPath, scale, partition, numParts)
    ensures forall i :: 1 <= i < |cmds| ==> cmds[i] == CopyFromLocal(CopyPlan(base, partition)[i - 1])
    ensures forall i :: 1 <= i < |cmds| ==> !cmds[i].Generate?
  {
    var copies := CopyPlan(base, partition);
    [Generate(dbgenPath, scale, partition, numParts)] +
    seq(|copies|, i requires 0 <= i < |copies| => CopyFromLocal(copies[i]))
  }

  /** Stands for `execute`: the command lines handed to the shell, oldest first. */
  class Shell {
    var log: seq<string>

    constructor ()
      ensures log == []
    {
      log := [];
    }

    /** `execute(cmd)`. */
    method Execute(cmd: string)
      modifies this
      ensures log == old(log) + [cmd]
    {
      log := log + [cmd];
    }
  }

  /** `copy_local_file_to_hdfs`. */
  method CopyLocalFileToHdfs(sh: Shell, localPath: string, hdfsPath: string)
    modifies sh
    ensures sh.log == old(sh.log) + [Render(CopyFromLocal(Copy(localPath, hdfsPath)))]
  {
    sh.Execute(HadoopExecutable + " fs -copyFromLocal " + localPath + " " + hdfsPath);
  }

  /** `copy_partitioned_table`. */
  method CopyPartitionedTable(sh: Shell, base: string, table: string, partition: int)
    modifies sh
    ensures sh.log == old(sh.log) + [Render(CopyFromLocal(PartitionedCopy(base, table, partition)))]
  {
    var localFileName := table + ".tbl." + IntToString(partition);
    var hdfsFileName := base + "/" + table + "/" + localFileName;
    CopyLocalFileToHdfs(sh, localFileName, hdfsFileName);
  }

  /** The command lines of a list of copies, in order. */
  function CopyTexts(copies: seq<Copy>): seq<string> {
    seq(|copies|, i requires 0 <= i < |copies| => Render(CopyFromLocal(copies[i])))
  }

  /**
   * Proof helper for `GenerateDataToHdfs`: the master's two extra copies,
   * as lines 62-63 issue them; none elsewhere.
   */
  function MasterCopies(base: string, partition: int): seq<Copy> {
    if partition == 1 then
      [Copy("nation.tbl", base + "/nation/nation.tbl"), Copy("region.tbl", base + "/region/region.tbl")]
    else []
  }

  /**
   * Proof helper for `GenerateDataToHdfs`: the six partitioned copies, as
   * lines 66-71 issue them.
   */
  function PartitionedCopies(base: string, partition: int): seq<Copy> {
    [PartitionedCopy(base, "supplier", partition), PartitionedCopy(base, "part", partition),
     PartitionedCopy(base, "partsupp", partition), PartitionedCopy(base, "orders", partition),
     PartitionedCopy(base, "lineitem", partition), PartitionedCopy(base, "customer", partition)]
  }

  /** The upload plan, table by table, as the source lists its calls. */
  lemma CopyPlanSpelledOut(base: string, partition: int)
    ensures CopyPlan(base, partition) ==
      (if partition == 1 then
         [Copy("nation.tbl", base + "/nation/nation.tbl"), Copy("region.tbl", base + "/region/region.tbl")]
       else []) +
      [PartitionedCopy(base, "supplier", partition), PartitionedCopy(base, "part", partition),
       PartitionedCopy(base, "partsupp", partition), PartitionedCopy(base, "orders", partition),
       PartitionedCopy(base, "lineitem", partition), PartitionedCopy(base, "customer", partition)]
  {
  }

  /** Proof helper: rendering two lists of copies one after the other. */
  lemma CopyTextsAppend(a: seq<Copy>, b: seq<Copy>)
    ensures CopyTexts(a + b) == CopyTexts(a) + CopyTexts(b)
  {
  }

  /** Proof helper for `RunPlanTexts`: a sequence is its head followed by its tail. */
  lemma HeadThenRest<T>(s: seq<T>, head: T, rest: seq<T>)
    requires |s| == |rest| + 1 && s[0] == head
    requires forall i :: 0 <= i < |rest| ==> s[i + 1] == rest[i]
    ensures s == [head] + rest
  {
  }

  /** The command lines of a run: dbgen's, then one per copy of the upload plan, in plan order. */
  lemma RunPlanTexts(dbgenPath: string, base: string, partition: int, scale: string, numParts: int)
    ensures Texts(RunPlan(dbgenPath, base, partition, scale, numParts)) ==
      [Render(Generate(dbgenPath, scale, partition, numParts))] + CopyTexts(CopyPlan(base, partition))
  {
    var lhs := Texts(RunPlan(dbgenPath, base, partition, scale, numParts));
    var uploads := CopyTexts(CopyPlan(base, partition));
    forall i | 0 <= i < |uploads| ensures lhs[i + 1] == uploads[i] {
    }
    HeadThenRest(lhs, Render(Generate(dbgenPath, scale, partition, numParts)), uploads);
  }

  /** Proof helper for `GenerateDataToHdfs`: regrouping four appended logs. */
  lemma AppendAssociative<T>(a: seq<T>, b: seq<T>, c: seq<T>, d: seq<T>)
    ensures a + b + c + d == a + (b + (c + d))
  {
  }

  /** Proof helper for `CopyPartitionedTables`: six lines appended one at a time. */
  lemma AppendSix<T>(log: seq<T>, a: T, b: T, c: T, d: T, e: T, f: T)
    ensures log + [a] + [b] + [c] + [d] + [e] + [f] == log + [a, b, c, d, e, f]
  {
  }

  /** Proof helper for `CopyPartitionedTables`: the lines of the six partitioned copies. */
  lemma PartitionedCopyTexts(base: string, partition: int)
    ensures CopyTexts(PartitionedCopies(base, partition)) ==
      [Render(CopyFromLocal(PartitionedCopy(base, "supplier", partition))),
       Render(CopyFromLocal(PartitionedCopy(base, "part", partition))),
       Render(CopyFromLocal(PartitionedCopy(base, "partsupp", partition))),
       Render(CopyFromLocal(PartitionedCopy(base, "orders", partition))),
       Render(CopyFromLocal(PartitionedCopy(base, "lineitem", partition))),
       Render(CopyFromLocal(PartitionedCopy(base, "customer", partition)))]
  {
  }

  /** The six `copy_partitioned_table` calls every node makes (lines 65-71). */
  method CopyPartitionedTables(sh: Shell, hdfsOutput: string, partition: int)
    modifies sh
    ensures sh.log == old(sh.log) + CopyTexts(PartitionedCopies(hdfsOutput, partition))
  {
    CopyPartitionedTable(sh, hdfsOutput, "supplier", partition);
    CopyPartitionedTable(sh, hdfsOutput, "part", partition);
    CopyPartitionedTable(sh, hdfsOutput, "partsupp", partition);
    CopyPartitionedTable(sh, hdfsOutput, "orders", partition);
    CopyPartitionedTable(sh, hdfsOutput, "lineitem", partition);
    CopyPartitionedTable(sh, hdfsOutput, "customer", partition);
    AppendSix(old(sh.log),
      Render(CopyFromLocal(PartitionedCopy(hdfsOutput, "supplier", partition))),
      Render(CopyFromLocal(PartitionedCopy(hdfsOutput, "part", partition))),
      Render(CopyFromLocal(PartitionedCopy(hdfsOutput, "partsupp", partition))),
      Render(CopyFromLocal(PartitionedCopy(hdfsOutput, "orders", partition))),
      Render(CopyFromLocal(PartitionedCopy(hdfsOutput, "lineitem", partition))),
      Render(CopyFromLocal(PartitionedCopy(hdfsOutput, "customer", partition))));
    PartitionedCopyTexts(hdfsOutput, partition);
  }

  /** `generate_data_to_hdfs`, from the point where dbgen's command is built. */
  method GenerateDataToHdfs(sh: Shell, scriptDir: string, hdfsOutput: string, partition: int,
                            scale: string, numParts: int)
    modifies sh
    ensures sh.log == old(sh.log) + Texts(RunPlan(DbgenPath(scriptDir), hdfsOutput, partition, scale, numParts))
  {
    var dbgenPath := DbgenPath(scriptDir);
    ghost var start := sh.log;
    ghost var dbgen := Render(Generate(dbgenPath, scale, partition, numParts));
    ghost var masters := MasterCopies(hdfsOutput, partition);
    ghost var partitioned := PartitionedCopies(hdfsOutput, partition);
    sh.Execute(dbgenPath + "/dbgen -b " + dbgenPath + "/dists.dss -v -f -s " + scale +
               " -S " + IntToString(partition) + " -C " + IntToString(numParts));
    ghost var generated := sh.log;
    assert generated == start + [dbgen];

    if partition == 1 {
      CopyLocalFileToHdfs(sh, "nation.tbl", hdfsOutput + "/nation/nation.tbl");
      CopyLocalFileToHdfs(sh, "region.tbl", hdfsOutput + "/region/region.tbl");
    }
    assert sh.log == generated + CopyTexts(masters);

    CopyPartitionedTables(sh, hdfsOutput, partition);
    AppendAssociative(start, [dbgen], CopyTexts(masters), CopyTexts(partitioned));
    CopyTextsAppend(masters, partitioned);
    CopyPlanSpelledOut(hdfsOutput, partition);
    RunPlanTexts(dbgenPath, hdfsOutput, partition, scale, numParts);
  }

  /** How a run ends: a usage message, or the partition it generated. */
  datatype Outcome = Usage | Ran(partition: int)

  /**
   * `main` after `getopt`: fold the options; stop with a usage message if
   * one is missing; otherwise resolve the partition and generate and upload.
   */
  method RunMain(sh: Shell, opts: seq<(string, string)>, slaveIps: seq<Addr>, selfIp: Addr,
                 scriptDir: string)
    returns (outcome: Outcome)
    modifies sh
    ensures Missing(Fold(opts)) ==> outcome == Usage && sh.log == old(sh.log)
    ensures !Missing(Fold(opts)) ==>
      var o := Fold(opts);
      var partition := ResolvePartition(o.partition.value, slaveIps, selfIp);
      outcome == Ran(partition) &&
      sh.log == old(sh.log) +
        Texts(RunPlan(DbgenPath(scriptDir), o.hdfsOutput.value, partition, o.scale.value, o.numParts.value))
  {
    var o := ParseOptions(opts);
    if Missing(o) {
      return Usage;
    }
    var partition := ResolvePartition(o.partition.value, slaveIps, selfIp);
    GenerateDataToHdfs(sh, scriptDir, o.hdfsOutput.value, partition, o.scale.value, o.numParts.value);
    outcome := Ran(partition);
  }

  /**
   * In fallback mode, on a cluster whose master is not listed and whose
   * slaves are listed once each, no two nodes upload to the same HDFS path.
   */
  lemma ClusterUploadsDisjoint(p: string, slaveIps: seq<Addr>, masterIp: Addr, base: string,
                               a: Addr, b: Addr)
    requires ParseInt(p).None?
    requires masterIp !in slaveIps && Distinct(slaveIps)
    requires a in [masterIp] + slaveIps && b in [masterIp] + slaveIps && a != b
    ensures forall i, j ::
      0 <= i < |CopyPlan(base, ResolvePartition(p, slaveIps, a))| &&
      0 <= j < |CopyPlan(base, ResolvePartition(p, slaveIps, b))| ==>
        CopyPlan(base, ResolvePartition(p, slaveIps, a))[i].hdfsPath !=
        CopyPlan(base, ResolvePartition(p, slaveIps, b))[j].hdfsPath
  {
    ClusterPartitionsAreOneToOne(p, slaveIps, masterIp);
    PlansOfDifferentPartitionsDisjoint(base, ResolvePartition(p, slaveIps, a), ResolvePartition(p, slaveIps, b));
  }

  /** A command line that sets every option, with a `-p` that is not a number. */
  function ScenarioOptions(base: string): seq<(string, string)> {
    [("-l", "/mnt/tpch"), ("-h", base), ("-s", "1"), ("-n", "3"), ("-p", "auto")]
  }

  /**
   * Two slaves are listed and the options are `ScenarioOptions`: the run
   * goes ahead with `-n 3`; the second slave generates partition 3 with
   * `-S 3 -C 3`, followed by six uploads; an unlisted node is the master.
   */
  lemma TwoSlaveScenario(dbgenPath: string, base: string)
    ensures !Missing(Fold(ScenarioOptions(base)))
    ensures Fold(ScenarioOptions(base)).numParts == Some(3)
    ensures Fold(ScenarioOptions(base)).hdfsOutput == Some(base)
    ensures ResolvePartition(Fold(ScenarioOptions(base)).partition.value, ["10.0.0.2", "10.0.0.3"], "10.0.0.3") == 3
    ensures ResolvePartition(Fold(ScenarioOptions(base)).partition.value, ["10.0.0.2", "10.0.0.3"], "10.0.0.1") == 1
    ensures var o := Fold(ScenarioOptions(base));
      var plan := RunPlan(dbgenPath, o.hdfsOutput.value, 3, o.scale.value, o.numParts.value);
      plan[0] == Generate(dbgenPath, "1", 3, 3) && |plan| == 7
  {
    ScenarioFold(base);
    ScenarioValues();
    ScenarioPartitions();
  }

  /** With `-p auto` and slaves `10.0.0.2`, `10.0.0.3`: the second slave gets 3, an unlisted node 1. */
  lemma ScenarioPartitions()
    ensures ResolvePartition("auto", ["10.0.0.2", "10.0.0.3"], "10.0.0.3") == 3
    ensures ResolvePartition("auto", ["10.0.0.2", "10.0.0.3"], "10.0.0.1") == 1
  {
    ScenarioValues();
    var slaves := ["10.0.0.2", "10.0.0.3"];
    assert slaves[0] != "10.0.0.3" by { assert slaves[0][7] != '3'; }
    assert "10.0.0.1" !in slaves by { assert slaves[0][7] != '1' && slaves[1][7] != '1'; }
  }

  /**
   * What the second slave of the scenario uploads: the six `<table>.tbl.3`
   * files, and neither `nation.tbl` nor `region.tbl`, which the master
   * (partition 1) uploads.
   */
  lemma ThirdPartitionUploads(base: string)
    ensures forall i :: 0 <= i < 6 ==>
      CopyPlan(base, 3)[i].localPath == PartitionedTables[i] + ".tbl.3"
    ensures Copy("nation.tbl", base + "/nation/nation.tbl") !in CopyPlan(base, 3)
    ensures Copy("region.tbl", base + "/region/region.tbl") !in CopyPlan(base, 3)
    ensures Copy("nation.tbl", base + "/nation/nation.tbl") in CopyPlan(base, 1)
  {
    ScenarioValues();
    MasterCopiesIffMaster(base, 3);
    MasterCopiesIffMaster(base, 1);
    var plan := CopyPlan(base, 3);
    forall i | 0 <= i < 6 ensures plan[i].localPath == PartitionedTables[i] + ".tbl.3" {
      assert plan[|plan| - 6 + i].localPath == PartitionedTables[i] + ".tbl." + IntToString(3);
    }
  }

  lemma ScenarioValues()
    ensures ParseInt("3") == Some(3)
    ensures ParseInt("auto") == None
    ensures IsDecimalNumber("1")
    ensures IntToString(3) == "3"
  {
    assert Trim("3") == "3";
    assert DigitsValue("3") == DigitsValue("") * 10 + 3;
    assert Trim("auto") == "auto" && !IsDigit('a');
    assert Trim("1") == "1" && AllDigits("1"[..1]);
  }

  /** The options the scenario's flags name. */
  lemma ScenarioKinds()
    ensures KindOf("-l") == Some(LocalOutput) && KindOf("-h") == Some(HdfsOutput)
    ensures KindOf("-s") == Some(Scale) && KindOf("-n") == Some(NumParts) && KindOf("-p") == Some(Part)
  {
  }

  /** Proof helper for `ScenarioFold`: five pairs are five turns of the loop. */
  lemma FoldOfFive(a: (string, string), b: (string, string), c: (string, string),
                   d: (string, string), e: (string, string))
    ensures Fold([a, b, c, d, e]) == Step(Step(Step(Step(Step(Unset, a), b), c), d), e)
  {
    SnocFive(a, b, c, d, e);
    assert Fold([]) == Unset;
    FoldAppend([], a);
    FoldAppend([a], b);
    FoldAppend([a, b], c);
    FoldAppend([a, b, c], d);
    FoldAppend([a, b, c, d], e);
  }

  /** Proof helper for `FoldOfFive`: a five-element display, built up one element at a time. */
  lemma SnocFive<T>(a: T, b: T, c: T, d: T, e: T)
    ensures [a] == [] + [a] && [a, b] == [a] + [b] && [a, b, c] == [a, b] + [c]
    ensures [a, b, c, d] == [a, b, c] + [d] && [a, b, c, d, e] == [a, b, c, d] + [e]
  {
  }

  /** The options the scenario's command line leaves after the loop. */
  lemma ScenarioFold(base: string)
    ensures Fold(ScenarioOptions(base)) == Options(Some("/mnt/tpch"), Some(base), Some("1"), Some("auto"), Some(3))
  {
    var l, h, s, n, p := ("-l", "/mnt/tpch"), ("-h", base), ("-s", "1"), ("-n", "3"), ("-p", "auto");
    FoldOfFive(l, h, s, n, p);
    ScenarioKinds();
    ScenarioValues();
    var o1 := Step(Unset, l);
    assert o1 == Options(Some("/mnt/tpch"), None, None, None, None);
    var o2 := Step(o1, h);
    assert o2 == Options(Some("/mnt/tpch"), Some(base), None, None, None);
    var o3 := Step(o2, s);
    assert o3 == Options(Some("/mnt/tpch"), Some(base), Some("1"), None, None);
    var o4 := Step(o3, n);
    assert o4 == Options(Some("/mnt/tpch"), Some(base), Some("1"), None, Some(3));
  }

  /**
   * The scenario run end to end on the second slave: `main` reports
   * partition 3 and issues exactly dbgen with `-S 3 -C 3` and the six
   * copies of partition 3.
   */
  method TwoSlaveRun(sh: Shell, scriptDir: string, base: string) returns (outcome: Outcome)
    modifies sh
    ensures outcome == Ran(3)
    ensures sh.log == old(sh.log) + Texts(RunPlan(DbgenPath(scriptDir), base, 3, "1", 3))
    ensures |sh.log| == |old(sh.log)| + 7
  {
    TwoSlaveScenario(DbgenPath(scriptDir), base);
    ScenarioFold(base);
    outcome := RunMain(sh, ScenarioOptions(base), ["10.0.0.2", "10.0.0.3"], "10.0.0.3", scriptDir);
  }
}
