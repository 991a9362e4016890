/**
 * The copies from the local output directory to HDFS (lines 60-71 and
 * 79-87): which `(local file, HDFS path)` pairs a node uploads, in order,
 * and how both names are formed.
 */
module Upload {
  import opened Decimal

  /** The six tables dbgen splits into partitions, in upload order. */
  const PartitionedTables: seq<string> :=
    ["supplier", "part", "partsupp", "orders", "lineitem", "customer"]

  /** The two small tables only the master (partition 1) uploads. */
  const MasterTables: seq<string> := ["nation", "region"]

  /** One `hadoop fs -copyFromLocal <localPath> <hdfsPath>`. */
  datatype Copy = Copy(localPath: string, hdfsPath: string)

  /** `"%s/%s/%s" % (base, table, file)`: a file in the table's directory. */
  function HdfsPath(base: string, table: string, file: string): string {
    base + "/" + table + "/" + file
  }

  /** `"%s.tbl.%d" % (table, partition)`. */
  function PartitionedFileName(table: string, partition: int): string {
    table + ".tbl." + IntToString(partition)
  }

  /**
   * `copy_partitioned_table`: the file keeps its local name inside the
   * table's directory, and that name is never the master's `<table>.tbl`.
   */
  function PartitionedCopy(base: string, table: string, partition: int): (c: Copy)
    ensures c.hdfsPath == HdfsPath(base, table, c.localPath)
    ensures |c.localPath| > |table| + 4 && c.localPath[..|table|] == table
    ensures c.localPath != table + ".tbl"
  {
    var file := PartitionedFileName(table, partition);
    Copy(file, HdfsPath(base, table, file))
  }

  /** The copy of a non-partitioned table, `<table>.tbl`. */
  function MasterCopy(base: string, table: string): Copy {
    Copy(table + ".tbl", HdfsPath(base, table, table + ".tbl"))
  }

  /** The tables a node uploads, in order. */
  function PlanTables(partition: int): seq<string> {
    (if partition == 1 then MasterTables else []) + PartitionedTables
  }

  /**
   * The copies a node issues, in order, for `hdfs_output` = `base`: on the
   * master first `nation.tbl` and `region.tbl`, then on every node the six
   * partitioned tables in the order supplier, part, partsupp, orders,
   * lineitem, customer, each as `<table>.tbl.<partition>` copied to
   * `<base>/<table>/<table>.tbl.<partition>`.
   */
  function CopyPlan(base: string, partition: int): (plan: seq<Copy>)
    ensures |plan| == 6 + (if partition == 1 then 2 else 0)
    ensures partition == 1 ==>
      plan[0] == Copy("nation.tbl", base + "/nation/nation.tbl") &&
      plan[1] == Copy("region.tbl", base + "/region/region.tbl")
    ensures forall i :: 0 <= i < 6 ==> plan[|plan| - 6 + i] == PartitionedCopy(base, PartitionedTables[i], partition)
  {
    var master := if partition == 1 then [MasterCopy(base, "nation"), MasterCopy(base, "region")] else [];
    master + seq(|PartitionedTables|, i requires 0 <= i < |PartitionedTables| =>
      PartitionedCopy(base, PartitionedTables[i], partition))
  }

  /** The copies of `nation.tbl` and `region.tbl` are issued exactly on the master. */
  lemma MasterCopiesIffMaster(base: string, partition: int)
    ensures Copy("nation.tbl", base + "/nation/nation.tbl") in CopyPlan(base, partition) <==> partition == 1
    ensures Copy("region.tbl", base + "/region/region.tbl") in CopyPlan(base, partition) <==> partition == 1
  {
    var plan := CopyPlan(base, partition);
    if partition != 1 {
      forall i | 0 <= i < |plan|
        ensures plan[i].localPath[0] != 'n' && plan[i].localPath[0] != 'r'
      {
        assert plan[i].localPath[0] == PartitionedTables[i][0];
      }
      assert "nation.tbl"[0] == 'n' && "region.tbl"[0] == 'r';
    }
  }

  /** Every copy goes to the directory of its table, in plan order. */
  lemma PlanFollowsTables(base: string, partition: int)
    ensures |CopyPlan(base, partition)| == |PlanTables(partition)|
    ensures forall i :: 0 <= i < |CopyPlan(base, partition)| ==>
      CopyPlan(base, partition)[i].hdfsPath ==
        HdfsPath(base, PlanTables(partition)[i], CopyPlan(base, partition)[i].localPath)
    ensures forall i :: 0 <= i < |CopyPlan(base, partition)| ==>
      var t := PlanTables(partition)[i];
      CopyPlan(base, partition)[i].localPath ==
        if t in MasterTables then t + ".tbl" else PartitionedFileName(t, partition)
  {
    var plan, tables := CopyPlan(base, partition), PlanTables(partition);
    var offset := |plan| - 6;
    forall i | 0 <= i < |plan|
      ensures plan[i].hdfsPath == HdfsPath(base, tables[i], plan[i].localPath)
      ensures plan[i].localPath ==
        if tables[i] in MasterTables then tables[i] + ".tbl" else PartitionedFileName(tables[i], partition)
    {
      if i >= offset {
        var t := PartitionedTables[i - offset];
        assert tables[i] == t && t !in MasterTables;
      }
    }
  }

  /** A string without `/`: a single path component. */
  predicate NoSlash(s: string) {
    forall i :: 0 <= i < |s| ==> s[i] != '/'
  }

  lemma PrefixCancel(a: string, s1: string, s2: string)
    requires a + s1 == a + s2
    ensures s1 == s2
  {
    assert s1 == (a + s1)[|a|..];
    assert s2 == (a + s2)[|a|..];
  }

  /** The characters of `t + "/" + f` up to and including the separator. */
  lemma ComponentOf(t: string, f: string)
    ensures (t + "/" + f)[|t|] == '/'
    ensures forall i :: 0 <= i < |t| ==> (t + "/" + f)[i] == t[i]
  {
  }

  /** Table directory and file name can be read back from an HDFS path. */
  lemma HdfsPathInjective(base: string, t1: string, f1: string, t2: string, f2: string)
    requires NoSlash(t1) && NoSlash(t2)
    requires HdfsPath(base, t1, f1) == HdfsPath(base, t2, f2)
    ensures t1 == t2 && f1 == f2
  {
    var u1, u2 := t1 + "/" + f1, t2 + "/" + f2;
    assert HdfsPath(base, t1, f1) == (base + "/") + u1;
    assert HdfsPath(base, t2, f2) == (base + "/") + u2;
    PrefixCancel(base + "/", u1, u2);
    ComponentOf(t1, f1);
    ComponentOf(t2, f2);
    if |t1| < |t2| {
      assert false;
    } else if |t2| < |t1| {
      assert false;
    }
    assert t1 == u1[..|t1|] && t2 == u2[..|t2|];
    assert f1 == u1[|t1| + 1..] && f2 == u2[|t2| + 1..];
  }

  lemma TableNames()
    ensures forall t :: t in MasterTables + PartitionedTables ==> NoSlash(t)
    ensures forall i, j :: 0 <= i < j < |MasterTables + PartitionedTables| ==>
      (MasterTables + PartitionedTables)[i] != (MasterTables + PartitionedTables)[j]
  {
  }

  /** The tables of a plan are single path components, each named once. */
  lemma PlanTablesWellFormed(partition: int)
    ensures forall i :: 0 <= i < |PlanTables(partition)| ==> NoSlash(PlanTables(partition)[i])
    ensures forall i, j :: 0 <= i < j < |PlanTables(partition)| ==>
      PlanTables(partition)[i] != PlanTables(partition)[j]
  {
    TableNames();
    var tables := PlanTables(partition);
    forall i | 0 <= i < |tables| ensures tables[i] in MasterTables + PartitionedTables {
    }
    if partition == 1 {
      assert tables == MasterTables + PartitionedTables;
    } else {
      assert tables == (MasterTables + PartitionedTables)[2..];
    }
  }

  /** No two copies of one node write the same HDFS path. */
  lemma PlanDestinationsDistinct(base: string, partition: int)
    ensures forall i, j :: 0 <= i < j < |CopyPlan(base, partition)| ==>
      CopyPlan(base, partition)[i].hdfsPath != CopyPlan(base, partition)[j].hdfsPath
  {
    var plan, tables := CopyPlan(base, partition), PlanTables(partition);
    PlanFollowsTables(base, partition);
    PlanTablesWellFormed(partition);
    forall i, j | 0 <= i < j < |plan| ensures plan[i].hdfsPath != plan[j].hdfsPath {
      if plan[i].hdfsPath == plan[j].hdfsPath {
        HdfsPathInjective(base, tables[i], plan[i].localPath, tables[j], plan[j].localPath);
      }
    }
  }

  /**
   * Nodes with different partitions never write the same HDFS path, so the
   * uploads of a cluster need no locking.
   */
  lemma PlansOfDifferentPartitionsDisjoint(base: string, p1: int, p2: int)
    requires p1 != p2
    ensures forall i, j :: 0 <= i < |CopyPlan(base, p1)| && 0 <= j < |CopyPlan(base, p2)| ==>
      CopyPlan(base, p1)[i].hdfsPath != CopyPlan(base, p2)[j].hdfsPath
  {
    var plan1, plan2 := CopyPlan(base, p1), CopyPlan(base, p2);
    PlanFollowsTables(base, p1);
    PlanFollowsTables(base, p2);
    TableNames();
    forall i, j | 0 <= i < |plan1| && 0 <= j < |plan2|
      ensures plan1[i].hdfsPath != plan2[j].hdfsPath
    {
      var t1, t2 := PlanTables(p1)[i], PlanTables(p2)[j];
      assert t1 in MasterTables + PartitionedTables;
      assert t2 in MasterTables + PartitionedTables;
      if plan1[i].hdfsPath == plan2[j].hdfsPath {
        HdfsPathInjective(base, t1, plan1[i].localPath, t2, plan2[j].localPath);
        if t1 !in MasterTables {
          PrefixCancel(t1 + ".tbl.", IntToString(p1), IntToString(p2));
          IntToStringInjective(p1, p2);
        }
      }
    }
  }
}
