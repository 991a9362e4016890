/**
 * How a node decides which dbgen partition it generates (lines 136-151 of
 * `main`). An integer `-p` value is used as it is. Any other value makes the
 * node look itself up in the slave list: the master, which is not listed, is
 * partition 1, and the slave listed at position i is partition i + 2.
 * Host names are resolved outside the model; the node's address and the
 * addresses of the listed slaves are inputs.
 */
module Partition {
  import opened Wrappers
  import opened Decimal

  /** A resolved network address, as `socket.gethostbyname` returns it. */
  type Addr = string

  /** `xs.index(x)`: the position of the first occurrence of `x`. */
  function FirstIndex<T(==)>(xs: seq<T>, x: T): (i: nat)
    requires x in xs
    ensures i < |xs| && xs[i] == x
    ensures forall j :: 0 <= j < i ==> xs[j] != x
  {
    if xs[0] == x then 0 else 1 + FirstIndex(xs[1..], x)
  }

  /**
   * The partition of the node whose address is `selfIp`, given the `-p`
   * value and the addresses of the slaves in the order of the slave file.
   */
  function ResolvePartition(p: string, slaveIps: seq<Addr>, selfIp: Addr): (r: int)
    ensures ParseInt(p).Some? ==> r == ParseInt(p).value
    ensures ParseInt(p).None? && selfIp !in slaveIps ==> r == 1
    ensures ParseInt(p).None? && selfIp in slaveIps ==>
      2 <= r <= |slaveIps| + 1 && slaveIps[r - 2] == selfIp &&
      forall j :: 0 <= j < r - 2 ==> slaveIps[j] != selfIp
  {
    match ParseInt(p)
    case Some(n) => n
    case None => if selfIp in slaveIps then FirstIndex(slaveIps, selfIp) + 2 else 1
  }

  /**
   * A `-p` written with `%d`, as the Spark driver in the script's header
   * does, is the partition whatever the slave list holds.
   */
  lemma ExplicitPartitionWins(n: int, slaveIps: seq<Addr>, selfIp: Addr)
    ensures ResolvePartition(IntToString(n), slaveIps, selfIp) == n
  {
    ParseIntOfIntToString(n);
  }

  /** The value returned in fallback mode is 1 exactly for a node that is not listed. */
  lemma FallbackMasterIff(p: string, slaveIps: seq<Addr>, selfIp: Addr)
    requires ParseInt(p).None?
    ensures ResolvePartition(p, slaveIps, selfIp) == 1 <==> selfIp !in slaveIps
    ensures ResolvePartition(p, slaveIps, selfIp) >= 1
  {
  }

  /**
   * A node listed at position i, and nowhere before, gets partition i + 2.
   */
  lemma ListedAt(p: string, slaveIps: seq<Addr>, i: nat)
    requires ParseInt(p).None?
    requires i < |slaveIps|
    requires forall j :: 0 <= j < i ==> slaveIps[j] != slaveIps[i]
    ensures ResolvePartition(p, slaveIps, slaveIps[i]) == i + 2
  {
  }

  /** The slave addresses are pairwise different. */
  predicate Distinct(xs: seq<Addr>) {
    forall i, j :: 0 <= i < j < |xs| ==> xs[i] != xs[j]
  }

  /**
   * In fallback mode, on a cluster whose master is not listed and whose
   * slaves are listed once each, the master and the L slaves receive the
   * partitions 1 .. L + 1, one each.
   */
  lemma ClusterPartitionsAreOneToOne(p: string, slaveIps: seq<Addr>, masterIp: Addr)
    requires ParseInt(p).None?
    requires masterIp !in slaveIps
    requires Distinct(slaveIps)
    ensures ResolvePartition(p, slaveIps, masterIp) == 1
    ensures forall i :: 0 <= i < |slaveIps| ==> ResolvePartition(p, slaveIps, slaveIps[i]) == i + 2
    ensures forall a, b :: a in [masterIp] + slaveIps && b in [masterIp] + slaveIps && a != b ==>
      ResolvePartition(p, slaveIps, a) != ResolvePartition(p, slaveIps, b)
  {
  }
}
