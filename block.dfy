/**
  The surface of the block-device discovery library the scanners call
  (`ghw.Block()`): a query that either fails or yields the disks of the
  host, each with its partitions, in discovery order.
*/
module Block {
  import opened Common

  datatype Partition = Partition(name: string)

  datatype Disk = Disk(name: string, partitions: seq<Partition>)

  /** The outcome of one `ghw.Block()` call, chosen by the environment. */
  type BlockQuery = Result<seq<Disk>>

  /** The names of `ps`, in order. */
  function PartitionNames(ps: seq<Partition>): (names: seq<string>)
    ensures |names| == |ps|
    ensures forall k :: 0 <= k < |ps| ==> names[k] == ps[k].name
  {
    if ps == [] then [] else PartitionNames(ps[..|ps| - 1]) + [ps[|ps| - 1].name]
  }

  /** The number of partitions over all of `disks`. */
  function PartitionCount(disks: seq<Disk>): nat
  {
    if disks == [] then 0 else PartitionCount(disks[..|disks| - 1]) + |disks[|disks| - 1].partitions|
  }
}
