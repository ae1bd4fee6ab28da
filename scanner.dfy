/**
  The stand-alone scanner command: it lists partition names only. Unlike
  the plugin's scan it never appends the disks' own names.
*/
module Scanner {
  import opened Common
  import opened Block
  import Plugin

  /** For each disk in order, the names of its partitions in order. */
  function PartitionDevices(disks: seq<Disk>): seq<string>
  {
    if disks == [] then []
    else PartitionDevices(disks[..|disks| - 1]) + PartitionNames(disks[|disks| - 1].partitions)
  }

  /** Nested loops over disks and partitions, appending partition names. */
  method ScanRootForDevices(block: BlockQuery) returns (r: Result<seq<string>>)
    ensures block.Err? ==> r == Err(block.error)
    ensures block.Ok? ==> r == Ok(PartitionDevices(block.value))
  {
    if block.Err? {
      return Err(block.error);
    }
    var disks := block.value;
    var devices: seq<string> := [];
    for i := 0 to |disks|
      invariant devices == PartitionDevices(disks[..i])
    {
      var disk := disks[i];
      for j := 0 to |disk.partitions|
        invariant devices == PartitionDevices(disks[..i]) + PartitionNames(disk.partitions[..j])
      {
        assert disk.partitions[..j + 1][..j] == disk.partitions[..j];
        devices := devices + [disk.partitions[j].name];
      }
      assert disk.partitions[..|disk.partitions|] == disk.partitions;
      assert disks[..i + 1][..i] == disks[..i];
    }
    assert disks[..|disks|] == disks;
    return Ok(devices);
  }

  /** Exactly one name per partition; no disks give the empty list. */
  lemma {:induction false} PartitionDevicesLength(disks: seq<Disk>)
    ensures |PartitionDevices(disks)| == PartitionCount(disks)
  {
    if disks != [] {
      PartitionDevicesLength(disks[..|disks| - 1]);
    }
  }

  /** The scan proceeds disk by disk: scanning two runs of disks is scanning each in turn. */
  lemma {:induction false} PartitionDevicesAppend(a: seq<Disk>, b: seq<Disk>)
    ensures PartitionDevices(a + b) == PartitionDevices(a) + PartitionDevices(b)
    decreases |b|
  {
    if b == [] {
      assert a + b == a;
    } else {
      var init, last := b[..|b| - 1], b[|b| - 1];
      var tail := PartitionNames(last.partitions);
      assert (a + b)[..|a + b| - 1] == a + init && (a + b)[|a + b| - 1] == last;
      assert PartitionDevices(a + b) == PartitionDevices(a + init) + tail;
      assert PartitionDevices(b) == PartitionDevices(init) + tail;
      PartitionDevicesAppend(a, init);
    }
  }

  /** A disk contributes exactly its partitions' names, between those of the disks before and after it. */
  lemma PartitionDevicesAround(before: seq<Disk>, disk: Disk, after: seq<Disk>)
    ensures PartitionDevices(before + [disk] + after) ==
      PartitionDevices(before) + PartitionNames(disk.partitions) + PartitionDevices(after)
  {
    PartitionDevicesAppend(before + [disk], after);
    assert (before + [disk])[..|before|] == before;
  }

  /** Every listed name is the name of some partition of some disk. */
  lemma {:induction false} OnlyPartitionNames(disks: seq<Disk>, name: string)
    requires name in PartitionDevices(disks)
    ensures exists k, j :: 0 <= k < |disks| && 0 <= j < |disks[k].partitions| && disks[k].partitions[j].name == name
  {
    var init, last := disks[..|disks| - 1], disks[|disks| - 1];
    if name in PartitionDevices(init) {
      OnlyPartitionNames(init, name);
      var k, j :| 0 <= k < |init| && 0 <= j < |init[k].partitions| && init[k].partitions[j].name == name;
      assert disks[k] == init[k];
    } else {
      var names := PartitionNames(last.partitions);
      assert name in names;
      var j :| 0 <= j < |names| && names[j] == name;
      assert disks[|disks| - 1].partitions[j].name == name;
    }
  }

  /** Counting a disk as its own last partition. */
  function WithDiskAsPartition(disk: Disk): Disk
  {
    Disk(disk.name, disk.partitions + [Partition(disk.name)])
  }

  /** Every disk of `disks` counted as its own last partition. */
  function WithDisksAsPartitions(disks: seq<Disk>): (widened: seq<Disk>)
    ensures |widened| == |disks|
  {
    if disks == [] then []
    else WithDisksAsPartitions(disks[..|disks| - 1]) + [WithDiskAsPartition(disks[|disks| - 1])]
  }

  /**
    The plugin's scan is this scan over disks that each count themselves
    as a trailing partition: the only difference is the disk names.
  */
  lemma {:induction false} PluginScanAddsDiskNames(disks: seq<Disk>)
    ensures Plugin.DiskDevices(disks) == PartitionDevices(WithDisksAsPartitions(disks))
  {
    if disks != [] {
      var n := |disks| - 1;
      var init, last := disks[..n], disks[n];
      var prefix := WithDisksAsPartitions(init);
      var names := PartitionNames(last.partitions);
      PluginScanAddsDiskNames(init);
      PartitionDevicesSnoc(prefix, WithDiskAsPartition(last));
      NamesWithDisk(last);
      assert PartitionDevices(prefix) + (names + [last.name]) == PartitionDevices(prefix) + names + [last.name];
    }
  }

  lemma PartitionDevicesSnoc(disks: seq<Disk>, disk: Disk)
    ensures PartitionDevices(disks + [disk]) == PartitionDevices(disks) + PartitionNames(disk.partitions)
  {
    var all := disks + [disk];
    assert all[..|all| - 1] == disks && all[|all| - 1] == disk;
  }

  lemma NamesWithDisk(disk: Disk)
    ensures PartitionNames(WithDiskAsPartition(disk).partitions) == PartitionNames(disk.partitions) + [disk.name]
  {
    var ps := WithDiskAsPartition(disk).partitions;
    assert ps[..|ps| - 1] == disk.partitions;
  }

  /** The plugin lists exactly one more name per disk than the scanner. */
  lemma PluginListsOneMoreNamePerDisk(disks: seq<Disk>)
    ensures |Plugin.DiskDevices(disks)| == |PartitionDevices(disks)| + |disks|
  {
    Plugin.DiskDevicesLength(disks);
    PartitionDevicesLength(disks);
  }
}
