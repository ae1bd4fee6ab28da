/**
  The block-device plugin for the node agent (kubelet): device discovery,
  the device records it advertises, the allocation answer it gives, and
  the lifecycle of its server (start, register, stop, clean up the socket).

  The network and the hardware are the environment: every call into them
  (`ghw.Block()`, `os.Remove`, `net.Listen`, `grpc.NewClient`, the
  kubelet's `Register`) is a parameter saying whether that call fails and
  with which error.
*/
module Plugin {
  import opened Common
  import opened Block
  import Decimal

  /** File name of the plugin's socket; the kubelet resolves it in its own plugin directory. */
  const SocketFile: string := "power-dev.csi.ibm.com-reg.sock"
  /** `pluginapi.DevicePluginPath`, the kubelet's plugin directory. */
  const DevicePluginPath: string := "/var/lib/kubelet/device-plugins/"
  /** `pluginapi.KubeletSocket`, the kubelet's registration endpoint. */
  const KubeletSocket: string := DevicePluginPath + "kubelet.sock"
  /** `pluginapi.Version`, the device-plugin protocol version. */
  const Version: string := "v1beta1"
  const Socket: string := DevicePluginPath + SocketFile
  /** The resource name the plugin advertises. */
  const Resource: string := "power-dev-plugin/dev"
  const DevDirectory: string := "/dev/"
  /** Cgroup permissions granted on every device: read and write, never mknod. */
  const ReadWrite: string := "rw"

  // ---------------------------------------------------------------------
  // Device discovery

  /**
    The device names the plugin's scan yields for `disks`: for each disk
    in order, the names of its partitions in order, then the disk's own name.
  */
  function DiskDevices(disks: seq<Disk>): seq<string>
  {
    if disks == [] then []
    else
      var last := disks[|disks| - 1];
      DiskDevices(disks[..|disks| - 1]) + PartitionNames(last.partitions) + [last.name]
  }

  /** One name per partition and one per disk. */
  lemma {:induction false} DiskDevicesLength(disks: seq<Disk>)
    ensures |DiskDevices(disks)| == PartitionCount(disks) + |disks|
  {
    if disks != [] {
      DiskDevicesLength(disks[..|disks| - 1]);
    }
  }

  /** The scan proceeds disk by disk: scanning two runs of disks is scanning each in turn. */
  lemma {:induction false} DiskDevicesAppend(a: seq<Disk>, b: seq<Disk>)
    ensures DiskDevices(a + b) == DiskDevices(a) + DiskDevices(b)
    decreases |b|
  {
    if b == [] {
      assert a + b == a;
    } else {
      var init, last := b[..|b| - 1], b[|b| - 1];
      var tail := PartitionNames(last.partitions) + [last.name];
      assert (a + b)[..|a + b| - 1] == a + init && (a + b)[|a + b| - 1] == last;
      assert DiskDevices(a + b) == DiskDevices(a + init) + tail;
      assert DiskDevices(b) == DiskDevices(init) + tail;
      DiskDevicesAppend(a, init);
    }
  }

  /** A disk contributes its partitions' names followed by its own name, between the disks before and after it. */
  lemma DiskDevicesAround(before: seq<Disk>, disk: Disk, after: seq<Disk>)
    ensures DiskDevices(before + [disk] + after) ==
      DiskDevices(before) + PartitionNames(disk.partitions) + [disk.name] + DiskDevices(after)
  {
    DiskDevicesAppend(before + [disk], after);
    assert (before + [disk])[..|before|] == before;
  }

  /** What a scan yields for a block query: its error, or the flattened device names. */
  function Scan(block: BlockQuery): Result<seq<string>>
  {
    if block.Err? then Err(block.error) else Ok(DiskDevices(block.value))
  }

  /** Walks the disks and their partitions, appending names as it goes. */
  method ScanRootForDevices(block: BlockQuery) returns (r: Result<seq<string>>)
    ensures block.Err? ==> r == Err(block.error)
    ensures block.Ok? ==> r == Ok(DiskDevices(block.value))
  {
    if block.Err? {
      return Err(block.error);
    }
    var disks := block.value;
    var devices: seq<string> := [];
    for i := 0 to |disks|
      invariant devices == DiskDevices(disks[..i])
    {
      var disk := disks[i];
      for j := 0 to |disk.partitions|
        invariant devices == DiskDevices(disks[..i]) + PartitionNames(disk.partitions[..j])
      {
        assert disk.partitions[..j + 1][..j] == disk.partitions[..j];
        devices := devices + [disk.partitions[j].name];
      }
      assert disk.partitions[..|disk.partitions|] == disk.partitions;
      assert disks[..i + 1][..i] == disks[..i];
      devices := devices + [disk.name];
    }
    assert disks[..|disks|] == disks;
    return Ok(devices);
  }

  // ---------------------------------------------------------------------
  // Device records advertised to the kubelet

  datatype Health = Healthy | Unhealthy

  datatype Device = Device(id: string, health: Health)

  /** The record list for an inventory: record `i` is named by the decimal form of `i` and is healthy. */
  function DeviceRecords(devS: seq<string>): (records: seq<Device>)
    ensures |records| == |devS|
    ensures forall i :: 0 <= i < |devS| ==> records[i] == Device(Decimal.Itoa(i), Healthy)
  {
    if devS == [] then [] else DeviceRecords(devS[..|devS| - 1]) + [Device(Decimal.Itoa(|devS| - 1), Healthy)]
  }

  /** Record identifiers are distinct, and each one reads back as its position. */
  lemma DeviceRecordIds(devS: seq<string>)
    ensures forall i :: 0 <= i < |devS| ==> Decimal.Atoi(DeviceRecords(devS)[i].id) == i
    ensures forall i, j :: 0 <= i < j < |devS| ==> DeviceRecords(devS)[i].id != DeviceRecords(devS)[j].id
  {
    var records := DeviceRecords(devS);
    forall i | 0 <= i < |devS|
      ensures Decimal.Atoi(records[i].id) == i
    {
      Decimal.AtoiItoa(i);
    }
  }

  /** Builds the record list one device at a time. */
  method ConvertDeviceToPluginDevices(devS: seq<string>) returns (devs: seq<Device>)
    ensures devs == DeviceRecords(devS)
  {
    devs := [];
    for idx := 0 to |devS|
      invariant devs == DeviceRecords(devS[..idx])
    {
      assert devS[..idx + 1][..idx] == devS[..idx];
      devs := devs + [Device(Decimal.Itoa(idx), Healthy)];
    }
    assert devS[..|devS|] == devS;
  }

  // ---------------------------------------------------------------------
  // Allocation

  datatype DeviceSpec = DeviceSpec(hostPath: string, containerPath: string, permissions: string)

  /** The devices one container asked for; the plugin does not look at them. */
  datatype ContainerRequest = ContainerRequest(deviceIds: seq<string>)

  datatype ContainerResponse = ContainerResponse(devices: seq<DeviceSpec>)

  /** Access to every named device, each mounted at its own `/dev` path, read-write. */
  function DeviceSpecs(devices: seq<string>): (specs: seq<DeviceSpec>)
    ensures |specs| == |devices|
    ensures forall j :: 0 <= j < |devices| ==>
      specs[j] == DeviceSpec(DevDirectory + devices[j], DevDirectory + devices[j], ReadWrite)
  {
    if devices == [] then []
    else
      var name := devices[|devices| - 1];
      DeviceSpecs(devices[..|devices| - 1]) + [DeviceSpec(DevDirectory + name, DevDirectory + name, ReadWrite)]
  }

  datatype DevicePluginOptions = DevicePluginOptions(preStartRequired: bool, getPreferredAllocationAvailable: bool)

  datatype PreStartContainerRequest = PreStartContainerRequest(devicesIds: seq<string>)

  datatype PreStartContainerResponse = PreStartContainerResponse

  // ---------------------------------------------------------------------
  // List and watch

  /** What the select in the stream loop receives next: the stop channel or a health event. */
  datatype WatchEvent = StopSignal | HealthSignal(device: Device)

  /** Whether the loop returned, and the lists it sent after the first one. */
  datatype WatchRun = WatchRun(stopped: bool, emissions: seq<seq<Device>>)

  /** How a stream call ends: an error before any send, a return on stop, or still waiting in the select. */
  datatype StreamEnd = StreamError(error: Error) | StreamStopped | StreamWaiting

  /**
    The stream loop over `events`: each health event re-sends `records`
    unchanged (the event's own health is ignored); the first stop ends it.
  */
  function Watch(records: seq<Device>, events: seq<WatchEvent>): (run: WatchRun)
    ensures |run.emissions| <= |events|
    ensures forall k :: 0 <= k < |run.emissions| ==> run.emissions[k] == records
    ensures run.stopped <==> StopSignal in events
  {
    if events == [] then WatchRun(false, [])
    else if events[0].StopSignal? then WatchRun(true, [])
    else
      var rest := Watch(records, events[1..]);
      assert events == [events[0]] + events[1..];
      WatchRun(rest.stopped, [records] + rest.emissions)
  }

  function Repeat(records: seq<Device>, n: nat): seq<seq<Device>>
  {
    seq(n, _ => records)
  }

  /** After `k` health events the loop has sent `records` `k` more times and continues with the rest. */
  lemma {:induction false} WatchPrefix(records: seq<Device>, events: seq<WatchEvent>, k: nat)
    requires k <= |events|
    requires forall j :: 0 <= j < k ==> events[j].HealthSignal?
    ensures Watch(records, events) ==
      WatchRun(Watch(records, events[k..]).stopped, Repeat(records, k) + Watch(records, events[k..]).emissions)
  {
    if k > 0 {
      WatchPrefix(records, events[1..], k - 1);
      assert events[1..][k - 1..] == events[k..];
      assert [records] + Repeat(records, k - 1) == Repeat(records, k);
    }
  }

  /** Only the kind of each event matters: what a health event carries never changes the stream. */
  lemma {:induction false} WatchIgnoresHealth(records: seq<Device>, e1: seq<WatchEvent>, e2: seq<WatchEvent>)
    requires |e1| == |e2|
    requires forall j :: 0 <= j < |e1| ==> e1[j].StopSignal? == e2[j].StopSignal?
    ensures Watch(records, e1) == Watch(records, e2)
  {
    if e1 != [] {
      WatchIgnoresHealth(records, e1[1..], e2[1..]);
    }
  }

  // ---------------------------------------------------------------------
  // Lifecycle

  /** What the plugin sends the kubelet when it registers. */
  datatype RegisterRequest = RegisterRequest(version: string, endpoint: string, resourceName: string)

  /** The calls into the environment, in the order the plugin makes them. */
  datatype Step =
    | ScanDevices
    | RemoveSocket
    | ListenSocket
    | ProbeServer
    | SendRegistration(request: RegisterRequest)
    | HaltServer
    | CloseStop

  /** Go's result: a nil error, an error, or a panic. */
  datatype Outcome = Done | Failed(error: Error) | Panicked

  /**
    The plugin's fields: the device inventory, whether a server is set,
    whether the stop channel has been closed, whether the socket file
    exists, and the steps taken so far.
  */
  datatype PluginState = PluginState(devs: seq<string>, server: bool, stopClosed: bool, socketExists: bool, trace: seq<Step>)

  /**
    The ordering the lifecycle keeps: every listen comes right after a
    scan and a socket removal, every probe right after a listen, every
    registration right after a probe, every closing of the stop channel
    right after the server is halted.
  */
  ghost predicate Ordered(t: seq<Step>)
  {
    && (forall i :: 0 <= i < |t| && t[i] == ListenSocket ==> 2 <= i && t[i - 1] == RemoveSocket && t[i - 2] == ScanDevices)
    && (forall i :: 0 <= i < |t| && t[i] == ProbeServer ==> 1 <= i && t[i - 1] == ListenSocket)
    && (forall i :: 0 <= i < |t| && t[i].SendRegistration? ==> 1 <= i && t[i - 1] == ProbeServer)
    && (forall i :: 0 <= i < |t| && t[i] == CloseStop ==> 1 <= i && t[i - 1] == HaltServer)
  }

  /** A freshly created plugin: no devices, no server, an open stop channel, no steps. */
  function Initial(socketPresent: bool): (s: PluginState)
    ensures s.devs == [] && !s.server && !s.stopClosed && s.socketExists == socketPresent
    ensures s.trace == [] && Ordered(s.trace)
  {
    PluginState([], false, false, socketPresent, [])
  }

  /**
    Removing the socket file: a missing file is not an error; a removal
    error on an existing file is returned and leaves the file in place.
  */
  function CleanupStep(s: PluginState, removeFault: Option<Error>): (r: (PluginState, Outcome))
    ensures r.0.trace == s.trace + [RemoveSocket]
    ensures r.0.devs == s.devs && r.0.server == s.server && r.0.stopClosed == s.stopClosed
    ensures !s.socketExists ==> r.1 == Done
    ensures r.1 == Done <==> !r.0.socketExists
    ensures r.1 != Done ==> s.socketExists && removeFault.Some? && r.1 == Failed(removeFault.value)
  {
    var s1 := s.(trace := s.trace + [RemoveSocket]);
    if s.socketExists && removeFault.Some? then (s1, Failed(removeFault.value))
    else (s1.(socketExists := false), Done)
  }

  lemma OrderedAppend(t: seq<Step>, u: seq<Step>)
    requires Ordered(t) && Ordered(u)
    requires u != [] ==> u[0] == ScanDevices || u[0] == RemoveSocket || u[0] == HaltServer
    ensures Ordered(t + u)
  {
    var v := t + u;
    forall i | |t| <= i < |v|
      ensures v[i] == u[i - |t|]
    {
    }
  }

  /**
    Starting the server: scan, then remove a stale socket, then listen,
    then probe. A scan failure stops before touching the socket; a
    cleanup or listen failure returns without a server being set; a
    failed probe returns its error with the server left set.
  */
  function StartStep(s: PluginState, block: BlockQuery, removeFault: Option<Error>,
                     listenFault: Option<Error>, probeFault: Option<Error>): (r: (PluginState, Outcome))
    ensures !r.1.Panicked? && r.0.stopClosed == s.stopClosed
    ensures block.Err? ==> r == (s.(trace := s.trace + [ScanDevices]), Failed(block.error))
    ensures block.Ok? ==> r.0.devs == DiskDevices(block.value)
    ensures block.Ok? && s.socketExists && removeFault.Some? ==>
      r.1 == Failed(removeFault.value) && r.0.server == s.server && r.0.socketExists
      && r.0.trace == s.trace + [ScanDevices, RemoveSocket]
    ensures block.Ok? && (!s.socketExists || removeFault.None?) && listenFault.Some? ==>
      r.1 == Failed(listenFault.value) && r.0.server == s.server && !r.0.socketExists
      && r.0.trace == s.trace + [ScanDevices, RemoveSocket, ListenSocket]
    ensures r.0.server != s.server ==> r.0.server && listenFault.None? && r.0.socketExists
    ensures r.1 == Done <==>
      block.Ok? && (!s.socketExists || removeFault.None?) && listenFault.None? && probeFault.None?
    ensures block.Ok? && (!s.socketExists || removeFault.None?) && listenFault.None? ==>
      r.0.server && r.0.socketExists && r.0.trace == s.trace + [ScanDevices, RemoveSocket, ListenSocket, ProbeServer]
    ensures block.Ok? && (!s.socketExists || removeFault.None?) && listenFault.None? && probeFault.Some? ==>
      r.1 == Failed(probeFault.value)
  {
    var s1 := s.(trace := s.trace + [ScanDevices]);
    match Scan(block)
    case Err(e) => (s1, Failed(e))
    case Ok(devices) =>
      var (s2, cleaned) := CleanupStep(s1.(devs := devices), removeFault);
      if cleaned != Done then (s2, cleaned)
      else
        var s3 := s2.(trace := s2.trace + [ListenSocket]);
        if listenFault.Some? then (s3, Failed(listenFault.value))
        else
          var s4 := s3.(socketExists := true, server := true, trace := s3.trace + [ProbeServer]);
          if probeFault.Some? then (s4, Failed(probeFault.value)) else (s4, Done)
  }

  /**
    Stopping the server: without a server, nothing happens. Otherwise the
    server is cleared and the stop channel closed; closing a channel that
    an earlier stop already closed panics. Then the socket is removed.
  */
  function StopStep(s: PluginState, removeFault: Option<Error>): (r: (PluginState, Outcome))
    ensures !s.server ==> r == (s, Done)
    ensures s.server ==> !r.0.server && r.0.stopClosed
    ensures s.server && s.stopClosed ==> r.1 == Panicked && r.0.socketExists == s.socketExists
    ensures s.server && !s.stopClosed ==> !r.1.Panicked? && (r.1 == Done <==> !r.0.socketExists)
    ensures s.server && !s.stopClosed ==>
      && (r.1 == Done <==> !s.socketExists || removeFault.None?)
      && (r.1 != Done ==> s.socketExists && removeFault.Some? && r.1 == Failed(removeFault.value))
    ensures r.0.devs == s.devs
    ensures s.server && s.stopClosed ==> r.0.trace == s.trace + [HaltServer]
    ensures s.server && !s.stopClosed ==> r.0.trace == s.trace + [HaltServer, CloseStop, RemoveSocket]
  {
    if !s.server then (s, Done)
    else
      var s1 := s.(server := false, trace := s.trace + [HaltServer]);
      if s1.stopClosed then (s1, Panicked)
      else CleanupStep(s1.(stopClosed := true, trace := s1.trace + [CloseStop]), removeFault)
  }

  /**
    Registering with the kubelet: a dial failure sends nothing; otherwise
    the request names the socket file (not its full path), the protocol
    version and the resource, and the kubelet's answer decides the outcome.
  */
  function RegisterStep(s: PluginState, resourceName: string, dialFault: Option<Error>,
                        registerFault: Option<Error>): (r: (PluginState, Outcome))
    ensures r.0 == s.(trace := r.0.trace)
    ensures dialFault.Some? ==> r == (s, Failed(dialFault.value))
    ensures dialFault.None? ==>
      r.0.trace == s.trace + [SendRegistration(RegisterRequest(Version, SocketFile, resourceName))]
    ensures r.1 == Done <==> dialFault.None? && registerFault.None?
    ensures r.1 != Done ==> r.1 == Failed(if dialFault.Some? then dialFault.value else registerFault.value)
  {
    if dialFault.Some? then (s, Failed(dialFault.value))
    else
      var s1 := s.(trace := s.trace + [SendRegistration(RegisterRequest(Version, SocketFile, resourceName))]);
      if registerFault.Some? then (s1, Failed(registerFault.value)) else (s1, Done)
  }

  /**
    Serving: start, then register. A start failure is returned without
    any registration attempt; a registration failure stops the server
    (clearing it and removing the socket) before its error is returned.
  */
  function ServeStep(s: PluginState, block: BlockQuery, removeFault: Option<Error>, listenFault: Option<Error>,
                     probeFault: Option<Error>, dialFault: Option<Error>, registerFault: Option<Error>,
                     stopRemoveFault: Option<Error>): (r: (PluginState, Outcome))
    ensures var started := StartStep(s, block, removeFault, listenFault, probeFault);
      started.1 != Done ==> r == started
    ensures var started := StartStep(s, block, removeFault, listenFault, probeFault);
      var registered := RegisterStep(started.0, Resource, dialFault, registerFault);
      started.1 == Done && registered.1 != Done ==>
        && !r.0.server && r.0.stopClosed
        && r.1 == (if started.0.stopClosed then Panicked else registered.1)
        && (r.1 == registered.1 && stopRemoveFault.None? ==> !r.0.socketExists)
    ensures var started := StartStep(s, block, removeFault, listenFault, probeFault);
      var registered := RegisterStep(started.0, Resource, dialFault, registerFault);
      && (r.1 == Done <==> started.1 == Done && registered.1 == Done)
      && (r.1 == Done ==> r.0 == registered.0)
      && r.0.devs == started.0.devs
    ensures r.1 == Done ==>
      r.0.server && |r.0.trace| > 0
      && r.0.trace[|r.0.trace| - 1] == SendRegistration(RegisterRequest(Version, SocketFile, Resource))
  {
    var (s1, started) := StartStep(s, block, removeFault, listenFault, probeFault);
    if started != Done then (s1, started)
    else
      var (s2, registered) := RegisterStep(s1, Resource, dialFault, registerFault);
      if registered == Done then (s2, Done)
      else
        var (s3, stopped) := StopStep(s2, stopRemoveFault);
        (s3, if stopped == Panicked then Panicked else registered)
  }

  lemma OrderedRegistration(t: seq<Step>, request: RegisterRequest)
    requires Ordered(t) && |t| > 0 && t[|t| - 1] == ProbeServer
    ensures Ordered(t + [SendRegistration(request)])
  {
    var v := t + [SendRegistration(request)];
    forall i | 0 <= i < |t|
      ensures v[i] == t[i]
    {
    }
    assert v[|t|] == SendRegistration(request) && v[|t| - 1] == ProbeServer;
  }

  /** Starting keeps the ordering: no listen without a scan and a cleanup right before it. */
  lemma StartKeepsOrder(s: PluginState, block: BlockQuery, removeFault: Option<Error>,
                        listenFault: Option<Error>, probeFault: Option<Error>)
    requires Ordered(s.trace)
    ensures Ordered(StartStep(s, block, removeFault, listenFault, probeFault).0.trace)
  {
    var t := StartStep(s, block, removeFault, listenFault, probeFault).0.trace;
    var steps: seq<Step> :=
      if block.Err? then [ScanDevices]
      else if s.socketExists && removeFault.Some? then [ScanDevices, RemoveSocket]
      else if listenFault.Some? then [ScanDevices, RemoveSocket, ListenSocket]
      else [ScanDevices, RemoveSocket, ListenSocket, ProbeServer];
    assert t == s.trace + steps;
    StartPrefixOrdered(|steps|);
    assert steps == StartSteps[..|steps|];
    OrderedAppend(s.trace, steps);
  }

  /** The steps of a start that gets as far as the probe. */
  const StartSteps: seq<Step> := [ScanDevices, RemoveSocket, ListenSocket, ProbeServer]

  lemma StartPrefixOrdered(n: nat)
    requires 1 <= n <= 4
    ensures Ordered(StartSteps[..n])
  {
    var p := StartSteps[..n];
    forall i | 0 <= i < n
      ensures p[i] == StartSteps[i]
    {
    }
  }

  /** Stopping keeps the ordering: the stop channel is closed only right after the server is halted. */
  lemma StopKeepsOrder(s: PluginState, removeFault: Option<Error>)
    requires Ordered(s.trace)
    ensures Ordered(StopStep(s, removeFault).0.trace)
  {
    if s.server {
      if s.stopClosed {
        OrderedAppend(s.trace, [HaltServer]);
      } else {
        assert Ordered([HaltServer, CloseStop, RemoveSocket]);
        OrderedAppend(s.trace, [HaltServer, CloseStop, RemoveSocket]);
      }
    }
  }

  /** A second stop right after a stop that did not panic changes nothing and succeeds. */
  lemma StopTwiceIsNoOp(s: PluginState, removeFault1: Option<Error>, removeFault2: Option<Error>)
    ensures var first := StopStep(s, removeFault1);
      StopStep(first.0, removeFault2) == (first.0, Done)
  {
  }

  /** Serving keeps the ordering: a registration is sent only right after a successful probe. */
  lemma ServeKeepsOrder(s: PluginState, block: BlockQuery, removeFault: Option<Error>, listenFault: Option<Error>,
                        probeFault: Option<Error>, dialFault: Option<Error>, registerFault: Option<Error>,
                        stopRemoveFault: Option<Error>)
    requires Ordered(s.trace)
    ensures Ordered(ServeStep(s, block, removeFault, listenFault, probeFault, dialFault, registerFault, stopRemoveFault).0.trace)
  {
    var started := StartStep(s, block, removeFault, listenFault, probeFault);
    StartKeepsOrder(s, block, removeFault, listenFault, probeFault);
    if started.1 == Done {
      var registered := RegisterStep(started.0, Resource, dialFault, registerFault);
      if dialFault.None? {
        OrderedRegistration(started.0.trace, RegisterRequest(Version, SocketFile, Resource));
      }
      if registered.1 != Done {
        StopKeepsOrder(registered.0, stopRemoveFault);
      }
    }
  }

  /**
    The stop channel is made once, when the plugin is created: a plugin
    that is started, stopped, started again and stopped again panics on
    the second stop whenever both starts get past the listen, which sets
    the server.
  */
  lemma {:induction false} RestartThenStopPanics(socketPresent: bool, block1: BlockQuery, block2: BlockQuery,
                                                 removeFault: Option<Error>, listenFault: Option<Error>,
                                                 probeFault: Option<Error>, stopFault1: Option<Error>,
                                                 stopFault2: Option<Error>)
    requires block1.Ok? && block2.Ok? && listenFault.None? && probeFault.None? && removeFault.None?
    ensures var a := StartStep(Initial(socketPresent), block1, removeFault, listenFault, probeFault);
      var b := StopStep(a.0, stopFault1);
      var c := StartStep(b.0, block2, removeFault, listenFault, probeFault);
      a.1 == Done && b.1 != Panicked && c.1 == Done && StopStep(c.0, stopFault2).1 == Panicked
  {
  }

  /**
    In general: from a new plugin, start, stop, start, stop panics on the
    second stop exactly when both starts got past the listen, that is, set
    the server. A start that fails earlier leaves no server, and the stop
    after it returns nil without touching the channel.
  */
  lemma RestartThenStopPanicsExactly(socketPresent: bool,
                                     block1: BlockQuery, removeFault1: Option<Error>, listenFault1: Option<Error>,
                                     probeFault1: Option<Error>, stopFault1: Option<Error>,
                                     block2: BlockQuery, removeFault2: Option<Error>, listenFault2: Option<Error>,
                                     probeFault2: Option<Error>, stopFault2: Option<Error>)
    ensures var a := StartStep(Initial(socketPresent), block1, removeFault1, listenFault1, probeFault1);
      var b := StopStep(a.0, stopFault1);
      var c := StartStep(b.0, block2, removeFault2, listenFault2, probeFault2);
      StopStep(c.0, stopFault2).1 == Panicked <==> a.0.server && c.0.server
  {
  }

  // ---------------------------------------------------------------------
  // The plugin object

  class PowerPlugin {
    var devs: seq<string>
    var server: bool
    var stopClosed: bool
    var socketExists: bool
    ghost var trace: seq<Step>
    const socket: string

    ghost function State(): PluginState
      reads this
    {
      PluginState(devs, server, stopClosed, socketExists, trace)
    }

    /** A plugin with no devices and no server; a socket file may be left over from an earlier run. */
    constructor New(socketPresent: bool)
      ensures State() == Initial(socketPresent) && socket == Socket
    {
      devs := [];
      server := false;
      stopClosed := false;
      socketExists := socketPresent;
      trace := [];
      socket := Socket;
    }

    /** Static capabilities: no pre-start hook, no preferred allocation. */
    function GetDevicePluginOptions(): (options: DevicePluginOptions)
      ensures !options.preStartRequired && !options.getPreferredAllocationAvailable
    {
      DevicePluginOptions(false, false)
    }

    /** The pre-start hook accepts every request and does nothing. */
    function PreStartContainer(request: PreStartContainerRequest): (r: Result<PreStartContainerResponse>)
      ensures r.Ok?
    {
      Ok(PreStartContainerResponse)
    }

    method Cleanup(removeFault: Option<Error>) returns (o: Outcome)
      modifies this
      ensures (State(), o) == CleanupStep(old(State()), removeFault)
    {
      trace := trace + [RemoveSocket];
      if socketExists && removeFault.Some? {
        return Failed(removeFault.value);
      }
      socketExists := false;
      return Done;
    }

    method Start(block: BlockQuery, removeFault: Option<Error>, listenFault: Option<Error>,
                 probeFault: Option<Error>) returns (o: Outcome)
      modifies this
      ensures (State(), o) == StartStep(old(State()), block, removeFault, listenFault, probeFault)
    {
      var devices := ScanRootForDevices(block);
      trace := trace + [ScanDevices];
      if devices.Err? {
        return Failed(devices.error);
      }
      devs := devices.value;
      o := Cleanup(removeFault);
      if o != Done {
        return;
      }
      trace := trace + [ListenSocket];
      if listenFault.Some? {
        return Failed(listenFault.value);
      }
      socketExists := true;
      server := true;
      trace := trace + [ProbeServer];
      if probeFault.Some? {
        return Failed(probeFault.value);
      }
      return Done;
    }

    method Stop(removeFault: Option<Error>) returns (o: Outcome)
      modifies this
      ensures (State(), o) == StopStep(old(State()), removeFault)
    {
      if !server {
        return Done;
      }
      trace := trace + [HaltServer];
      server := false;
      if stopClosed {
        return Panicked;
      }
      stopClosed := true;
      trace := trace + [CloseStop];
      o := Cleanup(removeFault);
    }

    /** `kubeletEndpoint` is not used: the dial always targets the kubelet's fixed socket. */
    method Register(kubeletEndpoint: string, resourceName: string, dialFault: Option<Error>,
                    registerFault: Option<Error>) returns (o: Outcome)
      modifies this`trace
      ensures (State(), o) == RegisterStep(old(State()), resourceName, dialFault, registerFault)
    {
      if dialFault.Some? {
        return Failed(dialFault.value);
      }
      trace := trace + [SendRegistration(RegisterRequest(Version, SocketFile, resourceName))];
      if registerFault.Some? {
        return Failed(registerFault.value);
      }
      return Done;
    }

    /** The result of the stop after a failed registration is discarded, unless it panics. */
    method Serve(block: BlockQuery, removeFault: Option<Error>, listenFault: Option<Error>,
                 probeFault: Option<Error>, dialFault: Option<Error>, registerFault: Option<Error>,
                 stopRemoveFault: Option<Error>) returns (o: Outcome)
      modifies this
      ensures (State(), o) ==
        ServeStep(old(State()), block, removeFault, listenFault, probeFault, dialFault, registerFault, stopRemoveFault)
    {
      o := Start(block, removeFault, listenFault, probeFault);
      if o != Done {
        return;
      }
      o := Register(KubeletSocket, Resource, dialFault, registerFault);
      if o != Done {
        var stopped := Stop(stopRemoveFault);
        if stopped == Panicked {
          return Panicked;
        }
      }
    }

    /**
      The device stream: rescan only when the inventory is empty (a scan
      failure ends the call before anything is sent), send the full record
      list, then handle `events` until a stop.
    */
    method ListAndWatch(block: BlockQuery, events: seq<WatchEvent>) returns (end: StreamEnd, sent: seq<seq<Device>>)
      modifies this`devs
      ensures old(devs) != [] ==> devs == old(devs)
      ensures old(devs) == [] && block.Ok? ==> devs == DiskDevices(block.value)
      ensures end.StreamError? <==> old(devs) == [] && block.Err?
      ensures end.StreamError? ==> end.error == block.error && sent == [] && devs == old(devs)
      ensures !end.StreamError? ==>
        var run := Watch(DeviceRecords(devs), events);
        sent == [DeviceRecords(devs)] + run.emissions && (end == StreamStopped <==> run.stopped)
      ensures forall k :: 0 <= k < |sent| ==> sent[k] == DeviceRecords(devs)
    {
      if |devs| == 0 {
        var devices := ScanRootForDevices(block);
        if devices.Err? {
          return StreamError(devices.error), [];
        }
        devs := devices.value;
      }
      ghost var current := devs;
      var records := ConvertDeviceToPluginDevices(devs);
      sent := [records];
      var i := 0;
      while i < |events|
        invariant 0 <= i <= |events|
        invariant devs == current && records == DeviceRecords(devs)
        invariant forall j :: 0 <= j < i ==> events[j].HealthSignal?
        invariant sent == [records] + Repeat(records, i)
      {
        if events[i].StopSignal? {
          WatchPrefix(records, events, i);
          return StreamStopped, sent;
        }
        var again := ConvertDeviceToPluginDevices(devs);
        assert Repeat(records, i) + [again] == Repeat(records, i + 1);
        sent := sent + [again];
        i := i + 1;
      }
      WatchPrefix(records, events, i);
      assert events[i..] == [];
      end := StreamWaiting;
    }

    /**
      Allocation: one fresh scan (its failure is returned and no response is
      built), then one response per container request, in order, each granting
      every scanned device whatever the request named.
    */
    method Allocate(block: BlockQuery, reqs: seq<ContainerRequest>) returns (r: Result<seq<ContainerResponse>>)
      ensures block.Err? ==> r == Err(block.error)
      ensures block.Ok? ==> r.Ok? && |r.value| == |reqs|
      ensures block.Ok? ==> forall k :: 0 <= k < |reqs| ==>
        r.value[k] == ContainerResponse(DeviceSpecs(DiskDevices(block.value)))
    {
      var scanned := ScanRootForDevices(block);
      if scanned.Err? {
        return Err(scanned.error);
      }
      var devices := scanned.value;
      var responses: seq<ContainerResponse> := [];
      for k := 0 to |reqs|
        invariant |responses| == k
        invariant forall m :: 0 <= m < k ==> responses[m] == ContainerResponse(DeviceSpecs(devices))
      {
        var ds := new DeviceSpec[|devices|];
        for i := 0 to |devices|
          invariant forall j :: 0 <= j < i ==>
            ds[j] == DeviceSpec(DevDirectory + devices[j], DevDirectory + devices[j], ReadWrite)
        {
          ds[i] := DeviceSpec(DevDirectory + devices[i], DevDirectory + devices[i], ReadWrite);
        }
        assert ds[..] == DeviceSpecs(devices);
        responses := responses + [ContainerResponse(ds[..])];
      }
      return Ok(responses);
    }

    /**
      The allocation function `GetAllocateFunc` hands out: the same answer
      as `Allocate`, built by appending; `devs` is not consulted.
    */
    method AllocateFunc(block: BlockQuery, reqs: seq<ContainerRequest>, devs: map<string, Device>)
      returns (r: Result<seq<ContainerResponse>>)
      ensures block.Err? ==> r == Err(block.error)
      ensures block.Ok? ==> r.Ok? && |r.value| == |reqs|
      ensures block.Ok? ==> forall k :: 0 <= k < |reqs| ==>
        r.value[k] == ContainerResponse(DeviceSpecs(DiskDevices(block.value)))
    {
      var scanned := ScanRootForDevices(block);
      if scanned.Err? {
        return Err(scanned.error);
      }
      var devices := scanned.value;
      var responses: seq<ContainerResponse> := [];
      for k := 0 to |reqs|
        invariant |responses| == k
        invariant forall m :: 0 <= m < k ==> responses[m] == ContainerResponse(DeviceSpecs(devices))
      {
        var specs: seq<DeviceSpec> := [];
        for i := 0 to |devices|
          invariant specs == DeviceSpecs(devices[..i])
        {
          assert devices[..i + 1][..i] == devices[..i];
          specs := specs + [DeviceSpec(DevDirectory + devices[i], DevDirectory + devices[i], ReadWrite)];
        }
        assert devices[..|devices|] == devices;
        responses := responses + [ContainerResponse(specs)];
      }
      return Ok(responses);
    }
  }
}
