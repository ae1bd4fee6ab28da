# power-dev-plugin, modelled in Dafny

This project models the decision logic of the power-dev-plugin repository. The repository is a Kubernetes device plugin that advertises a node's block devices under the resource `power-dev-plugin/dev`, together with an admission webhook that adds a request for one unit of that resource to pods. The model has three parts.

- **The device plugin** (`pkg/plugin/plugin.go`, modules `Plugin`, `Block`, `Decimal`):
  - Device discovery flattens disks and their partitions into device names.
  - Device records are numbered `"0"`, `"1"`, … and are always healthy.
  - Allocation grants every scanned device to every container, as `/dev/<name>`, read-write.
  - `ListAndWatch` sends the device list, then resends it on every health event until stopped.
  - The server lifecycle covers Start, Stop, cleanup of the socket file, Register and Serve.
  - The plugin object is the class `Plugin.PowerPlugin`. Its methods change its fields (`devs`, `server`, `stopClosed`, `socketExists`). Each method is proved equal to a pure transition function (`StartStep`, `StopStep`, …), and the promised properties are proved about those functions.
  - The lifecycle methods Cleanup, Start, Stop, Register and Serve also record, in a ghost trace, the calls they make into the environment, so that lemmas can state the order of those calls. A failed dial in Register leaves no step. The scans of ListAndWatch, Allocate and AllocateFunc are not recorded.
- **The scanner command** (`cmd/scanner/main.go`, module `Scanner`): the same flattening, but with partition names only. Lemmas relate it to the plugin's scan.
- **The admission webhook** (`pkg/webhook/webhook.go`, modules `Webhook` and `JsonPointer`):
  - The `/mutate` handler runs a chain of checks: content type, body and decode results.
  - `mutate` applies the namespace policy.
  - `CreatePatchForPod` builds a single JSON Patch `add` operation (RFC 6902, section 4.1).
  - The patch path is checked against JSON Pointer (RFC 6901). The syntax of section 3 of RFC 6901 and the unescaping order of its section 4 are modelled: escaping, formatting and parsing, with their round trip proved. Evaluating a pointer against a JSON document is not modelled.

## How the environment is modelled

Calls into the environment are parameters that say whether the call fails, and with which error:
- `ghw.Block()` is a `BlockQuery`.
- `os.Remove`, `net.Listen`, the start-up probe `dial` and the kubelet `Register` call are `Option<Error>` parameters.

The socket file's existence is a field. `os.Remove` of a missing file is not an error in the source, so that case is modelled as success. JSON decoding in the webhook is the environment's too: the request carries what each decode produced.

## Behaviour the model makes explicit

- The stop channel is made once, in `New` (plugin.go:68), but every `Stop` closes it (plugin.go:148). So Start, Stop, Start, Stop panics on the second Stop whenever both Starts get past the listen, which sets the server. A Start that fails earlier leaves no server, and the Stop after it returns nil. `StopStep` returns `Panicked` in that case. `Plugin.RestartThenStopPanicsExactly` proves the condition in both directions, and `Plugin.RestartThenStopPanics` shows it is met when every environment call succeeds.
- `MutateHandler` does not return after a body read error (webhook.go:112-116). It writes 400 and then goes on to decode and answer. The model's reply keeps status 400 with the review that follows.
- A review that decodes without a request makes `mutate` dereference a nil request (webhook.go:162-164). The model's reply is `HandlerPanic`.
- The patch path's second token is the member name `containers[0]`, not the array index `0`. `Webhook.PatchPathDesignates` proves that the path parses, under RFC 6901, to the tokens `spec`, `containers[0]`, `resources`, `requests` and `power-dev-plugin/dev`.
- `Register` ignores its `kubeletEndpoint` argument: it always dials the kubelet's fixed socket, and it registers the socket file name rather than the full socket path.
- The webhook's patch names the same resource that the plugin registers (`Webhook.PatchRequestsPluginResource`).

## Model

| member | source | states |
|---|---|---|
| Decimal.Itoa | pkg/plugin/plugin.go:254 | The decimal form of n is non-empty and all digits. It starts with '0' exactly when n is 0, and it is one digit exactly when n < 10. |
| Decimal.AtoiItoa | pkg/plugin/plugin.go:254 | Reading the decimal form of n back gives n. |
| Decimal.ItoaInjective | pkg/plugin/plugin.go:254 | Distinct numbers have distinct decimal forms. |
| Block.PartitionNames | pkg/plugin/plugin.go:357-360 | One name per partition, and name k is partition k's name. |
| Plugin.DiskDevicesLength | pkg/plugin/plugin.go:353-363 | The plugin's scan yields one name per partition plus one per disk. |
| Plugin.DiskDevicesAppend | pkg/plugin/plugin.go:355-362 | Scanning two runs of disks gives the first run's names followed by the second's. |
| Plugin.DiskDevicesAround | pkg/plugin/plugin.go:355-362 | A disk contributes its partitions' names in order and then its own name, between the names of the disks before and after it. |
| Plugin.ScanRootForDevices | pkg/plugin/plugin.go:344-364 | A failed block query returns its error. Otherwise the nested loops return exactly the flattened names DiskDevices(disks). |
| Plugin.DeviceRecords | pkg/plugin/plugin.go:249-260 | One record per device. Record i has ID Itoa(i) and health Healthy. |
| Plugin.DeviceRecordIds | pkg/plugin/plugin.go:252-256 | Each record ID reads back as its position, and the IDs are pairwise distinct. |
| Plugin.ConvertDeviceToPluginDevices | pkg/plugin/plugin.go:249-260 | The loop builds exactly DeviceRecords(devS). |
| Plugin.DeviceSpecs | pkg/plugin/plugin.go:230-242 | One spec per device, in order, each with host and container path "/dev/" + name and permissions "rw". |
| Plugin.Watch | pkg/plugin/plugin.go:197-208 | At most one send per event, and every send is the full record list. The loop returns if and only if a stop arrives. |
| Plugin.WatchPrefix | pkg/plugin/plugin.go:197-208 | After k health events the loop has resent the list k times and continues with the remaining events. |
| Plugin.WatchIgnoresHealth | pkg/plugin/plugin.go:202-206 | Two event scripts with the same stop positions give the same stream: what a health event carries is ignored. |
| Plugin.Initial | pkg/plugin/plugin.go:62-71 | A new plugin has no devices, no server, an open stop channel and an empty trace. |
| Plugin.CleanupStep | pkg/plugin/plugin.go:272-277 | Removing an absent socket file succeeds. The result is success if and only if the file is gone afterwards. A failure is the removal error on an existing file. Nothing else changes. |
| Plugin.StartStep | pkg/plugin/plugin.go:96-139 | See the note below the table. |
| Plugin.StopStep | pkg/plugin/plugin.go:142-151 | Without a server, nothing changes and the result is nil. With one, the server is cleared and the stop channel closed. An already-closed channel panics. Otherwise the result is the cleanup's: nil when the socket file is absent or its removal succeeds, else the removal error. The trace is halt, close, remove. |
| Plugin.StopTwiceIsNoOp | pkg/plugin/plugin.go:142-151 | A stop right after a stop changes nothing and succeeds. |
| Plugin.RegisterStep | pkg/plugin/plugin.go:154-175 | A dial failure sends nothing and is returned. Otherwise the request carries version v1beta1, the socket file name and the resource name. Success holds if and only if neither call fails. |
| Plugin.ServeStep | pkg/plugin/plugin.go:280-296 | A start failure is returned unchanged, before any registration. A registration failure stops the plugin (server cleared, stop channel closed, socket removed when the removal succeeds) and returns the registration error, or a panic when the channel was already closed. The result is nil if and only if both Start and Register succeed, and the state is then the one Register leaves. On success the last step is the registration of Resource. Whatever happens, devs is what Start left. |
| Plugin.StartKeepsOrder | pkg/plugin/plugin.go:96-139 | Start keeps the order invariant: every listen comes right after a socket removal, which comes right after a scan, and every probe comes right after a listen. |
| Plugin.StopKeepsOrder | pkg/plugin/plugin.go:142-151 | Stop keeps the order invariant: the stop channel is closed only right after the server is halted. |
| Plugin.ServeKeepsOrder | pkg/plugin/plugin.go:280-296 | Serve keeps the order invariant: a registration is sent only right after a successful probe. |
| Plugin.RestartThenStopPanics | pkg/plugin/plugin.go:62-151 | From a new plugin, when every environment call succeeds, Start, Stop and Start succeed and the second Stop panics. |
| Plugin.RestartThenStopPanicsExactly | pkg/plugin/plugin.go:62-151 | From a new plugin, for any environment, Start, Stop, Start, Stop panics on the second Stop if and only if both Starts set the server. |
| Plugin.PowerPlugin.New | pkg/plugin/plugin.go:62-71 | The new object's state is Initial, and its socket is the plugin directory plus the socket file name. |
| Plugin.PowerPlugin.GetDevicePluginOptions | pkg/plugin/plugin.go:74-79 | Neither pre-start nor preferred allocation is offered. |
| Plugin.PowerPlugin.PreStartContainer | pkg/plugin/plugin.go:267-269 | Every request is accepted. |
| Plugin.PowerPlugin.Cleanup | pkg/plugin/plugin.go:272-277 | The new state and result are CleanupStep of the old state. |
| Plugin.PowerPlugin.Start | pkg/plugin/plugin.go:96-139 | The new state and result are StartStep of the old state. |
| Plugin.PowerPlugin.Stop | pkg/plugin/plugin.go:142-151 | The new state and result are StopStep of the old state. |
| Plugin.PowerPlugin.Register | pkg/plugin/plugin.go:154-175 | The new state and result are RegisterStep of the old state. Only the trace changes. |
| Plugin.PowerPlugin.Serve | pkg/plugin/plugin.go:280-296 | The new state and result are ServeStep of the old state. |
| Plugin.PowerPlugin.ListAndWatch | pkg/plugin/plugin.go:178-209 | See the note below the table. |
| Plugin.PowerPlugin.Allocate | pkg/plugin/plugin.go:212-247 | A scan failure is returned and no response is built. Otherwise there is one response per container request, in order, each listing DeviceSpecs of all scanned devices whatever the request named. |
| Plugin.PowerPlugin.AllocateFunc | pkg/plugin/plugin.go:366-401 | The closure GetAllocateFunc returns gives the same answer as Allocate. The device map is not consulted. |
| Scanner.ScanRootForDevices | cmd/scanner/main.go:23-42 | A failed block query returns its error. Otherwise the nested loops return exactly PartitionDevices(disks), with no disk names. |
| Scanner.PartitionDevicesLength | cmd/scanner/main.go:32-41 | The scanner yields exactly one name per partition, and nothing for no disks. |
| Scanner.PartitionDevicesAppend | cmd/scanner/main.go:34-40 | Scanning two runs of disks gives the first run's names followed by the second's. |
| Scanner.PartitionDevicesAround | cmd/scanner/main.go:34-40 | A disk contributes exactly its partitions' names, in order, between those of the disks before and after it. |
| Scanner.OnlyPartitionNames | cmd/scanner/main.go:34-40 | Every listed name is the name of some partition of some disk. |
| Scanner.PluginScanAddsDiskNames | cmd/scanner/main.go:34-40 | The plugin's scan equals the scanner's scan over disks that each count themselves as a trailing partition. |
| Scanner.PluginListsOneMoreNamePerDisk | cmd/scanner/main.go:34-40 | The plugin's list has exactly one more name per disk than the scanner's. |
| JsonPointer.Escape | pkg/webhook/webhook.go:225 | An escaped reference token contains no "/". |
| JsonPointer.UnescapeEscape | pkg/webhook/webhook.go:225 | Unescaping an escaped token gives the token back. |
| JsonPointer.EscapeSlashJoin | pkg/webhook/webhook.go:225 | Two plain tokens joined by "/" escape to the same tokens joined by "~1". |
| JsonPointer.ParseFormat | pkg/webhook/webhook.go:225 | Parsing the pointer formatted from any token list gives that list back. |
| Webhook.PointerOfFive | pkg/webhook/webhook.go:225 | A pointer of four plain segments and one segment escaping a "/" parses to those five tokens, the last with its "/" restored. |
| Webhook.PatchPathDesignates | pkg/webhook/webhook.go:225 | The patch path parses to the tokens spec, containers[0], resources, requests, power-dev-plugin/dev. |
| Webhook.CreatePatchForPod | pkg/webhook/webhook.go:217-229 | Exactly one operation: "add" with value "1" at the path that designates the resource-request tokens. |
| Webhook.PatchRequestsPluginResource | pkg/webhook/webhook.go:217-229 | The patch is the same for every pod, and its last token is the resource the plugin registers. |
| Webhook.Mutate | pkg/webhook/webhook.go:161-207 | See the note below the table. |
| Webhook.MutateHandler | pkg/webhook/webhook.go:96-159 | See the note below the table. |

**Plugin.StartStep.**
- A scan failure is returned after the scan alone.
- On a successful scan, devs becomes the scan result.
- A cleanup or listen failure is returned, and the server is left as it was.
- A probe failure after a successful listen is returned, with the server set.
- The server can only become set, and only after a successful listen.
- The result is success if and only if scan, cleanup, listen and probe all succeed.
- The trace is scan, remove, listen, probe, cut at the failing step.

**Plugin.PowerPlugin.ListAndWatch.**
- It rescans only when devs is empty. A scan failure ends the call before any send, with devs unchanged.
- Otherwise it sends the full record list once, then the sends of Watch.
- It ends with a stop if and only if the events contain one.
- Every send is DeviceRecords(devs).

**Webhook.Mutate.**
- A pod decode failure gives not allowed, with code 400, reason InternalError and the decode message.
- A decoded pod is allowed.
- A patch is present if and only if the pod's namespace is a key of the policy map, and the patch is then CreatePatchForPod.
- The patch type is JSONPatch exactly when a patch is present.

**Webhook.MutateHandler.**
- A content type other than application/json gives 415.
- Otherwise a nil or empty body gives 400, and these HTTP errors happen exactly when the request is rejected.
- A panic happens exactly when the review decodes without a request.
- Otherwise the review goes out under 400 after a read error, and under 200 without one.
- A review decode error gives not allowed, no patch and status 400 with reason InternalError.
- A decoded review gives Mutate's answer.
- The UID is the request's UID when the review carries a request, and empty otherwise.

## Left out

- gRPC itself: the server, its `Serve` goroutine, `RegisterDevicePluginServer`, `grpc.NewClient` in `dial`, and the kubelet's `Register` RPC. These are foreign network calls. Only whether they fail is modelled, as error parameters.
- Concurrency of the `stop` and `health` channels, and `unhealthy` (plugin.go:197-208, 262-264). The select is a finite script of events, and a stop is seen only by a `ListAndWatch` whose script contains it.
- Plugin.PowerPlugin.ListAndWatch: the event script is not tied to `stopClosed`. After Start, Stop, Start the stop channel is already closed, so the source's select can never block and the stream returns nil once the select picks the closed channel. The model still lets such a call take a script with no stop and end as `StreamWaiting`.
- Plugin.PowerPlugin.ListAndWatch: a call whose script has no stop ends as `StreamWaiting`. The blocking forever in the select is not modelled, and errors from `stream.Send` are not modelled because the source ignores them.
- `SystemShutdown` and `AppShutdown` (plugin.go:324-341), and the webhook's `server()` with its HTTP listener and shutdown (webhook.go:55-94). These handle OS signals and network I/O.
- `ghw.Block()` is a `BlockQuery` parameter. Partitions keep only their names, the only field the source reads.
- All `klog` and `fmt.Printf` logging.
- Configuration loading with viper in `init`, and the cobra command (webhook.go:25-53). The namespace map is a parameter.
- JSON encoding and decoding. Decode results are datatypes, and the patch is a list of operations rather than its JSON bytes.
- Webhook.CreatePatchForPod: the `json.Marshal` error branch in `mutate` (webhook.go:187-196) is not modelled, because marshalling a list of string-valued structs cannot fail.
- Webhook.MutateHandler: the `json.Marshal` and `w.Write` error paths that write status 500 (webhook.go:149-158) are not modelled, because they are encoder and network failures.
- The process entry points `cmd/power-dev-plugin/main.go`, `cmd/webhook/main.go` and the scanner's `main`. They map outcomes to exit codes and print.
- The unused `watchInterval` constant and the commented-out `Run` and `monitorPluginRegistration` (plugin.go:40, 298-321).
- The difference between a nil and an empty Go slice. Both are the empty sequence.
- Plugin.PowerPlugin.Allocate: `ContainerRequest` keeps only the requested device IDs, which the source ignores. Response structs are values, not pointers.
