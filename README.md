# MPS daemon provisioning

A Dafny model of how the MPS control daemon of the NVIDIA Kubernetes device plugin
decides which MPS daemons to run (`cmd/mps-control-daemon/mps/manager.go`).

- `New` picks the implementation of the `Manager` interface once, from the sharing strategy.
  For any strategy but MPS it is the null manager. For MPS it is the real manager.
  `New` never fails.
- The real manager's `Daemons` takes the resource groups from the resource-manager enumeration, in order.
  - It skips a group with no devices.
  - It skips a group in which no device ID carries a sharing annotation.
  - In every other group it runs the replica check on each non-MIG device.
  - The first rejected device fails the whole call. Daemons already built are discarded.
  - Otherwise it builds one daemon per remaining group, each with the fixed `ContainerRoot`.
- The null manager's `Daemons` returns no daemons and no error.
- `NewDaemons` composes `New` and `Daemons`.

Files:

- `mps.dfy` (module `Mps`) holds the data model, the operations, and the specification functions for the group loop.
  - `Provision` is the loop's outcome for a list of groups.
  - `GroupDaemons` is what one iteration contributes.
  - `FirstRejected` is the inner device loop.
  - `ManagerDaemons` keeps the source's nested loops, `continue`s and early return. It is proved equal to `Provision`.
- `properties.dfy` (module `MpsProperties`) holds the lemmas.
  - `Survivors` is an independent, head-recursive definition of which groups pass the skip filters.
  - The lemmas tie `Provision` to `Survivors`.
  - They also cover when the call fails, which device the error names, and how runs of groups compose.

Abstractions of collaborators whose code is not part of this model:

- A `Device` carries three booleans:
  - `annotated`: the result of the annotation lookup on its ID;
  - `isMig`: the result of `IsMigDevice`;
  - `replicasOk`: whether `assertReplicas` accepts it.
- The hardware enumeration (`rm.NewNVMLResourceManagers`) is an input. It is either the list of groups or the enumeration's error, which is returned unchanged.
- `NewDaemon` is a plain record constructor.

MIG devices follow the code, not the log message.
- The warning at manager.go:94 says daemon creation is skipped.
- But the `continue` at manager.go:95 only advances the inner device loop.
- So a MIG device is only exempt from the replica check, and its group still gets a daemon.
- This holds even when every device of the group is a MIG device.
- `MigDevicesAreExempt`, `AllMigGroupGetsDaemon` and `SharedMigGroupGetsDaemon` state this deliberately.

For the same strategy and the same groups, whether the call succeeds and, on success, the list of daemons do not depend on the order in which a group's devices are visited (`ProvisionOkIff`, `ProvisionOkIsSurvivors`, `DeviceOrderDoesNotDecideOutcome`). Which rejected device an error names can depend on that order (see "## Left out").

## Model

| member | source | states |
|---|---|---|
| `Mps.New` | cmd/mps-control-daemon/mps/manager.go:55-71 | Never returns an error. Returns the null manager exactly when the strategy is not MPS. |
| `Mps.ManagerDaemons` | cmd/mps-control-daemon/mps/manager.go:73-106 | An enumeration error is returned unchanged. Otherwise the nested filter/validate/construct loop returns exactly `Provision` of the enumerated groups. |
| `Mps.NullManagerDaemons` | cmd/mps-control-daemon/mps/manager.go:108-111 | Always no daemons and no error. It takes no input, so it never consults the enumeration. |
| `Mps.NewDaemons` | cmd/mps-control-daemon/mps/manager.go:44-51 | Non-MPS strategy: no daemons and no error, for any enumeration. MPS: the real manager's result. No error ever comes from manager creation. |
| `Mps.FirstRejected` | cmd/mps-control-daemon/mps/manager.go:92-100 | Finds no device exactly when every non-MIG device passes the replica check. Any device it names is a non-MIG device that fails the check. |
| `Mps.FirstRejectedAt` | cmd/mps-control-daemon/mps/manager.go:92-99 | The device reported is the first one, in the order the loop visits them, that is not MIG and fails the replica check. |
| `Mps.GroupDaemons` | cmd/mps-control-daemon/mps/manager.go:80-102 | One group gives at most one daemon. It gives one exactly when it has devices, a shared device and valid replicas. It fails exactly when it has devices and a shared device but invalid replicas. |
| `Mps.Provision` | cmd/mps-control-daemon/mps/manager.go:78-105 | On success, no more daemons than groups, all with `ContainerRoot`. The only error the loop produces is an invalid MPS configuration. |
| `Mps.ProvisionErrPersists` | cmd/mps-control-daemon/mps/manager.go:97-99 | Once a prefix of the groups has failed, the later groups cannot change the outcome (early return). |
| `MpsProperties.Survivors` | cmd/mps-control-daemon/mps/manager.go:79-90 | Reference filter: no longer than the input, and every group it keeps has devices and a shared device. |
| `MpsProperties.SurvivorsAreOrderedSubsequence` | cmd/mps-control-daemon/mps/manager.go:79-90 | The kept groups are an ordered subsequence of the input. A group is kept exactly when it is in the input and passes both skip filters. |
| `MpsProperties.ProvisionOkIff` | cmd/mps-control-daemon/mps/manager.go:79-105 | The call succeeds exactly when every group with devices and a shared device has only non-MIG devices that pass the replica check. This is both directions of the all-or-nothing rule. |
| `MpsProperties.ProvisionOkIsSurvivors` | cmd/mps-control-daemon/mps/manager.go:78-105 | On success, the daemons are one per surviving group, in input order. Each references its group and the same `ContainerRoot`. |
| `MpsProperties.ProvisionErrNamesFirstRejected` | cmd/mps-control-daemon/mps/manager.go:92-99 | The error names the first rejected non-MIG device of the first failing qualifying group, and no daemons are returned. |
| `MpsProperties.ProvisionConcat` | cmd/mps-control-daemon/mps/manager.go:78-105 | For two runs of groups, daemons concatenate when both succeed. A failure in the first run wins. A failure in the second discards the daemons already built for the first. |
| `MpsProperties.SkippedGroupIsInvisible` | cmd/mps-control-daemon/mps/manager.go:80-90 | A group with no devices or no shared device leaves the outcome unchanged wherever it stands. None of its devices is checked, so bad replicas there cause no error. |
| `MpsProperties.DeviceOrderDoesNotDecideOutcome` | cmd/mps-control-daemon/mps/manager.go:81-99 | Two device sequences that hold the same devices in a different order agree on the emptiness test, the annotation test and the replica check. So the visiting order of a group's devices never decides skip, success or failure. |
| `MpsProperties.MigDevicesAreExempt` | cmd/mps-control-daemon/mps/manager.go:92-102 | A qualifying group whose non-MIG devices all pass gets exactly one daemon, whatever its MIG devices' replica state. |
| `MpsProperties.AllMigGroupGetsDaemon` | cmd/mps-control-daemon/mps/manager.go:92-102 | A shared group made only of MIG devices still gets its daemon. |
| `MpsProperties.SharedAndUnsharedGroups` | cmd/mps-control-daemon/mps/manager.go:85-102 | Groups gpu0 (shared, valid) and gpu1 (unshared) give exactly one daemon, for gpu0. |
| `MpsProperties.SharedMigGroupGetsDaemon` | cmd/mps-control-daemon/mps/manager.go:91-102 | A shared group whose only device is a MIG device with bad replicas gets one daemon and no error. |
| `MpsProperties.BadReplicasFailTheWholeCall` | cmd/mps-control-daemon/mps/manager.go:97-99 | A valid group followed by a shared group with a rejected device gives an error naming that device. The first group's daemon is discarded. |

## Left out

- Hardware enumeration (`rm.NewNVMLResourceManagers` and the info, NVML and device library handles): a foreign library. The groups or its error are an input.
- The bodies of `assertReplicas`, `AnyHasAnnotations`, `IsMigDevice` and `NewDaemon`: they are not part of this model. They are the device booleans and a plain record constructor.
- The exact replica-count rule: the model does not say which counts `assertReplicas` accepts, because its body is not part of this model.
- Device order: a group's devices are a Go map in the source (its type is defined in internal/rm, which is not part of this model), and Go visits map entries in an unspecified, varying order. The sequence of devices stands for the order one call happens to visit them. When a qualifying group has two or more rejected non-MIG devices, the device the error names can differ between calls; the model fixes one order per call.
- Error message texts and `%w` wrapping: an error carries only its kind and the rejected device's ID, or the enumeration's reason.
- `ContainerRoot`'s value: it is defined in daemon.go, which is not part of this model. The constant here is a stand-in. Only the fact that every daemon gets the same value is modelled.
- The option closures applied in `New` and configuration parsing: the resulting sharing strategy is an input.
- `klog` logging: it has no effect on results.
- Pointer identity of the returned `*Daemon` values, and nil versus empty slices: both are modelled as values and the empty sequence.
- The daemon process itself (sockets, pipes, supervision): outside the decision.
