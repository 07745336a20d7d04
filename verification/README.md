# Verification of the accelerated bridge CNI plugin

The plugin puts the VF of a pod behind its representor on a Linux bridge, gives
the representor port its VLANs, optionally passes these VLANs on to the uplink of
the bridge, and undoes all of it when the pod goes away. What is difficult about it is

* a concurrent protocol: every CNI call is a process of its own, and any number of
  them add VLANs to, and remove VLANs from, one shared uplink;
* a transaction over kernel state: ADD saves what it overrides, an undo stack takes
  a failed ADD back, and a later process that knows only a cache file runs DEL.

This project models both over one explicit kernel state and proves them;
`dafny verify dfyconfig.toml` checks the whole project.

## Structure

| files | what they hold |
|---|---|
| `Wrappers`, `VlanLists`, `Types` | small datatypes, the 16-bit VLAN conversion, configuration and state records |
| `Kernel`, `Netlink` | links, namespaces, bridge ports with their VLAN tables; what each request does to them; the master walk |
| `VlanIds`, `BridgeNames`, `Config` | trunk normalisation, the bridge option, `ParseConf` |
| `Effects`, `Promises`, `Manager` | attach, detach, VF setup and release: each method is proved against a function or relation on kernel states, and against a promise that goes field by field and does without these |
| `Cache` | the JSON form of `PluginConf` with its shadowed keys, state references, the cache as a map |
| `Lifecycle`, `AttachDetach`, `RoundTrip`, `Retry`, `Attempts` | what ADD and DEL come to, and the theorems that span both |
| `UplinkInputs` | two hosts on which ADD and DEL change the table of the uplink, and one whose uplink is a bond |
| `Undo`, `Rollback`, `FailedAdd` | the undo stack of `CmdAdd`, what a failed ADD leaves behind, and the DEL after it |
| `RollbackIfOpen` | what the undo would come to if the namespace handle were still open then, which it is not |
| `Arguments`, `Reports`, `Plugin` | the arguments of a call and the configuration made of them; what an ADD reports and has done; `CmdAdd` and `CmdDel` with the undo stack |
| `Scenarios` | both commands in sequence: ADD and DEL, a failed ADD and DEL, DEL until it is done, calls for other pods |
| `UplinkMachine`, `UplinkSafety`, `UplinkReturned`, `UplinkLock`, `UplinkProgress`, `UplinkAtRest`, `UplinkListFailure` | the uplink protocol as a state machine, one netlink call per event; its safety, mutual exclusion, progress, absence of leaks, and the one failure that breaks safety |
| `UplinkSolo`, `UplinkSoloFailures`, `UplinkRefinement` | the state machine run by one process alone, with and without failing calls, ends in a kernel state that the methods of `Manager` are proved to end in |

The code that works step by step is modelled by classes and methods with loops
(`Netlink.Host`, `Manager.Manager`, `Plugin.Plugin`, `Plugin.CmdContext`,
`Cache.FsStateCache`). In these every request may fail, without effect; the ghost
counter `failures` goes up with each one that does, so that "every call succeeds"
reads `failures == old(failures)`. Ghost fields count how often the lock is taken and what
is done without it, and keep the kernel state in which it was taken. Link values are
snapshots, as `LinkByName` returns them, and later requests do not refresh them.

## Modelling assumptions

* Links are found by name within a namespace, where names are unique. Following
  masters is acyclic, a master is a bridge or a bond, and bridges are not put on bridges.
* A port that joins a bridge gets VLAN 1 as PVID and egress untagged; leaving the
  bridge flushes its VLAN table; enslaving it to the bridge it is on changes nothing.
  Only a plain device can be enslaved, and only to a bridge.
* Adding a VLAN without the PVID and untagged flags clears these flags for that
  VLAN. Deleting a VLAN that is absent is no error. VLAN requests on a link that is no
  bridge port fail, and so do those with a number outside 1 to 4094.
* A link that is moved to another namespace keeps its index and loses its master.
  Administrative and effective MAC address are independent.
* Pods have a namespace other than the init namespace. `Do` on a namespace handle
  that has been closed is an error, as in the `ns` package of containernetworking/plugins
  (the package itself is not part of this model).
* In the sequential model releasing the file lock succeeds; in the state machine it
  may also fail, and then the lock is held until the process ends.
* A representor belongs to one ADD or DEL at a time, and with a single configured
  bridge the uplink is on that bridge, which the code does not check
  (pkg/config/config.go:122-123). The claims of the state machine rest on both.
* Bond and bridge topology do not change during a run.

## Where the code and its comments disagree

The model follows the code.

* `getUnusedVlanList` drops the error of `BridgeVlanList` (pkg/manager/manager.go:494).
  One such failure makes every VLAN look unused. The uplink is safe in every run
  without it, and a run with one of them breaks safety:
  `UplinkSafety.ListFailureKeepsInvIff`, `UplinkListFailure.OneListFailureIsEnough`.
* `CmdAdd` defers its undo before it defers closing the namespace handle, and deferred
  calls run last in, first out (pkg/plugin/plugin.go:71-73, 93). So the handle is closed
  when the undo runs, `Do` refuses it, and `ReleaseVF` is never called
  (pkg/plugin/plugin.go:119-127). An ADD that fails after `SetupVF`, in IPAM, when saving
  or in the device info file, is undone if and only if the VF has a userspace driver; a
  VF with a kernel driver stays in the pod, exactly as `SetupVF` left it:
  `Rollback.UndoneIffUserspace`, with an input in `FailedAdd.VfIsLeftInPod`. After a
  failure in IPAM or when saving there is no cache file, so the DEL that follows returns
  nil and leaves the VF there: `Scenarios.FailedAddThenDel`.
* When the device info file cannot be updated, `CmdAdd` says it continues and returns
  nil, but the deferred undo still sees the error, and takes representor and lease back
  (pkg/plugin/plugin.go:148-152): `Rollback.FailedAddIsUndone`. The cache file is there,
  so the DEL that follows brings the VF home: `FailedAdd.DelAfterUndoneAdd`.
* When `SetupVF` fails, the VF stays as the calls before the failing one left it. The
  closed handle is one reason; with an open one `ReleaseVF` would refuse, because
  `ContIFNames` is still empty (pkg/manager/manager.go:149, 161-164):
  `Rollback.FailedSetupKeepsVF`.
* `CmdDel` swallows the error of the detach. If the namespace path is gone it
  returns nil with the error still set, so the cache file stays
  (pkg/plugin/plugin.go:354-356, 365-375): `Plugin.Plugin.CmdDel`.
* Once a DEL has renamed the VF and then fails, no later DEL finds the VF, and none
  gets through: `Retry.VfIsGone`, `Plugin.Plugin.CmdDel`.
* ADD followed by DEL gives the uplink back its table only under a condition on that
  table: `AttachDetach.UplinkIsRestoredIff`. A configured VLAN that was on the uplink
  before and is on no other port is gone afterwards. And a configured VLAN that was
  native on the uplink is native no more, even where other ports keep the VLAN itself
  there, because it is added as tagged and nothing sets its flags again
  (pkg/utils/netlink.go:127-135): `AttachDetach.NativeVlanIsLost`. `UplinkInputs` has a host
  for each of the two.

## Model

| member | source | states |
|---|---|---|
| UplinkSafety.StepKeepsInv | pkg/manager/manager.go:306-514 | one netlink call, failure, crash or lock operation of any process keeps the invariant: the deletions a detacher still has to make never meet a VLAN of a completed attach on its uplink |
| UplinkSafety.RunKeepsInv | pkg/manager/manager.go:306-514 | so does every run of any number of processes |
| UplinkSafety.UplinkIsSafe | pkg/manager/manager.go:330-348 | from any start, over every interleaving, with any failures but that of `BridgeVlanList` and any crashes: each representor whose `setUplinkVlan` attach went through and that is still on its bridge has all VLANs of Trunk and Vlan on the uplink, and so has that of every process whose `AttachRepresentor` has just returned nil |
| UplinkReturned.ReturnedAttachIsSafe | pkg/manager/manager.go:344-350 | from the moment `AttachRepresentor` has returned nil, whatever follows, the representor has its VLANs on the uplink as long as it is on the bridge and no new attach is started for it |
| UplinkSafety.TablesGoKeepsInv | pkg/manager/manager.go:457-481 | what the two snapshots find unused is used by no completed attach, because the port carries its VLANs before the uplink does and the lock keeps the uplink as it is |
| UplinkSafety.UnusedIsUncarried | pkg/manager/manager.go:492-514 | the search returns a VLAN if and only if it was asked for and no port of the snapshot carries it |
| UplinkSafety.UnusedIsUnwanted | pkg/manager/manager.go:492-514 | so it returns none that a completed attach of the snapshot uses |
| UplinkSafety.ListFailureKeepsInvIff | pkg/manager/manager.go:494 | a failing `BridgeVlanList` is harmless if and only if no completed attach on the uplink shares a configured VLAN with the detaching configuration |
| UplinkSafety.DeletesAll | pkg/manager/manager.go:484-486 | the deletion loop, left alone, takes exactly its list off the uplink and changes nothing else |
| UplinkSafety.ListFailureIsUnsafe | pkg/manager/manager.go:494 | from any reachable state in which the VLAN is shared, the failing call leads to a state that is not safe |
| UplinkListFailure.OneListFailureIsEnough | pkg/manager/manager.go:494 | for every two lifecycles that share a VLAN there is a run from an empty host with a single failed call, that of `BridgeVlanList`, after which an attached representor lacks its VLAN on the uplink |
| UplinkLock.LockIsNeverLeftBehind | pkg/manager/manager.go:377-390 | over every run one process at most is between `Lock` and `Unlock`, the lock is free once all processes have ended, and when no `Unlock` fails it is held in these sections only |
| UplinkLock.StepIsExclusive | pkg/manager/manager.go:457-463 | every event keeps that, crashes and failures inside the section included |
| UplinkAtRest.RunKeepsRest | pkg/manager/manager.go:330-348 | in runs without failures and crashes, every VLAN above 1 on a port is there by a lifecycle configured with it, and on the uplink it is carried by a port or pending |
| UplinkAtRest.UplinkDoesNotLeak | docs/configuration-reference.md:38-45 | in such runs a VLAN that was nowhere at the start is on the uplink only while a port of the bridge carries it or a detach has still to remove it |
| UplinkAtRest.UplinkIsExactAtRest | docs/configuration-reference.md:38-45 | when no process is running, the uplink carries a VLAN above 1 if and only if an attached representor is configured with it, and each attached representor carries exactly its own |
| UplinkSolo.AttachAlone | pkg/manager/manager.go:312-350 | a process that attaches alone ends with the port table, the uplink table and the lock as stated, all other tables untouched |
| UplinkSolo.DetachAlone | pkg/manager/manager.go:413-423 | a process that detaches alone removes from the uplink exactly the configured VLANs that no other port of the bridge carries |
| UplinkRefinement.AttachRefines | pkg/manager/manager.go:306-351 | the attach of the state machine, run alone, ends in the abstraction of the kernel state that `Manager.AttachRepresentor` is proved to end in |
| UplinkRefinement.DetachRefines | pkg/manager/manager.go:393-424 | the same for the detach |
| UplinkRefinement.AttachFailureRefines | pkg/manager/manager.go:306-351 | a lone attach of the state machine that has ended, any calls failing but its undo, is in the abstraction of a complete attach of the kernel if no call failed, and of a rolled-back one if some did |
| UplinkRefinement.DetachFailureRefines | pkg/manager/manager.go:393-424 | the detach, run alone with any calls failing but `BridgeVlanList`, ends in the abstraction of a partial detach that took only unused VLANs |
| UplinkSoloFailures.AttachFailsAlone | pkg/manager/manager.go:312-350 | a lone attach, any of its calls failing but the undo: if it returned nil the port has exactly its VLANs and the uplink all of them; if not, the representor is off the bridge with an empty table and the uplink has gained configured VLANs at most; no other table differs |
| UplinkSoloFailures.GivesUpIffACallFails | pkg/manager/manager.go:306-351 | it returns an error if and only if one of its calls failed, the lookup of the bond and the unlock excepted |
| UplinkSoloFailures.DetachFailsAlone | pkg/manager/manager.go:413-423 | wherever a lone detach fails, the uplink has lost at most VLANs that no other port carries, and nothing before the representor was off the bridge |
| UplinkProgress.AnotherMayStart | pkg/manager/manager.go:23-24 | any number of processes run at once, wherever the others stand |
| UplinkProgress.NextCall | pkg/manager/manager.go:377-390 | a process that has not ended can make its next call, with or without success, and waits only for a lock that another process holds |
| UplinkProgress.HolderGoesOn | pkg/manager/manager.go:457-463 | in every reachable state the process that holds the lock another one waits for can go on, or can end and so release it |
| UplinkProgress.CallsAreBounded | pkg/manager/manager.go:282-514 | whatever the other processes do, a process makes no more calls than its place and its VLAN lists allow |
| UplinkProgress.EndingKeepsTables | pkg/manager/manager.go:23-52 | a process that ends or crashes leaves masters and tables as they are and gives its lock back |
| UplinkProgress.MissedBondKeepsTables | pkg/manager/manager.go:362-366 | a process that could not look up the bond of its PF changes no VLAN table with what it takes for the uplink |
| Manager.Manager.AttachRepresentor | pkg/manager/manager.go:282-351 | on success the representor is up, on the bridge, with the MTU asked for, its port has exactly the VLANs asked for and the native one, the uplink has gained them if that is asked for, and nothing else has changed; the original MTU is recorded, and the representor is the one of the VF; the lock was taken once, with the port table complete and the uplink as it was; on failure with a successful undo the representor is off the bridge, no other link has changed, and the uplink has at most gained VLANs asked for, none without the lock; the lock is never left held |
| Manager.Manager.JoinBridge | pkg/manager/manager.go:310-350 | the part from `LinkSetMaster` on, with its deferred undo |
| Promises.AttachKeepsPromise | pkg/manager/manager.go:298-348 | the attached state, link by link and table by table, from the configuration alone |
| Promises.FailedAttachKeepsPromise | pkg/manager/manager.go:316-320 | the same for an attach that has been undone |
| Promises.LockedAfterPort | pkg/manager/manager.go:322-348 | when the lock is taken the port has its complete table and no other table has changed |
| Promises.AskedAreConfVids | pkg/manager/manager.go:368-375 | the VLANs that attach and uplink handling share are those of Trunk and Vlan, cut to 16 bits |
| Promises.UplinkIsUplinkOf | pkg/manager/manager.go:354-366 | the uplink is the bond of the PF when its master is a bond, and otherwise the PF |
| UplinkInputs.BondGetsVlans | pkg/manager/manager.go:362-366 | a host with the PF in a bond: the bond gets the VLANs |
| Effects.FreshPortIsAsPromised | docs/configuration-reference.md:28-35 | a freshly attached port carries exactly Trunk and Vlan, or VLAN 1 when neither is set; Vlan is native, VLAN 1 is when neither is set, and a trunk alone has no native VLAN, for all overlaps of Vlan, Trunk and 1 |
| Effects.PromisedPortOfVlanNumbers | pkg/utils/netlink.go:115-135 | for VLAN numbers the 16-bit conversion changes nothing in that table |
| Effects.UndoneIsRolledBack | pkg/manager/manager.go:316-320 | unmastering undoes whatever the port table had become, wherever the VLAN calls stopped |
| Effects.FailedAttachLeavesNoPort | pkg/manager/manager.go:312-350 | after a failed attach with a successful undo an initially unmastered representor has no master and no VLAN table, and every other port has its VLANs and at most the configured ones more |
| Manager.Manager.ConfigurePort | pkg/manager/manager.go:322-342 | the three VLAN steps turn the table the port had into the documented one, wherever they stop only that table differs |
| Manager.Manager.ConfigureVlans | pkg/manager/manager.go:322-348 | port and uplink together, success leaving all configured VLANs on the uplink when asked to; a failure anywhere leaves a port table and a set of configured VLANs added to the uplink, nothing else |
| Manager.Manager.PrepareRepresentor | pkg/manager/manager.go:298-308 | the MTU recorded is the one of the snapshot taken before it was changed; nothing but MTU and up flag changes |
| Manager.Manager.LookUpEnds | pkg/manager/manager.go:283-296 | bridge and representor are the links of these names, nothing in the kernel changes |
| Manager.Manager.AddUplinkVlans | pkg/manager/manager.go:353-391 | success puts all VLANs asked for on the bond of the PF, or on the PF when it has none, as tagged ones, and needs it to be a bridge port if there are any; failure a part of them; nothing else changes; all is done under one lock, and when the lock cannot be taken the call fails and changes nothing |
| Promises.AddedToUplink | pkg/manager/manager.go:377-388 | the table of the uplink then, VLAN by VLAN |
| Manager.Manager.ResolveUplink | pkg/manager/manager.go:354-366 | without failing calls it is the bond of the PF, or the PF when it is in none; when the bond cannot be looked up the PF that is taken instead is no bridge port |
| Manager.Manager.DetachRepresentor | pkg/manager/manager.go:393-424 | with every call successful the representor is down, off the bridge, has its recorded MTU and no table, and the uplink has lost exactly the VLANs asked for that no other port of its bridge carries; how far it came otherwise determines the whole kernel state, and no other port loses a VLAN it or a port beside it carries unless `BridgeVlanList` failed; the lock is taken once, after the representor has left the bridge, and nothing is done to the uplink without it |
| Manager.Manager.RetireRepresentor | pkg/manager/manager.go:394-410 | down and MTU; a failure leaves the effect of the calls before it |
| Manager.Manager.LeaveBridge | pkg/manager/manager.go:412-423 | off the bridge first and then off the uplink, whose failure is no failure |
| Promises.DetachKeepsPromise | pkg/manager/manager.go:399-421 | the state after a complete detach, link by link and table by table |
| Promises.DetachKeeps | pkg/manager/manager.go:413-421 | what the other ports keep, however far it came |
| Manager.Manager.DeleteUplinkVlans | pkg/manager/manager.go:426-489 | with every call successful the bond of the PF, or the PF when it has none, has lost exactly the VLANs asked for that no other port of its bridge carries, and no other port has changed; with calls failing such VLANs at most, and any of those asked for when `BridgeVlanList` failed; both snapshots and all deletions are made under one lock, and without it nothing changes |
| Promises.PrunedFromUplink | pkg/manager/manager.go:465-486 | the table of the uplink then, VLAN by VLAN |
| Promises.GoneFromUplink | pkg/manager/manager.go:484-486 | the same with calls failing |
| Manager.Manager.PruneLocked | pkg/manager/manager.go:465-488 | the same for the critical section, from the links of the parent bridge |
| Manager.Manager.GetUnusedVlanList | pkg/manager/manager.go:492-514 | a VLAN is returned if and only if it was asked for and none of the given links carries it; all of them when the tables cannot be read |
| Manager.Search | pkg/manager/manager.go:497-507 | the nested search with its labelled break finds a VLAN if and only if some link of the list carries it |
| Manager.ExceptLink | pkg/manager/manager.go:474-479 | exactly the links other than the uplink |
| Manager.UnusedAsVids | pkg/manager/manager.go:481-502 | the list computed from the two snapshots is the set difference, across the 16-bit conversion |
| Manager.OthersCarry | pkg/manager/manager.go:465-481 | looking at the links enslaved to the parent bridge, the uplink left out, misses no port that carries the VLAN |
| Kernel.ParentOfPort | pkg/manager/manager.go:451 | the bridge that the walk from a port arrives at is the master of that port |
| Manager.Manager.SetupVF | pkg/manager/manager.go:81-152 | on success the VF, and nothing else, has changed: it is in the pod under the pod name, up, has the MAC address asked for or else its own and the MTU asked for or else its own, and what it had before is recorded; on failure the kernel state is the one after exactly the calls before the failing one; without failing calls only a malformed MAC address makes it fail |
| Promises.SetupKeepsPromise | pkg/manager/manager.go:91-150 | the VF in the pod, field by field |
| Promises.TempNamesDiffer | pkg/manager/manager.go:90 | no two VFs get the same temporary name |
| Manager.Manager.DressVF | pkg/manager/manager.go:92-127 | the same for the calls before the move |
| Manager.Manager.DownAndRename | pkg/manager/manager.go:92-100 | fails only before the name has changed, with the up flag telling at which call |
| Manager.Manager.SetAddressAndMTU | pkg/manager/manager.go:102-127 | on success the link has the MAC address and the MTU asked for, or else its own; what is recorded is what the snapshot held before any change, and only where it is overridden |
| Manager.Manager.SetAddress | pkg/manager/manager.go:102-117 | the same for the MAC address alone |
| Manager.Manager.MoveToPod | pkg/manager/manager.go:129-148 | the thread is back in its namespace whatever happens; the failing call determines namespace and name of the VF |
| Manager.Manager.ReleaseVF | pkg/manager/manager.go:155-216 | success brings the VF home, down, with recorded name, MAC and MTU, everything else unchanged; it refuses a VF with a host name and no pod name, and a MAC address to restore that is none, and nothing else; a failure before the renaming changes the up flag at most |
| Promises.ReleaseKeepsPromise | pkg/manager/manager.go:167-214 | the VF at home, field by field |
| Manager.Manager.BringHome | pkg/manager/manager.go:167-214 | the part inside the pod namespace |
| Manager.Manager.ResetAddressAndMTU | pkg/manager/manager.go:185-206 | MAC and MTU go back only where they had been overridden |
| Manager.Manager.ApplyVFConfig | pkg/manager/manager.go:229-257 | records the administrative MAC address before changing it to the one asked for, of that VF and no other; a failure leaves the kernel as it was; it refuses VFs the PF does not have and malformed addresses and nothing else |
| Promises.ApplyKeepsPromise | pkg/manager/manager.go:241-254 | the administrative addresses of the PF afterwards, one by one |
| Manager.Manager.ResetVFConfig | pkg/manager/manager.go:260-280 | puts the recorded address back when one had been requested, and changes no other one |
| Promises.ResetKeepsPromise | pkg/manager/manager.go:266-277 | the administrative addresses of the PF afterwards, one by one |
| Netlink.BridgeTrunkVlanAdd | pkg/utils/netlink.go:127-135 | stops at the first failure with exactly a prefix of the VLANs added |
| Netlink.BridgeTrunkVlanDel | pkg/utils/netlink.go:138-146 | stops at the first failure with exactly a prefix of the VLANs deleted |
| Netlink.BridgePVIDVlanAdd | pkg/utils/netlink.go:115-118 | the VLAN becomes PVID and untagged of that port |
| Netlink.BridgePVIDVlanDel | pkg/utils/netlink.go:121-124 | the VLAN and its flags are gone from that port |
| Netlink.GetMasterInterface | pkg/utils/netlink.go:198-203 | the master of the link; without one it fails without a request |
| Netlink.GetParentBondForLink | pkg/utils/netlink.go:168-177 | succeeds, when no request fails, if and only if the master is a bond, and returns it |
| Netlink.GetParentBridgeForLink | pkg/utils/netlink.go:155-165 | terminates on every acyclic link table, returns the first bridge on the master chain, the start included, and fails only if the chain ends before one or a lookup fails |
| Netlink.GetBridgeLinks | pkg/utils/netlink.go:180-195 | exactly the links enslaved to the bridge |
| Kernel.ParentBridgeIsUnique | pkg/utils/netlink.go:155-165 | the walk has at most one possible result |
| Kernel.NoParentWhenChainEnds | pkg/utils/netlink.go:158-163 | a chain that ends without a bridge has none anywhere |
| Kernel.WalkIsDecided | pkg/utils/netlink.go:158-163 | from every link the walk reaches a bridge or the end of the chain |
| Kernel.ParentOrEnd | pkg/utils/netlink.go:155-165 | the chain ends if and only if the link has no parent bridge |
| Kernel.BondAgrees | pkg/utils/netlink.go:152-177 | a link that is no bridge and its master have the same parent bridge, so auto-detection from the PF and deletion from the bond consult the same bridge |
| AttachDetach.UplinkIsRestoredIff | pkg/manager/manager.go:377-389 | ADD and DEL give the uplink back its whole table if and only if each configured VLAN was on it before exactly when another port carries it, and none was native or untagged on it |
| AttachDetach.UplinkVlansAreRestoredIff | pkg/manager/manager.go:465-487 | the first half of that decides the VLANs alone |
| AttachDetach.UplinkFlagsAreRestoredIff | pkg/utils/netlink.go:127-135 | the second half decides native VLAN and untagged flags |
| AttachDetach.NativeVlanIsLost | pkg/utils/netlink.go:127-135 | a native VLAN that is configured and that other ports carry stays on the uplink and is native no more |
| UplinkInputs.UplinkLosesVlan | pkg/manager/manager.go:465-487 | a host whose uplink has lost VLAN 1 after ADD and DEL with `vlan` 1 |
| UplinkInputs.UplinkLosesNativeVlan | pkg/utils/netlink.go:127-135 | the same host with another port: VLAN 1 is still on the uplink and native no more |
| AttachDetach.PruneAfterExtend | pkg/manager/manager.go:465-487 | pruning after an extension leaves the old table plus what other ports carry |
| AttachDetach.DetachUndoesAttach | pkg/manager/manager.go:393-424 | a detach from the state an attach left restores MTU, master and every table but the uplink's, which becomes the one above |
| RoundTrip.AddShape | pkg/plugin/plugin.go:105-146 | the links after ADD, and the recorded originals in terms of the state before it |
| RoundTrip.DelFinalOfStored | pkg/types/types.go:29-79 | DEL reaches the same state from the cached configuration as from the one ADD held, although `mac`, `mtu` and `trunk` of the inner struct are lost |
| RoundTrip.LinksAreRestored | pkg/plugin/plugin.go:354-391 | after ADD and DEL every link has its name, namespace, MAC addresses, MTU and master again; representor and VF are down |
| RoundTrip.KernelIsRestored | pkg/plugin/plugin.go:105-146 | the same for links and VLAN tables together, for every combination of MAC, MTU and driver |
| RoundTrip.AddThenDelRestores | pkg/plugin/plugin.go:306-394 | with leases and cache files as well, DEL knowing only the cache file |
| Scenarios.AddThenDel | pkg/plugin/plugin.go:57-394 | `CmdAdd` returning nil and then `CmdDel`, as they run: when every call after the steps of the ADD succeeds, DEL returns nil, and kernel, leases and cache are as before, up flags of representor and VF excepted, and the uplink under its condition; also when ADD could not update its device info; the devices are where the PCI device says they are, and the run of the ADD is known to be one from the given arguments |
| Scenarios.FailedAddThenDel | pkg/plugin/plugin.go:57-394 | `CmdAdd` failing in IPAM or when saving, its undo succeeding, and then `CmdDel`: DEL returns nil, leases and cache are as before, and a VF with a kernel driver is still in the pod; that is what happens when a usable ADD fails and no call fails but the loading of the missing file |
| Scenarios.OtherCalls | pkg/plugin/plugin.go:143-328 | any number of ADDs and DELs for other attachments, failing or not, leave cache file and lease of this one as they were |
| Plugin.Plugin.CmdAdd | pkg/plugin/plugin.go:57-153 | an ADD that got through has done what its arguments ask for: representor up on a configured bridge (with several, that of the uplink) with the VLANs asked for, the uplink as well, the VF in the pod with name, MAC address and MTU, the administrative address, the lease, and the cache file DEL needs; without failing calls it does get through, unless IPAM gives no address or a named reason lies in the arguments or the host; for every step that can fail: which handlers are registered, the state they start from, and that the final state is theirs in exact reverse order with the namespace handle closed, the undo being complete if and only if no call failed after the steps; cache files and leases of other attachments are as they were |
| Plugin.Plugin.RunDeferred | pkg/plugin/plugin.go:71-93 | the handle is closed before the undo handlers run; without an error none runs |
| Reports.AddIsAsAsked | pkg/plugin/plugin.go:75-152 | the state after a complete ADD in terms of its arguments and the PCI device |
| Reports.AskedInTheConfiguration | pkg/config/config.go:83-94 | the VLANs of the parsed configuration are those that the given one asks for |
| Reports.BridgeOfUplink | pkg/config/config.go:147-169 | with several bridges configured the one chosen is the bridge the uplink is a port of, be it the PF or its bond |
| Reports.NothingStopsAdd | pkg/plugin/plugin.go:79-152 | a usable call for a known VF with a proper MAC address and without device info file gets through unless a call fails or IPAM gives no address |
| Reports.PlacedForRun | pkg/plugin/plugin.go:105-133 | the links named by the PCI device are those that undo and DEL are about |
| Reports.OutcomeOwnEntries | pkg/plugin/plugin.go:136-146 | up to the undo no lease and no file but those of the attachment have changed |
| Undo.TriedKeepsOthers | pkg/plugin/plugin.go:71-73 | nor does an undo, complete or not, touch any other |
| Arguments.CallsAreKeptApart | pkg/plugin/plugin.go:143 | two calls with dash-free container ids and interface names share cache file or lease only if network name, container id and interface name are the same |
| Arguments.OwnEntriesKeepOthers | pkg/plugin/plugin.go:328 | so what a call does to its own entries leaves those of every other call alone |
| Plugin.CmdContext.CloseNetNS | pkg/plugin/plugin.go:93 | an open handle is closed for good |
| Plugin.Plugin.RunAdd | pkg/plugin/plugin.go:75-152 | returns nil also when only the device info file failed, and then still hands an error to the undo |
| Plugin.Plugin.RunSteps | pkg/plugin/plugin.go:105-152 | the steps on links, IPAM and cache; each failure leaves exactly the effects of the steps before it |
| Plugin.Plugin.AddDevices | pkg/plugin/plugin.go:105-133 | the undo of the attach is registered after it, that of the VF setup whether or not it succeeded, and the VF configuration has none |
| Plugin.Plugin.AddVF | pkg/plugin/plugin.go:112-133 | the same from the attach on |
| Plugin.Plugin.ConfigureIPAM | pkg/plugin/plugin.go:258-303 | a lease is there exactly when its release is registered, also when the result turns out unusable |
| Plugin.Plugin.StoreResult | pkg/plugin/plugin.go:136-152 | the cache file is written if and only if nil is returned |
| Plugin.Plugin.Prepare | pkg/plugin/plugin.go:79-103 | success yields a validated configuration, its namespace and the requested MAC address; without failing calls it refuses only input for which there is none |
| Plugin.Plugin.GetMACAddressConfig | pkg/plugin/plugin.go:232-255 | the MAC address of the runtime configuration if there is one, otherwise that of `CNI_ARGS` if there is one, otherwise that of the configuration; nothing else changes, and nothing at all on failure |
| Plugin.Plugin.HandleError | pkg/plugin/cmdcontext.go:28-34 | runs the handlers in exact reverse order of registration, with the namespace handle as it is then, and none without an error; with calls failing each one has done a part of its own at most |
| Plugin.CmdContext.RegisterErrorHandler | pkg/plugin/cmdcontext.go:23-25 | adds one handler at the end |
| Plugin.Plugin.RunHandler | pkg/plugin/plugin.go:108-127 | the effect of each undo function when its calls succeed, and what it can have done at most when they do not; the release does nothing when the handle is closed or `ReleaseVF` refuses |
| Netlink.Host.EnterThrough | pkg/plugin/plugin.go:120-123 | without an open handle no namespace is entered and no request made |
| Plugin.Plugin.CmdDel | pkg/plugin/plugin.go:306-394 | without namespace path nil and nothing done, without configuration an error and nothing done, without cache file nil and nothing done; with every call successful the state is that of a complete DEL; with none failing after the detach it gets through and the cache file goes, even if the detach failed; the lease is released before the namespace is looked at, and a path that does not exist gives nil and keeps the file; an attempt that failed before the VF was renamed left one of the states from which a retry converges; one that failed after it differs from the detached state in the VF alone, and no attempt gets through any more; cache files and leases of other attachments are as they were |
| Plugin.Plugin.DelLoaded | pkg/plugin/plugin.go:348-393 | the same for a loaded configuration |
| Plugin.Plugin.RunDel | pkg/plugin/plugin.go:354-393 | what `CmdDel` returns told apart from the error its deferred functions see; a failed detach alone is no such error |
| Plugin.Plugin.ReleaseResources | pkg/plugin/plugin.go:358-391 | lease, namespace and VF in this order, each only if the one before it succeeded |
| Plugin.Plugin.ReleaseAndReset | pkg/plugin/plugin.go:381-391 | VF and administrative MAC address; a failure before the renaming changes the up flag of the VF at most |
| Scenarios.DelAttempts | pkg/plugin/plugin.go:306-394 | after any number of `CmdDel` attempts without a `BridgeVlanList` failure, if the cache file is there and a VF with a kernel driver is in the pod, a complete DEL still ends where it would have ended before them; nothing else is asked of the attempts |
| Scenarios.DelUntilDone | pkg/plugin/plugin.go:306-394 | such attempts and one in which every call succeeds end where a single DEL ends |
| Attempts.AttemptKeepsEnd | pkg/plugin/plugin.go:348-393 | the same for one attempt, got through or not |
| Attempts.DoneAgain | pkg/plugin/plugin.go:348-352 | with a userspace driver a DEL whose cache file could not be removed may be repeated |
| Retry.RetryReachesSameState | pkg/plugin/plugin.go:348-393 | a complete DEL reaches the same state from every state such an attempt can leave |
| Retry.RetriesConverge | pkg/plugin/plugin.go:348-393 | the same after any number of attempts, the cache file being there all the time |
| Retry.DetachedAgain | pkg/manager/manager.go:393-424 | a detach that stopped anywhere and is done again ends like one detach |
| Retry.ReleasedAfterDown | pkg/manager/manager.go:173-176 | a VF that is down already is released like any other |
| Retry.StoredTakesTheSameSteps | pkg/types/types.go:29-79 | partial DELs too do not depend on what the cache loses |
| Retry.VfIsGone | pkg/manager/manager.go:168-183 | once the VF has lost the pod name no link of the pod bears it |
| Undo.UndoneInTurn | pkg/plugin/cmdcontext.go:28-34 | undoing two groups of handlers is undoing the later group first |
| Undo.UndoneRegistered | pkg/plugin/plugin.go:108-127 | the undo of a CmdAdd is: lease, then VF as far as the handle allows, then representor |
| Undo.UndoneWhenClosed | pkg/plugin/plugin.go:93-127 | with the handle closed it is lease and representor only, whatever the driver |
| Rollback.RollbackAfterAttach | pkg/plugin/plugin.go:108-114 | undone after the attach, only the up flag of the representor differs, and the uplink as stated |
| Rollback.FailedAttachLeavesNothing | pkg/plugin/plugin.go:105-107 | an ADD that fails in the attach leaves no port, no lease and no file, and no port has lost a VLAN |
| Rollback.UndoAfterSetup | pkg/plugin/plugin.go:135-152 | undone after VF setup, leases and the state of the representor are as before, and a VF with a kernel driver is in the pod as VF setup left it |
| Rollback.FailedAddIsUndone | pkg/plugin/plugin.go:71-152 | the exact state that the undo of a failed ADD leaves, for every outcome `CmdAdd` can have in `ApplyVFConfig`, IPAM, `cache.Save` and the device info file |
| Rollback.UndoneIffUserspace | pkg/plugin/plugin.go:93-127 | an ADD that failed after VF setup is undone if and only if the VF has a userspace driver; otherwise the VF bears the pod name in the namespace of the pod |
| Rollback.FailedSetupKeepsVF | pkg/plugin/plugin.go:118-132 | an ADD that fails in `SetupVF` leaves the VF as the calls before the failing one did, with the handle open or closed; it is the VF it was if and only if the failing call was the lookup, the taking down or the first renaming |
| FailedAdd.VfIsLeftInPod | pkg/plugin/plugin.go:93-146 | a host, the arguments of a call, the configuration they are parsed to, and a failing `cache.Save`, for which the undo succeeds and the VF is left in the pod without a cache file |
| Arguments.PlacedAreThreeDevices | pkg/config/config.go:57-81 | the links named by the PCI device and by its representor are those the configuration is about |
| Arguments.RefusedBeforeAttach | pkg/plugin/plugin.go:105-114 | what `ApplyVFConfig` refuses could have been refused before the attach |
| FailedAdd.DelAfterUndoneAdd | pkg/plugin/plugin.go:148-152 | the DEL after an ADD that was undone for its device info file ends where the DEL after a complete ADD ends |
| RollbackIfOpen.UndoAfterSetupIfOpen | pkg/plugin/plugin.go:119-127 | were the handle closed after the handlers, the VF would be back as well, for every driver |
| RollbackIfOpen.MacIsRestorable | pkg/manager/manager.go:185-192 | and the address the release puts back would be known |
| Lifecycle.SavedConfIsAccepted | pkg/plugin/plugin.go:142-146 | no configuration that ADD saves is refused by DEL |
| Cache.CacheRoundTrip | pkg/cache/cache.go:42-71 | loading what was saved gives everything back but the three inner fields whose keys the outer struct takes |
| Cache.StateRefIsInjective | pkg/cache/cache.go:38-40 | attachments with dash-free container id and interface name have different references, whatever the network is called |
| Cache.DashesCollide | pkg/cache/cache.go:38-40 | for every dash in a container id there is another attachment with the same reference |
| Cache.DashesInNamesCollide | pkg/cache/cache.go:38-40 | and for every dash in an interface name |
| Cache.CacheIsAMap | pkg/cache/cache.go:42-80 | over any sequence of saves and deletions the directory agrees with a map keyed by attachment |
| Cache.FsStateCache.Save | pkg/cache/cache.go:42-61 | one file is written, or none when it fails |
| Cache.FsStateCache.Load | pkg/cache/cache.go:63-71 | succeeds only with a file, and fills in what that file holds |
| Cache.FsStateCache.Delete | pkg/cache/cache.go:73-80 | removes that file and no other |
| VlanIds.SplitVlanIds | pkg/config/vlan.go:26-67 | succeeds if and only if all bounds and ids are VLAN numbers, no maximum is below its minimum and something is asked for; the result is strictly increasing and holds exactly the ids and closed ranges, whatever order the map is iterated in |
| VlanIds.CollectItem | pkg/config/vlan.go:29-56 | refuses exactly the malformed items and adds exactly what the item names |
| VlanIds.Sort | pkg/config/vlan.go:65 | strictly increasing, with the same elements |
| VlanIds.NormalFormIsInRange | pkg/config/vlan.go:69-73 | every accepted list is nonempty and within 1 to 4094 |
| VlanIds.AcceptanceIgnoresOrderAndRepetition | pkg/config/vlan.go:26-60 | reordering or repeating items does not change whether splitting succeeds |
| VlanIds.SplitIgnoresOrderAndRepetition | pkg/config/vlan.go:26-67 | nor does it change the result |
| VlanIds.SplitIsIdempotent | pkg/config/vlan.go:26-67 | the result, written as single ids, is accepted and gives itself again |
| VlanIds.SameElementsSameList | pkg/config/vlan.go:61-66 | a strictly increasing list is determined by its elements |
| VlanIds.RangeAlone | pkg/config/vlan.go:47-51 | one range gives every number from its minimum to its maximum, both included |
| VlanIds.SingleItems | pkg/config/vlan.go:29-60 | a single id is accepted exactly from 1 to 4094, a single range exactly within these bounds and in order, half a range not at all |
| VlanIds.NormalFormExists | pkg/config/vlan.go:61-66 | every acceptable list has a normal form |
| BridgeNames.Split | pkg/config/config.go:128 | the parts hold no comma and join to the option again |
| BridgeNames.SplitIsTheOnlyWay | pkg/config/config.go:128 | there is no other such list of parts |
| BridgeNames.TrimSpaceIsExact | pkg/config/config.go:131 | what is cut off is white space, and what is left neither starts nor ends with any |
| BridgeNames.TrimsToNothingIffBlank | pkg/config/config.go:131-134 | nothing is left if and only if the part is blank |
| BridgeNames.TrimsBothEnds | pkg/config/config.go:131 | a name with white space around it comes out as it is |
| BridgeNames.AsciiSpaces | pkg/config/config.go:131 | among ASCII characters exactly blank, tab and line ends are white space |
| Config.BlankPartIffEmptyName | pkg/config/config.go:128-136 | the option is malformed if and only if a comma-separated part of it is blank |
| Config.SomeOptions | pkg/config/config.go:124-136 | the default bridge is `cni0`, and white space around names is dropped |
| Config.TrimAll | pkg/config/config.go:129-136 | succeeds if and only if no name is empty, and keeps all names in order |
| Config.HandleBridgeConfig | pkg/config/config.go:124-170 | the chosen bridge is one of the trimmed names, and with several names the parent bridge of the uplink; without failing calls it succeeds if and only if there is such a name |
| Config.DetectBridge | pkg/config/config.go:147-169 | the same for several names |
| Config.PickAllowed | pkg/config/config.go:157-168 | succeeds if and only if the name is allowed |
| Config.ParseConf | pkg/config/config.go:44-97 | success yields a configuration that meets the validation rules; without failing calls it succeeds if and only if there is an input and it meets the stated conditions |
| Config.AcceptedIffParsed | pkg/config/config.go:44-97 | these conditions hold if and only if there is a configuration that meets the validation rules |
| Config.AcceptedIffChosen | pkg/config/config.go:124-170 | the same for the bridge option |
| Arguments.UnusableHasNoConf | pkg/plugin/plugin.go:79-103 | and a call that does not meet them has no usable configuration |
| Config.ParseVlans | pkg/config/config.go:83-94 | succeeds if and only if Vlan is within 0 to 4094 and the trunk is absent or acceptable; the trunk is then in normal form |
| Config.ParseDriver | pkg/config/config.go:69-81 | a device without interface name is accepted if and only if it has a userspace driver |
| Config.ParsedVlansDoNotWrap | pkg/config/config.go:83-94 | no VLAN of a parsed configuration is changed by a conversion to 16 bits, in attach and uplink add |
| Arguments.LoadedVlansDoNotWrap | pkg/cache/cache.go:42-71 | nor is any in uplink delete, whose configuration comes from the cache |

## Left out

* Netlink, network namespaces, flock, sysfs and sriovnet themselves (pkg/utils/sriov.go, pkg/utils/utils.go): only their effect on the state, each call succeeding or failing without effect.
* The JSON text and the formatting of MAC addresses: a MAC address as text is unset, an address or malformed; a document is a map from keys to values. Cache files that `Save` did not write are not modelled, nor are the CNI fields of `NetConf` other than the name and the IPAM type.
* IPAM addresses and routes in the pod, the CNI result and its MAC address, `PrintResult`, logging, debug mode and `CmdCheck`.
* The merging in `updateDeviceInfo`: only whether it failed.
* Parsing of `CNI_ARGS`: only whether it failed and the MAC address it holds.
* Closures: the undo functions are values of a datatype with one constructor per function `CmdAdd` registers.
* Order within the VF list of a PF and within netlink dumps: the VFs are a map by id, and a dump comes in any order.
* Changes other programs make to links, bridges and VLAN tables during a run.
* Interleavings of whole CmdAdd and CmdDel runs beyond the uplink protocol: the sequential methods see a host that only they change, and the state machine covers masters, VLAN numbers and the lock but not names, MTUs, MAC addresses, PVID and untagged flags.
* Rollback.FailedSetupKeepsVF: speaks of VFs whose host name is not the temporary name, because otherwise the first renaming changes nothing.
* Manager.Manager.AttachRepresentor: the table of a representor that is on the bridge already is given by the three VLAN steps alone, and the promises about tables are not made for a representor that is the PF itself.
* Plugin.Plugin.CmdAdd: what a complete ADD has done is stated for representor, PF and VF being three links, of which representor and VF have no master before.
* Scenarios.AddThenDel: representor, PF and VF are three links, of which representor and VF have no master before.
* Arguments.CallsAreKeptApart: speaks of container ids and interface names without dashes; with a dash two calls can share their cache file, as `Cache.DashesCollide` and `Cache.DashesInNamesCollide` show.
* UplinkSoloFailures.AttachFailsAlone: speaks of attaches whose undo does not fail; one whose undo fails leaves the representor on the bridge, as the code does.
* Scenarios.DelAttempts: speaks of VFs whose host name is not the pod name, and of attempts in which `BridgeVlanList` does not fail.
* UplinkAtRest.UplinkIsExactAtRest: VLAN 1 is left out, because every port gets it from the kernel.
* The mocks, test helpers, shell scripts, Dockerfile and Makefile.
