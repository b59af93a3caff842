# cctl machine lifecycle and etcd recovery, modelled in Dafny

This project models two commands of `cctl`, the command-line tool of the SSH
provider for cluster-api:

- `create machine` and `delete machine` (`cmd/machine.go`). They register or
  remove a `ProvisionedMachine`/`Machine` pair. They drive the SSH machine
  actuator, keep the cluster's etcd member list in step and refresh the local
  state.
- `recover etcd` (`cmd/etcd.go`). It rebuilds the etcd cluster of the masters
  from a snapshot, then re-records every master's etcd member.

Everything that reaches outside the process is replaced by an **effect log**:

- The store, the SSH transport, the actuator, `etcdadm`, `kubeadm` and the local
  state refresh each become an `Event` appended to a log (`Remote.Event`).
- Which events fail, what a command prints, what `etcdadm info` reports and what
  the actuator leaves in a machine's status are all read from an oracle
  (`Remote.Env`).
- A run's state `Remote.St` is the log, the cluster's etcd member list, and the
  error that ended the run, if any. `log.Fatalf` is such an error: it ends the run.

The code that works step by step is written as methods over a `Remote.Context`
object. These are the Run bodies, the loops of `recoverEtcd`,
`deleteMustNotOrphanNodes`, `masterMachineAndProvisionedMachine` and the master
filter. Each method is proved equal to a specification function on `St`. The
properties are then proved as lemmas about those functions:

- step order;
- early exit;
- "nothing else happens";
- what happens to the member list.

The member set that the source imports (`setsutil.NewEtcdMemberSet`) is not
shown. It is modelled as a list sorted by member id, with `Insert` replacing by
id and `Delete` matching by id (`EtcdMemberSet`).

Modules:

| module | file | contents |
|---|---|---|
| `Wrappers` | wrappers.dfy | `Option`, `Result` |
| `Api` | api.dfy | roles, machines, provisioned machines, etcd members, secrets; role counting |
| `Text` | text.dfy | `strings.Fields`, `strings.TrimSpace`, `strings.Title`, `%v` of an int |
| `EtcdMemberSet` | member_set.dfy | the etcd member set keyed by id |
| `Remote` | remote.dfy | events, the oracle, the run state, the `Context` class, plans run as sagas |
| `EtcdCmd` | etcd.dfy | `recoverEtcd` and its helpers, the master filter, the `etcdadm` commands |
| `EtcdRecovery` | etcd_props.dfy | order, early-exit and membership properties of the recovery |
| `MachineCmd` | machine.dfy | the create and delete Run bodies and their helpers |
| `MachineFlow` | machine_props.dfy | parser, role, orphan-check and step-order properties of create and delete |

Where the documentation and the code disagree, the model follows the code:

- The delete safeguard is described as refusing to delete the *only master* while
  nodes exist. The code (`cmd/machine.go:338-358`) counts `Master` role *entries*
  over all machines, and so does the model (`MachineCmd.OrphanCheck`).
- `MachineFlow.OrphanCheckKeepsAMaster` proves the documented reading. It needs
  the extra premise that no machine lists `Master` twice.

## Model

| member | source | states |
|---|---|---|
| Api.CountRole | cmd/machine.go:346-355 | the number of role entries equal to a role over all machines is positive exactly when some machine has that role |
| Text.Fields | cmd/machine.go:422 | `strings.Fields`: every field is a non-empty run of non-space characters |
| Text.FieldsOfJoin | cmd/machine.go:422 | splitting words joined by single blanks gives back exactly those words |
| Text.FieldsIgnoresLeadingSpace | cmd/machine.go:422 | white space before the text does not change its fields |
| Text.FieldsIgnoresTrailingSpace | cmd/machine.go:422 | white space after the text (a final newline) does not change its fields |
| Text.FieldsCollapsesSpace | cmd/machine.go:422 | any non-empty run of white space between two parts splits them like a single blank |
| Text.TrimSpace | cmd/machine.go:464 | the result is a slice of the lookup output with only white space cut before and after it; it is empty exactly when the output is all white space, and otherwise neither starts nor ends with white space |
| Text.IntToString | cmd/machine.go:470 | the grace period as `%v` prints it is a single word of the drain command |
| Text.NatToStringValue | cmd/machine.go:470 | the decimal digits printed for a non-negative number, without a leading zero, denote that number |
| Text.IntToStringValue | cmd/machine.go:470 | reading back the printed grace period, minus sign included, gives the grace period |
| EtcdMemberSet.InsertMember | cmd/etcd.go:198-200 | the listed set is sorted by id and holds the old ids plus the new member's; its entries are exactly the new member and, under every other id, the entry listed last for it before; so every entry is the new member or was listed before |
| EtcdMemberSet.RemoveMember | cmd/etcd.go:215-217 | the listed set is sorted by id and holds the old ids minus the removed member's; its entries are exactly the entries listed last for every other id before, so every entry was listed before |
| EtcdMemberSet.FromList | cmd/etcd.go:198 | building the set from a list gives a listing sorted by id with the same ids, every entry taken from the list |
| EtcdMemberSet.FromListKeepsLast | cmd/etcd.go:198 | the last entry listed for an id is the one the set keeps |
| EtcdMemberSet.InsertIdempotent | cmd/etcd.go:198-200 | inserting the same member twice is the same as inserting it once |
| EtcdMemberSet.DeleteAbsent | cmd/etcd.go:215-217 | deleting an id that is not present changes nothing |
| EtcdMemberSet.SortedUnique | cmd/etcd.go:200 | two listings with the same members are equal, so `List()` is deterministic |
| EtcdMemberSet.FromListOfSorted | cmd/etcd.go:198-200 | rebuilding a set from its own listing gives the same listing |
| EtcdMemberSet.ApplyKeepsOnePerLiveId | cmd/etcd.go:193-225 | after any series of inserts and removals the member list has exactly the ids a pure id computation predicts, with one member per id |
| Remote.RunPlanIsPrefix | cmd/etcd.go:266-299 | a run of sequential remote steps logs a prefix of its plan; it logs all of it exactly when no step fails, and otherwise stops at the first failing step, which is the error |
| Remote.SshMachineClientFromSSHConfig | cmd/machine.go:486-504 | the method logs what `NewMachineClient` specifies and, on success, returns the client of the given configuration |
| EtcdCmd.JoinTargetOfJoinCmd | cmd/etcd.go:253-260 | the endpoint can be read back out of an `etcdadm join` command |
| EtcdCmd.OtherCommandsAreNotJoins | cmd/etcd.go:227-251 | the reset, info, init and kubelet restart commands are not join commands |
| EtcdCmd.InitCmdFields | cmd/etcd.go:244-251 | `etcdadm init` receives `--snapshot` and the remote snapshot path as its arguments |
| EtcdCmd.JoinCmdFields | cmd/etcd.go:253-260 | `etcdadm join` receives the endpoint as its only argument |
| EtcdCmd.LastSlash | cmd/etcd.go:276-283 | the index of the last `/` of a path, or -1 when it has none, which gives the parent directory to create |
| EtcdCmd.RemoveClusterEtcdMemberSpec | cmd/etcd.go:210-225 | on success the cluster status holds the previous ids minus the member's, sorted by id; its entries are exactly the previous entries (the last one listed per id) under other ids |
| EtcdCmd.InsertClusterEtcdMemberSpec | cmd/etcd.go:193-208 | on success the cluster status holds the previous ids plus the member's; its entries are exactly the member and the previous entries (the last one listed per id) under other ids |
| EtcdCmd.EtcdMemberFromMachineSpec | cmd/etcd.go:306-318 | a member is read only from a machine whose `etcdadm info` output decodes |
| EtcdCmd.SeedSpec | cmd/etcd.go:124-144 | a seed that succeeds has reported a member |
| EtcdCmd.RecoverEtcdSpec | cmd/etcd.go:78-81 | with no masters the recovery does nothing and succeeds |
| EtcdCmd.ForEachStops | cmd/etcd.go:100-114 | once an iteration of a phase fails, the remaining masters are not touched |
| EtcdCmd.WriteSecretToMachine | cmd/etcd.go:266-300 | the method logs what `WriteSecretToMachineSpec` specifies |
| EtcdCmd.RemoveClusterEtcdMember | cmd/etcd.go:210-225 | the method sets the member list and logs the cluster status update as `RemoveClusterEtcdMemberSpec` specifies |
| EtcdCmd.InsertClusterEtcdMember | cmd/etcd.go:193-208 | the method sets the member list and logs the cluster status update as `InsertClusterEtcdMemberSpec` specifies |
| EtcdCmd.UpdateMachineEtcdMember | cmd/etcd.go:178-191 | the machine's status names the member, and the status update is attempted |
| EtcdCmd.EtcdMemberFromMachine | cmd/etcd.go:306-318 | on success the returned member is the one `etcdadm info` reports for the client |
| EtcdCmd.RecordMember | cmd/etcd.go:135-144 | read the member, record it in the machine's status, then insert it into the cluster status |
| EtcdCmd.ResetMaster | cmd/etcd.go:102-114 | one reset iteration: `etcdadm reset --skip-remove-member`, then removal of the recorded member |
| EtcdCmd.JoinMaster | cmd/etcd.go:150-166 | one join iteration: `etcdadm join` to the endpoint, then the member is recorded |
| EtcdCmd.RecoverSeed | cmd/etcd.go:124-144 | the snapshot is copied to the seed, `etcdadm init` runs there, and its member is recorded |
| EtcdCmd.NewMastersWithClient | cmd/etcd.go:87-98 | the loop attempts one client per master in order, stops at the first failure, and on success fills the array with every master paired with its client |
| EtcdCmd.ResetMasters | cmd/etcd.go:100-114 | the reset loop is the reset phase over the masters, stopping at the first failure |
| EtcdCmd.WriteCAToMasters | cmd/etcd.go:116-122 | the CA loop is the CA phase over the masters, stopping at the first failure |
| EtcdCmd.JoinMasters | cmd/etcd.go:146-166 | the join loop is the join phase over the other masters, stopping at the first failure |
| EtcdCmd.RestartKubelets | cmd/etcd.go:168-173 | the restart loop attempts every master and never fails |
| EtcdCmd.RecoverEtcd | cmd/etcd.go:78-176 | the method logs what `RecoverEtcdSpec` specifies |
| EtcdCmd.FilterMasters | cmd/etcd.go:57-64 | a machine is collected exactly when it has the `Master` role, once per `Master` entry, in list order |
| EtcdCmd.MastersOfMembers | cmd/etcd.go:57-64 | the collected machines are those with the `Master` role, and there are as many as there are `Master` role entries |
| EtcdRecovery.WriteSecretToMachineOrder | cmd/etcd.go:266-300 | a missing certificate or key fails before any remote call; otherwise the parent directories are created, both files are written to `/tmp`, and both are moved into place, in that order, stopping at the first failure |
| EtcdRecovery.RecordMemberLog | cmd/etcd.go:135-144 | the log grows by a prefix of: `etcdadm info` on the machine, then the status update of the machine with the member it reported, then the cluster status update with that member inserted; it grows by all three whenever it succeeds, always by `etcdadm info` first, and an event that fails (the info command or a status update) is the last one logged |
| EtcdRecovery.ConnectPhaseLog | cmd/etcd.go:87-98 | a successful first loop opens one client per master, in order, and every master has an SSH configuration |
| EtcdRecovery.RestartPhaseLog | cmd/etcd.go:168-173 | the restart loop never fails, changes no member and restarts every kubelet in order |
| EtcdRecovery.RecoverConnectsFirst | cmd/etcd.go:87-98 | clients are opened before anything else, and nothing else happens unless every master got one |
| EtcdRecovery.RecoverResetsFirst | cmd/etcd.go:100-114 | every master is reset before any other remote operation of the rebuild |
| EtcdRecovery.RecoverCAFirst | cmd/etcd.go:116-134 | the CA is in place on every master (its key moved into place) before the snapshot is copied to the seed and before `etcdadm init` or `etcdadm join` runs anywhere; the snapshot copy is recognised by its path, so this holds when the remote snapshot path is not one of the CA's temporary files |
| EtcdRecovery.RecoverInitOnSeedOnly | cmd/etcd.go:124-134 | `etcdadm init` runs at most once, on the first master only, right after the snapshot is copied to it |
| EtcdRecovery.RecoverJoinsTargetSeed | cmd/etcd.go:146-155 | every join targets the seed's first client URL; a seed without client URLs means no join at all |
| EtcdRecovery.RecoverRestartsOnlyOnSuccess | cmd/etcd.go:168-175 | a kubelet is restarted only by a recovery that otherwise succeeded |
| EtcdRecovery.SuccessPath | cmd/etcd.go:78-176 | a successful recovery went through every phase in order, each one succeeding |
| EtcdRecovery.ResetPhaseMembers | cmd/etcd.go:100-114 | a successful reset loop removed every master's recorded member from the cluster status |
| EtcdRecovery.ResetPhaseOrigins | cmd/etcd.go:100-114 | every entry left by a successful reset loop was listed before, under an id no master recorded |
| EtcdRecovery.ResetPhaseKeeps | cmd/etcd.go:100-114 | the reset loop only ever drops entries from the member list |
| EtcdRecovery.JoinPhaseMembers | cmd/etcd.go:150-166 | a successful join loop added the id of the member every joined master reports, keeping the list sorted |
| EtcdRecovery.JoinPhaseOrigins | cmd/etcd.go:150-166 | every entry left by a successful join loop is a member a joined master reported, or was listed before under an id no joined master reported |
| EtcdRecovery.JoinStepOrigins | cmd/etcd.go:150-166 | one successful join leaves the member the master reported and otherwise entries listed before under other ids |
| EtcdRecovery.SeedOrigins | cmd/etcd.go:124-144 | a successful seed leaves the member the seed reported and otherwise entries listed before under other ids |
| EtcdRecovery.RecoverMembers | cmd/etcd.go:78-176 | after a successful recovery the cluster status holds the old ids, minus those the masters recorded, plus those they report, one member per id |
| EtcdRecovery.RecoverMemberOrigins | cmd/etcd.go:78-176 | every member a successful recovery leaves was reported by a master, or was listed before under an id no master recorded and no master reports |
| EtcdRecovery.RecoverReplacesMembers | cmd/etcd.go:78-176 | when every listed member was recorded by a master, a successful recovery leaves one member per id reported, and each member left is the very member some master reported |
| EtcdRecovery.NoJoinsBeforeJoinLoop | cmd/etcd.go:78-144 | up to and including the seed, a successful recovery issues no join command |
| EtcdRecovery.RecoverJoinsInOrder | cmd/etcd.go:146-166 | a successful recovery joins every master but the first, in list order, each to the seed's first client URL, and issues no other join |
| EtcdRecovery.RecoverEndsWithRestarts | cmd/etcd.go:168-175 | the last effects of a successful recovery are the kubelet restarts of every master, in order |
| EtcdRecovery.RecoverRecordsReportedMembers | cmd/etcd.go:135-165 | every machine status update records the member `etcdadm info` reported just before on that machine; on success it is followed by a cluster update containing that member |
| MachineCmd.ReadCluster | cmd/machine.go:69-75 | the cluster's member list is read exactly when the cluster exists |
| MachineCmd.ReadSSHCredential | cmd/machine.go:76-82 | the SSH credential is read exactly when the secret exists |
| MachineCmd.FindMachine | cmd/machine.go:259-262 | the position of the first machine with the given name, or none when no machine has it |
| MachineCmd.GetMachine | cmd/machine.go:259-262 | a machine that is found has the requested name and is in the store |
| MachineCmd.GetProvisionedMachine | cmd/machine.go:267-270 | a provisioned machine that is found is the one stored under that name |
| MachineCmd.TokenAndCAHash | cmd/machine.go:421-431 | the parse fails exactly when the output does not have 7 fields, reporting the count; on success it returns two words |
| MachineCmd.NewProvisionedMachineAndMachine | cmd/machine.go:190-251 | both objects are named by the address and live in the default namespace; the Machine refers to the ProvisionedMachine and is bound to it; the roles are exactly the given role; the SSH configuration and interface are kept; the status is empty |
| MachineCmd.DeleteMustNotOrphanNodes | cmd/machine.go:338-360 | a non-master never fails; the check fails exactly when the target is a master, the `Master` entries total 1 and some `Node` entry exists |
| MachineCmd.FirstMaster | cmd/machine.go:399-406 | the earliest machine in list order with the `Master` role, or none exactly when no machine has it |
| MachineCmd.MasterPair | cmd/machine.go:394-419 | a pair that is found is the first machine in list order with the `Master` role, taken from the store, together with the provisioned machine stored under the name its spec refers to |
| MachineCmd.MasterMachineAndProvisionedMachine | cmd/machine.go:394-419 | the loop with `break` returns the first master in list order with its provisioned machine, or fails with no master exactly when no machine has the role |
| MachineCmd.TokenFromMachineSpec | cmd/machine.go:362-392 | a token is obtained only from the master's parsed `kubeadm token create` output |
| MachineCmd.ReadAdminSpec | cmd/machine.go:433-439 | the admin kubeconfig is read only from a master with an SSH configuration |
| MachineCmd.ActuateSpec | cmd/machine.go:131-184 | on success the cluster status holds the member the new machine reports, if any, and keeps every other entry of the status read at the start (the last one listed per id) |
| MachineCmd.RecordAndPullSpec | cmd/machine.go:159-184 | on success the reported member, if any, has joined the cluster status, which keeps every other entry of the status read at the start (the last one listed per id) |
| MachineCmd.CreatePairSpec | cmd/machine.go:94-184 | on success the cluster status holds the member the new machine reports, if any, and keeps every other entry of the status read at the start (the last one listed per id) |
| MachineCmd.CreateMachineSpec | cmd/machine.go:43-188 | a successful create found the cluster and left its status with the new machine's member added, replacing any entry with its id, and every other entry kept |
| MachineCmd.DrainNodeSpec | cmd/machine.go:465-482 | an empty node name means nothing is done |
| MachineCmd.RemoveTargetSpec | cmd/machine.go:278-332 | on success the target's etcd member, if any, has left the cluster status, and every other entry of the status read at the start (the last one listed per id) is kept |
| MachineCmd.UnregisterSpec | cmd/machine.go:296-332 | on success the target's etcd member, if any, has left the cluster status, and every other entry of the status read at the start (the last one listed per id) is kept |
| MachineCmd.DeleteMachineSpec | cmd/machine.go:253-336 | a successful delete found the cluster and the target, and removed the target's member, if any, from the cluster status, keeping every other entry |
| MachineCmd.BootstrapTokenSecretFromMachine | cmd/machine.go:362-392 | the method logs what `TokenFromMachineSpec` specifies and returns the token and hash parsed from the master's output |
| MachineCmd.PutBootstrapTokenSecret | cmd/machine.go:111-129 | the bootstrap token secret is created when absent and updated when present |
| MachineCmd.AdminKubeconfigFromMachine | cmd/machine.go:433-439 | on success it returns the master's admin kubeconfig |
| MachineCmd.WriteAdminKubeconfigToMachine | cmd/machine.go:441-447 | the method logs what `WriteAdminSpec` specifies |
| MachineCmd.Actuate | cmd/machine.go:131-184 | the method logs what `ActuateSpec` specifies |
| MachineCmd.CreatePair | cmd/machine.go:94-184 | the method logs what `CreatePairSpec` specifies |
| MachineCmd.CreateMachine | cmd/machine.go:43-188 | the method logs what `CreateMachineSpec` specifies |
| MachineCmd.DrainAndDeleteNodeForMachine | cmd/machine.go:449-484 | the method logs what `DrainSpec` specifies |
| MachineCmd.RemoveTarget | cmd/machine.go:278-332 | the method logs what `RemoveTargetSpec` specifies |
| MachineCmd.DeleteMachine | cmd/machine.go:253-336 | the method logs what `DeleteMachineSpec` specifies |
| MachineFlow.TokenAndCAHashOfJoinCommand | cmd/machine.go:421-431 | the parser recovers the token and the CA hash from the join command kubeadm prints |
| MachineFlow.TokenAndCAHashOfWords | cmd/machine.go:421-431 | any seven words joined by blanks parse, and the token and the CA hash are the fifth and the seventh word |
| MachineFlow.TokenAndCAHashIgnoresSurroundingSpace | cmd/machine.go:421-431 | leading and trailing white space do not change the parse |
| MachineFlow.TokenAndCAHashCollapsesSpace | cmd/machine.go:421-431 | the width of the white space between fields does not change the parse |
| MachineFlow.TitleIsRole | cmd/machine.go:49-53 | a role title-cases to `Master` or `Node` only when it is that word with its first letter in either case |
| MachineFlow.TitleIdempotent | cmd/machine.go:49 | title-casing an already title-cased role changes nothing |
| MachineFlow.SupportedRoleSpellings | cmd/machine.go:49-53 | create accepts a role exactly when it is spelled `master`, `Master`, `node` or `Node` |
| MachineFlow.CreateRejectsUnsupportedRole | cmd/machine.go:49-53 | any other role ends the create with an invalid-role error before anything is read or logged |
| MachineFlow.DeleteFindsCreatedPair | cmd/machine.go:190-270 | delete finds, by address, the Machine create registered, and through it the ProvisionedMachine it is bound to |
| MachineFlow.CountRoleOfOne | cmd/machine.go:346-355 | when only one machine has a role, the count is that machine's entries for it |
| MachineFlow.OrphanCheckKeepsAMaster | cmd/machine.go:338-360 | a master the check lets go, in a cluster with nodes, leaves another master behind |
| MachineFlow.OrphanCheckRefusesLastMaster | cmd/machine.go:356-358 | the only master of a cluster with nodes is refused, with the node count |
| MachineFlow.ClientFollows | cmd/machine.go:486-504 | opening a client is a one-step plan: connect, or stop before it; a failing connection ends the run |
| MachineFlow.TokenFromMachineFollows | cmd/machine.go:362-392 | fetching a token connects to the master and runs `kubeadm token create`, stopping at the first failure |
| MachineFlow.TokenFollows | cmd/machine.go:111-129 | a node asks the master for a join command, then stores the token secret, stopping at the first failure |
| MachineFlow.AdminFollows | cmd/machine.go:148-157 | the master's admin kubeconfig is read, then written to the new machine, stopping at the first failure |
| MachineFlow.RecordAndPullFollows | cmd/machine.go:159-184 | the reported member's cluster update, if any, comes before the state refresh |
| MachineFlow.ActuateFollows | cmd/machine.go:131-184 | actuator create, then for a node the admin kubeconfig, then the member update and the refresh, stopping at the first failure |
| MachineFlow.PrepareFollows | cmd/machine.go:101-184 | a node fetches its bootstrap token before the actuator runs |
| MachineFlow.CreatePairFollows | cmd/machine.go:94-184 | the ProvisionedMachine is created before the Machine, and both before everything else |
| MachineFlow.CreateFollowsPlan | cmd/machine.go:43-188 | create logs a prefix of its fixed plan, the whole plan whenever it succeeds, and stops at the first failing event |
| MachineFlow.CreateValidatesFirst | cmd/machine.go:49-82 | a flag or lookup that fails a check ends the create before anything is logged |
| MachineFlow.CreateMasterStaysLocal | cmd/machine.go:101-157 | creating a master reaches no machine over SSH and touches no bootstrap token |
| MachineFlow.CreateNodeAsksMaster | cmd/machine.go:101-129 | a node is created only when a master exists and its join command parsed, and then the whole plan ran |
| MachineFlow.DrainNodeFollows | cmd/machine.go:465-482 | a named node is drained before it is deleted, stopping at the first failure |
| MachineFlow.LookupFollows | cmd/machine.go:460-482 | the node lookup comes before the drain and the node deletion |
| MachineFlow.DrainFollows | cmd/machine.go:449-484 | the drain of a machine connects, looks up the node, drains it and deletes it, stopping at the first failure |
| MachineFlow.DrainOnlyNamedNode | cmd/machine.go:464-482 | the drain and the node deletion run only when the trimmed lookup output is non-empty; the deletion only after a successful drain |
| MachineFlow.DeleteObjectsFollows | cmd/machine.go:323-332 | the Machine is deleted before the ProvisionedMachine, then the state is refreshed |
| MachineFlow.UnregisterFollows | cmd/machine.go:296-332 | actuator delete, then removal of the etcd member if the status has one, then the object deletions |
| MachineFlow.RemoveTargetFollows | cmd/machine.go:278-332 | drain, actuator delete, member removal, Machine delete, ProvisionedMachine delete and refresh, in that order, stopping at the first failure |
| MachineFlow.DeleteFollowsPlan | cmd/machine.go:253-336 | delete logs a prefix of its fixed plan, the whole plan whenever it succeeds, and stops at the first failing event |
| MachineFlow.DeleteChecksFirst | cmd/machine.go:259-276 | a delete that fails a lookup or the orphan check logs nothing |
| MachineFlow.DeleteRefusesLastMaster | cmd/machine.go:338-360 | deleting the only master of a cluster with nodes fails with the orphan error and logs nothing |

## Left out

- The scheme and codec of the SSH provider's API types (`register.go`) are not part of this model. Spec and status decoding and encoding are treated as always succeeding.
- The SSH transport, the credential lookup and the actuator's internals are modelled only as events that succeed or fail as the oracle says, and report what it says.
- The store is read as one snapshot (`MachineCmd.Store`). Its creates, updates and deletes are logged events whose failure is an oracle input. `state.PullFromAPIs` is one such event.
- The internals of `setsutil.NewEtcdMemberSet` are not shown. The set is specified abstractly as a list sorted by id.
- Etcd member ids are `uint64` in the source and `nat` here. No arithmetic is done on them.
- `strings.Title` is modelled for ASCII letters. Other code points are kept as they are and join words.
- `filepath.Dir` is modelled for clean absolute paths, as the recovery passes them. `filepath.Clean` is not modelled.
- The drain timeout is given already formatted as `%v` prints a `time.Duration`, so duration formatting is not modelled.
- The port flag arrives already parsed (`None` where `strconv.Atoi` fails), so `strconv.Atoi` is not modelled.
- The public-key files are given as their contents, so reading the files is not modelled.
- `log.Fatalf` is modelled as an error that ends the run. Process exit, the messages and the wrapping of errors into messages are not modelled. `MachineCmd.MasterMachineAndProvisionedMachine` passes its errors through instead of wrapping them.
- Cobra flag wiring (`init`) and `get machine` with its output formatting are left out. They are presentation only.
- The `recover etcd` Run body (`cmd/etcd.go:24-76`) is modelled only in part, by its master filter and by `recoverEtcd`. The cluster and CA secret reads and the final refresh are left out. The CA secret is an input. The source ignores a failed CA secret read unless the error is NotFound, which leaves the secret nil; that case is not modelled.
- The error from `newProvisionedMachineAndMachine` at `cmd/machine.go:93` is never checked in the source, because the next statement shadows it. The model's pair construction cannot fail.
- `delete machine` reads the cluster with one error for every failure (`cmd/machine.go:271-274`). The model distinguishes a missing cluster from another read failure; both end the run.
- The actuator's `Delete` receives the target machine by pointer and may change its status. The model uses the etcd member the status held before the call.
- Binding the Machine to the ProvisionedMachine is modelled as a back reference from the ProvisionedMachine to the Machine's name (`MachineCmd.Bound`).
- MachineFlow.OrphanCheckKeepsAMaster: assumes that no machine lists the `Master` role twice. The source counts role entries, not machines, so a machine listing `Master` twice would count as two masters.
- The oracle gives one outcome per event value: `Remote.Env` lists the failing events as a set. Identical calls therefore share an outcome. The two `MkdirAll` calls on `/etc/etcd/pki` in `writeSecretToMachine` (`cmd/etcd.go:277-282`) fail or succeed together. So do the two connections to the master while a node is created (`cmd/machine.go:363` and `cmd/machine.go:434`). A first call that succeeds followed by an identical call that fails is not modelled.
- Nil dereferences are modelled as errors that end the run, not as panics. A provisioned machine without an SSH configuration gives `NilSSHConfig` (`cmd/machine.go:487`). A master whose status records no etcd member gives `NilEtcdMember` in the reset loop (`cmd/etcd.go:111`).
- The public-key flag check (`cmd/machine.go:60-67`) is not modelled, because keys are given as their contents. A missing or unparsable key file ends the source's create with `log.Fatalf`. The model never fails there, so `MachineFlow.CreateValidatesFirst` does not list that error.
- Concurrency between `cctl` runs and with the cluster's controllers is not modelled. Every run sees its own snapshot of the store.
