/**
 * `cctl create machine` and `cctl delete machine`: a machine is a pair of
 * store objects, the cluster-api Machine and the ProvisionedMachine that says
 * how to reach it over SSH. Creating one registers both, lets a node fetch a
 * bootstrap token from the first master, runs the actuator and records the
 * machine's etcd member in the cluster status; deleting one refuses to leave
 * nodes without a master, drains the cluster node, runs the actuator and
 * removes the member and both objects again.
 */
module MachineCmd {
  import opened Wrappers
  import opened Api
  import opened Text
  import opened EtcdMemberSet
  import opened Remote
  import opened EtcdCmd

  const TokenCreateCmd: string := "/opt/bin/kubeadm token create --print-join-command"
  const AdminConfPath: string := "/etc/kubernetes/admin.conf"
  const AdminConfMode: int := 384  // 0600
  const Kubectl: string := "/opt/bin/kubectl --kubeconfig=/etc/kubernetes/admin.conf "
  const NodeLookupCmd: string :=
    Kubectl + "get node --selector kubernetes.io/hostname=$(hostname -f) -oname"

  /** The drain command; `timeout` is the drain timeout as `%v` prints a duration. */
  function DrainCmd(timeout: string, gracePeriod: int, nodeName: string): string {
    Kubectl + "drain --timeout=" + timeout + " --grace-period=" + IntToString(gracePeriod)
    + " --ignore-daemonsets " + nodeName
  }

  function DeleteNodeCmd(nodeName: string): string {
    Kubectl + "delete " + nodeName
  }

  // ---------------------------------------------------------------------------
  // The store as the commands read it.

  /** The answer to a `Get`: the object, a not-found error, or any other error. */
  datatype Read<+T> = Found(value: T) | Absent | Unavailable

  /**
   * What the store holds when a command starts. The default cluster is given
   * by the etcd members of its status; a list that cannot be read is `None`.
   */
  datatype Store = Store(
    cluster: Read<seq<EtcdMember>>,
    sshCredential: Read<Secret>,
    bootstrapToken: Read<Secret>,
    machines: Option<seq<Machine>>,
    provisioned: Option<map<string, ProvisionedMachine>>)

  function ReadCluster(store: Store): (r: Result<seq<EtcdMember>, Error>)
    ensures r.Ok? <==> store.cluster.Found?
  {
    match store.cluster
    case Found(members) => Ok(members)
    case Absent => Err(NoCluster)
    case Unavailable => Err(ReadFailed(ClusterKind))
  }

  function ReadSSHCredential(store: Store): (r: Result<Secret, Error>)
    ensures r.Ok? <==> store.sshCredential.Found?
  {
    match store.sshCredential
    case Found(secret) => Ok(secret)
    case Absent => Err(NoSSHCredential)
    case Unavailable => Err(ReadFailed(SecretKind))
  }

  /** The position of the machine called `name`, the first one if several are. */
  function FindMachine(ms: seq<Machine>, name: string): (r: Option<nat>)
    ensures r.Some? ==> r.value < |ms| && ms[r.value].name == name
    ensures r.Some? ==> forall j :: 0 <= j < r.value ==> ms[j].name != name
    ensures r.None? ==> forall j :: 0 <= j < |ms| ==> ms[j].name != name
  {
    if ms == [] then None
    else if ms[0].name == name then Some(0)
    else match FindMachine(ms[1..], name)
      case None => None
      case Some(i) => Some(i + 1)
  }

  function GetMachine(store: Store, name: string): (r: Result<Machine, Error>)
    ensures r.Ok? ==> r.value.name == name && store.machines.Some? && r.value in store.machines.value
  {
    match store.machines
    case None => Err(ReadFailed(MachineKind))
    case Some(ms) =>
      match FindMachine(ms, name)
      case None => Err(NotFound(MachineKind, name))
      case Some(i) => Ok(ms[i])
  }

  function GetProvisionedMachine(store: Store, name: string): (r: Result<ProvisionedMachine, Error>)
    ensures r.Ok? ==> store.provisioned.Some? && name in store.provisioned.value
    ensures r.Ok? ==> r.value == store.provisioned.value[name]
  {
    match store.provisioned
    case None => Err(ReadFailed(ProvisionedMachineKind))
    case Some(pms) =>
      if name in pms then Ok(pms[name]) else Err(NotFound(ProvisionedMachineKind, name))
  }

  /** The etcd member the actuator leaves in the status of the machine it created. */
  function MemberAfter(env: Env, e: Event): Option<EtcdMember> {
    if e in env.memberAfter then env.memberAfter[e] else None
  }

  // ---------------------------------------------------------------------------
  // The pure parts: the join-command parser, the role check, the object pair.

  /**
   * `tokenAndCAHashFromKubeadmJoinCommand`: the output of
   * `kubeadm token create --print-join-command` has the shape
   * `kubeadm join <server:port> --token <token> --discovery-token-ca-cert-hash <sha>`;
   * the token and the hash are its fifth and seventh field. Any other number
   * of fields is an error that reports the count.
   */
  function TokenAndCAHash(stdout: string): (r: Result<(string, string), nat>)
    ensures r.Err? <==> |Fields(stdout)| != 7
    ensures r.Err? ==> r.error == |Fields(stdout)|
    ensures r.Ok? ==> IsWord(r.value.0) && IsWord(r.value.1)
  {
    var fields := Fields(stdout);
    if |fields| != 7 then Err(|fields|)
    else Ok((fields[4], fields[6]))
  }

  /** The join command kubeadm prints, with single blanks between the fields. */
  function JoinCommandLine(server: string, token: string, caHash: string): string {
    Join(["kubeadm", "join", server, "--token", token, "--discovery-token-ca-cert-hash", caHash])
  }

  /** The two machine roles `create machine` accepts. */
  predicate SupportedRole(role: Role) {
    role == MasterRole || role == NodeRole
  }

  /**
   * `BindMachineAndProvisionedMachine`: the machine's provider spec names the
   * provisioned machine and the provisioned machine refers back to the machine.
   */
  predicate Bound(m: Machine, pm: ProvisionedMachine) {
    m.providerSpec.provisionedMachineName == pm.name && pm.machineRef == Some(m.name)
  }

  /**
   * `newProvisionedMachineAndMachine`: both objects are named by the address
   * of the machine and bound to each other; the machine has exactly the one
   * role, in its spec and in its provider spec, and an empty provider status.
   */
  function NewProvisionedMachineAndMachine(name: string, role: Role, vipNetworkInterface: string,
                                           config: SSHConfig): (pair: (ProvisionedMachine, Machine))
    ensures pair.0.name == name && pair.1.name == name
    ensures pair.0.namespace == DefaultNamespace && pair.1.namespace == DefaultNamespace
    ensures Bound(pair.1, pair.0)
    ensures pair.1.roles == [role] && pair.1.providerSpec.roles == [role]
    ensures pair.0.spec.sshConfig == Some(config) && pair.0.spec.vipNetworkInterface == vipNetworkInterface
    ensures pair.1.providerStatus == MachineStatus(None, None)
  {
    var pm := ProvisionedMachine(name, DefaultNamespace,
                                 ProvisionedMachineSpec(Some(config), vipNetworkInterface), None);
    var m := Machine(name, DefaultNamespace, [role], MachineSpec(pm.name, [role]), MachineStatus(None, None));
    (pm.(machineRef := Some(m.name)), m)
  }

  // ---------------------------------------------------------------------------
  // The orphan check and the master selection.

  /**
   * The verdict of `deleteMustNotOrphanNodes`: deleting a master is refused
   * when the role entries of all machines hold exactly one `Master` and at
   * least one `Node`.
   */
  function OrphanCheck(store: Store, target: Machine): Option<Error> {
    if MasterRole !in target.roles then None
    else if store.machines.None? then Some(ReadFailed(MachineKind))
    else
      var masters := CountRole(store.machines.value, MasterRole);
      var nodes := CountRole(store.machines.value, NodeRole);
      if masters == 1 && nodes > 0 then Some(WouldOrphanNodes(nodes)) else None
  }

  /** `deleteMustNotOrphanNodes`, counting role entries in two nested loops. */
  method DeleteMustNotOrphanNodes(store: Store, target: Machine) returns (err: Option<Error>)
    ensures err == OrphanCheck(store, target)
    ensures MasterRole !in target.roles ==> err == None
    ensures (exists n :: err == Some(WouldOrphanNodes(n))) <==>
      && MasterRole in target.roles && store.machines.Some?
      && CountRole(store.machines.value, MasterRole) == 1
      && CountRole(store.machines.value, NodeRole) > 0
  {
    err := None;
    if MasterRole in target.roles {
      if store.machines.None? {
        return Some(ReadFailed(MachineKind));
      }
      var items := store.machines.value;
      var countMasters, countNodes := 0, 0;
      var i := 0;
      while i < |items|
        invariant 0 <= i <= |items|
        invariant countMasters == CountRole(items[..i], MasterRole)
        invariant countNodes == CountRole(items[..i], NodeRole)
      {
        var roles := items[i].roles;
        var j := 0;
        while j < |roles|
          invariant 0 <= j <= |roles|
          invariant countMasters == CountRole(items[..i], MasterRole) + Occurrences(roles[..j], MasterRole)
          invariant countNodes == CountRole(items[..i], NodeRole) + Occurrences(roles[..j], NodeRole)
        {
          assert roles[..j + 1][..j] == roles[..j];
          if roles[j] == MasterRole {
            countMasters := countMasters + 1;
          } else if roles[j] == NodeRole {
            countNodes := countNodes + 1;
          }
          j := j + 1;
        }
        assert roles[..j] == roles;
        assert items[..i + 1][..i] == items[..i];
        i := i + 1;
      }
      assert items[..i] == items;
      if countMasters == 1 && countNodes > 0 {
        err := Some(WouldOrphanNodes(countNodes));
      }
    }
  }

  /** The position of the first machine in list order with the `Master` role. */
  function FirstMaster(ms: seq<Machine>): (r: Option<nat>)
    ensures r.Some? ==> r.value < |ms| && MasterRole in ms[r.value].roles
    ensures r.Some? ==> forall j :: 0 <= j < r.value ==> MasterRole !in ms[j].roles
    ensures r.None? <==> forall j :: 0 <= j < |ms| ==> MasterRole !in ms[j].roles
  {
    if ms == [] then None
    else if MasterRole in ms[0].roles then Some(0)
    else match FirstMaster(ms[1..])
      case None => None
      case Some(i) => Some(i + 1)
  }

  /**
   * `masterMachineAndProvisionedMachine`: the first master in list order and
   * the provisioned machine its provider spec names.
   */
  function MasterPair(store: Store): (r: Result<(Machine, ProvisionedMachine), Error>)
    ensures r.Ok? ==> store.machines.Some? && MasterRole in r.value.0.roles
    ensures r.Ok? ==> r.value.0 in store.machines.value
    ensures r.Ok? ==>
      && FirstMaster(store.machines.value).Some?
      && r.value.0 == store.machines.value[FirstMaster(store.machines.value).value]
    ensures r.Ok? ==>
      && store.provisioned.Some?
      && r.value.0.providerSpec.provisionedMachineName in store.provisioned.value
      && r.value.1 == store.provisioned.value[r.value.0.providerSpec.provisionedMachineName]
  {
    match store.machines
    case None => Err(ReadFailed(MachineKind))
    case Some(ms) =>
      match FirstMaster(ms)
      case None => Err(NoMasterMachine)
      case Some(i) =>
        match GetProvisionedMachine(store, ms[i].providerSpec.provisionedMachineName)
        case Err(e) => Err(e)
        case Ok(pm) => Ok((ms[i], pm))
  }

  /** The loop with `break` of `masterMachineAndProvisionedMachine`. */
  method MasterMachineAndProvisionedMachine(store: Store)
    returns (master: Machine, pm: ProvisionedMachine, err: Option<Error>)
    ensures err.None? <==> MasterPair(store).Ok?
    ensures err.None? ==> MasterPair(store).value == (master, pm)
    ensures err.Some? ==> MasterPair(store) == Err(err.value)
    ensures err.None? ==> MasterRole in master.roles && exists i ::
      && 0 <= i < |store.machines.value| && store.machines.value[i] == master
      && (forall j :: 0 <= j < i ==> MasterRole !in store.machines.value[j].roles)
    ensures err == Some(NoMasterMachine) <==>
      store.machines.Some? && forall m :: m in store.machines.value ==> MasterRole !in m.roles
  {
    master := Machine("", "", [], MachineSpec("", []), MachineStatus(None, None));
    pm := ProvisionedMachine("", "", ProvisionedMachineSpec(None, ""), None);
    if store.machines.None? {
      return master, pm, Some(ReadFailed(MachineKind));
    }
    var items := store.machines.value;
    var found: Option<Machine> := None;
    var i := 0;
    while i < |items|
      invariant 0 <= i <= |items| && found.None?
      invariant forall j :: 0 <= j < i ==> MasterRole !in items[j].roles
    {
      if MasterRole in items[i].roles {
        found := Some(items[i]);
        break;
      }
      i := i + 1;
    }
    if found.None? {
      assert FirstMaster(items).None?;
      return master, pm, Some(NoMasterMachine);
    }
    assert FirstMaster(items) == Some(i);
    master := found.value;
    match GetProvisionedMachine(store, master.providerSpec.provisionedMachineName)
    case Err(e) =>
      err := Some(e);
    case Ok(p) =>
      pm, err := p, None;
  }

  // ---------------------------------------------------------------------------
  // The steps of `create machine`.

  function TokenOutput(env: Env, client: SSHConfig): string {
    StdoutOf(env, Remote(client, Run(TokenCreateCmd)))
  }

  /**
   * `bootstrapTokenSecretFromMachine`: asks the master for a join command and
   * parses it.
   */
  function TokenFromMachineSpec(env: Env, s: St, master: Machine, mpm: ProvisionedMachine): (r: St)
    requires s.err == None
    ensures r.members == s.members
    ensures r.err == None ==>
      mpm.spec.sshConfig.Some? && TokenAndCAHash(TokenOutput(env, mpm.spec.sshConfig.value)).Ok?
  {
    var s1 := NewMachineClient(env, s, mpm.spec.sshConfig, master.name);
    if s1.err.Some? then s1
    else
      var run := Remote(mpm.spec.sshConfig.value, Run(TokenCreateCmd));
      var s2 := Effect(env, s1, run);
      if s2.err.Some? then s2
      else if TokenAndCAHash(StdoutOf(env, run)).Err? then Fail(s2, UnparseableOutput(StdoutOf(env, run)))
      else s2
  }

  /** The bootstrap token secret is created when it does not exist and updated when it does. */
  function PutTokenSpec(env: Env, store: Store, s: St, token: string, caHash: string): (r: St)
    ensures r.members == s.members
  {
    match store.bootstrapToken
    case Unavailable => Fail(s, ReadFailed(SecretKind))
    case Absent => Effect(env, s, CreateBootstrapTokenSecret(token, caHash))
    case Found(_) => Effect(env, s, UpdateBootstrapTokenSecret(token, caHash))
  }

  function BootstrapTokenSpec(env: Env, store: Store, s: St, master: Machine, mpm: ProvisionedMachine): (r: St)
    requires s.err == None
    ensures r.members == s.members
  {
    var s1 := TokenFromMachineSpec(env, s, master, mpm);
    if s1.err.Some? then s1
    else
      var parsed := TokenAndCAHash(TokenOutput(env, mpm.spec.sshConfig.value));
      PutTokenSpec(env, store, s1, parsed.value.0, parsed.value.1)
  }

  /** `adminKubeconfigFromMachine`: reads the admin kubeconfig of the master. */
  function ReadAdminSpec(env: Env, s: St, master: Machine, mpm: ProvisionedMachine): (r: St)
    requires s.err == None
    ensures r.members == s.members
    ensures r.err == None ==> mpm.spec.sshConfig.Some?
  {
    var s1 := NewMachineClient(env, s, mpm.spec.sshConfig, master.name);
    if s1.err.Some? then s1
    else Effect(env, s1, Remote(mpm.spec.sshConfig.value, ReadFile(AdminConfPath)))
  }

  /** `writeAdminKubeconfigToMachine`. */
  function WriteAdminSpec(env: Env, s: St, kubeconfig: Bytes, m: Machine, pm: ProvisionedMachine): (r: St)
    requires s.err == None
    ensures r.members == s.members
  {
    var s1 := NewMachineClient(env, s, pm.spec.sshConfig, m.name);
    if s1.err.Some? then s1
    else Effect(env, s1, Remote(pm.spec.sshConfig.value, WriteFile(AdminConfPath, AdminConfMode, kubeconfig)))
  }

  function AdminConfOf(env: Env, client: SSHConfig): Bytes {
    ReadOf(env, Remote(client, ReadFile(AdminConfPath)))
  }

  /** A new node gets the admin kubeconfig of the master. */
  function AdminKubeconfigSpec(env: Env, s: St, master: Machine, mpm: ProvisionedMachine,
                               m: Machine, pm: ProvisionedMachine): (r: St)
    requires s.err == None
    ensures r.members == s.members
  {
    var s1 := ReadAdminSpec(env, s, master, mpm);
    if s1.err.Some? then s1
    else WriteAdminSpec(env, s1, AdminConfOf(env, mpm.spec.sshConfig.value), m, pm)
  }

  /**
   * From the actuator on: the actuator creates the machine, a node gets the
   * admin kubeconfig, the etcd member the machine then reports (if any) joins
   * the cluster status, and the local copy of the state is refreshed.
   */
  function ActuateSpec(env: Env, s: St, pm: ProvisionedMachine, m: Machine,
                       master: Option<(Machine, ProvisionedMachine)>): (r: St)
    requires s.err == None
    ensures JoinsCluster(s.members, r, MemberAfter(env, ActuatorCreate(m.name)))
  {
    var s1 := Effect(env, s, ActuatorCreate(m.name));
    if s1.err.Some? then s1
    else
      var s2 := if master.Some? then AdminKubeconfigSpec(env, s1, master.value.0, master.value.1, m, pm) else s1;
      if s2.err.Some? then s2
      else RecordAndPullSpec(env, s2, MemberAfter(env, ActuatorCreate(m.name)))
  }

  /** The member the new machine reports, if any, joins the cluster status; then the state is refreshed. */
  function RecordAndPullSpec(env: Env, s: St, member: Option<EtcdMember>): (r: St)
    requires s.err == None
    ensures JoinsCluster(s.members, r, member)
  {
    var s1 := if member.Some? then InsertClusterEtcdMemberSpec(env, s, member.value) else s;
    if s1.err.Some? then s1
    else Effect(env, s1, PullFromAPIs)
  }

  /**
   * After a successful create the cluster status holds the etcd member the
   * new machine reports, replacing any member with its id, and otherwise the
   * entries of the status read at the start (the last one listed per id).
   */
  ghost predicate JoinsCluster(before: seq<EtcdMember>, r: St, member: Option<EtcdMember>) {
    r.err == None ==>
      match member
      case None => r.members == before
      case Some(e) =>
        && Sorted(r.members) && e in r.members && Ids(r.members) == Ids(before) + {e.id}
        && (forall x :: x in r.members <==> x == e || (x in FromList(before) && x.id != e.id))
  }

  /** Everything `create machine` does once the object pair is built. */
  function CreatePairSpec(env: Env, store: Store, s: St, pm: ProvisionedMachine, m: Machine): (r: St)
    requires s.err == None
    ensures JoinsCluster(s.members, r, MemberAfter(env, ActuatorCreate(m.name)))
  {
    var s1 := Effect(env, s, CreateObject(ProvisionedMachineKind, pm.name));
    if s1.err.Some? then s1
    else
      var s2 := Effect(env, s1, CreateObject(MachineKind, m.name));
      if s2.err.Some? then s2
      else PrepareAndActuateSpec(env, store, s2, pm, m)
  }

  /** A node first gets a bootstrap token from the first master; then the actuator runs. */
  function PrepareAndActuateSpec(env: Env, store: Store, s: St, pm: ProvisionedMachine, m: Machine): (r: St)
    requires s.err == None
    ensures JoinsCluster(s.members, r, MemberAfter(env, ActuatorCreate(m.name)))
  {
    if NodeRole in m.roles then
      match MasterPair(store)
      case Err(e) => Fail(s, e)
      case Ok(master) =>
        var s1 := BootstrapTokenSpec(env, store, s, master.0, master.1);
        if s1.err.Some? then s1
        else ActuateSpec(env, s1, pm, m, Some(master))
    else ActuateSpec(env, s, pm, m, None)
  }

  /**
   * The flags of `create machine`: the address, the interface keepalived binds
   * to, the role as typed, the port as `strconv.Atoi` parses it (`None` when it
   * does not) and the public host keys read from the given files.
   */
  datatype CreateArgs = CreateArgs(ip: string, iface: string, role: string, port: Option<int>,
                                   publicKeys: seq<string>)

  /** The `Run` body of `create machine`. */
  function CreateMachineSpec(env: Env, s: St, store: Store, args: CreateArgs): (r: St)
    requires s.err == None
    ensures r.err == None ==>
      && store.cluster.Found?
      && JoinsCluster(store.cluster.value, r, MemberAfter(env, ActuatorCreate(args.ip)))
  {
    var role := Title(args.role);
    if !SupportedRole(role) then Fail(s, InvalidRole(role))
    else if args.port.None? then Fail(s, InvalidPort)
    else match ReadCluster(store)
      case Err(e) => Fail(s, e)
      case Ok(members) =>
        match ReadSSHCredential(store)
        case Err(e) => Fail(s, e)
        case Ok(credential) =>
          var config := SSHConfig(args.ip, args.port.value, args.publicKeys, credential.name);
          var pair := NewProvisionedMachineAndMachine(args.ip, role, args.iface, config);
          CreatePairSpec(env, store, s.(members := members), pair.0, pair.1)
  }

  // ---------------------------------------------------------------------------
  // The steps of `delete machine`.

  function NodeName(env: Env, client: SSHConfig): string {
    TrimSpace(StdoutOf(env, Remote(client, Run(NodeLookupCmd))))
  }

  /** A node named by the lookup is drained and then deleted; no name, nothing to do. */
  function DrainNodeSpec(env: Env, s: St, client: SSHConfig, nodeName: string,
                         timeout: string, gracePeriod: int): (r: St)
    requires s.err == None
    ensures r.members == s.members
    ensures |nodeName| == 0 ==> r == s
  {
    if |nodeName| == 0 then s
    else
      var s1 := Effect(env, s, Remote(client, Run(DrainCmd(timeout, gracePeriod, nodeName))));
      if s1.err.Some? then s1
      else Effect(env, s1, Remote(client, Run(DeleteNodeCmd(nodeName))))
  }

  /** Asks the machine for the name of its cluster node, then drains and deletes that node. */
  function LookupAndDrainSpec(env: Env, s: St, client: SSHConfig, timeout: string, gracePeriod: int): (r: St)
    requires s.err == None
    ensures r.members == s.members
  {
    var s1 := Effect(env, s, Remote(client, Run(NodeLookupCmd)));
    if s1.err.Some? then s1
    else DrainNodeSpec(env, s1, client, NodeName(env, client), timeout, gracePeriod)
  }

  /**
   * `drainAndDeleteNodeForMachine`: looks up the cluster node of the machine
   * over SSH, then drains and deletes it.
   */
  function DrainSpec(env: Env, s: St, target: Machine, tpm: ProvisionedMachine,
                     timeout: string, gracePeriod: int): (r: St)
    requires s.err == None
    ensures r.members == s.members
  {
    var s1 := NewMachineClient(env, s, tpm.spec.sshConfig, target.name);
    if s1.err.Some? then s1
    else LookupAndDrainSpec(env, s1, tpm.spec.sshConfig.value, timeout, gracePeriod)
  }

  /**
   * From the drain on: the node is drained, the actuator deletes the machine,
   * the machine's etcd member (if its status has one) leaves the cluster
   * status, and the Machine and then the ProvisionedMachine are deleted.
   */
  function RemoveTargetSpec(env: Env, s: St, target: Machine, tpm: ProvisionedMachine,
                            timeout: string, gracePeriod: int): (r: St)
    requires s.err == None
    ensures LeavesCluster(s.members, r, target.providerStatus.etcdMember)
  {
    var s1 := DrainSpec(env, s, target, tpm, timeout, gracePeriod);
    if s1.err.Some? then s1
    else UnregisterSpec(env, s1, target, tpm)
  }

  /** The actuator deletes the machine and its etcd member leaves the cluster status. */
  function UnregisterSpec(env: Env, s: St, target: Machine, tpm: ProvisionedMachine): (r: St)
    requires s.err == None
    ensures LeavesCluster(s.members, r, target.providerStatus.etcdMember)
  {
    var s1 := Effect(env, s, ActuatorDelete(target.name));
    if s1.err.Some? then s1
    else
      var member := target.providerStatus.etcdMember;
      var s2 := if member.Some? then RemoveClusterEtcdMemberSpec(env, s1, member.value) else s1;
      if s2.err.Some? then s2
      else DeleteObjectsSpec(env, s2, target, tpm)
  }

  /** The Machine is deleted before the ProvisionedMachine; then the state is refreshed. */
  function DeleteObjectsSpec(env: Env, s: St, target: Machine, tpm: ProvisionedMachine): (r: St)
    requires s.err == None
    ensures r.members == s.members
  {
    var s1 := Effect(env, s, DeleteObject(MachineKind, target.name));
    if s1.err.Some? then s1
    else
      var s2 := Effect(env, s1, DeleteObject(ProvisionedMachineKind, tpm.name));
      if s2.err.Some? then s2
      else Effect(env, s2, PullFromAPIs)
  }

  /**
   * After a successful delete the cluster status no longer holds the etcd
   * member the machine reported, and otherwise holds the entries of the status
   * read at the start (the last one listed per id).
   */
  ghost predicate LeavesCluster(before: seq<EtcdMember>, r: St, member: Option<EtcdMember>) {
    r.err == None ==>
      match member
      case None => r.members == before
      case Some(e) =>
        && Sorted(r.members) && Ids(r.members) == Ids(before) - {e.id}
        && (forall x :: x in r.members <==> x in FromList(before) && x.id != e.id)
  }

  /** The flags of `delete machine`: the address, the drain timeout as printed, the grace period. */
  datatype DeleteArgs = DeleteArgs(ip: string, drainTimeout: string, gracePeriod: int)

  /** The `Run` body of `delete machine`. */
  function DeleteMachineSpec(env: Env, s: St, store: Store, args: DeleteArgs): (r: St)
    requires s.err == None
    ensures r.err == None ==>
      && store.cluster.Found? && GetMachine(store, args.ip).Ok?
      && LeavesCluster(store.cluster.value, r, GetMachine(store, args.ip).value.providerStatus.etcdMember)
  {
    match GetMachine(store, args.ip)
    case Err(e) => Fail(s, e)
    case Ok(target) =>
      match GetProvisionedMachine(store, target.providerSpec.provisionedMachineName)
      case Err(e) => Fail(s, e)
      case Ok(tpm) =>
        match ReadCluster(store)
        case Err(e) => Fail(s, e)
        case Ok(members) =>
          var s0 := s.(members := members);
          var orphan := OrphanCheck(store, target);
          if orphan.Some? then Fail(s0, orphan.value)
          else RemoveTargetSpec(env, s0, target, tpm, args.drainTimeout, args.gracePeriod)
  }

  // ---------------------------------------------------------------------------
  // The imperative code, proved against the functions above.

  /** `bootstrapTokenSecretFromMachine`: the token and hash of the secret it builds. */
  method BootstrapTokenSecretFromMachine(ctx: Context, master: Machine, mpm: ProvisionedMachine)
    returns (token: string, caHash: string, err: Option<Error>)
    modifies ctx
    ensures ctx.Now(err) == TokenFromMachineSpec(ctx.env, old(ctx.Now(None)), master, mpm)
    ensures err == None ==>
      && mpm.spec.sshConfig.Some?
      && TokenAndCAHash(TokenOutput(ctx.env, mpm.spec.sshConfig.value)) == Ok((token, caHash))
  {
    token, caHash := "", "";
    var client;
    client, err := SshMachineClientFromSSHConfig(ctx, mpm.spec.sshConfig, master.name);
    if err.Some? { return; }
    var stdout;
    stdout, err := ctx.RunCommand(client, TokenCreateCmd);
    if err.Some? { return; }
    var parsed := TokenAndCAHash(stdout);
    if parsed.Err? {
      return token, caHash, Some(UnparseableOutput(stdout));
    }
    token, caHash := parsed.value.0, parsed.value.1;
  }

  /** The `Get`, then `Create` or `Update`, of the bootstrap token secret. */
  method PutBootstrapTokenSecret(ctx: Context, store: Store, token: string, caHash: string)
    returns (err: Option<Error>)
    modifies ctx
    ensures ctx.Now(err) == PutTokenSpec(ctx.env, store, old(ctx.Now(None)), token, caHash)
  {
    if store.bootstrapToken.Unavailable? {
      return Some(ReadFailed(SecretKind));
    }
    if store.bootstrapToken.Absent? {
      err := ctx.Issue(CreateBootstrapTokenSecret(token, caHash));
    } else {
      err := ctx.Issue(UpdateBootstrapTokenSecret(token, caHash));
    }
  }

  /** `adminKubeconfigFromMachine`. */
  method AdminKubeconfigFromMachine(ctx: Context, master: Machine, mpm: ProvisionedMachine)
    returns (kubeconfig: Bytes, err: Option<Error>)
    modifies ctx
    ensures ctx.Now(err) == ReadAdminSpec(ctx.env, old(ctx.Now(None)), master, mpm)
    ensures err == None ==> mpm.spec.sshConfig.Some? && kubeconfig == AdminConfOf(ctx.env, mpm.spec.sshConfig.value)
  {
    kubeconfig := [];
    var client;
    client, err := SshMachineClientFromSSHConfig(ctx, mpm.spec.sshConfig, master.name);
    if err.Some? { return; }
    err := ctx.Issue(Remote(client, ReadFile(AdminConfPath)));
    kubeconfig := ReadOf(ctx.env, Remote(client, ReadFile(AdminConfPath)));
  }

  /** `writeAdminKubeconfigToMachine`. */
  method WriteAdminKubeconfigToMachine(ctx: Context, kubeconfig: Bytes, m: Machine, pm: ProvisionedMachine)
    returns (err: Option<Error>)
    modifies ctx
    ensures ctx.Now(err) == WriteAdminSpec(ctx.env, old(ctx.Now(None)), kubeconfig, m, pm)
  {
    var client;
    client, err := SshMachineClientFromSSHConfig(ctx, pm.spec.sshConfig, m.name);
    if err.Some? { return; }
    err := ctx.Issue(Remote(client, WriteFile(AdminConfPath, AdminConfMode, kubeconfig)));
  }

  /** The create body from the actuator on. */
  method Actuate(ctx: Context, pm: ProvisionedMachine, m: Machine, master: Option<(Machine, ProvisionedMachine)>)
    returns (err: Option<Error>)
    modifies ctx
    ensures ctx.Now(err) == ActuateSpec(ctx.env, old(ctx.Now(None)), pm, m, master)
  {
    err := ctx.Issue(ActuatorCreate(m.name));
    if err.Some? { return; }
    if master.Some? {
      var kubeconfig;
      kubeconfig, err := AdminKubeconfigFromMachine(ctx, master.value.0, master.value.1);
      if err.Some? { return; }
      err := WriteAdminKubeconfigToMachine(ctx, kubeconfig, m, pm);
      if err.Some? { return; }
    }
    var member := MemberAfter(ctx.env, ActuatorCreate(m.name));
    if member.Some? {
      err := InsertClusterEtcdMember(ctx, member.value);
      if err.Some? { return; }
    }
    err := ctx.Issue(PullFromAPIs);
  }

  /** The create body once the object pair is built. */
  method CreatePair(ctx: Context, store: Store, pm: ProvisionedMachine, m: Machine)
    returns (err: Option<Error>)
    modifies ctx
    ensures ctx.Now(err) == CreatePairSpec(ctx.env, store, old(ctx.Now(None)), pm, m)
  {
    err := ctx.Issue(CreateObject(ProvisionedMachineKind, pm.name));
    if err.Some? { return; }
    err := ctx.Issue(CreateObject(MachineKind, m.name));
    if err.Some? { return; }
    var master: Option<(Machine, ProvisionedMachine)> := None;
    if NodeRole in m.roles {
      var masterMachine, masterProvisionedMachine;
      masterMachine, masterProvisionedMachine, err := MasterMachineAndProvisionedMachine(store);
      if err.Some? { return; }
      master := Some((masterMachine, masterProvisionedMachine));
      var token, caHash;
      token, caHash, err := BootstrapTokenSecretFromMachine(ctx, masterMachine, masterProvisionedMachine);
      if err.Some? { return; }
      err := PutBootstrapTokenSecret(ctx, store, token, caHash);
      if err.Some? { return; }
    }
    err := Actuate(ctx, pm, m, master);
  }

  /** `create machine`. */
  method CreateMachine(ctx: Context, store: Store, args: CreateArgs) returns (err: Option<Error>)
    modifies ctx
    ensures ctx.Now(err) == CreateMachineSpec(ctx.env, old(ctx.Now(None)), store, args)
  {
    var role := Title(args.role);
    if role != MasterRole && role != NodeRole {
      return Some(InvalidRole(role));
    }
    if args.port.None? {
      return Some(InvalidPort);
    }
    var cluster := ReadCluster(store);
    if cluster.Err? {
      return Some(cluster.error);
    }
    var credential := ReadSSHCredential(store);
    if credential.Err? {
      return Some(credential.error);
    }
    var newSSHConfig := SSHConfig(args.ip, args.port.value, args.publicKeys, credential.value.name);
    var pair := NewProvisionedMachineAndMachine(args.ip, role, args.iface, newSSHConfig);
    ctx.SetMembers(cluster.value);
    err := CreatePair(ctx, store, pair.0, pair.1);
  }

  /** `drainAndDeleteNodeForMachine`. */
  method DrainAndDeleteNodeForMachine(ctx: Context, target: Machine, tpm: ProvisionedMachine,
                                      timeout: string, gracePeriod: int) returns (err: Option<Error>)
    modifies ctx
    ensures ctx.Now(err) == DrainSpec(ctx.env, old(ctx.Now(None)), target, tpm, timeout, gracePeriod)
  {
    var client;
    client, err := SshMachineClientFromSSHConfig(ctx, tpm.spec.sshConfig, target.name);
    if err.Some? { return; }
    var stdout;
    stdout, err := ctx.RunCommand(client, NodeLookupCmd);
    if err.Some? { return; }
    var nodeName := TrimSpace(stdout);
    if |nodeName| != 0 {
      stdout, err := ctx.RunCommand(client, DrainCmd(timeout, gracePeriod, nodeName));
      if err.Some? { return; }
      stdout, err := ctx.RunCommand(client, DeleteNodeCmd(nodeName));
    }
  }

  /** The delete body from the drain on. */
  method RemoveTarget(ctx: Context, target: Machine, tpm: ProvisionedMachine, timeout: string, gracePeriod: int)
    returns (err: Option<Error>)
    modifies ctx
    ensures ctx.Now(err) == RemoveTargetSpec(ctx.env, old(ctx.Now(None)), target, tpm, timeout, gracePeriod)
  {
    err := DrainAndDeleteNodeForMachine(ctx, target, tpm, timeout, gracePeriod);
    if err.Some? { return; }
    err := ctx.Issue(ActuatorDelete(target.name));
    if err.Some? { return; }
    if target.providerStatus.etcdMember.Some? {
      err := RemoveClusterEtcdMember(ctx, target.providerStatus.etcdMember.value);
      if err.Some? { return; }
    }
    err := ctx.Issue(DeleteObject(MachineKind, target.name));
    if err.Some? { return; }
    err := ctx.Issue(DeleteObject(ProvisionedMachineKind, tpm.name));
    if err.Some? { return; }
    err := ctx.Issue(PullFromAPIs);
  }

  /** `delete machine`. */
  method DeleteMachine(ctx: Context, store: Store, args: DeleteArgs) returns (err: Option<Error>)
    modifies ctx
    ensures ctx.Now(err) == DeleteMachineSpec(ctx.env, old(ctx.Now(None)), store, args)
  {
    var target := GetMachine(store, args.ip);
    if target.Err? {
      return Some(target.error);
    }
    var targetMachine := target.value;
    var tpm := GetProvisionedMachine(store, targetMachine.providerSpec.provisionedMachineName);
    if tpm.Err? {
      return Some(tpm.error);
    }
    var cluster := ReadCluster(store);
    if cluster.Err? {
      return Some(cluster.error);
    }
    ctx.SetMembers(cluster.value);
    err := DeleteMustNotOrphanNodes(store, targetMachine);
    if err.Some? { return; }
    err := RemoveTarget(ctx, targetMachine, tpm.value, args.drainTimeout, args.gracePeriod);
  }
}
