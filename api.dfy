/**
 * The store objects the commands read and write: the generic cluster-api
 * Machine with its provider-specific spec and status, the ProvisionedMachine
 * that says how to reach it, etcd member records and secrets.
 */
module Api {
  import opened Wrappers

  type Bytes = seq<bv8>

  /** A cluster-api machine role; the two supported values are below. */
  type Role = string

  const MasterRole: Role := "Master"
  const NodeRole: Role := "Node"

  const DefaultNamespace: string := "default"

  /** How to reach a machine over SSH. It also identifies the client built from it. */
  datatype SSHConfig = SSHConfig(
    host: string,
    port: int,
    publicKeys: seq<string>,
    credentialSecret: string)

  /** One etcd participant as `etcdadm info` reports it; its identity is `id`. */
  datatype EtcdMember = EtcdMember(
    id: nat,
    name: string,
    peerURLs: seq<string>,
    clientURLs: seq<string>)

  /** The provider spec carried inside a Machine. */
  datatype MachineSpec = MachineSpec(provisionedMachineName: string, roles: seq<Role>)

  /** The provider status carried inside a Machine; both parts are pointers in the source. */
  datatype MachineStatus = MachineStatus(sshConfig: Option<SSHConfig>, etcdMember: Option<EtcdMember>)

  datatype Machine = Machine(
    name: string,
    namespace: string,
    roles: seq<Role>,
    providerSpec: MachineSpec,
    providerStatus: MachineStatus)

  datatype ProvisionedMachineSpec = ProvisionedMachineSpec(
    sshConfig: Option<SSHConfig>,
    vipNetworkInterface: string)

  /** `machineRef` is the back reference written by the bind. */
  datatype ProvisionedMachine = ProvisionedMachine(
    name: string,
    namespace: string,
    spec: ProvisionedMachineSpec,
    machineRef: Option<string>)

  datatype Secret = Secret(name: string, data: map<string, Bytes>)

  /** Number of entries equal to `r` in `roles`. */
  function Occurrences(roles: seq<Role>, r: Role): (n: nat)
    ensures n <= |roles|
    ensures n > 0 <==> r in roles
  {
    if roles == [] then 0
    else Occurrences(roles[..|roles| - 1], r) + (if roles[|roles| - 1] == r then 1 else 0)
  }

  /** Number of entries equal to `r` over the roles of all machines. */
  function CountRole(ms: seq<Machine>, r: Role): (n: nat)
    ensures n > 0 <==> exists m :: m in ms && r in m.roles
  {
    if ms == [] then 0
    else CountRole(ms[..|ms| - 1], r) + Occurrences(ms[|ms| - 1].roles, r)
  }
}
