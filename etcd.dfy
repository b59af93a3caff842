/**
 * `cctl recover etcd`: rebuilds the etcd cluster of all masters from one
 * snapshot. Every master is reset, receives the etcd CA, the first master is
 * initialised from the snapshot and the others join it one after the other;
 * the cluster status keeps the etcd member set in step with what each machine
 * reports. Any failure before the kubelet restarts ends the run.
 */
module EtcdCmd {
  import opened Wrappers
  import opened Api
  import opened Text
  import opened EtcdMemberSet
  import opened Remote

  const EtcdadmPath: string := "/opt/bin/etcdadm"
  const ResetCmd: string := EtcdadmPath + " reset --skip-remove-member"
  const InfoCmd: string := EtcdadmPath + " info"
  const RestartKubeletCmd: string := "systemctl restart kubelet"
  const SnapshotFlag: string := "--snapshot"
  const InitPrefix: string := EtcdadmPath + " init " + SnapshotFlag + " "
  const JoinPrefix: string := EtcdadmPath + " join "

  function InitCmd(remotePath: string): string {
    InitPrefix + remotePath
  }

  function JoinCmd(endpoint: string): string {
    JoinPrefix + endpoint
  }

  /** The endpoint a command joins, if it is an `etcdadm join` command. */
  function JoinTarget(cmd: string): (r: Option<string>)
    ensures r.Some? ==> cmd == JoinCmd(r.value)
  {
    if |JoinPrefix| <= |cmd| && cmd[..|JoinPrefix|] == JoinPrefix then
      assert cmd == cmd[..|JoinPrefix|] + cmd[|JoinPrefix|..];
      Some(cmd[|JoinPrefix|..])
    else None
  }

  /** Reading the endpoint back out of a join command gives the endpoint. */
  lemma JoinTargetOfJoinCmd(endpoint: string)
    ensures JoinTarget(JoinCmd(endpoint)) == Some(endpoint)
  {
    assert JoinCmd(endpoint)[..|JoinPrefix|] == JoinPrefix;
    assert JoinCmd(endpoint)[|JoinPrefix|..] == endpoint;
  }

  /** None of the other recovery commands is a join command. */
  lemma OtherCommandsAreNotJoins(remotePath: string)
    ensures JoinTarget(ResetCmd) == None
    ensures JoinTarget(InfoCmd) == None
    ensures JoinTarget(RestartKubeletCmd) == None
    ensures JoinTarget(InitCmd(remotePath)) == None
  {
    assert ResetCmd[17] == 'r' && JoinPrefix[17] == 'j';
    assert InitCmd(remotePath)[17] == 'i';
    assert RestartKubeletCmd[0] == 's' && JoinPrefix[0] == '/';
  }

  lemma EtcdadmPathIsWord()
    ensures IsWord(EtcdadmPath)
  {
    assert forall i :: 0 <= i < |EtcdadmPath| ==> EtcdadmPath[i] in "/optbinecdam";
  }

  /** `etcdadm init` receives the snapshot path as its third argument. */
  lemma InitCmdFields(remotePath: string)
    requires IsWord(remotePath)
    ensures Fields(InitCmd(remotePath)) == [EtcdadmPath, "init", SnapshotFlag, remotePath]
  {
    var init := [EtcdadmPath, "init", SnapshotFlag, remotePath];
    assert Join(init[3..]) == remotePath;
    assert Join(init[2..]) == SnapshotFlag + " " + remotePath;
    assert Join(init[1..]) == "init" + " " + (SnapshotFlag + " " + remotePath);
    assert Join(init) == InitCmd(remotePath);
    EtcdadmPathIsWord();
    assert IsWord(SnapshotFlag) by {
      assert forall i :: 0 <= i < |SnapshotFlag| ==> SnapshotFlag[i] in "-snaphot";
    }
    FieldsOfJoin(init);
  }

  /** `etcdadm join` receives the endpoint as its only argument. */
  lemma JoinCmdFields(endpoint: string)
    requires IsWord(endpoint)
    ensures Fields(JoinCmd(endpoint)) == [EtcdadmPath, "join", endpoint]
  {
    var join := [EtcdadmPath, "join", endpoint];
    assert Join(join[2..]) == endpoint;
    assert Join(join[1..]) == "join" + " " + endpoint;
    assert Join(join) == JoinCmd(endpoint);
    EtcdadmPathIsWord();
    FieldsOfJoin(join);
  }

  // The etcd CA as the recovery writes it.
  const CACertKey: string := "tls.crt"
  const CAKeyKey: string := "tls.key"
  const CACertPath: string := "/etc/etcd/pki/ca.crt"
  const CAKeyPath: string := "/etc/etcd/pki/ca.key"

  const DirMode: int := 493       // 0755
  const CertMode: int := 420      // 0644
  const KeyMode: int := 384       // 0600
  const SnapshotMode: int := 384  // 0600

  /** Index of the last `/` in `p`, or -1. */
  function LastSlash(p: string): (i: int)
    ensures -1 <= i < |p|
    ensures i >= 0 ==> p[i] == '/'
    ensures forall j :: i < j < |p| ==> p[j] != '/'
  {
    if p == [] then -1
    else if p[|p| - 1] == '/' then |p| - 1
    else LastSlash(p[..|p| - 1])
  }

  /** `filepath.Dir` of a clean path: all but its last element. */
  function Dir(p: string): string {
    var i := LastSlash(p);
    if i < 0 then "." else if i == 0 then "/" else p[..i]
  }

  function TmpPath(key: string): string {
    "/tmp/" + key
  }

  /** The remote calls `writeSecretToMachine` makes, in order. */
  function WriteSecretPlan(client: SSHConfig, cert: Bytes, key: Bytes,
                           certKey: string, keyKey: string,
                           certPath: string, keyPath: string): seq<Event>
  {
    [ Remote(client, MkdirAll(Dir(certPath), DirMode)),
      Remote(client, MkdirAll(Dir(keyPath), DirMode)),
      Remote(client, WriteFile(TmpPath(certKey), CertMode, cert)),
      Remote(client, WriteFile(TmpPath(keyKey), KeyMode, key)),
      Remote(client, MoveFile(TmpPath(certKey), certPath)),
      Remote(client, MoveFile(TmpPath(keyKey), keyPath)) ]
  }

  /**
   * `writeSecretToMachine`: both keys must be in the secret before anything
   * is done remotely; then the plan runs until its first failure.
   */
  function WriteSecretToMachineSpec(env: Env, s: St, client: SSHConfig, secret: Secret,
                                    certKey: string, keyKey: string,
                                    certPath: string, keyPath: string): (r: St)
    requires s.err == None
  {
    if certKey !in secret.data then Fail(s, MissingSecretKey(certKey))
    else if keyKey !in secret.data then Fail(s, MissingSecretKey(keyKey))
    else
      RunPlan(env, s, WriteSecretPlan(client, secret.data[certKey], secret.data[keyKey],
                                      certKey, keyKey, certPath, keyPath))
  }

  /** `removeClusterEtcdMember`: delete by id, then write the cluster status back. */
  function RemoveClusterEtcdMemberSpec(env: Env, s: St, m: EtcdMember): (r: St)
    ensures Sorted(r.members) && Ids(r.members) == Ids(s.members) - {m.id}
    ensures forall x :: x in r.members <==> x in FromList(s.members) && x.id != m.id
    ensures forall x :: x in r.members ==> x in s.members
  {
    var ms := RemoveMember(s.members, m);
    Effect(env, s.(members := ms), UpdateClusterStatus(ms))
  }

  /** `insertClusterEtcdMember`: insert (replacing by id), then write the cluster status back. */
  function InsertClusterEtcdMemberSpec(env: Env, s: St, m: EtcdMember): (r: St)
    ensures Sorted(r.members) && Ids(r.members) == Ids(s.members) + {m.id} && m in r.members
    ensures forall x :: x in r.members <==> x == m || (x in FromList(s.members) && x.id != m.id)
    ensures forall x :: x in r.members ==> x == m || x in s.members
  {
    var ms := InsertMember(s.members, m);
    Effect(env, s.(members := ms), UpdateClusterStatus(ms))
  }

  /** `etcdMemberFromMachine`: runs `etcdadm info`; the output must decode to a member. */
  function EtcdMemberFromMachineSpec(env: Env, s: St, client: SSHConfig, machine: string): (r: St)
    requires s.err == None
    ensures r.err == None ==> client in env.info
  {
    var s1 := Effect(env, s, Remote(client, Run(InfoCmd)));
    if s1.err.Some? then s1
    else if client !in env.info then Fail(s1, UndecodableMember(machine))
    else s1
  }

  /**
   * After a machine has started etcd: read its member back, record it in the
   * machine's status (`updateMachineEtcdMember`) and then in the cluster's
   * member set.
   */
  function RecordMemberSpec(env: Env, s: St, client: SSHConfig, machine: string): (r: St)
    requires s.err == None
  {
    var s1 := EtcdMemberFromMachineSpec(env, s, client, machine);
    if s1.err.Some? then s1
    else
      var member := env.info[client];
      var s2 := Effect(env, s1, UpdateMachineStatus(machine, member));
      if s2.err.Some? then s2
      else InsertClusterEtcdMemberSpec(env, s2, member)
  }

  /** A master together with the client built from its status. */
  datatype MachineWithClient = MachineWithClient(machine: Machine, client: SSHConfig)

  const NoClient: SSHConfig := SSHConfig("", 0, [], "")

  function ClientOf(m: Machine): SSHConfig {
    m.providerStatus.sshConfig.GetOr(NoClient)
  }

  /** `mastersWithClient` as the first loop of `recoverEtcd` fills it. */
  function Paired(masters: seq<Machine>): (r: seq<MachineWithClient>)
    ensures |r| == |masters|
    ensures forall i :: 0 <= i < |r| ==> r[i] == MachineWithClient(masters[i], ClientOf(masters[i]))
  {
    seq(|masters|, i requires 0 <= i < |masters| => MachineWithClient(masters[i], ClientOf(masters[i])))
  }

  /** The loops of `recoverEtcd`, each over the masters. */
  datatype Phase =
    | ConnectPhase
    | ResetPhase
    | WriteCAPhase(secret: Secret)
    | JoinPhase(endpoint: string)
    | RestartPhase

  /** What one iteration of a phase does for one master. */
  function Step(env: Env, ph: Phase, s: St, x: MachineWithClient): (r: St)
    requires s.err == None
  {
    match ph
    case ConnectPhase =>
      NewMachineClient(env, s, x.machine.providerStatus.sshConfig, x.machine.name)
    case ResetPhase =>
      // resetEtcdSkipRemoveMember, then the member in the machine's status
      // (a nil pointer in the source) is removed from the cluster status
      var s1 := Effect(env, s, Remote(x.client, Run(ResetCmd)));
      if s1.err.Some? then s1
      else if x.machine.providerStatus.etcdMember.None? then Fail(s1, NilEtcdMember(x.machine.name))
      else RemoveClusterEtcdMemberSpec(env, s1, x.machine.providerStatus.etcdMember.value)
    case WriteCAPhase(secret) =>
      WriteSecretToMachineSpec(env, s, x.client, secret, CACertKey, CAKeyKey, CACertPath, CAKeyPath)
    case JoinPhase(endpoint) =>
      var s1 := Effect(env, s, Remote(x.client, Run(JoinCmd(endpoint))));
      if s1.err.Some? then s1 else RecordMemberSpec(env, s1, x.client, x.machine.name)
    case RestartPhase =>
      // restartKubelet: a failure is only logged
      Attempt(s, Remote(x.client, Run(RestartKubeletCmd)))
  }

  /** A phase over `xs` in order, stopping at the first error. */
  function ForEach(env: Env, ph: Phase, s: St, xs: seq<MachineWithClient>): (r: St)
    requires s.err == None
    decreases |xs|
  {
    if xs == [] then s
    else
      var p := ForEach(env, ph, s, xs[..|xs| - 1]);
      if p.err.Some? then p else Step(env, ph, p, xs[|xs| - 1])
  }

  /** The seed: the snapshot is copied to it, `etcdadm init` restores it, its member is recorded. */
  function SeedSpec(env: Env, s: St, localPath: string, remotePath: string, x: MachineWithClient): (r: St)
    requires s.err == None
    ensures r.err == None ==> x.client in env.info
  {
    if localPath !in env.localFiles then Fail(s, LocalReadFailed(localPath))
    else
      var s1 := Effect(env, s, Remote(x.client, WriteFile(remotePath, SnapshotMode, env.localFiles[localPath])));
      if s1.err.Some? then s1
      else
        var s2 := Effect(env, s1, Remote(x.client, Run(InitCmd(remotePath))));
        if s2.err.Some? then s2
        else RecordMemberSpec(env, s2, x.client, x.machine.name)
  }

  /**
   * `recoverEtcd`. With no masters nothing happens. Otherwise: a client for
   * every master, then the rebuild.
   */
  function RecoverEtcdSpec(env: Env, s: St, localPath: string, remotePath: string,
                           caSecret: Secret, masters: seq<Machine>): (r: St)
    requires s.err == None
    ensures masters == [] ==> r == s
  {
    if masters == [] then s
    else
      var xs := Paired(masters);
      var s1 := ForEach(env, ConnectPhase, s, xs);
      if s1.err.Some? then s1
      else RebuildSpec(env, s1, localPath, remotePath, caSecret, xs)
  }

  /**
   * Every master reset and its member removed from the cluster status; the
   * CA written to every master; then the bootstrap.
   */
  function RebuildSpec(env: Env, s1: St, localPath: string, remotePath: string,
                       caSecret: Secret, xs: seq<MachineWithClient>): (r: St)
    requires s1.err == None && xs != []
  {
    var s2 := ForEach(env, ResetPhase, s1, xs);
    if s2.err.Some? then s2
    else RestoreSpec(env, s2, localPath, remotePath, caSecret, xs)
  }

  /** The CA written to every master, then the bootstrap. */
  function RestoreSpec(env: Env, s2: St, localPath: string, remotePath: string,
                       caSecret: Secret, xs: seq<MachineWithClient>): (r: St)
    requires s2.err == None && xs != []
  {
    var s3 := ForEach(env, WriteCAPhase(caSecret), s2, xs);
    if s3.err.Some? then s3
    else BootstrapSpec(env, s3, localPath, remotePath, xs)
  }

  /**
   * The first master seeded from the snapshot; every other master, in order,
   * joined to the seed's first client URL; the kubelet restarted on every
   * master, failures ignored.
   */
  function BootstrapSpec(env: Env, s3: St, localPath: string, remotePath: string,
                         xs: seq<MachineWithClient>): (r: St)
    requires s3.err == None && xs != []
  {
    var s4 := SeedSpec(env, s3, localPath, remotePath, xs[0]);
    if s4.err.Some? then s4
    else
      var seed := env.info[xs[0].client];
      if seed.clientURLs == [] then Fail(s4, NoClientURLs(xs[0].machine.name))
      else JoinAllSpec(env, s4, seed.clientURLs[0], xs)
  }

  /** Every master but the seed joined, in order; then every kubelet restarted. */
  function JoinAllSpec(env: Env, s4: St, endpoint: string, xs: seq<MachineWithClient>): (r: St)
    requires s4.err == None && xs != []
  {
    var s5 := ForEach(env, JoinPhase(endpoint), s4, xs[1..]);
    if s5.err.Some? then s5
    else ForEach(env, RestartPhase, s5, xs)
  }

  /** One more element of a phase is one more step, unless the phase already stopped. */
  lemma ForEachSnoc(env: Env, ph: Phase, s: St, xs: seq<MachineWithClient>, k: nat)
    requires s.err == None && k < |xs|
    ensures ForEach(env, ph, s, xs[..k + 1]) ==
      var p := ForEach(env, ph, s, xs[..k]);
      if p.err.Some? then p else Step(env, ph, p, xs[k])
  {
    assert xs[..k + 1][..k] == xs[..k];
  }

  /** Once a phase has failed, the remaining iterations do nothing. */
  lemma {:induction false} ForEachStops(env: Env, ph: Phase, s: St, xs: seq<MachineWithClient>, k: nat)
    requires s.err == None && k <= |xs|
    requires ForEach(env, ph, s, xs[..k]).err.Some?
    ensures ForEach(env, ph, s, xs) == ForEach(env, ph, s, xs[..k])
    decreases |xs| - k
  {
    if k < |xs| {
      ForEachSnoc(env, ph, s, xs, k);
      ForEachStops(env, ph, s, xs, k + 1);
    } else {
      assert xs[..k] == xs;
    }
  }

  lemma RunPlanHead(env: Env, s: St, plan: seq<Event>)
    requires s.err == None && plan != []
    ensures Effect(env, s, plan[0]).err.Some? ==> RunPlan(env, s, plan) == Effect(env, s, plan[0])
    ensures Effect(env, s, plan[0]).err.None? ==>
      RunPlan(env, s, plan) == RunPlan(env, Effect(env, s, plan[0]), plan[1..])
  {
  }

  // ---------------------------------------------------------------------------
  // The imperative code, proved against the functions above.

  /** `writeSecretToMachine`. */
  method WriteSecretToMachine(ctx: Context, client: SSHConfig, secret: Secret,
                              certKey: string, keyKey: string,
                              certPath: string, keyPath: string) returns (err: Option<Error>)
    modifies ctx
    ensures ctx.Now(err) ==
      WriteSecretToMachineSpec(ctx.env, old(ctx.Now(None)), client, secret, certKey, keyKey, certPath, keyPath)
  {
    if certKey !in secret.data {
      return Some(MissingSecretKey(certKey));
    }
    var cert := secret.data[certKey];
    if keyKey !in secret.data {
      return Some(MissingSecretKey(keyKey));
    }
    var key := secret.data[keyKey];
    ghost var env := ctx.env;
    ghost var plan := WriteSecretPlan(client, cert, key, certKey, keyKey, certPath, keyPath);
    ghost var goal := RunPlan(env, ctx.Now(None), plan);
    RunPlanHead(env, ctx.Now(None), plan);
    err := ctx.Issue(Remote(client, MkdirAll(Dir(certPath), DirMode)));
    if err.Some? { return; }
    RunPlanHead(env, ctx.Now(None), plan[1..]);
    err := ctx.Issue(Remote(client, MkdirAll(Dir(keyPath), DirMode)));
    if err.Some? { return; }
    var tmpCertPath := TmpPath(certKey);
    var tmpKeyPath := TmpPath(keyKey);
    assert plan[1..][1..] == plan[2..];
    RunPlanHead(env, ctx.Now(None), plan[2..]);
    err := ctx.Issue(Remote(client, WriteFile(tmpCertPath, CertMode, cert)));
    if err.Some? { return; }
    assert plan[2..][1..] == plan[3..];
    RunPlanHead(env, ctx.Now(None), plan[3..]);
    err := ctx.Issue(Remote(client, WriteFile(tmpKeyPath, KeyMode, key)));
    if err.Some? { return; }
    assert plan[3..][1..] == plan[4..];
    RunPlanHead(env, ctx.Now(None), plan[4..]);
    err := ctx.Issue(Remote(client, MoveFile(tmpCertPath, certPath)));
    if err.Some? { return; }
    assert plan[4..][1..] == plan[5..];
    RunPlanHead(env, ctx.Now(None), plan[5..]);
    err := ctx.Issue(Remote(client, MoveFile(tmpKeyPath, keyPath)));
    assert plan[5..][1..] == [];
  }

  /** `removeClusterEtcdMember`. */
  method RemoveClusterEtcdMember(ctx: Context, m: EtcdMember) returns (err: Option<Error>)
    modifies ctx
    ensures ctx.Now(err) == RemoveClusterEtcdMemberSpec(ctx.env, old(ctx.Now(None)), m)
  {
    var ms := RemoveMember(ctx.members, m);
    ctx.SetMembers(ms);
    err := ctx.Issue(UpdateClusterStatus(ms));
  }

  /** `insertClusterEtcdMember`. */
  method InsertClusterEtcdMember(ctx: Context, m: EtcdMember) returns (err: Option<Error>)
    modifies ctx
    ensures ctx.Now(err) == InsertClusterEtcdMemberSpec(ctx.env, old(ctx.Now(None)), m)
  {
    var ms := InsertMember(ctx.members, m);
    ctx.SetMembers(ms);
    err := ctx.Issue(UpdateClusterStatus(ms));
  }

  /** `updateMachineEtcdMember`: the machine's status now names `m`, written back to the store. */
  method UpdateMachineEtcdMember(ctx: Context, m: EtcdMember, machine: Machine)
    returns (updated: Machine, err: Option<Error>)
    modifies ctx
    ensures ctx.Now(err) == Effect(ctx.env, old(ctx.Now(None)), UpdateMachineStatus(machine.name, m))
    ensures updated == machine.(providerStatus := machine.providerStatus.(etcdMember := Some(m)))
  {
    updated := machine.(providerStatus := machine.providerStatus.(etcdMember := Some(m)));
    err := ctx.Issue(UpdateMachineStatus(machine.name, m));
  }

  /** `etcdMemberFromMachine`. */
  method EtcdMemberFromMachine(ctx: Context, client: SSHConfig, machine: string)
    returns (member: EtcdMember, err: Option<Error>)
    modifies ctx
    ensures ctx.Now(err) == EtcdMemberFromMachineSpec(ctx.env, old(ctx.Now(None)), client, machine)
    ensures err == None ==> client in ctx.env.info && member == ctx.env.info[client]
  {
    member := EtcdMember(0, "", [], []);
    var stdout;
    stdout, err := ctx.RunCommand(client, InfoCmd);
    if err.Some? { return; }
    if client !in ctx.env.info {
      return member, Some(UndecodableMember(machine));
    }
    member := ctx.env.info[client];
  }

  method RecordMember(ctx: Context, client: SSHConfig, machine: Machine) returns (err: Option<Error>)
    modifies ctx
    ensures ctx.Now(err) == RecordMemberSpec(ctx.env, old(ctx.Now(None)), client, machine.name)
  {
    var member;
    member, err := EtcdMemberFromMachine(ctx, client, machine.name);
    if err.Some? { return; }
    var updated;
    updated, err := UpdateMachineEtcdMember(ctx, member, machine);
    if err.Some? { return; }
    err := InsertClusterEtcdMember(ctx, member);
  }

  /** One iteration of the reset loop of `recoverEtcd`. */
  method ResetMaster(ctx: Context, x: MachineWithClient) returns (err: Option<Error>)
    modifies ctx
    ensures ctx.Now(err) == Step(ctx.env, ResetPhase, old(ctx.Now(None)), x)
  {
    var stdout;
    stdout, err := ctx.RunCommand(x.client, ResetCmd);
    if err.Some? { return; }
    var status := x.machine.providerStatus;
    if status.etcdMember.None? {
      return Some(NilEtcdMember(x.machine.name));
    }
    err := RemoveClusterEtcdMember(ctx, status.etcdMember.value);
  }

  /** One iteration of the join loop of `recoverEtcd`. */
  method JoinMaster(ctx: Context, endpoint: string, x: MachineWithClient) returns (err: Option<Error>)
    modifies ctx
    ensures ctx.Now(err) == Step(ctx.env, JoinPhase(endpoint), old(ctx.Now(None)), x)
  {
    var stdout;
    stdout, err := ctx.RunCommand(x.client, JoinCmd(endpoint));
    if err.Some? { return; }
    err := RecordMember(ctx, x.client, x.machine);
  }

  /** Copies the snapshot to the seed, runs `etcdadm init` there and records its member. */
  method RecoverSeed(ctx: Context, localPath: string, remotePath: string, x: MachineWithClient)
    returns (err: Option<Error>)
    modifies ctx
    ensures ctx.Now(err) == SeedSpec(ctx.env, old(ctx.Now(None)), localPath, remotePath, x)
  {
    // writeEtcdSnapshot
    if localPath !in ctx.env.localFiles {
      return Some(LocalReadFailed(localPath));
    }
    var b := ctx.env.localFiles[localPath];
    err := ctx.Issue(Remote(x.client, WriteFile(remotePath, SnapshotMode, b)));
    if err.Some? { return; }
    // etcdadmInitFromSnapshot
    var stdout;
    stdout, err := ctx.RunCommand(x.client, InitCmd(remotePath));
    if err.Some? { return; }
    err := RecordMember(ctx, x.client, x.machine);
  }

  /** The first loop of `recoverEtcd`: a client for every master, or the first error. */
  method NewMastersWithClient(ctx: Context, masters: seq<Machine>)
    returns (mastersWithClient: array<MachineWithClient>, err: Option<Error>)
    modifies ctx
    ensures fresh(mastersWithClient)
    ensures ctx.Now(err) == ForEach(ctx.env, ConnectPhase, old(ctx.Now(None)), Paired(masters))
    ensures err == None ==> mastersWithClient[..] == Paired(masters)
  {
    ghost var env := ctx.env;
    ghost var s0 := ctx.Now(None);
    ghost var xs := Paired(masters);
    var n := |masters|;
    mastersWithClient := new MachineWithClient[n];
    var i := 0;
    while i < n
      invariant 0 <= i <= n
      invariant ctx.env == env
      invariant ctx.Now(None) == ForEach(env, ConnectPhase, s0, xs[..i])
      invariant forall k :: 0 <= k < i ==> mastersWithClient[k] == xs[k]
    {
      ForEachSnoc(env, ConnectPhase, s0, xs, i);
      var client;
      client, err := SshMachineClientFromSSHConfig(ctx, masters[i].providerStatus.sshConfig, masters[i].name);
      if err.Some? {
        ForEachStops(env, ConnectPhase, s0, xs, i + 1);
        return;
      }
      mastersWithClient[i] := MachineWithClient(masters[i], client);
      i := i + 1;
    }
    assert xs[..n] == xs;
    err := None;
  }

  /** The reset loop of `recoverEtcd`. */
  method ResetMasters(ctx: Context, xs: seq<MachineWithClient>) returns (err: Option<Error>)
    modifies ctx
    ensures ctx.Now(err) == ForEach(ctx.env, ResetPhase, old(ctx.Now(None)), xs)
  {
    ghost var env := ctx.env;
    ghost var s0 := ctx.Now(None);
    var i := 0;
    while i < |xs|
      invariant 0 <= i <= |xs|
      invariant ctx.env == env
      invariant ctx.Now(None) == ForEach(env, ResetPhase, s0, xs[..i])
    {
      ForEachSnoc(env, ResetPhase, s0, xs, i);
      err := ResetMaster(ctx, xs[i]);
      if err.Some? {
        ForEachStops(env, ResetPhase, s0, xs, i + 1);
        return;
      }
      i := i + 1;
    }
    assert xs[..i] == xs;
    err := None;
  }

  /** The loop of `recoverEtcd` that writes the etcd CA to every master. */
  method WriteCAToMasters(ctx: Context, caSecret: Secret, xs: seq<MachineWithClient>) returns (err: Option<Error>)
    modifies ctx
    ensures ctx.Now(err) == ForEach(ctx.env, WriteCAPhase(caSecret), old(ctx.Now(None)), xs)
  {
    ghost var env := ctx.env;
    ghost var s0 := ctx.Now(None);
    var i := 0;
    while i < |xs|
      invariant 0 <= i <= |xs|
      invariant ctx.env == env
      invariant ctx.Now(None) == ForEach(env, WriteCAPhase(caSecret), s0, xs[..i])
    {
      ForEachSnoc(env, WriteCAPhase(caSecret), s0, xs, i);
      err := WriteSecretToMachine(ctx, xs[i].client, caSecret, CACertKey, CAKeyKey, CACertPath, CAKeyPath);
      if err.Some? {
        ForEachStops(env, WriteCAPhase(caSecret), s0, xs, i + 1);
        return;
      }
      i := i + 1;
    }
    assert xs[..i] == xs;
    err := None;
  }

  /** The loop of `recoverEtcd` that joins the other masters, in order, to `endpoint`. */
  method JoinMasters(ctx: Context, endpoint: string, xs: seq<MachineWithClient>) returns (err: Option<Error>)
    modifies ctx
    ensures ctx.Now(err) == ForEach(ctx.env, JoinPhase(endpoint), old(ctx.Now(None)), xs)
  {
    ghost var env := ctx.env;
    ghost var s0 := ctx.Now(None);
    var i := 0;
    while i < |xs|
      invariant 0 <= i <= |xs|
      invariant ctx.env == env
      invariant ctx.Now(None) == ForEach(env, JoinPhase(endpoint), s0, xs[..i])
    {
      ForEachSnoc(env, JoinPhase(endpoint), s0, xs, i);
      err := JoinMaster(ctx, endpoint, xs[i]);
      if err.Some? {
        ForEachStops(env, JoinPhase(endpoint), s0, xs, i + 1);
        return;
      }
      i := i + 1;
    }
    assert xs[..i] == xs;
    err := None;
  }

  /** The last loop of `recoverEtcd`: restart the kubelet on every master, ignoring failures. */
  method RestartKubelets(ctx: Context, xs: seq<MachineWithClient>)
    modifies ctx
    ensures ctx.Now(None) == ForEach(ctx.env, RestartPhase, old(ctx.Now(None)), xs)
  {
    ghost var env := ctx.env;
    ghost var s0 := ctx.Now(None);
    var i := 0;
    while i < |xs|
      invariant 0 <= i <= |xs|
      invariant ctx.env == env
      invariant ctx.Now(None) == ForEach(env, RestartPhase, s0, xs[..i])
    {
      ForEachSnoc(env, RestartPhase, s0, xs, i);
      var stdout, restartErr := ctx.RunCommand(xs[i].client, RestartKubeletCmd);
      i := i + 1;
    }
    assert xs[..i] == xs;
  }

  /** `recoverEtcd`. */
  method RecoverEtcd(ctx: Context, localPath: string, remotePath: string,
                     caSecret: Secret, masters: seq<Machine>) returns (err: Option<Error>)
    modifies ctx
    ensures ctx.Now(err) ==
      RecoverEtcdSpec(ctx.env, old(ctx.Now(None)), localPath, remotePath, caSecret, masters)
  {
    if |masters| == 0 {
      return None;
    }
    var mastersWithClient;
    mastersWithClient, err := NewMastersWithClient(ctx, masters);
    if err.Some? { return; }
    var xs := mastersWithClient[..];

    // Reset all masters
    err := ResetMasters(ctx, xs);
    if err.Some? { return; }

    // Write etcd CA to all masters
    err := WriteCAToMasters(ctx, caSecret, xs);
    if err.Some? { return; }

    // Recover the first master
    var first := xs[0];
    err := RecoverSeed(ctx, localPath, remotePath, first);
    if err.Some? { return; }
    var firstEtcdMember := ctx.env.info[first.client];

    // Recover the other masters
    if |firstEtcdMember.clientURLs| == 0 {
      return Some(NoClientURLs(first.machine.name));
    }
    var endpoint := firstEtcdMember.clientURLs[0];
    err := JoinMasters(ctx, endpoint, xs[1..]);
    if err.Some? { return; }

    RestartKubelets(ctx, xs);
    err := None;
  }

  /**
   * The master filter of `recover etcd`: a machine is appended once for every
   * `Master` entry among its roles, in list order.
   */
  function MastersOf(ms: seq<Machine>): (r: seq<Machine>)
  {
    if ms == [] then []
    else
      var m := ms[|ms| - 1];
      MastersOf(ms[..|ms| - 1]) + seq(Occurrences(m.roles, MasterRole), _ => m)
  }

  /** The loop of `recoverEtcdCmd` that collects the masters. */
  method FilterMasters(machineList: seq<Machine>) returns (masters: seq<Machine>)
    ensures masters == MastersOf(machineList)
    ensures forall m :: m in masters <==> m in machineList && MasterRole in m.roles
    ensures |masters| == CountRole(machineList, MasterRole)
  {
    masters := [];
    var i := 0;
    while i < |machineList|
      invariant 0 <= i <= |machineList|
      invariant masters == MastersOf(machineList[..i])
    {
      var machine := machineList[i];
      var j := 0;
      ghost var before := masters;
      while j < |machine.roles|
        invariant 0 <= j <= |machine.roles|
        invariant masters == before + seq(Occurrences(machine.roles[..j], MasterRole), _ => machine)
      {
        assert machine.roles[..j + 1][..j] == machine.roles[..j];
        if machine.roles[j] == MasterRole {
          masters := masters + [machine];
        }
        j := j + 1;
      }
      assert machine.roles[..j] == machine.roles;
      assert machineList[..i + 1][..i] == machineList[..i];
      i := i + 1;
    }
    assert machineList[..i] == machineList;
    MastersOfMembers(machineList);
  }

  /** A machine is collected exactly when it has the `Master` role, once per entry. */
  lemma {:induction false} MastersOfMembers(ms: seq<Machine>)
    ensures forall m :: m in MastersOf(ms) <==> m in ms && MasterRole in m.roles
    ensures |MastersOf(ms)| == CountRole(ms, MasterRole)
    decreases |ms|
  {
    if ms != [] {
      var init, m := ms[..|ms| - 1], ms[|ms| - 1];
      MastersOfMembers(init);
      assert forall x :: x in ms <==> x in init || x == m;
      var copies := seq(Occurrences(m.roles, MasterRole), _ => m);
      assert forall x :: x in copies ==> x == m;
      if MasterRole in m.roles { assert copies[0] == m; }
    }
  }
}
