/**
 * What `create machine` and `delete machine` promise: the join-command parser
 * inverts the line kubeadm prints, the role check accepts exactly the four
 * spellings of the two roles, a delete never removes the last master of a
 * cluster with nodes, and each command logs a fixed plan of remote steps,
 * stopping at the first that fails.
 */
module MachineFlow {
  import opened Wrappers
  import opened Api
  import opened Text
  import opened EtcdMemberSet
  import opened Remote
  import opened EtcdCmd
  import opened MachineCmd

  // ---------------------------------------------------------------------------
  // The join-command parser.

  /** The parser recovers the token and the hash from the line kubeadm prints. */
  lemma TokenAndCAHashOfJoinCommand(server: string, token: string, caHash: string)
    requires IsWord(server) && IsWord(token) && IsWord(caHash)
    ensures TokenAndCAHash(JoinCommandLine(server, token, caHash)) == Ok((token, caHash))
  {
    var ws := ["kubeadm", "join", server, "--token", token, "--discovery-token-ca-cert-hash", caHash];
    KubeadmWords();
    assert forall i :: 0 <= i < |ws| ==> IsWord(ws[i]);
    FieldsOfJoin(ws);
  }

  /**
   * Any seven words separated by single blanks parse, and the token and the
   * CA hash are read from the fifth and the seventh word.
   */
  lemma TokenAndCAHashOfWords(ws: seq<string>)
    requires |ws| == 7 && forall i :: 0 <= i < 7 ==> IsWord(ws[i])
    ensures TokenAndCAHash(Join(ws)) == Ok((ws[4], ws[6]))
  {
    FieldsOfJoin(ws);
  }

  /** The fixed words of the join command hold no white space. */
  lemma KubeadmWords()
    ensures IsWord("kubeadm") && IsWord("join") && IsWord("--token")
    ensures IsWord("--discovery-token-ca-cert-hash")
  {
  }

  /** Leading and trailing white space (the final newline of the output) do not matter. */
  lemma TokenAndCAHashIgnoresSurroundingSpace(before: string, stdout: string, after: string)
    requires AllSpace(before) && AllSpace(after)
    ensures TokenAndCAHash(before + stdout + after) == TokenAndCAHash(stdout)
  {
    FieldsIgnoresLeadingSpace(before, stdout + after);
    FieldsIgnoresTrailingSpace(stdout, after);
    assert before + stdout + after == before + (stdout + after);
  }

  /** Neither does the width of the white space between two fields. */
  lemma TokenAndCAHashCollapsesSpace(a: string, ws: string, b: string)
    requires ws != [] && AllSpace(ws)
    ensures TokenAndCAHash(a + ws + b) == TokenAndCAHash(a + " " + b)
  {
    FieldsCollapsesSpace(a, ws, b);
  }

  // ---------------------------------------------------------------------------
  // The role flag.

  /** Title case turns no word character into a separator, nor the reverse. */
  lemma ToTitleKeepsSeparators(c: char)
    ensures IsSeparator(ToTitle(c)) == IsSeparator(c)
  {
  }

  /** Title-casing twice is title-casing once. */
  lemma TitleIdempotent(s: string)
    ensures Title(Title(s)) == Title(s)
  {
    var t := Title(s);
    forall i | 0 <= i < |s| ensures Title(t)[i] == t[i] {
      if i > 0 {
        ToTitleKeepsSeparators(s[i - 1]);
        assert StartsWord(t, i) == StartsWord(s, i);
      }
    }
  }

  /** In a title-cased string without separators only the first character changed. */
  lemma {:induction false} TitleOfWord(raw: string, i: nat)
    requires 1 <= i < |raw|
    requires forall j :: 0 <= j < |raw| ==> !IsSeparator(Title(raw)[j])
    ensures Title(raw)[i] == raw[i]
  {
    var t := Title(raw);
    ToTitleKeepsSeparators(raw[i - 1]);
    assert t[i - 1] == raw[i - 1] || t[i - 1] == ToTitle(raw[i - 1]);
    assert !IsSeparator(raw[i - 1]);
  }

  lemma TitleIsRole(raw: string, role: Role)
    requires Title(raw) == role
    requires role == MasterRole || role == NodeRole
    ensures raw[1..] == role[1..]
    ensures raw[0] == role[0] || raw[0] == role[0] + ('a' - 'A')
  {
    var t := Title(raw);
    assert forall j :: 0 <= j < |raw| ==> !IsSeparator(t[j]);
    forall i | 1 <= i < |raw|
      ensures raw[i] == role[i]
    {
      TitleOfWord(raw, i);
    }
    assert StartsWord(raw, 0);
  }

  /** `create machine` accepts a role exactly when it is spelled one of these four ways. */
  lemma {:induction false} SupportedRoleSpellings(raw: string)
    ensures SupportedRole(Title(raw)) <==>
      raw == "master" || raw == "Master" || raw == "node" || raw == "Node"
  {
    if SupportedRole(Title(raw)) {
      var role := Title(raw);
      TitleIsRole(raw, role);
      assert raw == [raw[0]] + raw[1..];
    }
    if raw == "master" || raw == "Master" {
      assert StartsWord(raw, 0);
      forall i | 1 <= i < |raw| ensures !StartsWord(raw, i) { }
      assert Title(raw) == MasterRole;
    }
    if raw == "node" || raw == "Node" {
      assert StartsWord(raw, 0);
      forall i | 1 <= i < |raw| ensures !StartsWord(raw, i) { }
      assert Title(raw) == NodeRole;
    }
  }

  /** Any other role ends the command before it reads or writes anything. */
  lemma CreateRejectsUnsupportedRole(env: Env, s: St, store: Store, args: CreateArgs)
    requires s.err == None
    requires !(args.role == "master" || args.role == "Master" || args.role == "node" || args.role == "Node")
    ensures CreateMachineSpec(env, s, store, args) == Fail(s, InvalidRole(Title(args.role)))
  {
    SupportedRoleSpellings(args.role);
  }

  // ---------------------------------------------------------------------------
  // The object pair and the orphan check.

  /** What `delete machine` looks up is the pair `create machine` registered. */
  lemma DeleteFindsCreatedPair(store: Store, ip: string, role: Role, iface: string, config: SSHConfig)
    requires var (pm, m) := NewProvisionedMachineAndMachine(ip, role, iface, config);
      && store.machines.Some? && m in store.machines.value
      && (forall other :: other in store.machines.value && other.name == ip ==> other == m)
      && store.provisioned.Some? && ip in store.provisioned.value && store.provisioned.value[ip] == pm
    ensures var (pm, m) := NewProvisionedMachineAndMachine(ip, role, iface, config);
      && GetMachine(store, ip) == Ok(m)
      && GetProvisionedMachine(store, m.providerSpec.provisionedMachineName) == Ok(pm)
      && Bound(m, pm)
  {
    var (pm, m) := NewProvisionedMachineAndMachine(ip, role, iface, config);
    var ms := store.machines.value;
    var k :| 0 <= k < |ms| && ms[k] == m;
    assert FindMachine(ms, ip).Some?;
  }

  /** Role entries counted over machines none of which but `ms[k]` has the role. */
  lemma {:induction false} CountRoleOfOne(ms: seq<Machine>, k: nat, r: Role)
    requires k < |ms|
    requires forall j :: 0 <= j < |ms| && j != k ==> r !in ms[j].roles
    ensures CountRole(ms, r) == Occurrences(ms[k].roles, r)
    decreases |ms|
  {
    var last := |ms| - 1;
    if k == last {
      assert CountRole(ms[..last], r) == 0 by {
        forall m | m in ms[..last] ensures r !in m.roles {
          var j :| 0 <= j < last && ms[..last][j] == m;
        }
      }
    } else {
      CountRoleOfOne(ms[..last], k, r);
      assert Occurrences(ms[last].roles, r) == 0;
    }
  }

  /**
   * Deleting a master that the check lets through leaves another master, as
   * long as no machine lists the master role twice (the check counts role
   * entries, not machines).
   */
  lemma OrphanCheckKeepsAMaster(store: Store, k: nat)
    requires store.machines.Some? && k < |store.machines.value|
    requires forall j :: 0 <= j < |store.machines.value| ==>
      Occurrences(store.machines.value[j].roles, MasterRole) <= 1
    requires MasterRole in store.machines.value[k].roles
    requires CountRole(store.machines.value, NodeRole) > 0
    requires OrphanCheck(store, store.machines.value[k]) == None
    ensures exists j :: 0 <= j < |store.machines.value| && j != k && MasterRole in store.machines.value[j].roles
  {
    var ms := store.machines.value;
    if forall j :: 0 <= j < |ms| && j != k ==> MasterRole !in ms[j].roles {
      CountRoleOfOne(ms, k, MasterRole);
      assert false;
    }
  }

  /** And the last master of a cluster with nodes is refused. */
  lemma OrphanCheckRefusesLastMaster(store: Store, k: nat)
    requires store.machines.Some? && k < |store.machines.value|
    requires Occurrences(store.machines.value[k].roles, MasterRole) == 1
    requires forall j :: 0 <= j < |store.machines.value| && j != k ==> MasterRole !in store.machines.value[j].roles
    requires CountRole(store.machines.value, NodeRole) > 0
    ensures OrphanCheck(store, store.machines.value[k]) ==
      Some(WouldOrphanNodes(CountRole(store.machines.value, NodeRole)))
  {
    CountRoleOfOne(store.machines.value, k, MasterRole);
  }

  // ---------------------------------------------------------------------------
  // The plans the two commands follow. Each plan is put together the way its
  // command's steps are: the plan of a step sequence is the first step's plan
  // followed by the plan of the rest.

  /** Every event a run adds to the log is the plan's event at that position. */
  lemma FollowsEvents(env: Env, s: St, r: St, plan: seq<Event>)
    requires Follows(env, s, r, plan)
    ensures |r.log| <= |s.log| + |plan|
    ensures forall i :: |s.log| <= i < |r.log| ==> r.log[i] == plan[i - |s.log|]
  {
    forall i | |s.log| <= i < |r.log|
      ensures r.log[i] == plan[i - |s.log|]
    {
      assert r.log[i] == (s.log + plan)[i];
    }
  }

  /** A run that ends in an error without logging more follows its plan still. */
  lemma FollowsFail(env: Env, s: St, r: St, plan: seq<Event>, e: Error)
    requires Follows(env, s, r, plan)
    ensures Follows(env, s, Fail(r, e), plan)
  {
  }

  function ConfigOr(config: Option<SSHConfig>): SSHConfig {
    config.GetOr(NoClient)
  }

  /** Opening a client connects to the configuration, or stops when there is none. */
  lemma ClientFollows(env: Env, s: St, config: Option<SSHConfig>, machine: string)
    ensures Follows(env, s, NewMachineClient(env, s, config, machine), [Connect(ConfigOr(config))])
  {
    if config.None? {
      FollowsStop(env, s, NewMachineClient(env, s, config, machine), [Connect(ConfigOr(config))]);
    } else {
      FollowsEffect(env, s, Connect(config.value));
    }
  }

  // `create machine`

  function TokenSecretEvent(store: Store, token: string, caHash: string): Event {
    if store.bootstrapToken.Found? then UpdateBootstrapTokenSecret(token, caHash)
    else CreateBootstrapTokenSecret(token, caHash)
  }

  /** Ask the master for a join command, then store the token and hash it holds. */
  function TokenPlan(env: Env, store: Store, mpm: ProvisionedMachine): seq<Event> {
    var c := ConfigOr(mpm.spec.sshConfig);
    var parsed := TokenAndCAHash(TokenOutput(env, c));
    var (token, caHash) := if parsed.Ok? then parsed.value else ("", "");
    ([Connect(c)] + [Remote(c, Run(TokenCreateCmd))]) + [TokenSecretEvent(store, token, caHash)]
  }

  lemma TokenFromMachineFollows(env: Env, s: St, master: Machine, mpm: ProvisionedMachine)
    requires s.err == None
    ensures var c := ConfigOr(mpm.spec.sshConfig);
      Follows(env, s, TokenFromMachineSpec(env, s, master, mpm), [Connect(c)] + [Remote(c, Run(TokenCreateCmd))])
  {
    var c := ConfigOr(mpm.spec.sshConfig);
    var run := Remote(c, Run(TokenCreateCmd));
    var s0 := NewMachineClient(env, s, mpm.spec.sshConfig, master.name);
    ClientFollows(env, s, mpm.spec.sshConfig, master.name);
    var r := TokenFromMachineSpec(env, s, master, mpm);
    if s0.err.None? {
      var s1 := Effect(env, s0, run);
      FollowsEffect(env, s0, run);
      if s1.err.None? && TokenAndCAHash(StdoutOf(env, run)).Err? {
        FollowsFail(env, s0, s1, [run], UnparseableOutput(StdoutOf(env, run)));
      }
    }
    FollowsThen(env, s, s0, r, [Connect(c)], [run]);
  }

  lemma TokenFollows(env: Env, store: Store, s: St, master: Machine, mpm: ProvisionedMachine)
    requires s.err == None
    ensures Follows(env, s, BootstrapTokenSpec(env, store, s, master, mpm), TokenPlan(env, store, mpm))
  {
    var c := ConfigOr(mpm.spec.sshConfig);
    var parsed := TokenAndCAHash(TokenOutput(env, c));
    var (token, caHash) := if parsed.Ok? then parsed.value else ("", "");
    var put := TokenSecretEvent(store, token, caHash);
    var s1 := TokenFromMachineSpec(env, s, master, mpm);
    TokenFromMachineFollows(env, s, master, mpm);
    var r := BootstrapTokenSpec(env, store, s, master, mpm);
    if s1.err.None? {
      if store.bootstrapToken.Unavailable? {
        FollowsStop(env, s1, r, [put]);
      } else {
        FollowsEffect(env, s1, put);
      }
    }
    FollowsThen(env, s, s1, r, [Connect(c)] + [Remote(c, Run(TokenCreateCmd))], [put]);
  }

  /** Read the admin kubeconfig of the master, then write it to the new machine. */
  function AdminPlan(env: Env, mpm: ProvisionedMachine, pm: ProvisionedMachine): seq<Event> {
    var mc, c := ConfigOr(mpm.spec.sshConfig), ConfigOr(pm.spec.sshConfig);
    ([Connect(mc)] + [Remote(mc, ReadFile(AdminConfPath))])
    + ([Connect(c)] + [Remote(c, WriteFile(AdminConfPath, AdminConfMode, AdminConfOf(env, mc)))])
  }

  lemma AdminFollows(env: Env, s: St, master: Machine, mpm: ProvisionedMachine, m: Machine, pm: ProvisionedMachine)
    requires s.err == None
    ensures Follows(env, s, AdminKubeconfigSpec(env, s, master, mpm, m, pm), AdminPlan(env, mpm, pm))
  {
    var mc, c := ConfigOr(mpm.spec.sshConfig), ConfigOr(pm.spec.sshConfig);
    var read := Remote(mc, ReadFile(AdminConfPath));
    var write := Remote(c, WriteFile(AdminConfPath, AdminConfMode, AdminConfOf(env, mc)));
    var s0 := NewMachineClient(env, s, mpm.spec.sshConfig, master.name);
    ClientFollows(env, s, mpm.spec.sshConfig, master.name);
    var s1 := ReadAdminSpec(env, s, master, mpm);
    if s0.err.None? {
      FollowsEffect(env, s0, read);
    }
    FollowsThen(env, s, s0, s1, [Connect(mc)], [read]);
    var r := AdminKubeconfigSpec(env, s, master, mpm, m, pm);
    if s1.err.None? {
      var s2 := NewMachineClient(env, s1, pm.spec.sshConfig, m.name);
      ClientFollows(env, s1, pm.spec.sshConfig, m.name);
      if s2.err.None? {
        FollowsEffect(env, s2, write);
      }
      FollowsThen(env, s1, s2, r, [Connect(c)], [write]);
    }
    FollowsThen(env, s, s1, r, [Connect(mc)] + [read], [Connect(c)] + [write]);
  }

  /** The new member's entry in the cluster status, if the machine reports one, then the refresh. */
  function RecordPlan(members: seq<EtcdMember>, member: Option<EtcdMember>): seq<Event> {
    (if member.Some? then [UpdateClusterStatus(InsertMember(members, member.value))] else [])
    + [PullFromAPIs]
  }

  lemma RecordAndPullFollows(env: Env, s: St, member: Option<EtcdMember>)
    requires s.err == None
    ensures Follows(env, s, RecordAndPullSpec(env, s, member), RecordPlan(s.members, member))
  {
    var p1 := if member.Some? then [UpdateClusterStatus(InsertMember(s.members, member.value))] else [];
    var s1 := if member.Some? then InsertClusterEtcdMemberSpec(env, s, member.value) else s;
    if member.Some? {
      FollowsEffect(env, s.(members := InsertMember(s.members, member.value)), p1[0]);
    } else {
      FollowsNothing(env, s);
    }
    if s1.err.None? {
      FollowsEffect(env, s1, PullFromAPIs);
    }
    FollowsThen(env, s, s1, RecordAndPullSpec(env, s, member), p1, [PullFromAPIs]);
  }

  /**
   * Run the actuator, give a node the admin kubeconfig, record the member the
   * machine reports in the cluster status, and refresh the local state.
   */
  function ActuatePlan(env: Env, members: seq<EtcdMember>, pm: ProvisionedMachine, m: Machine,
                       master: Option<(Machine, ProvisionedMachine)>): seq<Event> {
    [ActuatorCreate(m.name)]
    + ((if master.Some? then AdminPlan(env, master.value.1, pm) else [])
       + RecordPlan(members, MemberAfter(env, ActuatorCreate(m.name))))
  }

  lemma ActuateFollows(env: Env, s: St, pm: ProvisionedMachine, m: Machine,
                       master: Option<(Machine, ProvisionedMachine)>)
    requires s.err == None
    ensures Follows(env, s, ActuateSpec(env, s, pm, m, master), ActuatePlan(env, s.members, pm, m, master))
  {
    var member := MemberAfter(env, ActuatorCreate(m.name));
    var p2 := if master.Some? then AdminPlan(env, master.value.1, pm) else [];
    var p3 := RecordPlan(s.members, member);
    var r := ActuateSpec(env, s, pm, m, master);
    var s1 := Effect(env, s, ActuatorCreate(m.name));
    FollowsEffect(env, s, ActuatorCreate(m.name));
    if s1.err.None? {
      var s2 := if master.Some? then AdminKubeconfigSpec(env, s1, master.value.0, master.value.1, m, pm) else s1;
      if master.Some? {
        AdminFollows(env, s1, master.value.0, master.value.1, m, pm);
      } else {
        FollowsNothing(env, s1);
      }
      if s2.err.None? {
        assert r == RecordAndPullSpec(env, s2, member);
        RecordAndPullFollows(env, s2, member);
      }
      FollowsThen(env, s1, s2, r, p2, p3);
    }
    FollowsThen(env, s, s1, r, [ActuatorCreate(m.name)], p2 + p3);
  }

  /** The flags pass the checks `create machine` makes before it changes anything. */
  predicate CreateChecksPass(store: Store, args: CreateArgs) {
    && SupportedRole(Title(args.role)) && args.port.Some?
    && store.cluster.Found? && store.sshCredential.Found?
  }

  function NewPair(store: Store, args: CreateArgs): (ProvisionedMachine, Machine)
    requires CreateChecksPass(store, args)
  {
    var config := SSHConfig(args.ip, args.port.value, args.publicKeys, store.sshCredential.value.name);
    NewProvisionedMachineAndMachine(args.ip, Title(args.role), args.iface, config)
  }

  /** The master a new node asks for its bootstrap token, if there is one to ask. */
  function MasterFor(store: Store, m: Machine): Option<(Machine, ProvisionedMachine)> {
    if NodeRole in m.roles && MasterPair(store).Ok? then Some(MasterPair(store).value) else None
  }

  /** A node fetches a bootstrap token from the master first; then the actuator runs. */
  function PreparePlan(env: Env, store: Store, members: seq<EtcdMember>, pm: ProvisionedMachine, m: Machine): seq<Event> {
    var master := MasterFor(store, m);
    (if master.Some? then TokenPlan(env, store, master.value.1) else [])
    + ActuatePlan(env, members, pm, m, master)
  }

  lemma PrepareFollows(env: Env, store: Store, s: St, pm: ProvisionedMachine, m: Machine)
    requires s.err == None
    ensures Follows(env, s, PrepareAndActuateSpec(env, store, s, pm, m), PreparePlan(env, store, s.members, pm, m))
  {
    var master := MasterFor(store, m);
    var p1 := if master.Some? then TokenPlan(env, store, master.value.1) else [];
    var p2 := ActuatePlan(env, s.members, pm, m, master);
    var r := PrepareAndActuateSpec(env, store, s, pm, m);
    if NodeRole in m.roles {
      if MasterPair(store).Err? {
        FollowsStop(env, s, r, p1 + p2);
      } else {
        var s1 := BootstrapTokenSpec(env, store, s, master.value.0, master.value.1);
        TokenFollows(env, store, s, master.value.0, master.value.1);
        if s1.err.None? {
          ActuateFollows(env, s1, pm, m, master);
        }
        FollowsThen(env, s, s1, r, p1, p2);
      }
    } else {
      FollowsNothing(env, s);
      ActuateFollows(env, s, pm, m, master);
      FollowsThen(env, s, s, r, p1, p2);
    }
  }

  /** Register the provisioned machine and then the machine; the rest follows. */
  function CreatePairPlan(env: Env, store: Store, members: seq<EtcdMember>, pm: ProvisionedMachine, m: Machine): seq<Event> {
    [CreateObject(ProvisionedMachineKind, pm.name)]
    + ([CreateObject(MachineKind, m.name)] + PreparePlan(env, store, members, pm, m))
  }

  lemma CreatePairFollows(env: Env, store: Store, s: St, pm: ProvisionedMachine, m: Machine)
    requires s.err == None
    ensures Follows(env, s, CreatePairSpec(env, store, s, pm, m), CreatePairPlan(env, store, s.members, pm, m))
  {
    var e1, e2 := CreateObject(ProvisionedMachineKind, pm.name), CreateObject(MachineKind, m.name);
    var rest := PreparePlan(env, store, s.members, pm, m);
    var r := CreatePairSpec(env, store, s, pm, m);
    var s1 := Effect(env, s, e1);
    FollowsEffect(env, s, e1);
    if s1.err.None? {
      var s2 := Effect(env, s1, e2);
      FollowsEffect(env, s1, e2);
      if s2.err.None? {
        assert r == PrepareAndActuateSpec(env, store, s2, pm, m);
        PrepareFollows(env, store, s2, pm, m);
      } else {
        assert r == s2;
      }
      FollowsThen(env, s1, s2, r, [e2], rest);
    }
    FollowsThen(env, s, s1, r, [e1], [e2] + rest);
  }

  /** The plan of `create machine` once its checks pass. */
  function CreatePlan(env: Env, store: Store, args: CreateArgs): seq<Event>
    requires CreateChecksPass(store, args)
  {
    var (pm, m) := NewPair(store, args);
    CreatePairPlan(env, store, store.cluster.value, pm, m)
  }

  /**
   * `create machine` is a saga without compensation: it logs a prefix of its
   * plan, the whole plan exactly when it succeeds.
   */
  lemma CreateFollowsPlan(env: Env, s: St, store: Store, args: CreateArgs)
    requires s.err == None && CreateChecksPass(store, args)
    ensures Follows(env, s, CreateMachineSpec(env, s, store, args), CreatePlan(env, store, args))
  {
    var (pm, m) := NewPair(store, args);
    CreatePairFollows(env, store, s.(members := store.cluster.value), pm, m);
  }

  /** Flags that fail a check end the command before it logs anything. */
  lemma CreateValidatesFirst(env: Env, s: St, store: Store, args: CreateArgs)
    requires s.err == None && !CreateChecksPass(store, args)
    ensures var r := CreateMachineSpec(env, s, store, args);
      && r.log == s.log && r.members == s.members
      && r.err in {Some(InvalidRole(Title(args.role))), Some(InvalidPort), Some(NoCluster),
                   Some(ReadFailed(ClusterKind)), Some(NoSSHCredential), Some(ReadFailed(SecretKind))}
  {
  }

  /** No event of a master's plan reaches a machine over SSH or touches the bootstrap token. */
  predicate Local(e: Event) {
    !e.Connect? && !e.Remote? && !e.CreateBootstrapTokenSecret? && !e.UpdateBootstrapTokenSecret?
  }

  /** Creating a master touches no machine over SSH and no bootstrap token. */
  lemma CreateMasterStaysLocal(env: Env, s: St, store: Store, args: CreateArgs)
    requires s.err == None && Title(args.role) == MasterRole
    ensures var r := CreateMachineSpec(env, s, store, args);
      forall i :: |s.log| <= i < |r.log| ==> Local(r.log[i])
  {
    var r := CreateMachineSpec(env, s, store, args);
    if CreateChecksPass(store, args) {
      var (pm, m) := NewPair(store, args);
      assert m.roles == [MasterRole];
      assert MasterFor(store, m).None?;
      var plan := CreatePlan(env, store, args);
      CreateFollowsPlan(env, s, store, args);
      FollowsEvents(env, s, r, plan);
      var record := RecordPlan(store.cluster.value, MemberAfter(env, ActuatorCreate(m.name)));
      assert plan == [plan[0]] + ([plan[1]] + ([] + ([ActuatorCreate(m.name)] + ([] + record))));
      assert forall e :: e in plan ==> Local(e);
    }
  }

  /**
   * A node is created only when there is a master to ask for a bootstrap
   * token and the master's answer parsed; the whole plan was then carried out.
   */
  lemma CreateNodeAsksMaster(env: Env, s: St, store: Store, args: CreateArgs)
    requires s.err == None && Title(args.role) == NodeRole
    requires CreateMachineSpec(env, s, store, args).err == None
    ensures CreateChecksPass(store, args) && MasterPair(store).Ok?
    ensures var mc := ConfigOr(MasterPair(store).value.1.spec.sshConfig);
      TokenAndCAHash(TokenOutput(env, mc)).Ok?
    ensures CreateMachineSpec(env, s, store, args).log == s.log + CreatePlan(env, store, args)
  {
    assert CreateChecksPass(store, args);
    var (pm, m) := NewPair(store, args);
    var s0 := s.(members := store.cluster.value);
    var s2 := Effect(env, Effect(env, s0, CreateObject(ProvisionedMachineKind, pm.name)), CreateObject(MachineKind, m.name));
    assert s2.err.None?;
    assert NodeRole in m.roles;
    assert MasterPair(store).Ok?;
    var master := MasterPair(store).value;
    var s3 := BootstrapTokenSpec(env, store, s2, master.0, master.1);
    assert s3.err.None?;
    assert TokenFromMachineSpec(env, s2, master.0, master.1).err.None?;
    CreateFollowsPlan(env, s, store, args);
  }

  // `delete machine`

  /** The drain and then the deletion of the node, when the lookup named one. */
  function DrainNodePlan(c: SSHConfig, nodeName: string, timeout: string, gracePeriod: int): seq<Event> {
    if |nodeName| == 0 then []
    else [Remote(c, Run(DrainCmd(timeout, gracePeriod, nodeName)))] + [Remote(c, Run(DeleteNodeCmd(nodeName)))]
  }

  function LookupPlan(env: Env, c: SSHConfig, timeout: string, gracePeriod: int): seq<Event> {
    [Remote(c, Run(NodeLookupCmd))] + DrainNodePlan(c, NodeName(env, c), timeout, gracePeriod)
  }

  /** Look up the cluster node of the machine; drain and delete it when there is one. */
  function DrainPlan(env: Env, tpm: ProvisionedMachine, timeout: string, gracePeriod: int): seq<Event> {
    var c := ConfigOr(tpm.spec.sshConfig);
    [Connect(c)] + LookupPlan(env, c, timeout, gracePeriod)
  }

  lemma DrainNodeFollows(env: Env, s: St, c: SSHConfig, nodeName: string, timeout: string, gracePeriod: int)
    requires s.err == None
    ensures Follows(env, s, DrainNodeSpec(env, s, c, nodeName, timeout, gracePeriod),
                    DrainNodePlan(c, nodeName, timeout, gracePeriod))
  {
    if |nodeName| == 0 {
      FollowsNothing(env, s);
    } else {
      var drain, delete := Remote(c, Run(DrainCmd(timeout, gracePeriod, nodeName))), Remote(c, Run(DeleteNodeCmd(nodeName)));
      var s1 := Effect(env, s, drain);
      FollowsEffect(env, s, drain);
      if s1.err.None? {
        FollowsEffect(env, s1, delete);
      }
      FollowsThen(env, s, s1, DrainNodeSpec(env, s, c, nodeName, timeout, gracePeriod), [drain], [delete]);
    }
  }

  lemma LookupFollows(env: Env, s: St, c: SSHConfig, timeout: string, gracePeriod: int)
    requires s.err == None
    ensures Follows(env, s, LookupAndDrainSpec(env, s, c, timeout, gracePeriod), LookupPlan(env, c, timeout, gracePeriod))
  {
    var lookup := Remote(c, Run(NodeLookupCmd));
    var rest := DrainNodePlan(c, NodeName(env, c), timeout, gracePeriod);
    var r := LookupAndDrainSpec(env, s, c, timeout, gracePeriod);
    var s1 := Effect(env, s, lookup);
    FollowsEffect(env, s, lookup);
    if s1.err.None? {
      assert r == DrainNodeSpec(env, s1, c, NodeName(env, c), timeout, gracePeriod);
      DrainNodeFollows(env, s1, c, NodeName(env, c), timeout, gracePeriod);
    } else {
      assert r == s1;
    }
    FollowsThen(env, s, s1, r, [lookup], rest);
    assert LookupPlan(env, c, timeout, gracePeriod) == [lookup] + rest;
  }

  lemma DrainFollows(env: Env, s: St, target: Machine, tpm: ProvisionedMachine, timeout: string, gracePeriod: int)
    requires s.err == None
    ensures Follows(env, s, DrainSpec(env, s, target, tpm, timeout, gracePeriod), DrainPlan(env, tpm, timeout, gracePeriod))
  {
    var c := ConfigOr(tpm.spec.sshConfig);
    var rest := LookupPlan(env, c, timeout, gracePeriod);
    var r := DrainSpec(env, s, target, tpm, timeout, gracePeriod);
    var s1 := NewMachineClient(env, s, tpm.spec.sshConfig, target.name);
    ClientFollows(env, s, tpm.spec.sshConfig, target.name);
    if s1.err.None? {
      assert c == tpm.spec.sshConfig.value;
      assert r == LookupAndDrainSpec(env, s1, c, timeout, gracePeriod);
      LookupFollows(env, s1, c, timeout, gracePeriod);
    } else {
      assert r == s1;
    }
    FollowsThen(env, s, s1, r, [Connect(c)], rest);
    assert DrainPlan(env, tpm, timeout, gracePeriod) == [Connect(c)] + rest;
  }

  /**
   * The drain and the node deletion run only when the lookup named a node,
   * and the node is deleted only once the drain succeeded.
   */
  lemma DrainOnlyNamedNode(env: Env, s: St, target: Machine, tpm: ProvisionedMachine, timeout: string, gracePeriod: int)
    requires s.err == None
    ensures var r := DrainSpec(env, s, target, tpm, timeout, gracePeriod);
      var c := ConfigOr(tpm.spec.sshConfig);
      var nodeName := NodeName(env, c);
      && |r.log| <= |s.log| + 4
      && (|r.log| > |s.log| + 2 ==>
            |nodeName| > 0 && r.log[|s.log| + 2] == Remote(c, Run(DrainCmd(timeout, gracePeriod, nodeName))))
      && (|r.log| > |s.log| + 3 ==>
            r.log[|s.log| + 2] !in env.failing && r.log[|s.log| + 3] == Remote(c, Run(DeleteNodeCmd(nodeName))))
  {
    var r := DrainSpec(env, s, target, tpm, timeout, gracePeriod);
    DrainFollows(env, s, target, tpm, timeout, gracePeriod);
    FollowsEvents(env, s, r, DrainPlan(env, tpm, timeout, gracePeriod));
  }

  /** The Machine and then the ProvisionedMachine are deleted; then the refresh. */
  function DeleteObjectsPlan(target: Machine, tpm: ProvisionedMachine): seq<Event> {
    [DeleteObject(MachineKind, target.name)]
    + ([DeleteObject(ProvisionedMachineKind, tpm.name)] + [PullFromAPIs])
  }

  lemma DeleteObjectsFollows(env: Env, s: St, target: Machine, tpm: ProvisionedMachine)
    requires s.err == None
    ensures Follows(env, s, DeleteObjectsSpec(env, s, target, tpm), DeleteObjectsPlan(target, tpm))
  {
    var e1, e2, e3 := DeleteObject(MachineKind, target.name), DeleteObject(ProvisionedMachineKind, tpm.name), PullFromAPIs;
    var r := DeleteObjectsSpec(env, s, target, tpm);
    var s1 := Effect(env, s, e1);
    FollowsEffect(env, s, e1);
    if s1.err.None? {
      var s2 := Effect(env, s1, e2);
      FollowsEffect(env, s1, e2);
      if s2.err.None? {
        FollowsEffect(env, s2, e3);
      }
      FollowsThen(env, s1, s2, r, [e2], [e3]);
    }
    FollowsThen(env, s, s1, r, [e1], [e2] + [e3]);
  }

  /** Run the actuator, drop the machine's member from the cluster status, delete the objects. */
  function UnregisterPlan(members: seq<EtcdMember>, target: Machine, tpm: ProvisionedMachine): seq<Event> {
    var member := target.providerStatus.etcdMember;
    [ActuatorDelete(target.name)]
    + ((if member.Some? then [UpdateClusterStatus(RemoveMember(members, member.value))] else [])
       + DeleteObjectsPlan(target, tpm))
  }

  lemma UnregisterFollows(env: Env, s: St, target: Machine, tpm: ProvisionedMachine)
    requires s.err == None
    ensures Follows(env, s, UnregisterSpec(env, s, target, tpm), UnregisterPlan(s.members, target, tpm))
  {
    var member := target.providerStatus.etcdMember;
    var p2 := if member.Some? then [UpdateClusterStatus(RemoveMember(s.members, member.value))] else [];
    var p3 := DeleteObjectsPlan(target, tpm);
    var r := UnregisterSpec(env, s, target, tpm);
    var s1 := Effect(env, s, ActuatorDelete(target.name));
    FollowsEffect(env, s, ActuatorDelete(target.name));
    if s1.err.None? {
      var s2 := if member.Some? then RemoveClusterEtcdMemberSpec(env, s1, member.value) else s1;
      if member.Some? {
        FollowsEffect(env, s1.(members := RemoveMember(s1.members, member.value)), p2[0]);
      } else {
        FollowsNothing(env, s1);
      }
      if s2.err.None? {
        assert r == DeleteObjectsSpec(env, s2, target, tpm);
        DeleteObjectsFollows(env, s2, target, tpm);
      }
      FollowsThen(env, s1, s2, r, p2, p3);
    }
    FollowsThen(env, s, s1, r, [ActuatorDelete(target.name)], p2 + p3);
  }

  /**
   * Drain the node, run the actuator, drop the machine's etcd member from the
   * cluster status, delete the Machine and then the ProvisionedMachine, and
   * refresh the local state.
   */
  function RemoveTargetPlan(env: Env, members: seq<EtcdMember>, target: Machine, tpm: ProvisionedMachine,
                            timeout: string, gracePeriod: int): seq<Event> {
    DrainPlan(env, tpm, timeout, gracePeriod) + UnregisterPlan(members, target, tpm)
  }

  lemma RemoveTargetFollows(env: Env, s: St, target: Machine, tpm: ProvisionedMachine, timeout: string, gracePeriod: int)
    requires s.err == None
    ensures Follows(env, s, RemoveTargetSpec(env, s, target, tpm, timeout, gracePeriod),
                    RemoveTargetPlan(env, s.members, target, tpm, timeout, gracePeriod))
  {
    var s1 := DrainSpec(env, s, target, tpm, timeout, gracePeriod);
    DrainFollows(env, s, target, tpm, timeout, gracePeriod);
    if s1.err.None? {
      UnregisterFollows(env, s1, target, tpm);
    }
    FollowsThen(env, s, s1, RemoveTargetSpec(env, s, target, tpm, timeout, gracePeriod),
                DrainPlan(env, tpm, timeout, gracePeriod), UnregisterPlan(s.members, target, tpm));
  }

  /** The target and its provisioned machine exist, the cluster is readable and no node is orphaned. */
  predicate DeleteChecksPass(store: Store, args: DeleteArgs) {
    && GetMachine(store, args.ip).Ok?
    && GetProvisionedMachine(store, GetMachine(store, args.ip).value.providerSpec.provisionedMachineName).Ok?
    && store.cluster.Found?
    && OrphanCheck(store, GetMachine(store, args.ip).value) == None
  }

  /** The plan of `delete machine` once its checks pass. */
  function DeletePlan(env: Env, store: Store, args: DeleteArgs): seq<Event>
    requires DeleteChecksPass(store, args)
  {
    var target := GetMachine(store, args.ip).value;
    var tpm := GetProvisionedMachine(store, target.providerSpec.provisionedMachineName).value;
    RemoveTargetPlan(env, store.cluster.value, target, tpm, args.drainTimeout, args.gracePeriod)
  }

  /** `delete machine` logs a prefix of its plan, the whole plan exactly when it succeeds. */
  lemma DeleteFollowsPlan(env: Env, s: St, store: Store, args: DeleteArgs)
    requires s.err == None && DeleteChecksPass(store, args)
    ensures Follows(env, s, DeleteMachineSpec(env, s, store, args), DeletePlan(env, store, args))
  {
    var target := GetMachine(store, args.ip).value;
    var tpm := GetProvisionedMachine(store, target.providerSpec.provisionedMachineName).value;
    RemoveTargetFollows(env, s.(members := store.cluster.value), target, tpm, args.drainTimeout, args.gracePeriod);
  }

  /** A delete that fails a check, the orphan check included, logs nothing. */
  lemma DeleteChecksFirst(env: Env, s: St, store: Store, args: DeleteArgs)
    requires s.err == None && !DeleteChecksPass(store, args)
    ensures var r := DeleteMachineSpec(env, s, store, args);
      && r.log == s.log && r.err.Some?
      && (&& GetMachine(store, args.ip).Ok? && OrphanCheck(store, GetMachine(store, args.ip).value).Some?
          && GetProvisionedMachine(store, GetMachine(store, args.ip).value.providerSpec.provisionedMachineName).Ok?
          && store.cluster.Found?
          ==> r.err == OrphanCheck(store, GetMachine(store, args.ip).value))
  {
  }

  /** Asking to delete the only master of a cluster with nodes changes nothing. */
  lemma DeleteRefusesLastMaster(env: Env, s: St, store: Store, args: DeleteArgs, k: nat)
    requires s.err == None
    requires store.machines.Some? && k < |store.machines.value|
    requires GetMachine(store, args.ip) == Ok(store.machines.value[k])
    requires GetProvisionedMachine(store, store.machines.value[k].providerSpec.provisionedMachineName).Ok?
    requires store.cluster.Found?
    requires Occurrences(store.machines.value[k].roles, MasterRole) == 1
    requires forall j :: 0 <= j < |store.machines.value| && j != k ==> MasterRole !in store.machines.value[j].roles
    requires CountRole(store.machines.value, NodeRole) > 0
    ensures var r := DeleteMachineSpec(env, s, store, args);
      && r.log == s.log
      && r.err == Some(WouldOrphanNodes(CountRole(store.machines.value, NodeRole)))
  {
    OrphanCheckRefusesLastMaster(store, k);
  }
}
