/**
 * The effects the commands have outside the process, as an ordered log.
 *
 * Every call to the object store that writes, every SSH session opened and
 * every remote command, file write, directory creation and move is an `Event`
 * appended to the log when it is attempted. Whether it succeeds, and what it
 * prints, is decided by the environment `Env`, given as an input: a call fails
 * exactly when its event is in `env.failing`. Reads from the store are not
 * events; the objects they return are inputs of the operations.
 */
module Remote {
  import opened Wrappers
  import opened Api

  datatype Kind = ClusterKind | MachineKind | ProvisionedMachineKind | SecretKind

  /** One operation through an SSH machine client. */
  datatype Op =
    | Run(cmd: string)
    | ReadFile(path: string)
    | WriteFile(path: string, mode: int, data: Bytes)
    | MkdirAll(path: string, mode: int)
    | MoveFile(src: string, dst: string)

  datatype Event =
    | Connect(client: SSHConfig)                 // credential lookup and SSH client creation
    | Remote(client: SSHConfig, op: Op)
    | CreateObject(kind: Kind, name: string)
    | DeleteObject(kind: Kind, name: string)
    | UpdateMachineStatus(machine: string, member: EtcdMember)
    | UpdateClusterStatus(members: seq<EtcdMember>)
    | ActuatorCreate(machine: string)
    | ActuatorDelete(machine: string)
    | CreateBootstrapTokenSecret(token: string, caHash: string)
    | UpdateBootstrapTokenSecret(token: string, caHash: string)
    | PullFromAPIs

  /** The error taxonomy; each fatal log line of the commands maps to one of these. */
  datatype Error =
    | InvalidRole(role: string)
    | InvalidPort
    | NoCluster
    | NoSSHCredential
    | NotFound(kind: Kind, name: string)
    | ReadFailed(kind: Kind)
    | CallFailed(call: Event)
    | UnparseableOutput(stdout: string)
    | WouldOrphanNodes(nodes: nat)
    | NoMasterMachine
    | MissingSecretKey(key: string)
    | NilSSHConfig(machine: string)
    | NilEtcdMember(machine: string)
    | UndecodableMember(machine: string)
    | LocalReadFailed(path: string)
    | NoClientURLs(machine: string)

  /**
   * The outside world as far as one run can observe it: which calls fail, the
   * standard output of the commands that succeed, the contents remote reads
   * return, what `etcdadm info` decodes to on each machine, the local files,
   * and the etcd member an actuator call leaves in the machine's status.
   */
  datatype Env = Env(
    failing: set<Event>,
    stdout: map<Event, string>,
    fileContents: map<Event, Bytes>,
    info: map<SSHConfig, EtcdMember>,
    localFiles: map<string, Bytes>,
    memberAfter: map<Event, Option<EtcdMember>>)

  function StdoutOf(env: Env, e: Event): string {
    if e in env.stdout then env.stdout[e] else ""
  }

  function ReadOf(env: Env, e: Event): Bytes {
    if e in env.fileContents then env.fileContents[e] else []
  }

  /**
   * The state a run threads through its steps: the effect log, the in-memory
   * etcd member list of the cluster status, and the error that ended the run.
   */
  datatype St = St(log: seq<Event>, members: seq<EtcdMember>, err: Option<Error>)

  /** Attempts `e`; a failure ends the run with `CallFailed(e)`. */
  function Effect(env: Env, s: St, e: Event): (r: St)
    ensures r.log == s.log + [e] && r.members == s.members
    ensures r.err == if e in env.failing then Some(CallFailed(e)) else s.err
  {
    if e in env.failing then St(s.log + [e], s.members, Some(CallFailed(e)))
    else s.(log := s.log + [e])
  }

  /** Attempts `e` and ignores its outcome (a failure is only logged). */
  function Attempt(s: St, e: Event): St {
    s.(log := s.log + [e])
  }

  function Fail(s: St, err: Error): St {
    s.(err := Some(err))
  }

  /** Attempts the events in order and stops at the first that fails. */
  function RunPlan(env: Env, s: St, plan: seq<Event>): (r: St)
    requires s.err == None
    decreases |plan|
  {
    if plan == [] then s
    else
      var s1 := Effect(env, s, plan[0]);
      if s1.err.Some? then s1 else RunPlan(env, s1, plan[1..])
  }

  /**
   * A plan is a saga without compensation: what it leaves in the log is a
   * prefix of the plan; the whole plan exactly when no step failed, and
   * otherwise a prefix whose last event is the first failing one.
   */
  lemma {:induction false} RunPlanIsPrefix(env: Env, s: St, plan: seq<Event>)
    requires s.err == None
    ensures var r := RunPlan(env, s, plan);
      && r.members == s.members
      && (exists k :: 0 <= k <= |plan| && r.log == s.log + plan[..k])
      && (r.err == None <==> forall e :: e in plan ==> e !in env.failing)
      && (r.err == None ==> r.log == s.log + plan)
      && (r.err != None ==>
            && |r.log| > |s.log|
            && r.err == Some(CallFailed(r.log[|r.log| - 1]))
            && r.log[|r.log| - 1] in env.failing
            && (forall i :: |s.log| <= i < |r.log| - 1 ==> r.log[i] !in env.failing))
    decreases |plan|
  {
    var r := RunPlan(env, s, plan);
    if plan == [] {
      assert r.log == s.log + plan[..0];
    } else {
      var s1 := Effect(env, s, plan[0]);
      if s1.err.Some? {
        assert r.log == s.log + plan[..1];
      } else {
        RunPlanIsPrefix(env, s1, plan[1..]);
        var k :| 0 <= k <= |plan[1..]| && r.log == s1.log + plan[1..][..k];
        assert plan[..k + 1] == [plan[0]] + plan[1..][..k];
        assert r.log == s.log + plan[..k + 1];
        assert forall e :: e in plan <==> e == plan[0] || e in plan[1..];
        assert plan == [plan[0]] + plan[1..];
      }
    }
  }

  /**
   * `r` continues `s` with the first events of `plan` and stops there: it
   * logged a prefix of the plan, the whole plan when it succeeded, and no
   * event but the last one it logged failed, so a failing event ends the run.
   */
  predicate Follows(env: Env, s: St, r: St, plan: seq<Event>) {
    && s.log <= r.log && r.log <= s.log + plan
    && (r.err == None ==> r.log == s.log + plan)
    && (forall i :: |s.log| <= i < |r.log| - 1 ==> r.log[i] !in env.failing)
    && (r.err == None ==> forall i :: |s.log| <= i < |r.log| ==> r.log[i] !in env.failing)
  }

  /** A run that follows `p` and then, if it got that far, `q`, follows `p + q`. */
  lemma FollowsThen(env: Env, s: St, r1: St, r2: St, p: seq<Event>, q: seq<Event>)
    requires Follows(env, s, r1, p)
    requires r1.err.Some? ==> r2 == r1
    requires r1.err == None ==> Follows(env, r1, r2, q)
    ensures Follows(env, s, r2, p + q)
  {
    assert s.log + (p + q) == (s.log + p) + q;
    assert (s.log + p + q)[..|s.log + p|] == s.log + p;
  }

  /** A run that stops before doing anything follows every plan. */
  lemma FollowsStop(env: Env, s: St, r: St, plan: seq<Event>)
    requires r.log == s.log && r.err.Some?
    ensures Follows(env, s, r, plan)
  {
    assert (s.log + plan)[..|s.log|] == s.log;
  }

  lemma FollowsNothing(env: Env, s: St)
    ensures Follows(env, s, s, [])
  {
    assert s.log + [] == s.log;
  }

  lemma FollowsEffect(env: Env, s: St, e: Event)
    ensures Follows(env, s, Effect(env, s, e), [e])
  {
  }

  /**
   * The explicit context of one command run: the environment it talks to, the
   * log of what it has done so far and the cluster status it holds in memory.
   */
  class Context {
    const env: Env
    var log: seq<Event>
    var members: seq<EtcdMember>

    constructor (env: Env, members: seq<EtcdMember>)
      ensures this.env == env && log == [] && this.members == members
    {
      this.env := env;
      log := [];
      this.members := members;
    }

    /** The run's state with `err` as its outcome. */
    function Now(err: Option<Error>): St
      reads this
    {
      St(log, members, err)
    }

    method Issue(e: Event) returns (err: Option<Error>)
      modifies this
      ensures Now(err) == Effect(env, old(Now(None)), e)
    {
      log := log + [e];
      err := if e in env.failing then Some(CallFailed(e)) else None;
    }

    method Try(e: Event)
      modifies this
      ensures Now(None) == Attempt(old(Now(None)), e)
    {
      log := log + [e];
    }

    /** `client.RunCommand(cmd)`: its standard output and whether it failed. */
    method RunCommand(client: SSHConfig, cmd: string) returns (stdout: string, err: Option<Error>)
      modifies this
      ensures Now(err) == Effect(env, old(Now(None)), Remote(client, Run(cmd)))
      ensures stdout == StdoutOf(env, Remote(client, Run(cmd)))
    {
      var e := Remote(client, Run(cmd));
      log := log + [e];
      err := if e in env.failing then Some(CallFailed(e)) else None;
      stdout := StdoutOf(env, e);
    }

    method SetMembers(ms: seq<EtcdMember>)
      modifies this
      ensures log == old(log) && members == ms
    {
      members := ms;
    }
  }

  /**
   * `sshMachineClientFromSSHConfig`: looks up the credential and opens a
   * client for the configuration. A nil configuration is dereferenced in the
   * source, which ends the process; here it ends the run with `NilSSHConfig`.
   */
  function NewMachineClient(env: Env, s: St, config: Option<SSHConfig>, machine: string): (r: St)
    ensures r.members == s.members
    ensures config.None? ==> r == Fail(s, NilSSHConfig(machine))
    ensures config.Some? ==> r == Effect(env, s, Connect(config.value))
  {
    match config
    case None => Fail(s, NilSSHConfig(machine))
    case Some(c) => Effect(env, s, Connect(c))
  }

  method SshMachineClientFromSSHConfig(ctx: Context, config: Option<SSHConfig>, machine: string)
    returns (client: SSHConfig, err: Option<Error>)
    modifies ctx
    ensures ctx.Now(err) == NewMachineClient(ctx.env, old(ctx.Now(None)), config, machine)
    ensures err == None ==> config == Some(client)
  {
    if config.None? {
      client := SSHConfig("", 0, [], "");
      err := Some(NilSSHConfig(machine));
      return;
    }
    client := config.value;
    err := ctx.Issue(Connect(client));
  }
}
