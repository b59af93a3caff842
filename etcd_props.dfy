/**
 * What `recoverEtcd` guarantees about the order of its effects and about the
 * etcd member set it leaves in the cluster status, proved about
 * `EtcdCmd.RecoverEtcdSpec` (which the imperative `EtcdCmd.RecoverEtcd` is
 * proved to follow).
 */
module EtcdRecovery {
  import opened Wrappers
  import opened Api
  import opened EtcdMemberSet
  import opened Remote
  import opened EtcdCmd

  // ---------------------------------------------------------------------------
  // Windows of the log.

  /** An event seen in a window of a log is seen in any wider window of a longer log. */
  lemma InWider(a: seq<Event>, b: seq<Event>, lo: int, hi: int, lo2: int, hi2: int, e: Event)
    requires a <= b && 0 <= lo2 <= lo <= hi <= |a| && hi <= hi2 <= |b|
    requires e in a[lo..hi]
    ensures e in b[lo2..hi2]
  {
    var i :| 0 <= i < hi - lo && a[lo..hi][i] == e;
    assert b[lo2..hi2][lo - lo2 + i] == e;
  }

  // ---------------------------------------------------------------------------
  // The commands of a recovery are pairwise different.

  lemma CommandsDiffer(remotePath: string, endpoint: string)
    ensures InitCmd(remotePath) != ResetCmd && InitCmd(remotePath) != InfoCmd
    ensures InitCmd(remotePath) != RestartKubeletCmd && InitCmd(remotePath) != JoinCmd(endpoint)
    ensures JoinCmd(endpoint) != ResetCmd && JoinCmd(endpoint) != InfoCmd
    ensures JoinCmd(endpoint) != RestartKubeletCmd
    ensures ResetCmd != InfoCmd && ResetCmd != RestartKubeletCmd && InfoCmd != RestartKubeletCmd
  {
    OtherCommandsAreNotJoins(remotePath);
    JoinTargetOfJoinCmd(endpoint);
    assert InitCmd(remotePath)[17] == 'i' && ResetCmd[17] == 'r';
    assert |InfoCmd| < |InitCmd(remotePath)|;
    assert RestartKubeletCmd[0] == 's' && InitCmd(remotePath)[0] == '/';
    assert ResetCmd[0] == '/' && InfoCmd[0] == '/';
    assert |InfoCmd| < |ResetCmd|;
  }

  // ---------------------------------------------------------------------------
  // Writing a secret to a machine.

  /**
   * A missing key is reported before anything is done remotely (the
   * certificate's key is looked up first). Otherwise what is logged is a
   * prefix of: both parent directories created, the certificate and the key
   * written to temporary files, the certificate moved, the key moved; the
   * whole of it exactly when no step failed, and otherwise up to and
   * including the first step that failed, whose failure is the error.
   */
  lemma WriteSecretToMachineOrder(env: Env, s: St, client: SSHConfig, secret: Secret,
                                  certKey: string, keyKey: string, certPath: string, keyPath: string)
    requires s.err == None
    ensures var r := WriteSecretToMachineSpec(env, s, client, secret, certKey, keyKey, certPath, keyPath);
      && r.members == s.members
      && (certKey !in secret.data ==> r.log == s.log && r.err == Some(MissingSecretKey(certKey)))
      && (certKey in secret.data && keyKey !in secret.data ==>
            r.log == s.log && r.err == Some(MissingSecretKey(keyKey)))
      && (certKey in secret.data && keyKey in secret.data ==>
            var plan := WriteSecretPlan(client, secret.data[certKey], secret.data[keyKey],
                                        certKey, keyKey, certPath, keyPath);
            && s.log <= r.log && r.log[|s.log|..] <= plan
            && (r.err == None ==> r.log == s.log + plan)
            && (r.err == None <==> forall e :: e in plan ==> e !in env.failing)
            && (r.err != None ==> |s.log| < |r.log| && r.err == Some(CallFailed(r.log[|r.log| - 1]))))
  {
    if certKey in secret.data && keyKey in secret.data {
      var plan := WriteSecretPlan(client, secret.data[certKey], secret.data[keyKey],
                                  certKey, keyKey, certPath, keyPath);
      RunPlanIsPrefix(env, s, plan);
      var r := RunPlan(env, s, plan);
      var k :| 0 <= k <= |plan| && r.log == s.log + plan[..k];
      assert r.log[|s.log|..] == plan[..k];
    }
  }

  // ---------------------------------------------------------------------------
  // What each phase may log, and the event that shows a master went through it.

  predicate InPhase(ph: Phase, e: Event) {
    match ph
    case ConnectPhase => e.Connect?
    case ResetPhase => (e.Remote? && e.op == Run(ResetCmd)) || e.UpdateClusterStatus?
    case WriteCAPhase(_) =>
      && e.Remote?
      && (|| e.op.MkdirAll? || e.op.MoveFile?
          || (e.op.WriteFile? && (e.op.path == TmpPath(CACertKey) || e.op.path == TmpPath(CAKeyKey))))
    case JoinPhase(endpoint) =>
      || (e.Remote? && (e.op == Run(JoinCmd(endpoint)) || e.op == Run(InfoCmd)))
      || e.UpdateMachineStatus? || e.UpdateClusterStatus?
    case RestartPhase => e.Remote? && e.op == Run(RestartKubeletCmd)
  }

  function KeyEvent(ph: Phase, x: MachineWithClient): Event {
    match ph
    case ConnectPhase => Connect(ClientOf(x.machine))
    case ResetPhase => Remote(x.client, Run(ResetCmd))
    case WriteCAPhase(_) => Remote(x.client, MoveFile(TmpPath(CAKeyKey), CAKeyPath))
    case JoinPhase(endpoint) => Remote(x.client, Run(JoinCmd(endpoint)))
    case RestartPhase => Remote(x.client, Run(RestartKubeletCmd))
  }

  /**
   * The events recording a member go through, in order: `etcdadm info`, then
   * (when its output decodes) the machine status update with the member read
   * and the cluster status update with the member set it leads to.
   */
  function RecordPlan(env: Env, s: St, client: SSHConfig, machine: string): seq<Event> {
    if client in env.info then
      [Remote(client, Run(InfoCmd)), UpdateMachineStatus(machine, env.info[client]),
       UpdateClusterStatus(InsertMember(s.members, env.info[client]))]
    else [Remote(client, Run(InfoCmd))]
  }

  /** `etcdadm info`, then the status update, then the cluster update. */
  lemma RecordMemberLog(env: Env, s: St, client: SSHConfig, machine: string)
    requires s.err == None
    ensures var r := RecordMemberSpec(env, s, client, machine);
      && s.log <= r.log
      && (forall i :: |s.log| <= i < |r.log| ==>
            || r.log[i] == Remote(client, Run(InfoCmd))
            || r.log[i].UpdateMachineStatus? || r.log[i].UpdateClusterStatus?)
    ensures var r := RecordMemberSpec(env, s, client, machine);
      && Follows(env, s, r, RecordPlan(env, s, client, machine))
      && |r.log| > |s.log| && r.log[|s.log|] == Remote(client, Run(InfoCmd))
      && (r.err == None ==> client in env.info && |r.log| == |s.log| + 3)
  {
  }

  /** Every event logged from `lo` on belongs to phase `ph`. */
  predicate OnlyPhase(ph: Phase, log: seq<Event>, lo: int) {
    forall i :: 0 <= lo <= i < |log| ==> InPhase(ph, log[i])
  }

  /** Every master's key event of phase `ph` is logged from `lo` on. */
  predicate AllKeys(ph: Phase, xs: seq<MachineWithClient>, log: seq<Event>, lo: int)
    requires 0 <= lo <= |log|
  {
    forall k :: 0 <= k < |xs| ==> KeyEvent(ph, xs[k]) in log[lo..]
  }

  /** The CA write logs remote file operations only, the key move last. */
  lemma WriteCAStepLog(env: Env, secret: Secret, s: St, x: MachineWithClient)
    requires s.err == None
    ensures var r := Step(env, WriteCAPhase(secret), s, x);
      && s.log <= r.log
      && OnlyPhase(WriteCAPhase(secret), r.log, |s.log|)
      && (r.err == None ==> KeyEvent(WriteCAPhase(secret), x) in r.log[|s.log|..])
  {
    var r := Step(env, WriteCAPhase(secret), s, x);
    if CACertKey in secret.data && CAKeyKey in secret.data {
      var plan := WriteSecretPlan(x.client, secret.data[CACertKey], secret.data[CAKeyKey],
                                  CACertKey, CAKeyKey, CACertPath, CAKeyPath);
      RunPlanIsPrefix(env, s, plan);
      var k :| 0 <= k <= |plan| && r.log == s.log + plan[..k];
      forall i | |s.log| <= i < |r.log| ensures InPhase(WriteCAPhase(secret), r.log[i]) {
        assert r.log[i] == plan[i - |s.log|];
      }
      if r.err == None {
        assert r.log[|s.log| + 5] == plan[5] == KeyEvent(WriteCAPhase(secret), x);
        assert r.log[|s.log|..][5] == r.log[|s.log| + 5];
      }
    }
  }

  /** The join command, then the member recorded. */
  lemma JoinStepLog(env: Env, endpoint: string, s: St, x: MachineWithClient)
    requires s.err == None
    ensures var r := Step(env, JoinPhase(endpoint), s, x);
      && s.log <= r.log
      && OnlyPhase(JoinPhase(endpoint), r.log, |s.log|)
      && r.log[|s.log|..][0] == KeyEvent(JoinPhase(endpoint), x)
  {
    var s1 := Effect(env, s, Remote(x.client, Run(JoinCmd(endpoint))));
    if s1.err == None {
      RecordMemberLog(env, s1, x.client, x.machine.name);
    }
  }

  /** One step logs only its phase's events, and its key event when it succeeds. */
  lemma StepLog(env: Env, ph: Phase, s: St, x: MachineWithClient)
    requires s.err == None
    ensures var r := Step(env, ph, s, x);
      && s.log <= r.log
      && OnlyPhase(ph, r.log, |s.log|)
      && (r.err == None ==> KeyEvent(ph, x) in r.log[|s.log|..])
  {
    var r := Step(env, ph, s, x);
    match ph {
      case ConnectPhase =>
      case ResetPhase =>
        assert r.log[|s.log|..][0] == KeyEvent(ph, x);
      case WriteCAPhase(secret) =>
        WriteCAStepLog(env, secret, s, x);
      case JoinPhase(endpoint) =>
        JoinStepLog(env, endpoint, s, x);
      case RestartPhase =>
        assert r.log[|s.log|..][0] == KeyEvent(ph, x);
    }
  }

  /** A whole phase logs only its events, and every master's key event when it succeeds. */
  lemma {:induction false} ForEachLog(env: Env, ph: Phase, s: St, xs: seq<MachineWithClient>)
    requires s.err == None
    ensures var r := ForEach(env, ph, s, xs);
      && s.log <= r.log
      && OnlyPhase(ph, r.log, |s.log|)
      && (r.err == None ==> AllKeys(ph, xs, r.log, |s.log|))
    decreases |xs|
  {
    if xs != [] {
      var init := xs[..|xs| - 1];
      ForEachLog(env, ph, s, init);
      var p := ForEach(env, ph, s, init);
      if p.err == None {
        var r := Step(env, ph, p, xs[|xs| - 1]);
        assert r == ForEach(env, ph, s, xs);
        StepLog(env, ph, p, xs[|xs| - 1]);
        OnlyPhaseGrows(ph, s.log, p.log, r.log);
        if r.err == None {
          AllKeysGrows(ph, xs, s.log, p.log, r.log);
        }
      }
    }
  }

  lemma OnlyPhaseGrows(ph: Phase, a: seq<Event>, b: seq<Event>, c: seq<Event>)
    requires a <= b <= c && OnlyPhase(ph, b, |a|) && OnlyPhase(ph, c, |b|)
    ensures OnlyPhase(ph, c, |a|)
  {
    forall i | |a| <= i < |c| ensures InPhase(ph, c[i]) {
      if i < |b| {
        assert c[i] == b[i];
      }
    }
  }

  lemma AllKeysGrows(ph: Phase, xs: seq<MachineWithClient>, a: seq<Event>, b: seq<Event>, c: seq<Event>)
    requires xs != [] && a <= b <= c
    requires AllKeys(ph, xs[..|xs| - 1], b, |a|) && KeyEvent(ph, xs[|xs| - 1]) in c[|b|..]
    ensures AllKeys(ph, xs, c, |a|)
  {
    forall k | 0 <= k < |xs| ensures KeyEvent(ph, xs[k]) in c[|a|..] {
      if k < |xs| - 1 {
        assert xs[..|xs| - 1][k] == xs[k];
        InWider(b, c, |a|, |b|, |a|, |c|, KeyEvent(ph, xs[k]));
      } else {
        InWider(c, c, |b|, |c|, |a|, |c|, KeyEvent(ph, xs[k]));
      }
    }
  }

  /** The connections a successful first loop opens, one per master in order. */
  function Connects(xs: seq<MachineWithClient>): (r: seq<Event>)
    ensures |r| == |xs|
  {
    seq(|xs|, k requires 0 <= k < |xs| => Connect(ClientOf(xs[k].machine)))
  }

  /** The kubelet restarts of the last loop, one per master in order. */
  function Restarts(xs: seq<MachineWithClient>): (r: seq<Event>)
    ensures |r| == |xs|
  {
    seq(|xs|, k requires 0 <= k < |xs| => Remote(xs[k].client, Run(RestartKubeletCmd)))
  }

  /**
   * The first loop touches no member, and when it succeeds it has opened one
   * client per master, in order, every master having an SSH configuration.
   */
  lemma {:induction false} ConnectPhaseLog(env: Env, s: St, xs: seq<MachineWithClient>)
    requires s.err == None
    ensures var r := ForEach(env, ConnectPhase, s, xs);
      && r.members == s.members
      && (r.err == None ==>
            && r.log == s.log + Connects(xs)
            && forall k :: 0 <= k < |xs| ==> xs[k].machine.providerStatus.sshConfig.Some?)
    decreases |xs|
  {
    if xs != [] {
      var init := xs[..|xs| - 1];
      ConnectPhaseLog(env, s, init);
      var p := ForEach(env, ConnectPhase, s, init);
      if p.err == None {
        assert Connects(xs) == Connects(init) + [Connect(ClientOf(xs[|xs| - 1].machine))];
        assert forall k :: 0 <= k < |init| ==> init[k] == xs[k];
      }
    }
  }

  /** The last loop never fails, touches no member and restarts every kubelet in order. */
  lemma {:induction false} RestartPhaseLog(env: Env, s: St, xs: seq<MachineWithClient>)
    requires s.err == None
    ensures var r := ForEach(env, RestartPhase, s, xs);
      r.err == None && r.members == s.members && r.log == s.log + Restarts(xs)
    decreases |xs|
  {
    if xs != [] {
      var init := xs[..|xs| - 1];
      RestartPhaseLog(env, s, init);
      assert Restarts(xs) == Restarts(init) + [Remote(xs[|xs| - 1].client, Run(RestartKubeletCmd))];
    }
  }

  // ---------------------------------------------------------------------------
  // The bootstrap: seed, joins, restarts.

  predicate IsRun(e: Event, cmd: string) {
    e.Remote? && e.op == Run(cmd)
  }

  /** An `etcdadm join` command, to whatever endpoint. */
  predicate IsJoin(e: Event) {
    e.Remote? && e.op.Run? && JoinTarget(e.op.cmd).Some?
  }

  predicate SeedEvent(remotePath: string, client: SSHConfig, e: Event) {
    || (e.Remote? && e.client == client &&
         (e.op.WriteFile? || e.op == Run(InitCmd(remotePath)) || e.op == Run(InfoCmd)))
    || e.UpdateMachineStatus? || e.UpdateClusterStatus?
  }

  /** The seed runs `etcdadm init` at most once, right after the snapshot is copied to it. */
  lemma SeedLog(env: Env, s: St, localPath: string, remotePath: string, x: MachineWithClient)
    requires s.err == None
    ensures var r := SeedSpec(env, s, localPath, remotePath, x);
      && s.log <= r.log
      && (forall i :: |s.log| <= i < |r.log| ==> SeedEvent(remotePath, x.client, r.log[i]))
      && (forall i :: |s.log| <= i < |r.log| && IsRun(r.log[i], InitCmd(remotePath)) ==>
            && i == |s.log| + 1 && localPath in env.localFiles
            && r.log[|s.log|] == Remote(x.client, WriteFile(remotePath, SnapshotMode, env.localFiles[localPath])))
  {
    CommandsDiffer(remotePath, "");
    if localPath in env.localFiles {
      var s1 := Effect(env, s, Remote(x.client, WriteFile(remotePath, SnapshotMode, env.localFiles[localPath])));
      if s1.err == None {
        var s2 := Effect(env, s1, Remote(x.client, Run(InitCmd(remotePath))));
        if s2.err == None {
          RecordMemberLog(env, s2, x.client, x.machine.name);
        }
      }
    }
  }

  /** The join loop's events first, then the restarts, which only a successful join loop reaches. */
  lemma JoinAllCut(env: Env, s4: St, endpoint: string, xs: seq<MachineWithClient>) returns (m5: int)
    requires s4.err == None && xs != []
    ensures var r := JoinAllSpec(env, s4, endpoint, xs);
      && s4.log <= r.log && |s4.log| <= m5 <= |r.log|
      && (forall i :: |s4.log| <= i < m5 ==> InPhase(JoinPhase(endpoint), r.log[i]))
      && (m5 < |r.log| ==> r.err == None && forall i :: m5 <= i < |r.log| ==> InPhase(RestartPhase, r.log[i]))
  {
    ForEachLog(env, JoinPhase(endpoint), s4, xs[1..]);
    var s5 := ForEach(env, JoinPhase(endpoint), s4, xs[1..]);
    m5 := |s5.log|;
    if s5.err == None {
      RestartPhaseLog(env, s5, xs);
      var r := ForEach(env, RestartPhase, s5, xs);
      assert forall i :: 0 <= i < |s5.log| ==> r.log[i] == s5.log[i];
      assert forall i :: m5 <= i < |r.log| ==> r.log[i] == Restarts(xs)[i - m5];
    }
  }

  /** An event of the join loop or of the restarts. */
  predicate LateEvent(endpoint: string, e: Event) {
    InPhase(JoinPhase(endpoint), e) || InPhase(RestartPhase, e)
  }

  lemma LateEventFacts(endpoint: string, remotePath: string, e: Event)
    requires LateEvent(endpoint, e)
    ensures !e.Connect? && !IsRun(e, ResetCmd) && !IsRun(e, InitCmd(remotePath))
    ensures IsJoin(e) ==> JoinTarget(e.op.cmd) == Some(endpoint)
  {
    if e.Remote? {
      CommandsDiffer(remotePath, endpoint);
      var cmd := e.op.cmd;
      if cmd == JoinCmd(endpoint) {
        JoinTargetOfJoinCmd(endpoint);
      } else {
        OtherCommandsAreNotJoins(remotePath);
        assert cmd == InfoCmd || cmd == RestartKubeletCmd;
      }
    }
  }

  lemma SeedEventFacts(remotePath: string, client: SSHConfig, e: Event)
    requires SeedEvent(remotePath, client, e)
    ensures !e.Connect? && !IsRun(e, ResetCmd) && !IsJoin(e) && !IsRun(e, RestartKubeletCmd)
  {
    CommandsDiffer(remotePath, "");
    OtherCommandsAreNotJoins(remotePath);
  }

  /**
   * Where each event of a bootstrap comes from: the seed's events first, then
   * from `m4` on the join loop's (to `endpoint`) and the restarts, which only
   * a recovery that succeeds reaches.
   */
  lemma BootstrapCut(env: Env, s3: St, localPath: string, remotePath: string, xs: seq<MachineWithClient>)
    returns (m4: int, endpoint: string)
    requires s3.err == None && xs != []
    ensures var r := BootstrapSpec(env, s3, localPath, remotePath, xs);
      && s3.log <= r.log && |s3.log| <= m4 <= |r.log|
      && (forall i :: |s3.log| <= i < m4 ==> SeedEvent(remotePath, xs[0].client, r.log[i]))
      && (forall i :: |s3.log| <= i < m4 && IsRun(r.log[i], InitCmd(remotePath)) ==>
            && i == |s3.log| + 1 && localPath in env.localFiles
            && r.log[|s3.log|] == Remote(xs[0].client, WriteFile(remotePath, SnapshotMode, env.localFiles[localPath])))
      && (m4 < |r.log| ==>
            && xs[0].client in env.info && env.info[xs[0].client].clientURLs != []
            && endpoint == env.info[xs[0].client].clientURLs[0])
      && (forall i :: m4 <= i < |r.log| ==> LateEvent(endpoint, r.log[i]))
      && (forall i :: m4 <= i < |r.log| && InPhase(RestartPhase, r.log[i]) ==> r.err == None)
  {
    SeedLog(env, s3, localPath, remotePath, xs[0]);
    var s4 := SeedSpec(env, s3, localPath, remotePath, xs[0]);
    m4, endpoint := |s4.log|, "";
    if s4.err == None && env.info[xs[0].client].clientURLs != [] {
      endpoint := env.info[xs[0].client].clientURLs[0];
      JoinAllLate(env, s4, endpoint, xs);
      var r := JoinAllSpec(env, s4, endpoint, xs);
      assert forall i :: 0 <= i < |s4.log| ==> r.log[i] == s4.log[i];
    }
  }

  /** After the seed, only late events, and restarts only on the way to success. */
  lemma JoinAllLate(env: Env, s4: St, endpoint: string, xs: seq<MachineWithClient>)
    requires s4.err == None && xs != []
    ensures var r := JoinAllSpec(env, s4, endpoint, xs);
      && s4.log <= r.log
      && (forall i :: |s4.log| <= i < |r.log| ==> LateEvent(endpoint, r.log[i]))
      && (forall i :: |s4.log| <= i < |r.log| && InPhase(RestartPhase, r.log[i]) ==> r.err == None)
  {
    var m5 := JoinAllCut(env, s4, endpoint, xs);
    var r := JoinAllSpec(env, s4, endpoint, xs);
    forall i | |s4.log| <= i < |r.log| && InPhase(RestartPhase, r.log[i]) ensures r.err == None {
      if i < m5 {
        CommandsDiffer("", endpoint);
        assert false;
      }
    }
  }

  /** No bootstrap event opens a client or resets a member. */
  lemma BootstrapLog(env: Env, s3: St, localPath: string, remotePath: string, xs: seq<MachineWithClient>)
    requires s3.err == None && xs != []
    ensures var r := BootstrapSpec(env, s3, localPath, remotePath, xs);
      && s3.log <= r.log
      && forall i :: |s3.log| <= i < |r.log| ==> !r.log[i].Connect? && !IsRun(r.log[i], ResetCmd)
  {
    var r := BootstrapSpec(env, s3, localPath, remotePath, xs);
    var m4, ep := BootstrapCut(env, s3, localPath, remotePath, xs);
    forall i | |s3.log| <= i < |r.log| ensures !r.log[i].Connect? && !IsRun(r.log[i], ResetCmd) {
      if i < m4 {
        SeedEventFacts(remotePath, xs[0].client, r.log[i]);
      } else {
        LateEventFacts(ep, remotePath, r.log[i]);
      }
    }
  }

  /** `etcdadm init` runs only on the seed, once, right after the snapshot is copied. */
  lemma BootstrapInit(env: Env, s3: St, localPath: string, remotePath: string, xs: seq<MachineWithClient>)
    requires s3.err == None && xs != []
    ensures var r := BootstrapSpec(env, s3, localPath, remotePath, xs);
      forall i :: |s3.log| <= i < |r.log| && IsRun(r.log[i], InitCmd(remotePath)) ==>
        && i == |s3.log| + 1 && r.log[i].client == xs[0].client && localPath in env.localFiles
        && r.log[i - 1] == Remote(xs[0].client, WriteFile(remotePath, SnapshotMode, env.localFiles[localPath]))
  {
    var r := BootstrapSpec(env, s3, localPath, remotePath, xs);
    var m4, ep := BootstrapCut(env, s3, localPath, remotePath, xs);
    forall i | m4 <= i < |r.log| ensures !IsRun(r.log[i], InitCmd(remotePath)) {
      LateEventFacts(ep, remotePath, r.log[i]);
    }
  }

  /**
   * Every join command goes to the first client URL of the member the seed
   * reported; a seed without client URLs gets no master joined.
   */
  lemma BootstrapJoins(env: Env, s3: St, localPath: string, remotePath: string, xs: seq<MachineWithClient>)
    requires s3.err == None && xs != []
    ensures var r := BootstrapSpec(env, s3, localPath, remotePath, xs);
      forall i :: |s3.log| <= i < |r.log| && IsJoin(r.log[i]) ==>
        && xs[0].client in env.info && env.info[xs[0].client].clientURLs != []
        && JoinTarget(r.log[i].op.cmd) == Some(env.info[xs[0].client].clientURLs[0])
  {
    var r := BootstrapSpec(env, s3, localPath, remotePath, xs);
    var m4, ep := BootstrapCut(env, s3, localPath, remotePath, xs);
    forall i | |s3.log| <= i < |r.log|
      ensures IsJoin(r.log[i]) ==> m4 <= i && JoinTarget(r.log[i].op.cmd) == Some(ep)
    {
      if i < m4 {
        SeedEventFacts(remotePath, xs[0].client, r.log[i]);
      } else {
        LateEventFacts(ep, remotePath, r.log[i]);
      }
    }
  }

  /** A kubelet restart is logged only by a recovery that has otherwise succeeded. */
  lemma BootstrapRestarts(env: Env, s3: St, localPath: string, remotePath: string, xs: seq<MachineWithClient>)
    requires s3.err == None && xs != []
    ensures var r := BootstrapSpec(env, s3, localPath, remotePath, xs);
      forall i :: |s3.log| <= i < |r.log| && IsRun(r.log[i], RestartKubeletCmd) ==> r.err == None
  {
    var r := BootstrapSpec(env, s3, localPath, remotePath, xs);
    var m4, ep := BootstrapCut(env, s3, localPath, remotePath, xs);
    forall i | |s3.log| <= i < |r.log| && IsRun(r.log[i], RestartKubeletCmd) ensures r.err == None {
      if i < m4 {
        SeedEventFacts(remotePath, xs[0].client, r.log[i]);
      } else {
        CommandsDiffer(remotePath, ep);
      }
    }
  }

  // ---------------------------------------------------------------------------
  // The rebuild: resets, CA, bootstrap.

  /** The CA loop's events, then, once it has written the CA to every master, the bootstrap. */
  lemma RestoreCut(env: Env, s2: St, localPath: string, remotePath: string,
                   caSecret: Secret, xs: seq<MachineWithClient>) returns (s3: St)
    requires s2.err == None && xs != []
    ensures var r := RestoreSpec(env, s2, localPath, remotePath, caSecret, xs);
      && s2.log <= s3.log <= r.log
      && (forall i :: |s2.log| <= i < |s3.log| ==> InPhase(WriteCAPhase(caSecret), r.log[i]))
      && (|s3.log| < |r.log| ==>
            && s3.err == None && r == BootstrapSpec(env, s3, localPath, remotePath, xs)
            && forall k :: 0 <= k < |xs| ==> KeyEvent(WriteCAPhase(caSecret), xs[k]) in r.log[|s2.log|..|s3.log|])
  {
    ForEachLog(env, WriteCAPhase(caSecret), s2, xs);
    s3 := ForEach(env, WriteCAPhase(caSecret), s2, xs);
    if s3.err == None {
      var r := BootstrapSpec(env, s3, localPath, remotePath, xs);
      BootstrapLog(env, s3, localPath, remotePath, xs);
      assert forall i :: 0 <= i < |s3.log| ==> r.log[i] == s3.log[i];
      assert r.log[|s2.log|..|s3.log|] == s3.log[|s2.log|..];
    }
  }

  /**
   * Where each event of a rebuild comes from: the reset loop's up to `m2`,
   * the CA loop's up to `|s3.log|`, the bootstrap's after it, and each loop
   * that is followed by another has done its key step for every master.
   */
  lemma RebuildCut(env: Env, s1: St, localPath: string, remotePath: string,
                   caSecret: Secret, xs: seq<MachineWithClient>) returns (m2: int, s3: St)
    requires s1.err == None && xs != []
    ensures var r := RebuildSpec(env, s1, localPath, remotePath, caSecret, xs);
      && s1.log <= s3.log <= r.log && |s1.log| <= m2 <= |s3.log|
      && (forall i :: |s1.log| <= i < m2 ==> InPhase(ResetPhase, r.log[i]))
      && (forall i :: m2 <= i < |s3.log| ==> InPhase(WriteCAPhase(caSecret), r.log[i]))
      && (m2 < |r.log| ==> forall k :: 0 <= k < |xs| ==> KeyEvent(ResetPhase, xs[k]) in r.log[|s1.log|..m2])
      && (|s3.log| < |r.log| ==>
            && s3.err == None && r == BootstrapSpec(env, s3, localPath, remotePath, xs)
            && forall k :: 0 <= k < |xs| ==> KeyEvent(WriteCAPhase(caSecret), xs[k]) in r.log[|s1.log|..|s3.log|])
  {
    var r := RebuildSpec(env, s1, localPath, remotePath, caSecret, xs);
    ForEachLog(env, ResetPhase, s1, xs);
    var s2 := ForEach(env, ResetPhase, s1, xs);
    m2, s3 := |s2.log|, s2;
    if s2.err == None {
      s3 := RestoreCut(env, s2, localPath, remotePath, caSecret, xs);
      assert r.log[|s1.log|..m2] == s2.log[|s1.log|..];
      if |s3.log| < |r.log| {
        forall k | 0 <= k < |xs|
          ensures KeyEvent(WriteCAPhase(caSecret), xs[k]) in r.log[|s1.log|..|s3.log|]
        {
          InWider(r.log, r.log, |s2.log|, |s3.log|, |s1.log|, |s3.log|, KeyEvent(WriteCAPhase(caSecret), xs[k]));
        }
      }
    }
  }

  // ---------------------------------------------------------------------------
  // The whole recovery.

  /**
   * The connect loop's events come first; if anything else is logged, the
   * loop has opened a client for every master, in order, and the rest is the
   * rebuild.
   */
  lemma RecoverCut(env: Env, s: St, localPath: string, remotePath: string,
                   caSecret: Secret, masters: seq<Machine>) returns (s1: St)
    requires s.err == None
    ensures var r := RecoverEtcdSpec(env, s, localPath, remotePath, caSecret, masters);
      && s.log <= s1.log <= r.log
      && (forall i :: |s.log| <= i < |s1.log| ==> r.log[i].Connect?)
      && (|s1.log| < |r.log| ==>
            && masters != [] && s1.err == None
            && s1.log == s.log + Connects(Paired(masters))
            && (forall k :: 0 <= k < |masters| ==> masters[k].providerStatus.sshConfig.Some?)
            && r == RebuildSpec(env, s1, localPath, remotePath, caSecret, Paired(masters)))
  {
    s1 := s;
    if masters != [] {
      var xs := Paired(masters);
      ForEachLog(env, ConnectPhase, s, xs);
      ConnectPhaseLog(env, s, xs);
      s1 := ForEach(env, ConnectPhase, s, xs);
      if s1.err == None {
        RebuildGrows(env, s1, localPath, remotePath, caSecret, xs);
      }
    }
  }

  /** A rebuild only appends to the log. */
  lemma RebuildGrows(env: Env, s1: St, localPath: string, remotePath: string,
                     caSecret: Secret, xs: seq<MachineWithClient>)
    requires s1.err == None && xs != []
    ensures s1.log <= RebuildSpec(env, s1, localPath, remotePath, caSecret, xs).log
  {
    var m2, s3 := RebuildCut(env, s1, localPath, remotePath, caSecret, xs);
  }

  /**
   * Clients are opened before anything else is done, and nothing else is
   * done unless a client was opened for every master, in order: a master
   * without an SSH configuration or a client that cannot be opened stops
   * the recovery before any master is touched.
   */
  lemma RecoverConnectsFirst(env: Env, s: St, localPath: string, remotePath: string,
                             caSecret: Secret, masters: seq<Machine>)
    requires s.err == None
    ensures var r := RecoverEtcdSpec(env, s, localPath, remotePath, caSecret, masters);
      && s.log <= r.log
      && (forall i, j :: |s.log| <= i < j < |r.log| && r.log[j].Connect? ==> r.log[i].Connect?)
      && (forall j :: |s.log| <= j < |r.log| && !r.log[j].Connect? ==>
            && |s.log| + |masters| <= j
            && forall k :: 0 <= k < |masters| ==>
                 masters[k].providerStatus.sshConfig.Some? && r.log[|s.log| + k] == Connect(ClientOf(masters[k])))
  {
    var r := RecoverEtcdSpec(env, s, localPath, remotePath, caSecret, masters);
    var s1 := RecoverCut(env, s, localPath, remotePath, caSecret, masters);
    if |s1.log| < |r.log| {
      RebuildNoConnect(env, s1, localPath, remotePath, caSecret, Paired(masters));
    }
    ConnectsFirstLog(s.log, s1.log, r.log, masters);
  }

  /**
   * A log whose window from `|a|` is connections up to `|b|` and none after,
   * where anything after means one connection per master, in order.
   */
  lemma ConnectsFirstLog(a: seq<Event>, b: seq<Event>, c: seq<Event>, masters: seq<Machine>)
    requires a <= b <= c
    requires forall i :: |a| <= i < |b| ==> c[i].Connect?
    requires |b| < |c| ==>
      && b == a + Connects(Paired(masters))
      && (forall k :: 0 <= k < |masters| ==> masters[k].providerStatus.sshConfig.Some?)
      && (forall j :: |b| <= j < |c| ==> !c[j].Connect?)
    ensures forall i, j :: |a| <= i < j < |c| && c[j].Connect? ==> c[i].Connect?
    ensures forall j :: |a| <= j < |c| && !c[j].Connect? ==>
      && |a| + |masters| <= j
      && forall k :: 0 <= k < |masters| ==>
           masters[k].providerStatus.sshConfig.Some? && c[|a| + k] == Connect(ClientOf(masters[k]))
  {
    if |b| < |c| {
      var xs := Paired(masters);
      forall k | 0 <= k < |masters| ensures c[|a| + k] == Connect(ClientOf(masters[k])) {
        assert c[|a| + k] == b[|a| + k] == Connects(xs)[k];
      }
    }
    forall i, j | |a| <= i < j < |c| && c[j].Connect? ensures c[i].Connect? {
      assert j < |b|;
    }
  }

  /** A rebuild opens no client. */
  lemma RebuildNoConnect(env: Env, s1: St, localPath: string, remotePath: string,
                         caSecret: Secret, xs: seq<MachineWithClient>)
    requires s1.err == None && xs != []
    ensures var r := RebuildSpec(env, s1, localPath, remotePath, caSecret, xs);
      forall j :: |s1.log| <= j < |r.log| ==> !r.log[j].Connect?
  {
    var r := RebuildSpec(env, s1, localPath, remotePath, caSecret, xs);
    var m2, s3 := RebuildCut(env, s1, localPath, remotePath, caSecret, xs);
    if |s3.log| < |r.log| {
      BootstrapLog(env, s3, localPath, remotePath, xs);
    }
    forall j | |s1.log| <= j < |r.log| ensures !r.log[j].Connect? {
      if j < m2 {
        assert InPhase(ResetPhase, r.log[j]);
      } else if j < |s3.log| {
        assert InPhase(WriteCAPhase(caSecret), r.log[j]);
      }
    }
  }

  /** Every master is reset before any other remote operation of the recovery. */
  lemma RecoverResetsFirst(env: Env, s: St, localPath: string, remotePath: string,
                           caSecret: Secret, masters: seq<Machine>)
    requires s.err == None
    ensures var r := RecoverEtcdSpec(env, s, localPath, remotePath, caSecret, masters);
      forall j :: |s.log| <= j < |r.log| && r.log[j].Remote? && !IsRun(r.log[j], ResetCmd) ==>
        forall k :: 0 <= k < |masters| ==> Remote(ClientOf(masters[k]), Run(ResetCmd)) in r.log[|s.log|..j]
  {
    var r := RecoverEtcdSpec(env, s, localPath, remotePath, caSecret, masters);
    var s1 := RecoverCut(env, s, localPath, remotePath, caSecret, masters);
    if |s1.log| < |r.log| {
      var xs := Paired(masters);
      var m2, s3 := RebuildCut(env, s1, localPath, remotePath, caSecret, xs);
      forall j, k | |s.log| <= j < |r.log| && r.log[j].Remote? && !IsRun(r.log[j], ResetCmd) && 0 <= k < |masters|
        ensures Remote(ClientOf(masters[k]), Run(ResetCmd)) in r.log[|s.log|..j]
      {
        assert m2 <= j;
        InWider(r.log, r.log, |s1.log|, m2, |s.log|, j, KeyEvent(ResetPhase, xs[k]));
      }
    }
  }

  /** A file write to `path` (the snapshot copy, when `path` is the remote snapshot path). */
  predicate IsWriteTo(e: Event, path: string) {
    e.Remote? && e.op.WriteFile? && e.op.path == path
  }

  /**
   * The CA reaches every master (its key, the last file written, is in place)
   * before the snapshot is copied to the seed and before etcd is started
   * anywhere, by `etcdadm init` or `etcdadm join`. The snapshot copy is told
   * apart from the CA's own writes by its path, so the remote snapshot path
   * must not be one of the CA's temporary files.
   */
  lemma RecoverCAFirst(env: Env, s: St, localPath: string, remotePath: string,
                       caSecret: Secret, masters: seq<Machine>)
    requires s.err == None
    ensures var r := RecoverEtcdSpec(env, s, localPath, remotePath, caSecret, masters);
      forall j :: |s.log| <= j < |r.log| &&
                  (|| IsRun(r.log[j], InitCmd(remotePath)) || IsJoin(r.log[j])
                   || (IsWriteTo(r.log[j], remotePath) && remotePath != TmpPath(CACertKey) && remotePath != TmpPath(CAKeyKey))) ==>
        forall k :: 0 <= k < |masters| ==>
          Remote(ClientOf(masters[k]), MoveFile(TmpPath(CAKeyKey), CAKeyPath)) in r.log[|s.log|..j]
  {
    var r := RecoverEtcdSpec(env, s, localPath, remotePath, caSecret, masters);
    var s1 := RecoverCut(env, s, localPath, remotePath, caSecret, masters);
    if |s1.log| < |r.log| {
      var xs := Paired(masters);
      var m2, s3 := RebuildCut(env, s1, localPath, remotePath, caSecret, xs);
      CommandsDiffer(remotePath, "");
      OtherCommandsAreNotJoins(remotePath);
      forall j, k | |s.log| <= j < |r.log| && 0 <= k < |masters| &&
                    (|| IsRun(r.log[j], InitCmd(remotePath)) || IsJoin(r.log[j])
                     || (IsWriteTo(r.log[j], remotePath) && remotePath != TmpPath(CACertKey) && remotePath != TmpPath(CAKeyKey)))
        ensures Remote(ClientOf(masters[k]), MoveFile(TmpPath(CAKeyKey), CAKeyPath)) in r.log[|s.log|..j]
      {
        assert |s3.log| <= j;
        InWider(r.log, r.log, |s1.log|, |s3.log|, |s.log|, j, KeyEvent(WriteCAPhase(caSecret), xs[k]));
      }
    }
  }

  /**
   * `etcdadm init` runs at most once, on the first master only, right after
   * the snapshot file has been copied to it.
   */
  lemma RecoverInitOnSeedOnly(env: Env, s: St, localPath: string, remotePath: string,
                              caSecret: Secret, masters: seq<Machine>)
    requires s.err == None
    ensures var r := RecoverEtcdSpec(env, s, localPath, remotePath, caSecret, masters);
      forall j :: |s.log| <= j < |r.log| && IsRun(r.log[j], InitCmd(remotePath)) ==>
        && masters != [] && r.log[j].client == ClientOf(masters[0])
        && localPath in env.localFiles && j > 0
        && r.log[j - 1] == Remote(ClientOf(masters[0]), WriteFile(remotePath, SnapshotMode, env.localFiles[localPath]))
        && forall j' :: |s.log| <= j' < |r.log| && IsRun(r.log[j'], InitCmd(remotePath)) ==> j' == j
  {
    var r := RecoverEtcdSpec(env, s, localPath, remotePath, caSecret, masters);
    var s1 := RecoverCut(env, s, localPath, remotePath, caSecret, masters);
    if |s1.log| < |r.log| {
      var xs := Paired(masters);
      var m2, s3 := RebuildCut(env, s1, localPath, remotePath, caSecret, xs);
      CommandsDiffer(remotePath, "");
      if |s3.log| < |r.log| {
        BootstrapInit(env, s3, localPath, remotePath, xs);
      }
      forall j | |s1.log| <= j < |s3.log| ensures !IsRun(r.log[j], InitCmd(remotePath)) {
        if j < m2 {
          assert InPhase(ResetPhase, r.log[j]);
        } else {
          assert InPhase(WriteCAPhase(caSecret), r.log[j]);
        }
      }
    }
  }

  /**
   * Every `etcdadm join` targets the first client URL of the member the seed
   * reported; when the seed reports no client URL, no master is joined.
   */
  lemma RecoverJoinsTargetSeed(env: Env, s: St, localPath: string, remotePath: string,
                               caSecret: Secret, masters: seq<Machine>)
    requires s.err == None
    ensures var r := RecoverEtcdSpec(env, s, localPath, remotePath, caSecret, masters);
      forall j :: |s.log| <= j < |r.log| && IsJoin(r.log[j]) ==>
        && masters != [] && ClientOf(masters[0]) in env.info
        && env.info[ClientOf(masters[0])].clientURLs != []
        && JoinTarget(r.log[j].op.cmd) == Some(env.info[ClientOf(masters[0])].clientURLs[0])
  {
    var r := RecoverEtcdSpec(env, s, localPath, remotePath, caSecret, masters);
    var s1 := RecoverCut(env, s, localPath, remotePath, caSecret, masters);
    if |s1.log| < |r.log| {
      var xs := Paired(masters);
      var m2, s3 := RebuildCut(env, s1, localPath, remotePath, caSecret, xs);
      OtherCommandsAreNotJoins(remotePath);
      if |s3.log| < |r.log| {
        BootstrapJoins(env, s3, localPath, remotePath, xs);
      }
      assert forall j :: |s.log| <= j < |r.log| && IsJoin(r.log[j]) ==> |s3.log| <= j;
    }
  }

  /** A kubelet is restarted only by a recovery that otherwise succeeded. */
  lemma RecoverRestartsOnlyOnSuccess(env: Env, s: St, localPath: string, remotePath: string,
                                     caSecret: Secret, masters: seq<Machine>)
    requires s.err == None
    ensures var r := RecoverEtcdSpec(env, s, localPath, remotePath, caSecret, masters);
      forall j :: |s.log| <= j < |r.log| && IsRun(r.log[j], RestartKubeletCmd) ==> r.err == None
  {
    var r := RecoverEtcdSpec(env, s, localPath, remotePath, caSecret, masters);
    var s1 := RecoverCut(env, s, localPath, remotePath, caSecret, masters);
    if |s1.log| < |r.log| {
      var xs := Paired(masters);
      var m2, s3 := RebuildCut(env, s1, localPath, remotePath, caSecret, xs);
      CommandsDiffer(remotePath, "");
      if |s3.log| < |r.log| {
        BootstrapRestarts(env, s3, localPath, remotePath, xs);
      }
    }
  }

  // ---------------------------------------------------------------------------
  // A successful recovery.

  /** The states between the loops of a recovery that succeeded. */
  lemma SuccessPath(env: Env, s: St, localPath: string, remotePath: string,
                    caSecret: Secret, masters: seq<Machine>)
    returns (s1: St, s2: St, s3: St, s4: St, s5: St)
    requires s.err == None && masters != []
    requires RecoverEtcdSpec(env, s, localPath, remotePath, caSecret, masters).err == None
    ensures var xs := Paired(masters);
      && s1 == ForEach(env, ConnectPhase, s, xs) && s1.err == None
      && s2 == ForEach(env, ResetPhase, s1, xs) && s2.err == None
      && s3 == ForEach(env, WriteCAPhase(caSecret), s2, xs) && s3.err == None
      && s4 == SeedSpec(env, s3, localPath, remotePath, xs[0]) && s4.err == None
      && xs[0].client in env.info && env.info[xs[0].client].clientURLs != []
      && s5 == ForEach(env, JoinPhase(env.info[xs[0].client].clientURLs[0]), s4, xs[1..]) && s5.err == None
      && RecoverEtcdSpec(env, s, localPath, remotePath, caSecret, masters) == ForEach(env, RestartPhase, s5, xs)
  {
    var xs := Paired(masters);
    s1 := ForEach(env, ConnectPhase, s, xs);
    s2 := ForEach(env, ResetPhase, s1, xs);
    s3 := ForEach(env, WriteCAPhase(caSecret), s2, xs);
    s4 := SeedSpec(env, s3, localPath, remotePath, xs[0]);
    s5 := ForEach(env, JoinPhase(env.info[xs[0].client].clientURLs[0]), s4, xs[1..]);
  }

  /** The ids of the members the masters' statuses record. */
  function OldIds(xs: seq<MachineWithClient>): set<nat> {
    set x | x in xs && x.machine.providerStatus.etcdMember.Some? :: x.machine.providerStatus.etcdMember.value.id
  }

  /** The ids of the members the masters report after etcd has started on them. */
  function NewIds(env: Env, xs: seq<MachineWithClient>): set<nat> {
    set x | x in xs && x.client in env.info :: env.info[x.client].id
  }

  /** The members the masters report after etcd has started on them. */
  function Reported(env: Env, xs: seq<MachineWithClient>): set<EtcdMember> {
    set x | x in xs && x.client in env.info :: env.info[x.client]
  }

  /** A successful reset loop has removed every master's recorded member. */
  lemma {:induction false} ResetPhaseMembers(env: Env, s: St, xs: seq<MachineWithClient>)
    requires s.err == None
    ensures var r := ForEach(env, ResetPhase, s, xs);
      r.err == None ==>
        && (forall x :: x in xs ==> x.machine.providerStatus.etcdMember.Some?)
        && Ids(r.members) == Ids(s.members) - OldIds(xs)
    decreases |xs|
  {
    if xs != [] {
      var init, last := xs[..|xs| - 1], xs[|xs| - 1];
      ResetPhaseMembers(env, s, init);
      assert forall x :: x in xs <==> x in init || x == last;
    }
  }

  /** What a successful reset loop leaves is entries of the list it started from. */
  lemma ResetPhaseOrigins(env: Env, s: St, xs: seq<MachineWithClient>)
    requires s.err == None
    ensures var r := ForEach(env, ResetPhase, s, xs);
      r.err == None ==> forall y :: y in r.members ==> y in s.members && y.id !in OldIds(xs)
  {
    var r := ForEach(env, ResetPhase, s, xs);
    ResetPhaseMembers(env, s, xs);
    ResetPhaseKeeps(env, s, xs);
    if r.err == None {
      forall y | y in r.members ensures y.id in Ids(r.members) { }
    }
  }

  /** The reset loop only ever drops entries. */
  lemma {:induction false} ResetPhaseKeeps(env: Env, s: St, xs: seq<MachineWithClient>)
    requires s.err == None
    ensures forall y :: y in ForEach(env, ResetPhase, s, xs).members ==> y in s.members
    decreases |xs|
  {
    if xs != [] {
      ResetPhaseKeeps(env, s, xs[..|xs| - 1]);
    }
  }

  /** Writing the CA changes no member. */
  lemma {:induction false} WriteCAPhaseMembers(env: Env, caSecret: Secret, s: St, xs: seq<MachineWithClient>)
    requires s.err == None
    ensures ForEach(env, WriteCAPhase(caSecret), s, xs).members == s.members
    decreases |xs|
  {
    if xs != [] {
      var init, last := xs[..|xs| - 1], xs[|xs| - 1];
      WriteCAPhaseMembers(env, caSecret, s, init);
      var p := ForEach(env, WriteCAPhase(caSecret), s, init);
      if p.err == None && CACertKey in caSecret.data && CAKeyKey in caSecret.data {
        RunPlanIsPrefix(env, p, WriteSecretPlan(last.client, caSecret.data[CACertKey], caSecret.data[CAKeyKey],
                                                CACertKey, CAKeyKey, CACertPath, CAKeyPath));
      }
    }
  }

  /** A successful join loop has added the member every joined master reports. */
  lemma {:induction false} JoinPhaseMembers(env: Env, endpoint: string, s: St, xs: seq<MachineWithClient>)
    requires s.err == None
    ensures var r := ForEach(env, JoinPhase(endpoint), s, xs);
      r.err == None ==>
        && (forall x :: x in xs ==> x.client in env.info)
        && Ids(r.members) == Ids(s.members) + NewIds(env, xs)
        && (Sorted(s.members) ==> Sorted(r.members))
    decreases |xs|
  {
    if xs != [] {
      var init, last := xs[..|xs| - 1], xs[|xs| - 1];
      JoinPhaseMembers(env, endpoint, s, init);
      var p := ForEach(env, JoinPhase(endpoint), s, init);
      if p.err == None {
        JoinStepMembers(env, endpoint, p, last);
        var r := Step(env, JoinPhase(endpoint), p, last);
        if r.err == None {
          assert forall x :: x in xs <==> x in init || x == last;
          NewIdsSnoc(env, init, last);
        }
      }
    }
  }

  /**
   * Every entry a successful join loop leaves is a member a joined master
   * reported, or one of the list it started from under an id no joined
   * master reported.
   */
  lemma {:induction false} JoinPhaseOrigins(env: Env, endpoint: string, s: St, xs: seq<MachineWithClient>)
    requires s.err == None
    ensures var r := ForEach(env, JoinPhase(endpoint), s, xs);
      r.err == None ==>
        forall y :: y in r.members ==> (y in s.members && y.id !in NewIds(env, xs)) || y in Reported(env, xs)
    decreases |xs|
  {
    if xs != [] {
      var init, last := xs[..|xs| - 1], xs[|xs| - 1];
      JoinPhaseOrigins(env, endpoint, s, init);
      var p := ForEach(env, JoinPhase(endpoint), s, init);
      if p.err == None {
        JoinStepOrigins(env, endpoint, p, last);
        var r := Step(env, JoinPhase(endpoint), p, last);
        if r.err == None {
          assert forall x :: x in xs <==> x in init || x == last;
          NewIdsSnoc(env, init, last);
          assert Reported(env, xs) == Reported(env, init) + {env.info[last.client]};
        }
      }
    }
  }

  /** One successful join adds the member the master reports. */
  lemma JoinStepMembers(env: Env, endpoint: string, s: St, x: MachineWithClient)
    requires s.err == None
    ensures var r := Step(env, JoinPhase(endpoint), s, x);
      r.err == None ==>
        && x.client in env.info
        && Ids(r.members) == Ids(s.members) + {env.info[x.client].id}
        && (Sorted(s.members) ==> Sorted(r.members))
  {
  }

  /** One successful join keeps the other entries and adds the member the master reports. */
  lemma JoinStepOrigins(env: Env, endpoint: string, s: St, x: MachineWithClient)
    requires s.err == None
    ensures var r := Step(env, JoinPhase(endpoint), s, x);
      r.err == None ==>
        && x.client in env.info
        && forall y :: y in r.members ==> y == env.info[x.client] || (y in s.members && y.id != env.info[x.client].id)
  {
  }

  lemma NewIdsSnoc(env: Env, init: seq<MachineWithClient>, last: MachineWithClient)
    requires last.client in env.info
    ensures NewIds(env, init + [last]) == NewIds(env, init) + {env.info[last.client].id}
  {
    assert forall x :: x in init + [last] <==> x in init || x == last;
  }

  /** A successful seed has added the member it reports. */
  lemma SeedMembers(env: Env, s: St, localPath: string, remotePath: string, x: MachineWithClient)
    requires s.err == None
    ensures var r := SeedSpec(env, s, localPath, remotePath, x);
      r.err == None ==>
        x.client in env.info && Ids(r.members) == Ids(s.members) + {env.info[x.client].id} && Sorted(r.members)
  {
  }

  /** A successful seed keeps the other entries and adds the member it reports. */
  lemma SeedOrigins(env: Env, s: St, localPath: string, remotePath: string, x: MachineWithClient)
    requires s.err == None
    ensures var r := SeedSpec(env, s, localPath, remotePath, x);
      r.err == None ==>
        && x.client in env.info
        && forall y :: y in r.members ==> y == env.info[x.client] || (y in s.members && y.id != env.info[x.client].id)
  {
  }

  /** The ids of the members the masters' statuses record before the recovery. */
  function OldMemberIds(masters: seq<Machine>): set<nat> {
    set m | m in masters && m.providerStatus.etcdMember.Some? :: m.providerStatus.etcdMember.value.id
  }

  /** The ids of the members the masters report once etcd runs on them again. */
  function NewMemberIds(env: Env, masters: seq<Machine>): set<nat> {
    set m | m in masters && ClientOf(m) in env.info :: env.info[ClientOf(m)].id
  }

  /** The members the masters report once etcd runs on them again. */
  function ReportedMembers(env: Env, masters: seq<Machine>): set<EtcdMember> {
    set m | m in masters && ClientOf(m) in env.info :: env.info[ClientOf(m)]
  }

  lemma PairedIds(env: Env, masters: seq<Machine>)
    ensures OldIds(Paired(masters)) == OldMemberIds(masters)
    ensures NewIds(env, Paired(masters)) == NewMemberIds(env, masters)
    ensures Reported(env, Paired(masters)) == ReportedMembers(env, masters)
  {
    var xs := Paired(masters);
    forall m | m in masters ensures MachineWithClient(m, ClientOf(m)) in xs {
      var k :| 0 <= k < |masters| && masters[k] == m;
      assert xs[k] == MachineWithClient(m, ClientOf(m));
    }
    assert forall x :: x in xs ==> x.machine in masters && x.client == ClientOf(x.machine);
  }

  /**
   * A successful recovery found a member recorded in every master's status
   * and a member reported by every master, and it leaves the cluster status
   * with the members it had, minus the recorded ones, plus the reported ones,
   * at most one per id.
   */
  lemma RecoverMembers(env: Env, s: St, localPath: string, remotePath: string,
                       caSecret: Secret, masters: seq<Machine>)
    requires s.err == None
    ensures var r := RecoverEtcdSpec(env, s, localPath, remotePath, caSecret, masters);
      r.err == None && masters != [] ==>
        && (forall m :: m in masters ==> m.providerStatus.etcdMember.Some? && ClientOf(m) in env.info)
        && Ids(r.members) == (Ids(s.members) - OldMemberIds(masters)) + NewMemberIds(env, masters)
        && Sorted(r.members)
  {
    var r := RecoverEtcdSpec(env, s, localPath, remotePath, caSecret, masters);
    if r.err == None && masters != [] {
      var xs := Paired(masters);
      var s1, s2, s3, s4, s5 := SuccessPath(env, s, localPath, remotePath, caSecret, masters);
      var ep := env.info[xs[0].client].clientURLs[0];
      ResetPhaseMembers(env, s1, xs);
      JoinPhaseMembers(env, ep, s4, xs[1..]);
      assert forall x :: x in xs <==> x == xs[0] || x in xs[1..];
      forall m | m in masters
        ensures m.providerStatus.etcdMember.Some? && ClientOf(m) in env.info
      {
        var k :| 0 <= k < |masters| && masters[k] == m;
        assert xs[k] in xs;
      }
      assert Ids(r.members) == (Ids(s.members) - OldMemberIds(masters)) + NewMemberIds(env, masters)
          && Sorted(r.members) by {
        ConnectPhaseLog(env, s, xs);
        WriteCAPhaseMembers(env, caSecret, s2, xs);
        SeedMembers(env, s3, localPath, remotePath, xs[0]);
        RestartPhaseLog(env, s5, xs);
        assert NewIds(env, xs) == {env.info[xs[0].client].id} + NewIds(env, xs[1..]);
        PairedIds(env, masters);
      }
    }
  }

  /**
   * Where the members a successful recovery leaves come from: each is either
   * reported by a master, or an entry the cluster status listed before under
   * an id no master recorded and no master reports.
   */
  lemma RecoverMemberOrigins(env: Env, s: St, localPath: string, remotePath: string,
                             caSecret: Secret, masters: seq<Machine>)
    requires s.err == None
    ensures var r := RecoverEtcdSpec(env, s, localPath, remotePath, caSecret, masters);
      r.err == None && masters != [] ==>
        forall y :: y in r.members ==>
          || (y in s.members && y.id !in OldMemberIds(masters) && y.id !in NewMemberIds(env, masters))
          || y in ReportedMembers(env, masters)
  {
    var r := RecoverEtcdSpec(env, s, localPath, remotePath, caSecret, masters);
    if r.err == None && masters != [] {
      var xs := Paired(masters);
      var s1, s2, s3, s4, s5 := SuccessPath(env, s, localPath, remotePath, caSecret, masters);
      ConnectPhaseLog(env, s, xs);
      ResetPhaseOrigins(env, s1, xs);
      WriteCAPhaseMembers(env, caSecret, s2, xs);
      SeedOrigins(env, s3, localPath, remotePath, xs[0]);
      var ep := env.info[xs[0].client].clientURLs[0];
      JoinPhaseOrigins(env, ep, s4, xs[1..]);
      RestartPhaseLog(env, s5, xs);
      var m0 := env.info[xs[0].client];
      assert forall x :: x in xs <==> x == xs[0] || x in xs[1..];
      assert NewIds(env, xs) == {m0.id} + NewIds(env, xs[1..]);
      assert Reported(env, xs) == {m0} + Reported(env, xs[1..]);
      PairedIds(env, masters);
      forall y | y in r.members
        ensures || (y in s.members && y.id !in OldIds(xs) && y.id !in NewIds(env, xs))
                || y in Reported(env, xs)
      {
        assert y in s5.members;
        if y !in Reported(env, xs[1..]) {
          assert y in s4.members && y.id !in NewIds(env, xs[1..]);
          if y != m0 {
            assert y in s3.members && y.id != m0.id;
          }
        }
      }
    }
  }

  /**
   * The situation a restore is for: when every member the cluster status
   * lists was recorded by some master, a successful recovery leaves exactly
   * the members the masters report, one per id.
   */
  lemma RecoverReplacesMembers(env: Env, s: St, localPath: string, remotePath: string,
                               caSecret: Secret, masters: seq<Machine>)
    requires s.err == None && Ids(s.members) <= OldMemberIds(masters)
    ensures var r := RecoverEtcdSpec(env, s, localPath, remotePath, caSecret, masters);
      r.err == None && masters != [] ==>
        && Ids(r.members) == NewMemberIds(env, masters) && |r.members| == |NewMemberIds(env, masters)|
        && (forall y :: y in r.members ==> y in ReportedMembers(env, masters))
        && (forall y :: y in r.members ==>
              exists m :: m in masters && ClientOf(m) in env.info && y == env.info[ClientOf(m)])
  {
    var r := RecoverEtcdSpec(env, s, localPath, remotePath, caSecret, masters);
    RecoverMembers(env, s, localPath, remotePath, caSecret, masters);
    RecoverMemberOrigins(env, s, localPath, remotePath, caSecret, masters);
    if r.err == None && masters != [] {
      SortedOnePerId(r.members);
      forall y | y in r.members ensures y in ReportedMembers(env, masters) {
        assert y.id in Ids(s.members) ==> y.id in OldMemberIds(masters);
      }
    }
  }

  /** The join commands of a log, in the order they were issued. */
  function Joins(log: seq<Event>): (r: seq<Event>)
    ensures |r| <= |log|
    decreases |log|
  {
    if log == [] then []
    else Joins(log[..|log| - 1]) + (if IsJoin(log[|log| - 1]) then [log[|log| - 1]] else [])
  }

  lemma {:induction false} JoinsAppend(a: seq<Event>, b: seq<Event>)
    ensures Joins(a + b) == Joins(a) + Joins(b)
    decreases |b|
  {
    if b != [] {
      var init := b[..|b| - 1];
      JoinsAppend(a, init);
      assert (a + b)[..|a + b| - 1] == a + init;
      assert (a + b)[|a + b| - 1] == b[|b| - 1];
      var tail := if IsJoin(b[|b| - 1]) then [b[|b| - 1]] else [];
      assert Joins(a + b) == Joins(a + init) + tail;
      assert Joins(b) == Joins(init) + tail;
    } else {
      assert a + b == a;
    }
  }

  lemma {:induction false} JoinsNone(log: seq<Event>)
    requires forall i :: 0 <= i < |log| ==> !IsJoin(log[i])
    ensures Joins(log) == []
    decreases |log|
  {
    if log != [] {
      JoinsNone(log[..|log| - 1]);
    }
  }

  /** The join commands the join loop issues for `xs`, one per master in order. */
  function JoinCmds(endpoint: string, xs: seq<MachineWithClient>): (r: seq<Event>)
    ensures |r| == |xs|
  {
    seq(|xs|, k requires 0 <= k < |xs| => Remote(xs[k].client, Run(JoinCmd(endpoint))))
  }

  /** The join commands of a log are those of its first part, then those of the rest. */
  lemma JoinsSplit(a: seq<Event>, b: seq<Event>, c: seq<Event>)
    requires a <= b <= c
    ensures Joins(c[|a|..]) == Joins(b[|a|..]) + Joins(c[|b|..])
  {
    assert c[|a|..] == b[|a|..] + c[|b|..];
    JoinsAppend(b[|a|..], c[|b|..]);
  }

  lemma JoinsOne(e: Event)
    requires IsJoin(e)
    ensures Joins([e]) == [e]
  {
    assert [e][..0] == [];
  }

  /** Recording a member issues no join command. */
  lemma RecordMemberNoJoins(env: Env, s: St, client: SSHConfig, machine: string)
    requires s.err == None
    ensures var r := RecordMemberSpec(env, s, client, machine);
      s.log <= r.log && Joins(r.log[|s.log|..]) == []
  {
    var r := RecordMemberSpec(env, s, client, machine);
    RecordMemberLog(env, s, client, machine);
    OtherCommandsAreNotJoins("");
    var d := r.log[|s.log|..];
    assert forall i :: 0 <= i < |d| ==> d[i] == r.log[|s.log| + i];
    JoinsNone(d);
  }

  /** A join step issues exactly one join command. */
  lemma JoinStepJoins(env: Env, endpoint: string, s: St, x: MachineWithClient)
    requires s.err == None
    ensures var r := Step(env, JoinPhase(endpoint), s, x);
      s.log <= r.log && Joins(r.log[|s.log|..]) == [Remote(x.client, Run(JoinCmd(endpoint)))]
  {
    var j := Remote(x.client, Run(JoinCmd(endpoint)));
    var s1 := Effect(env, s, j);
    var r := Step(env, JoinPhase(endpoint), s, x);
    JoinTargetOfJoinCmd(endpoint);
    if s1.err == None {
      RecordMemberNoJoins(env, s1, x.client, x.machine.name);
    }
    JoinThenNone(s.log, s1.log, r.log, j);
  }

  /** One join command followed by none is one join command. */
  lemma JoinThenNone(a: seq<Event>, b: seq<Event>, c: seq<Event>, j: Event)
    requires b == a + [j] && b <= c && IsJoin(j) && Joins(c[|b|..]) == []
    ensures Joins(c[|a|..]) == [j]
  {
    JoinsOne(j);
    assert c[|a|..] == [j] + c[|b|..];
    JoinsAppend([j], c[|b|..]);
  }

  lemma JoinCmdsSnoc(endpoint: string, xs: seq<MachineWithClient>)
    requires xs != []
    ensures JoinCmds(endpoint, xs) ==
      JoinCmds(endpoint, xs[..|xs| - 1]) + [Remote(xs[|xs| - 1].client, Run(JoinCmd(endpoint)))]
  {
  }

  /** A successful join loop issues one join command per master, in order, and no other. */
  lemma {:induction false} JoinPhaseJoins(env: Env, endpoint: string, s: St, xs: seq<MachineWithClient>)
    requires s.err == None
    ensures var r := ForEach(env, JoinPhase(endpoint), s, xs);
      s.log <= r.log && (r.err == None ==> Joins(r.log[|s.log|..]) == JoinCmds(endpoint, xs))
    decreases |xs|
  {
    if xs != [] {
      var init, last := xs[..|xs| - 1], xs[|xs| - 1];
      JoinPhaseJoins(env, endpoint, s, init);
      var p := ForEach(env, JoinPhase(endpoint), s, init);
      var r := ForEach(env, JoinPhase(endpoint), s, xs);
      if p.err == None {
        assert r == Step(env, JoinPhase(endpoint), p, last);
        JoinStepJoins(env, endpoint, p, last);
        if r.err == None {
          JoinsSplit(s.log, p.log, r.log);
          JoinCmdsSnoc(endpoint, xs);
        }
      }
    }
  }

  /** Up to the seed, a successful recovery issues no join command. */
  lemma NoJoinsBeforeJoinLoop(env: Env, s: St, localPath: string, remotePath: string,
                              caSecret: Secret, masters: seq<Machine>) returns (s4: St)
    requires s.err == None && masters != []
    requires RecoverEtcdSpec(env, s, localPath, remotePath, caSecret, masters).err == None
    ensures var xs := Paired(masters);
      && s4 == SeedSpec(env, ForEach(env, WriteCAPhase(caSecret), ForEach(env, ResetPhase,
                 ForEach(env, ConnectPhase, s, xs), xs), xs), localPath, remotePath, xs[0])
      && s.log <= s4.log && Joins(s4.log[|s.log|..]) == []
  {
    var xs := Paired(masters);
    var s1, s2, s3, s5;
    s1, s2, s3, s4, s5 := SuccessPath(env, s, localPath, remotePath, caSecret, masters);
    ForEachLog(env, ConnectPhase, s, xs);
    ForEachLog(env, ResetPhase, s1, xs);
    ForEachLog(env, WriteCAPhase(caSecret), s2, xs);
    SeedLog(env, s3, localPath, remotePath, xs[0]);
    OtherCommandsAreNotJoins(remotePath);
    var d := s4.log[|s.log|..];
    forall i | 0 <= i < |d| ensures !IsJoin(d[i]) {
      var j := |s.log| + i;
      assert d[i] == s4.log[j];
      if j < |s1.log| {
        assert s4.log[j] == s1.log[j] && InPhase(ConnectPhase, s1.log[j]);
      } else if j < |s2.log| {
        assert s4.log[j] == s2.log[j] && InPhase(ResetPhase, s2.log[j]);
      } else if j < |s3.log| {
        assert s4.log[j] == s3.log[j] && InPhase(WriteCAPhase(caSecret), s3.log[j]);
      } else {
        SeedEventFacts(remotePath, xs[0].client, s4.log[j]);
      }
    }
    JoinsNone(d);
  }

  lemma JoinsThree(a: seq<Event>, b: seq<Event>, c: seq<Event>, d: seq<Event>)
    requires a <= b <= c <= d
    requires Joins(b[|a|..]) == [] && Joins(d[|c|..]) == []
    ensures Joins(d[|a|..]) == Joins(c[|b|..])
  {
    JoinsSplit(a, b, c);
    JoinsSplit(a, c, d);
  }

  lemma RestartsNoJoins(env: Env, s: St, xs: seq<MachineWithClient>)
    requires s.err == None
    ensures var r := ForEach(env, RestartPhase, s, xs);
      s.log <= r.log && Joins(r.log[|s.log|..]) == []
  {
    RestartPhaseLog(env, s, xs);
    var r := ForEach(env, RestartPhase, s, xs);
    var rs := Restarts(xs);
    assert r.log[|s.log|..] == rs;
    OtherCommandsAreNotJoins("");
    JoinsNone(rs);
  }

  /** The join commands for every master but the first, in order. */
  function MasterJoins(endpoint: string, masters: seq<Machine>): (r: seq<Event>)
    requires masters != []
    ensures |r| == |masters| - 1
  {
    seq(|masters| - 1, k requires 0 <= k < |masters| - 1 => Remote(ClientOf(masters[k + 1]), Run(JoinCmd(endpoint))))
  }

  lemma JoinCmdsOfMasters(endpoint: string, masters: seq<Machine>)
    requires masters != []
    ensures JoinCmds(endpoint, Paired(masters)[1..]) == MasterJoins(endpoint, masters)
  {
  }

  /**
   * A successful recovery joins every master but the first, in the order of
   * the list, each to the seed's first client URL, and issues no other join.
   */
  lemma RecoverJoinsInOrder(env: Env, s: St, localPath: string, remotePath: string,
                            caSecret: Secret, masters: seq<Machine>)
    requires s.err == None
    ensures var r := RecoverEtcdSpec(env, s, localPath, remotePath, caSecret, masters);
      && s.log <= r.log
      && (r.err == None && masters != [] ==>
            && ClientOf(masters[0]) in env.info && env.info[ClientOf(masters[0])].clientURLs != []
            && Joins(r.log[|s.log|..]) == MasterJoins(env.info[ClientOf(masters[0])].clientURLs[0], masters))
  {
    var r := RecoverEtcdSpec(env, s, localPath, remotePath, caSecret, masters);
    RecoverConnectsFirst(env, s, localPath, remotePath, caSecret, masters);
    if r.err == None && masters != [] {
      var xs := Paired(masters);
      var s1, s2, s3, s4, s5 := SuccessPath(env, s, localPath, remotePath, caSecret, masters);
      var s4' := NoJoinsBeforeJoinLoop(env, s, localPath, remotePath, caSecret, masters);
      var ep := env.info[xs[0].client].clientURLs[0];
      JoinPhaseJoins(env, ep, s4, xs[1..]);
      RestartsNoJoins(env, s5, xs);
      JoinsThree(s.log, s4.log, s5.log, r.log);
      JoinCmdsOfMasters(ep, masters);
    }
  }

  /** The last effects of a successful recovery are the kubelet restarts of every master, in order. */
  lemma RecoverEndsWithRestarts(env: Env, s: St, localPath: string, remotePath: string,
                                caSecret: Secret, masters: seq<Machine>)
    requires s.err == None
    ensures var r := RecoverEtcdSpec(env, s, localPath, remotePath, caSecret, masters);
      r.err == None && masters != [] ==>
        && |s.log| + |masters| <= |r.log|
        && r.log[|r.log| - |masters|..] ==
             seq(|masters|, k requires 0 <= k < |masters| => Remote(ClientOf(masters[k]), Run(RestartKubeletCmd)))
  {
    var r := RecoverEtcdSpec(env, s, localPath, remotePath, caSecret, masters);
    if r.err == None && masters != [] {
      var xs := Paired(masters);
      var s1, s2, s3, s4, s5 := SuccessPath(env, s, localPath, remotePath, caSecret, masters);
      ForEachLog(env, ConnectPhase, s, xs);
      ForEachLog(env, ResetPhase, s1, xs);
      ForEachLog(env, WriteCAPhase(caSecret), s2, xs);
      SeedLog(env, s3, localPath, remotePath, xs[0]);
      ForEachLog(env, JoinPhase(env.info[xs[0].client].clientURLs[0]), s4, xs[1..]);
      RestartPhaseLog(env, s5, xs);
      assert r.log[|r.log| - |masters|..] == Restarts(xs);
    }
  }

  // ---------------------------------------------------------------------------
  // Recording a member: the status update carries what `etcdadm info` just
  // reported, and the cluster insert follows it.

  /**
   * Every machine status update logged from `lo` on records the member that
   * the `etcdadm info` command right before it reported.
   */
  predicate StatusFromInfo(env: Env, log: seq<Event>, lo: int) {
    forall j :: 0 <= lo <= j < |log| && log[j].UpdateMachineStatus? ==>
      && lo < j && log[j - 1].Remote? && log[j - 1].op == Run(InfoCmd)
      && log[j - 1].client in env.info && log[j].member == env.info[log[j - 1].client]
  }

  /** Every machine status update logged from `lo` on is followed by a cluster update containing its member. */
  predicate InsertFollows(log: seq<Event>, lo: int) {
    forall j :: 0 <= lo <= j < |log| && log[j].UpdateMachineStatus? ==>
      j + 1 < |log| && log[j + 1].UpdateClusterStatus? && log[j].member in log[j + 1].members
  }

  lemma RecordMemberRecords(env: Env, s: St, client: SSHConfig, machine: string)
    requires s.err == None
    ensures var r := RecordMemberSpec(env, s, client, machine);
      && s.log <= r.log
      && StatusFromInfo(env, r.log, |s.log|)
      && (r.err == None ==> InsertFollows(r.log, |s.log|))
  {
    var info := Remote(client, Run(InfoCmd));
    var r := RecordMemberSpec(env, s, client, machine);
    RecordMemberLog(env, s, client, machine);
    if client in env.info {
      var member := env.info[client];
      var ms := InsertMember(s.members, member);
      var plan := [info, UpdateMachineStatus(machine, member), UpdateClusterStatus(ms)];
      RecordPlanRecords(env, s.log, r.log, plan, client, machine, ms);
    } else {
      assert r.log == s.log + [info];
    }
  }

  /** The shape of a member record, as a log: `etcdadm info`, the status update, the cluster update. */
  lemma RecordPlanRecords(env: Env, a: seq<Event>, c: seq<Event>, plan: seq<Event>,
                          client: SSHConfig, machine: string, ms: seq<EtcdMember>)
    requires client in env.info && env.info[client] in ms
    requires plan == [Remote(client, Run(InfoCmd)), UpdateMachineStatus(machine, env.info[client]), UpdateClusterStatus(ms)]
    requires a <= c <= a + plan && |c| > |a|
    ensures StatusFromInfo(env, c, |a|)
    ensures |c| == |a| + 3 ==> InsertFollows(c, |a|)
  {
    forall j | |a| <= j < |c| && c[j].UpdateMachineStatus?
      ensures && |a| < j && c[j - 1].Remote? && c[j - 1].op == Run(InfoCmd)
              && c[j - 1].client in env.info && c[j].member == env.info[c[j - 1].client]
    {
      assert c[j] == plan[j - |a|];
      assert j == |a| + 1;
      assert c[j - 1] == plan[0];
    }
    if |c| == |a| + 3 {
      forall j | |a| <= j < |c| && c[j].UpdateMachineStatus?
        ensures j + 1 < |c| && c[j + 1].UpdateClusterStatus? && c[j].member in c[j + 1].members
      {
        assert c[j] == plan[j - |a|];
        assert j == |a| + 1;
        assert c[j + 1] == plan[2];
      }
    }
  }

  lemma JoinStepRecords(env: Env, endpoint: string, s: St, x: MachineWithClient)
    requires s.err == None
    ensures var r := Step(env, JoinPhase(endpoint), s, x);
      && s.log <= r.log
      && StatusFromInfo(env, r.log, |s.log|)
      && (r.err == None ==> InsertFollows(r.log, |s.log|))
  {
    var s1 := Effect(env, s, Remote(x.client, Run(JoinCmd(endpoint))));
    if s1.err == None {
      RecordMemberRecords(env, s1, x.client, x.machine.name);
      CommandsDiffer("", endpoint);
    }
  }

  lemma {:induction false} JoinPhaseRecords(env: Env, endpoint: string, s: St, xs: seq<MachineWithClient>)
    requires s.err == None
    ensures var r := ForEach(env, JoinPhase(endpoint), s, xs);
      && s.log <= r.log
      && StatusFromInfo(env, r.log, |s.log|)
      && (r.err == None ==> InsertFollows(r.log, |s.log|))
    decreases |xs|
  {
    if xs != [] {
      var init, last := xs[..|xs| - 1], xs[|xs| - 1];
      JoinPhaseRecords(env, endpoint, s, init);
      var p := ForEach(env, JoinPhase(endpoint), s, init);
      if p.err == None {
        var r := Step(env, JoinPhase(endpoint), p, last);
        JoinStepRecords(env, endpoint, p, last);
        assert forall j :: 0 <= j < |p.log| ==> r.log[j] == p.log[j];
      }
    }
  }

  lemma SeedRecords(env: Env, s: St, localPath: string, remotePath: string, x: MachineWithClient)
    requires s.err == None
    ensures var r := SeedSpec(env, s, localPath, remotePath, x);
      && s.log <= r.log
      && StatusFromInfo(env, r.log, |s.log|)
      && (r.err == None ==> InsertFollows(r.log, |s.log|))
  {
    if localPath in env.localFiles {
      var s1 := Effect(env, s, Remote(x.client, WriteFile(remotePath, SnapshotMode, env.localFiles[localPath])));
      if s1.err == None {
        var s2 := Effect(env, s1, Remote(x.client, Run(InitCmd(remotePath))));
        if s2.err == None {
          RecordMemberRecords(env, s2, x.client, x.machine.name);
        }
      }
    }
  }

  lemma StatusFromInfoGrows(env: Env, a: seq<Event>, b: seq<Event>, lo: int)
    requires a <= b && 0 <= lo <= |a|
    requires StatusFromInfo(env, a, lo) && StatusFromInfo(env, b, |a|)
    ensures StatusFromInfo(env, b, lo)
  {
    assert forall j :: 0 <= j < |a| ==> b[j] == a[j];
  }

  lemma InsertFollowsGrows(a: seq<Event>, b: seq<Event>, lo: int)
    requires a <= b && 0 <= lo <= |a|
    requires InsertFollows(a, lo) && InsertFollows(b, |a|)
    ensures InsertFollows(b, lo)
  {
    assert forall j :: 0 <= j < |a| ==> b[j] == a[j];
  }

  lemma BootstrapRecords(env: Env, s3: St, localPath: string, remotePath: string, xs: seq<MachineWithClient>)
    requires s3.err == None && xs != []
    ensures var r := BootstrapSpec(env, s3, localPath, remotePath, xs);
      && s3.log <= r.log
      && StatusFromInfo(env, r.log, |s3.log|)
      && (r.err == None ==> InsertFollows(r.log, |s3.log|))
  {
    SeedRecords(env, s3, localPath, remotePath, xs[0]);
    var s4 := SeedSpec(env, s3, localPath, remotePath, xs[0]);
    if s4.err == None && env.info[xs[0].client].clientURLs != [] {
      var ep := env.info[xs[0].client].clientURLs[0];
      JoinPhaseRecords(env, ep, s4, xs[1..]);
      var s5 := ForEach(env, JoinPhase(ep), s4, xs[1..]);
      StatusFromInfoGrows(env, s4.log, s5.log, |s3.log|);
      if s5.err == None {
        InsertFollowsGrows(s4.log, s5.log, |s3.log|);
        RestartPhaseLog(env, s5, xs);
        var r := ForEach(env, RestartPhase, s5, xs);
        assert forall j :: |s5.log| <= j < |r.log| ==> r.log[j] == Restarts(xs)[j - |s5.log|];
        StatusFromInfoGrows(env, s5.log, r.log, |s3.log|);
        InsertFollowsGrows(s5.log, r.log, |s3.log|);
      }
    }
  }

  /**
   * Whenever a recovery records a member in a machine's status, the member is
   * the one `etcdadm info` reported on that machine's client just before;
   * when the recovery succeeds, each such update is directly followed by a
   * cluster status update that contains the member.
   */
  lemma RecoverRecordsReportedMembers(env: Env, s: St, localPath: string, remotePath: string,
                                      caSecret: Secret, masters: seq<Machine>)
    requires s.err == None
    ensures var r := RecoverEtcdSpec(env, s, localPath, remotePath, caSecret, masters);
      && StatusFromInfo(env, r.log, |s.log|)
      && (r.err == None ==> InsertFollows(r.log, |s.log|))
  {
    var r := RecoverEtcdSpec(env, s, localPath, remotePath, caSecret, masters);
    var s1 := RecoverCut(env, s, localPath, remotePath, caSecret, masters);
    if |s1.log| < |r.log| {
      var xs := Paired(masters);
      var m2, s3 := RebuildCut(env, s1, localPath, remotePath, caSecret, xs);
      assert forall j :: |s.log| <= j < |s3.log| ==> !r.log[j].UpdateMachineStatus?;
      if |s3.log| < |r.log| {
        BootstrapRecords(env, s3, localPath, remotePath, xs);
      }
    }
  }
}
