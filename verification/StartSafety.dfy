/** Connecting is crash-safe: the start program keeps the write-ahead discipline throughout. */
module StartSafety {
  import opened Addresses
  import opened Snapshots
  import opened Hosts
  import opened Panic
  import opened Config
  import opened Routing
  import opened Discipline
  import opened Recovery
  import opened StartProgram

  /** The scope of a session with these settings on this host. */
  function ScopeOf(hash: string -> string, c: Settings, base: Host, server: IPv4): Scope {
    Scope(hash, Marks(c), BackupPath(c), ManagedContent(c), base, server)
  }

  /** Which ops may be logged: rule additions only inside the window. */
  predicate LoggableOp(c: Scope, op: Op) {
    op.OpRuleAdd? ==> InWindow(c.marks.rulePriority, op.priority)
  }

  lemma AppendDescribes(c: Scope, s: Snapshot, op: Op, done: bool, backups: map<string, string>)
    requires BaselineOk(c) && Describes(c, s, backups) && LoggableOp(c, op)
    ensures Describes(c, AppendAction(s, op, done), backups)
    ensures Describes(c, Confirmed(s, op), backups)
    ensures forall p :: p in Swept(s) ==> p in Swept(AppendAction(s, op, done))
    ensures Swept(Confirmed(s, op)) == Swept(AppendAction(s, op, done)) == Swept(AppendAction(s, op, false))
    ensures op.OpRuleAdd? && op.priority >= 1000 ==> op.priority in Swept(AppendAction(s, op, done))
  {
    SweptAppend(s, op, done);
    SweptAppend(s, op, false);
    SweptMarkLastDone(AppendAction(s, op, false));
  }

  /** Log, act, confirm is disciplined if the action is permitted once it is logged. */
  lemma LoggedDisciplined(c: Scope, w: World, s: Snapshot, op: Op, cmd: Cmd)
    requires BaselineOk(c) && Safe(c, w) && w.snapshot == Stored(s) && LoggableOp(c, op)
    requires !cmd.Persist? && !cmd.RemoveSnapshot? && !cmd.TruncateBackup? && !cmd.WriteBackup?
    requires Permitted(c, w.(snapshot := Stored(AppendAction(s, op, false))), cmd)
    ensures Disciplined(c, w, Logged(s, op, cmd))
    ensures Exec(w, Logged(s, op, cmd)) == Apply(w, cmd).(snapshot := Stored(Confirmed(s, op)))
    ensures Safe(c, Exec(w, Logged(s, op, cmd)))
  {
    var a, b := Persist(AppendAction(s, op, false)), Persist(Confirmed(s, op));
    AppendDescribes(c, s, op, false, w.backups);
    var w1 := Apply(w, a);
    var w2 := Apply(w1, cmd);
    DisciplinedOne(c, w2, b);
    var cs := Logged(s, op, cmd);
    assert cs[1..][1..] == [b];
    assert cs[1..][0] == cmd;
    assert Disciplined(c, w1, cs[1..]);
    ExecLogged(w, s, op, cmd);
    SafeAfter(c, w, cs);
  }

  /** The first i rules are in place, and nothing of ours is at the other priorities. */
  predicate InstalledSoFar(c: Scope, rs: seq<Rule>, i: nat)
    requires i <= BYPASS_COUNT + 1
  {
    && (forall j :: 0 <= j < i ==> Installed(c.marks, c.server)[j] in rs)
    && (forall j :: i <= j <= BYPASS_COUNT ==> CountAt(rs, Installed(c.marks, c.server)[j].priority) == 0)
  }

  lemma OneMoreInstalled(c: Scope, rs: seq<Rule>, i: nat)
    requires i <= BYPASS_COUNT && Sorted(rs) && InstalledSoFar(c, rs, i)
    ensures InstalledSoFar(c, InsertRule(rs, Installed(c.marks, c.server)[i]), i + 1)
  {
    var ours := Installed(c.marks, c.server);
    PriorityWindow(c.marks, c.server);
    InsertKeepsSorted(rs, ours[i]);
    forall j | i + 1 <= j <= BYPASS_COUNT
      ensures CountAt(InsertRule(rs, ours[i]), ours[j].priority) == 0
    {
      InsertCounts(rs, ours[i], ours[j].priority);
    }
  }

  lemma AllOthersInstalled(c: Scope, rs: seq<Rule>, i: nat)
    requires i <= BYPASS_COUNT && InstalledSoFar(c, rs, i)
    requires Installed(c.marks, c.server)[i].priority == c.marks.rulePriority
    ensures forall q :: q in Installed(c.marks, c.server) ==> q in rs || q == Installed(c.marks, c.server)[i]
  {
    var ours := Installed(c.marks, c.server);
    PriorityWindow(c.marks, c.server);
    assert ours[BYPASS_COUNT] == Catchall(c.marks);
    forall q | q in ours
      ensures q in rs || q == ours[i]
    {
      var j :| 0 <= j <= BYPASS_COUNT && ours[j] == q;
    }
  }

  /** Rule i may be added once it is logged; the catchall because all others are in place. */
  lemma InstallOneDisciplined(c: Scope, w: World, s: Snapshot, i: nat)
    requires BaselineOk(c) && Revertible(c.marks) && Safe(c, w) && w.snapshot == Stored(s)
    requires i <= BYPASS_COUNT && InstalledSoFar(c, w.host.rules, i)
    ensures var r := Installed(c.marks, c.server)[i];
            && Disciplined(c, w, Logged(s, RuleOp(r), AddRule(r)))
            && var v := Exec(w, Logged(s, RuleOp(r), AddRule(r)));
               v.snapshot == Stored(Confirmed(s, RuleOp(r))) && Safe(c, v) && InstalledSoFar(c, v.host.rules, i + 1)
  {
    var ours := Installed(c.marks, c.server);
    var r := ours[i];
    PriorityWindow(c.marks, c.server);
    assert r in ours;
    AppendDescribes(c, s, RuleOp(r), false, w.backups);
    if r.priority == c.marks.rulePriority {
      AllOthersInstalled(c, w.host.rules, i);
    }
    LoggedDisciplined(c, w, s, RuleOp(r), AddRule(r));
    OneMoreInstalled(c, w.host.rules, i);
  }

  /** Installing rules i.. when the first i are in place and nothing of ours is above them. */
  lemma {:induction false} InstallRulesDisciplined(c: Scope, w: World, s: Snapshot, i: nat)
    requires BaselineOk(c) && Revertible(c.marks) && Safe(c, w) && w.snapshot == Stored(s)
    requires i <= BYPASS_COUNT + 1 && InstalledSoFar(c, w.host.rules, i)
    ensures Disciplined(c, w, InstallRules(s, Installed(c.marks, c.server)[i..]))
    decreases BYPASS_COUNT + 1 - i
  {
    var rs := Installed(c.marks, c.server)[i..];
    if i <= BYPASS_COUNT {
      var r, rest := rs[0], rs[1..];
      assert rest == Installed(c.marks, c.server)[i + 1..];
      InstallOneDisciplined(c, w, s, i);
      var first := Logged(s, RuleOp(r), AddRule(r));
      var v, t := Exec(w, first), Confirmed(s, RuleOp(r));
      InstallRulesDisciplined(c, v, t, i + 1);
      DisciplinedAppend(c, w, first, InstallRules(t, rest));
      assert InstallRules(s, rs) == first + InstallRules(t, rest);
    } else {
      assert rs == [];
    }
  }

  lemma InstallRoutingDisciplined(k: Scope, c: Settings, w: World, s: Snapshot)
    requires BaselineOk(k) && Revertible(k.marks) && Safe(k, w) && w.snapshot == Stored(s)
    requires k.marks == Marks(c) && c.tunName in w.host.links && w.host.rules == k.base.rules
    ensures Disciplined(k, w, InstallRouting(c, k.server, s))
  {
    var op1, op2 := RouteOp(GatewayRoute(c)), RouteOp(DefaultRoute(c));
    var s1 := Confirmed(s, op1);
    var s2 := Confirmed(s1, op2);
    var a, b := Logged(s, op1, AddRoute(GatewayRoute(c))), Logged(s1, op2, AddRoute(DefaultRoute(c)));
    var d := InstallRules(s2, Installed(k.marks, k.server));
    LoggedDisciplined(k, w, s, op1, AddRoute(GatewayRoute(c)));
    var w1 := Exec(w, a);
    LoggedDisciplined(k, w1, s1, op2, AddRoute(DefaultRoute(c)));
    var w2 := Exec(w1, b);
    var ours := Installed(k.marks, k.server);
    forall j | 0 <= j <= BYPASS_COUNT
      ensures CountAt(w2.host.rules, ours[j].priority) == 0
    {
      PriorityWindow(k.marks, k.server);
      CountZero(w2.host.rules, ours[j].priority);
    }
    InstallRulesDisciplined(k, w2, s2, 0);
    assert ours[0..] == ours;
    DisciplinedAppend(k, w1, b, d);
    DisciplinedAppend(k, w, a, b + d);
  }

  lemma TakeOverDisciplined(k: Scope, c: Settings, w: World, s: Snapshot)
    requires BaselineOk(k) && Safe(k, w) && w.snapshot == Stored(s) && k.managed == ManagedContent(c)
    ensures Disciplined(k, w, TakeOverResolv(k.hash, c, w.host.resolv, s))
  {
    var op, cmd := ResolvOp(k.hash, c), RenameToResolv(ManagedContent(c));
    if w.host.resolv.Symlink? {
      DisciplinedOne(k, w, UnlinkResolv);
      PermittedKeepsSafe(k, w, UnlinkResolv);
      ExecOne(w, UnlinkResolv);
      LoggedDisciplined(k, Apply(w, UnlinkResolv), s, op, cmd);
      DisciplinedAppend(k, w, [UnlinkResolv], Logged(s, op, cmd));
    } else {
      assert TakeOverResolv(k.hash, c, w.host.resolv, s) == Logged(s, op, cmd);
      LoggedDisciplined(k, w, s, op, cmd);
    }
  }

  /** Act, then log: allowed for what the marks and the pre-state already cover. */
  lemma ActThenLogDisciplined(k: Scope, w: World, s: Snapshot, op: Op, cmd: Cmd)
    requires BaselineOk(k) && Safe(k, w) && w.snapshot == Stored(s) && !op.OpRuleAdd?
    requires cmd.WriteSysctl? || cmd.CreateTun?
    requires Permitted(k, w, cmd)
    ensures var cs := [cmd, Persist(AppendAction(s, op, true))];
            && Disciplined(k, w, cs)
            && Exec(w, cs) == Apply(w, cmd).(snapshot := Stored(AppendAction(s, op, true)))
            && Safe(k, Exec(w, cs))
  {
    var cs := [cmd, Persist(AppendAction(s, op, true))];
    AppendDescribes(k, s, op, true, w.backups);
    assert cs[1..] == [cs[1]];
    DisciplinedOne(k, Apply(w, cmd), cs[1]);
    ExecTwo(w, cs[0], cs[1]);
    SafeAfter(k, w, cs);
  }

  lemma BringUpDisciplined(k: Scope, c: Settings, w: World)
    requires BaselineOk(k) && Revertible(k.marks) && k == ScopeOf(k.hash, c, k.base, k.server)
    requires Safe(k, w) && Admitted(c, w)
    requires w.host.resolv.Regular? ==> BackupPath(c) in w.backups && w.backups[BackupPath(c)] == w.host.resolv.content
    ensures Disciplined(k, w, BringUp(k.hash, c, k.server, w.host.resolv, FirstSnapshot(k.hash, c, w.host)))
  {
    var s := FirstSnapshot(k.hash, c, w.host);
    var s1 := SysctlSnapshot(s);
    var s2 := TunSnapshot(c, s1);
    var s3 := Confirmed(s2, ResolvOp(k.hash, c));
    var d, e := TakeOverResolv(k.hash, c, w.host.resolv, s2), InstallRouting(c, k.server, s3);
    var ipv6 := [WriteSysctl(IPV6_KEY, "1"), Persist(s1)];
    var tun := [CreateTun(c.tunName), Persist(s2)];
    assert Swept(s) == [k.marks.rulePriority];
    assert Describes(k, s, w.backups);
    DisciplinedOne(k, w, Persist(s));
    SafeAfter(k, w, [Persist(s)]);
    ExecOne(w, Persist(s));
    var w0 := Exec(w, [Persist(s)]);
    ActThenLogDisciplined(k, w0, s, OpSysctlSet(IPV6_KEY, "1"), ipv6[0]);
    var w1 := Exec(w0, ipv6);
    ActThenLogDisciplined(k, w1, s1, OpTunCreate(c.tunName), tun[0]);
    var w2 := Exec(w1, tun);
    TakeOverDisciplined(k, c, w2, s2);
    SafeAfter(k, w2, d);
    ExecTakeOver(k.hash, w2, c, s2);
    InstallRoutingDisciplined(k, c, Exec(w2, d), s3);
    DisciplinedAppend(k, w2, d, e);
    DisciplinedAppend(k, w1, tun, d + e);
    DisciplinedAppend(k, w0, ipv6, tun + (d + e));
    DisciplinedAppend(k, w, [Persist(s)], ipv6 + (tun + (d + e)));
  }

  lemma BackupDisciplined(k: Scope, c: Settings, w: World)
    requires BaselineOk(k) && Safe(k, w) && w.snapshot.Missing?
    ensures Disciplined(k, w, BackupCmds(c, w.host.resolv))
  {
    var cs := BackupCmds(c, w.host.resolv);
    if cs != [] {
      assert cs == [cs[0]] + [cs[1]];
      DisciplinedOne(k, w, cs[0]);
      ExecOne(w, cs[0]);
      DisciplinedOne(k, Apply(w, cs[0]), cs[1]);
      DisciplinedAppend(k, w, [cs[0]], [cs[1]]);
    }
  }

  /** The whole start program is disciplined, from any safe world. */
  lemma ProgramDisciplined(k: Scope, c: Settings, w: World)
    requires BaselineOk(k) && Revertible(k.marks) && k == ScopeOf(k.hash, c, k.base, k.server) && Safe(k, w)
    ensures Disciplined(k, w, Program(k.hash, c, k.server, w))
  {
    if w.snapshot.Missing? {
      var a := BackupCmds(c, w.host.resolv);
      BackupDisciplined(k, c, w);
      if Admitted(c, w) {
        SafeAfter(k, w, a);
        ExecBackup(c, w);
        BringUpDisciplined(k, c, Exec(w, a));
        DisciplinedAppend(k, w, a, BringUp(k.hash, c, k.server, w.host.resolv, FirstSnapshot(k.hash, c, w.host)));
      } else {
        assert Program(k.hash, c, k.server, w) == a;
      }
    } else {
      assert Program(k.hash, c, k.server, w) == [];
    }
  }

  /** The world after a crash: the process is gone and with it, if it was created, the TUN. */
  function Crashed(c: Settings, w: World, tunClosed: bool): World {
    if tunClosed then Apply(w, CloseTun(c.tunName)) else w
  }

  /**
   Crash-safe undo: after a crash at any point of connecting, and any number of failed or
   interrupted recoveries, one complete run of the script restores the untouched host.
   */
  lemma CrashSafeUndo(k: Scope, c: Settings, w: World, crash: nat, tunClosed: bool, attempts: seq<Attempt>)
    requires BaselineOk(k) && Revertible(k.marks) && k == ScopeOf(k.hash, c, k.base, k.server) && Safe(k, w)
    requires FilesApart(c, k.base.resolv) && crash <= |Program(k.hash, c, k.server, w)|
    ensures var dead := Crashed(c, Exec(w, Program(k.hash, c, k.server, w)[..crash]), tunClosed);
            var v := AfterAttempts(k.hash, dead, attempts);
            && Safe(k, dead)
            && Exec(v, ScriptRun(k.hash, v, NO_FAULTS).cmds) == World(k.base, Missing, dead.backups)
  {
    ProgramDisciplined(k, c, w);
    var stopped := Exec(w, Program(k.hash, c, k.server, w)[..crash]);
    DisciplinedIsSafe(k, w, Program(k.hash, c, k.server, w), crash);
    PermittedKeepsSafe(k, stopped, CloseTun(c.tunName));
    RecoveryConverges(k, Crashed(c, stopped, tunClosed), attempts);
  }

  /**
   No tunnel loop at any moment: after a start was cut anywhere, and after every further
   command of any series of recoveries, no destination that must be bypassed is sent to
   the tunnel's table.
   */
  lemma NoLoopAtAnyMoment(k: Scope, c: Settings, w: World, crash: nat, tunClosed: bool, attempts: seq<Attempt>,
                          local: IPv4 -> bool, dst: IPv4)
    requires BaselineOk(k) && Revertible(k.marks) && k == ScopeOf(k.hash, c, k.base, k.server) && Safe(k, w)
    requires forall r :: r in k.base.rules ==> r.table != c.routingTableId
    requires FilesApart(c, k.base.resolv)
    requires crash <= |Program(k.hash, c, k.server, w)| && Bypassed(k.server, dst)
    ensures var dead := Crashed(c, Exec(w, Program(k.hash, c, k.server, w)[..crash]), tunClosed);
            Select(AfterAttempts(k.hash, dead, attempts).host.rules, local, dst) != Some(c.routingTableId)
  {
    CrashSafeUndo(k, c, w, crash, tunClosed, attempts);
    var dead := Crashed(c, Exec(w, Program(k.hash, c, k.server, w)[..crash]), tunClosed);
    AttemptsSafe(k, dead, attempts);
    NoTunnelLoop(k, AfterAttempts(k.hash, dead, attempts), local, dst);
  }
}
