/**
 The log on disk while connecting: every snapshot written carries on the one before, and for
 every action on the host it is settled whether its record precedes it.
 */
module Journals {
  import opened Addresses
  import opened Snapshots
  import opened Hosts
  import opened PanicEffects
  import opened Config
  import opened Routing
  import opened StartProgram

  /** The action that a command carries out, if it is one that connecting logs. */
  function OpFor(hash: string -> string, c: Settings, cmd: Cmd): Option<Op> {
    match cmd
    case WriteSysctl(key, value) => Some(OpSysctlSet(key, value))
    case CreateTun(ifname) => Some(OpTunCreate(ifname))
    case AddRoute(route) => Some(RouteOp(route))
    case AddRule(rule) => Some(RuleOp(rule))
    case UnlinkResolv => Some(ResolvOp(hash, c))
    case RenameToResolv(content) => Some(OpResolvWrite(c.resolvPath, hash(content)))
    case _ => None
  }

  /** Commands that only concern the daemon's own files. */
  predicate OwnFile(cmd: Cmd) {
    cmd.Persist? || cmd.RemoveSnapshot? || cmd.TruncateBackup? || cmd.WriteBackup?
  }

  /** The actions that come before their record. */
  predicate Late(cmd: Cmd) {
    cmd.WriteSysctl? || cmd.CreateTun? || cmd.UnlinkResolv?
  }

  predicate Records(s: Snapshot, op: Op) {
    exists i :: 0 <= i < |s.actions| && s.actions[i].op == op
  }

  /** The newest action on record is `op`, and it is not confirmed yet. */
  predicate Intends(s: Snapshot, op: Op) {
    var n := |s.actions|;
    n > 0 && s.actions[n - 1].op == op && !s.actions[n - 1].done
  }

  /** What holds when a command is issued while `last` is the snapshot on disk. */
  predicate WellTimed(hash: string -> string, c: Settings, last: SnapshotFile, cmd: Cmd) {
    && !cmd.RemoveSnapshot?
    && (cmd.TruncateBackup? || cmd.WriteBackup? ==> last.Missing?)
    && (cmd.Persist? ==> WellLogged(cmd.snap) && (last.Stored? ==> Extends(last.snap, cmd.snap)))
    && (!OwnFile(cmd) ==>
          && last.Stored?
          && OpFor(hash, c, cmd).Some?
          && var op := OpFor(hash, c, cmd).value;
             if Late(cmd) then !Records(last.snap, op) else Intends(last.snap, op))
  }

  function Latest(last: SnapshotFile, cmd: Cmd): SnapshotFile {
    if cmd.Persist? then Stored(cmd.snap) else last
  }

  /** Every command of cs is well timed, starting from the snapshot file `last`. */
  predicate Journal(hash: string -> string, c: Settings, last: SnapshotFile, cs: seq<Cmd>)
    decreases |cs|
  {
    cs != [] ==> WellTimed(hash, c, last, cs[0]) && Journal(hash, c, Latest(last, cs[0]), cs[1..])
  }

  /** The snapshot on disk after cs, starting from `last`. */
  function LastPersisted(last: SnapshotFile, cs: seq<Cmd>): SnapshotFile
    decreases |cs|
  {
    if cs == [] then last else LastPersisted(Latest(last, cs[0]), cs[1..])
  }

  predicate AllDone(s: Snapshot) {
    WellLogged(s) && forall i :: 0 <= i < |s.actions| ==> s.actions[i].done
  }

  lemma {:induction false} JournalAppend(hash: string -> string, c: Settings, last: SnapshotFile, a: seq<Cmd>, b: seq<Cmd>)
    requires Journal(hash, c, last, a) && Journal(hash, c, LastPersisted(last, a), b)
    ensures Journal(hash, c, last, a + b)
    ensures LastPersisted(last, a + b) == LastPersisted(LastPersisted(last, a), b)
    decreases |a|
  {
    if a == [] {
      assert a + b == b;
    } else {
      assert (a + b)[1..] == a[1..] + b;
      JournalAppend(hash, c, Latest(last, a[0]), a[1..], b);
    }
  }

  lemma OneJournal(hash: string -> string, c: Settings, last: SnapshotFile, cmd: Cmd)
    requires WellTimed(hash, c, last, cmd)
    ensures Journal(hash, c, last, [cmd]) && LastPersisted(last, [cmd]) == Latest(last, cmd)
  {
    assert [cmd][1..] == [];
    assert LastPersisted(Latest(last, cmd), [cmd][1..]) == Latest(last, cmd);
  }

  lemma LogGrows(s: Snapshot, op: Op, done: bool)
    requires AllDone(s)
    ensures Extends(s, AppendAction(s, op, done)) && WellLogged(AppendAction(s, op, done))
    ensures Extends(AppendAction(s, op, false), Confirmed(s, op)) && AllDone(Confirmed(s, op))
    ensures done ==> AllDone(AppendAction(s, op, done))
    ensures !done ==> Intends(AppendAction(s, op, done), op)
  {
  }

  /** Log the intent, act, confirm: the record precedes the action. */
  lemma LoggedJournal(hash: string -> string, c: Settings, s: Snapshot, op: Op, cmd: Cmd)
    requires AllDone(s) && !OwnFile(cmd) && !Late(cmd) && OpFor(hash, c, cmd) == Some(op)
    ensures Journal(hash, c, Stored(s), Logged(s, op, cmd))
    ensures LastPersisted(Stored(s), Logged(s, op, cmd)) == Stored(Confirmed(s, op))
    ensures AllDone(Confirmed(s, op))
  {
    var t, u := AppendAction(s, op, false), Confirmed(s, op);
    LogGrows(s, op, false);
    assert WellLogged(u);
    hide AppendAction, Confirmed, WellLogged, Extends, Intends, AllDone;
    OneJournal(hash, c, Stored(s), Persist(t));
    OneJournal(hash, c, Stored(t), cmd);
    OneJournal(hash, c, Stored(t), Persist(u));
    JournalAppend(hash, c, Stored(t), [cmd], [Persist(u)]);
    JournalAppend(hash, c, Stored(s), [Persist(t)], [cmd] + [Persist(u)]);
    assert Logged(s, op, cmd) == [Persist(t)] + ([cmd] + [Persist(u)]);
  }

  /** Act, then log: the record follows the action. */
  lemma PairJournal(hash: string -> string, c: Settings, s: Snapshot, op: Op, cmd: Cmd)
    requires AllDone(s) && !OwnFile(cmd) && Late(cmd) && OpFor(hash, c, cmd) == Some(op) && !Records(s, op)
    ensures var t := AppendAction(s, op, true);
            && Journal(hash, c, Stored(s), [cmd, Persist(t)])
            && LastPersisted(Stored(s), [cmd, Persist(t)]) == Stored(t)
            && AllDone(t)
  {
    var t := AppendAction(s, op, true);
    LogGrows(s, op, true);
    hide AppendAction, WellLogged, Extends, Records, AllDone;
    OneJournal(hash, c, Stored(s), cmd);
    OneJournal(hash, c, Stored(s), Persist(t));
    JournalAppend(hash, c, Stored(s), [cmd], [Persist(t)]);
    assert [cmd, Persist(t)] == [cmd] + [Persist(t)];
  }

  lemma {:induction false} RulesJournal(hash: string -> string, c: Settings, s: Snapshot, rs: seq<Rule>)
    requires AllDone(s)
    ensures Journal(hash, c, Stored(s), InstallRules(s, rs))
    decreases |rs|
  {
    if rs != [] {
      var op := RuleOp(rs[0]);
      LoggedJournal(hash, c, s, op, AddRule(rs[0]));
      RulesJournal(hash, c, Confirmed(s, op), rs[1..]);
      JournalAppend(hash, c, Stored(s), Logged(s, op, AddRule(rs[0])), InstallRules(Confirmed(s, op), rs[1..]));
    }
  }

  lemma RoutingJournal(hash: string -> string, c: Settings, server: IPv4, s: Snapshot)
    requires AllDone(s)
    ensures Journal(hash, c, Stored(s), InstallRouting(c, server, s))
  {
    var op1, op2 := RouteOp(GatewayRoute(c)), RouteOp(DefaultRoute(c));
    var s1 := Confirmed(s, op1);
    var s2 := Confirmed(s1, op2);
    LoggedJournal(hash, c, s, op1, AddRoute(GatewayRoute(c)));
    LoggedJournal(hash, c, s1, op2, AddRoute(DefaultRoute(c)));
    RulesJournal(hash, c, s2, Installed(Marks(c), server));
    var b, d := Logged(s1, op2, AddRoute(DefaultRoute(c))), InstallRules(s2, Installed(Marks(c), server));
    JournalAppend(hash, c, Stored(s1), b, d);
    JournalAppend(hash, c, Stored(s), Logged(s, op1, AddRoute(GatewayRoute(c))), b + d);
  }

  lemma TakeOverJournal(hash: string -> string, c: Settings, r: Resolv, s: Snapshot)
    requires AllDone(s) && !Records(s, ResolvOp(hash, c))
    ensures Journal(hash, c, Stored(s), TakeOverResolv(hash, c, r, s))
    ensures LastPersisted(Stored(s), TakeOverResolv(hash, c, r, s)) == Stored(Confirmed(s, ResolvOp(hash, c)))
    ensures AllDone(Confirmed(s, ResolvOp(hash, c)))
  {
    var cs := Logged(s, ResolvOp(hash, c), RenameToResolv(ManagedContent(c)));
    LoggedJournal(hash, c, s, ResolvOp(hash, c), RenameToResolv(ManagedContent(c)));
    if r.Symlink? {
      OneJournal(hash, c, Stored(s), UnlinkResolv);
      JournalAppend(hash, c, Stored(s), [UnlinkResolv], cs);
    } else {
      assert TakeOverResolv(hash, c, r, s) == cs;
    }
  }

  lemma BringUpJournal(hash: string -> string, c: Settings, server: IPv4, r: Resolv, s: Snapshot)
    requires s.actions == []
    ensures Journal(hash, c, Missing, BringUp(hash, c, server, r, s))
  {
    var s1 := SysctlSnapshot(s);
    var s2 := TunSnapshot(c, s1);
    var s3 := Confirmed(s2, ResolvOp(hash, c));
    var ipv6, tun := [WriteSysctl(IPV6_KEY, "1"), Persist(s1)], [CreateTun(c.tunName), Persist(s2)];
    var d, e := TakeOverResolv(hash, c, r, s2), InstallRouting(c, server, s3);
    PairJournal(hash, c, s, OpSysctlSet(IPV6_KEY, "1"), ipv6[0]);
    PairJournal(hash, c, s1, OpTunCreate(c.tunName), tun[0]);
    TakeOverJournal(hash, c, r, s2);
    RoutingJournal(hash, c, server, s3);
    JournalAppend(hash, c, Stored(s2), d, e);
    JournalAppend(hash, c, Stored(s1), tun, d + e);
    JournalAppend(hash, c, Stored(s), ipv6, tun + (d + e));
    OneJournal(hash, c, Missing, Persist(s));
    JournalAppend(hash, c, Missing, [Persist(s)], ipv6 + (tun + (d + e)));
  }

  lemma BackupJournal(hash: string -> string, c: Settings, r: Resolv)
    ensures Journal(hash, c, Missing, BackupCmds(c, r)) && LastPersisted(Missing, BackupCmds(c, r)) == Missing
  {
    var cs := BackupCmds(c, r);
    if cs != [] {
      OneJournal(hash, c, Missing, cs[0]);
      OneJournal(hash, c, Missing, cs[1]);
      JournalAppend(hash, c, Missing, [cs[0]], [cs[1]]);
      assert cs == [cs[0]] + [cs[1]];
    }
  }

  lemma ProgramJournal(hash: string -> string, c: Settings, server: IPv4, w: World)
    ensures Journal(hash, c, Missing, Program(hash, c, server, w))
  {
    BackupJournal(hash, c, w.host.resolv);
    if Admitted(c, w) {
      var s := FirstSnapshot(hash, c, w.host);
      BringUpJournal(hash, c, server, w.host.resolv, s);
      JournalAppend(hash, c, Missing, BackupCmds(c, w.host.resolv), BringUp(hash, c, server, w.host.resolv, s));
    } else {
      assert Program(hash, c, server, w) == Prelude(c, w);
    }
  }

  // ---- What a journal means for the worlds it passes through ---------------------------

  lemma {:induction false} JournalOnDisk(hash: string -> string, c: Settings, w: World, cs: seq<Cmd>, i: nat)
    requires Journal(hash, c, w.snapshot, cs) && i < |cs|
    ensures WellTimed(hash, c, Exec(w, cs[..i]).snapshot, cs[i])
    decreases i
  {
    if i == 0 {
      assert cs[..0] == [];
    } else {
      JournalOnDisk(hash, c, Apply(w, cs[0]), cs[1..], i - 1);
      ExecPrefix(w, cs, i);
    }
  }

  /** Nothing on record is ever dropped, rewritten or unconfirmed. */
  lemma {:induction false} JournalContinues(hash: string -> string, c: Settings, last: Snapshot, cs: seq<Cmd>, j: nat)
    requires Journal(hash, c, Stored(last), cs) && j < |cs| && cs[j].Persist?
    ensures Continues(last, cs[j].snap) && WellLogged(cs[j].snap)
    decreases j
  {
    if j > 0 {
      JournalContinues(hash, c, if cs[0].Persist? then cs[0].snap else last, cs[1..], j - 1);
    }
  }

  lemma {:induction false} JournalDrop(hash: string -> string, c: Settings, last: SnapshotFile, cs: seq<Cmd>, i: nat)
    requires Journal(hash, c, last, cs) && i < |cs| && cs[i].Persist?
    ensures Journal(hash, c, Stored(cs[i].snap), cs[i + 1..])
    decreases i
  {
    if i > 0 {
      JournalDrop(hash, c, Latest(last, cs[0]), cs[1..], i - 1);
      assert cs[1..][i..] == cs[i + 1..];
    }
  }

  /** Once a snapshot is on disk, or written on the way, there is one at every later point. */
  lemma {:induction false} SnapshotStays(hash: string -> string, c: Settings, w: World, cs: seq<Cmd>, p: nat, i: nat)
    requires Journal(hash, c, w.snapshot, cs) && i <= |cs|
    requires w.snapshot.Stored? || (p < i && cs[p].Persist?)
    ensures Exec(w, cs[..i]).snapshot.Stored?
    decreases i
  {
    if i == 0 {
      assert cs[..0] == [];
    } else {
      SnapshotStays(hash, c, Apply(w, cs[0]), cs[1..], if p > 0 then p - 1 else 0, i - 1);
      ExecPrefix(w, cs, i);
    }
  }

  /**
   Write-ahead, exactly: whenever a start touches the host a snapshot is on disk, and the
   action about to happen is on record - as the newest, still unconfirmed entry - if and only
   if it is not the IPv6 switch, the creation of the TUN or the unlinking of a symlink.
   */
  lemma RecordedAheadExactly(hash: string -> string, c: Settings, server: IPv4, w: World, i: nat)
    requires i < |Program(hash, c, server, w)| && !OwnFile(Program(hash, c, server, w)[i])
    ensures var cmd := Program(hash, c, server, w)[i];
            var disk := Exec(w, Program(hash, c, server, w)[..i]).snapshot;
            && disk.Stored? && OpFor(hash, c, cmd).Some?
            && (Records(disk.snap, OpFor(hash, c, cmd).value) <==> !Late(cmd))
            && (Intends(disk.snap, OpFor(hash, c, cmd).value) <==> !Late(cmd))
  {
    var all := Program(hash, c, server, w);
    ProgramJournal(hash, c, server, w);
    JournalOnDisk(hash, c, w, all, i);
    var disk := Exec(w, all[..i]).snapshot.snap;
    if Intends(disk, OpFor(hash, c, all[i]).value) {
      assert disk.actions[|disk.actions| - 1].op == OpFor(hash, c, all[i]).value;
    }
  }

  /** A snapshot on disk was written by one of the commands. */
  lemma {:induction false} WrittenBy(hash: string -> string, c: Settings, w: World, cs: seq<Cmd>, n: nat) returns (j: nat)
    requires Journal(hash, c, w.snapshot, cs) && n <= |cs|
    requires w.snapshot.Missing? && !Exec(w, cs[..n]).snapshot.Missing?
    ensures j < n && cs[j].Persist? && Exec(w, cs[..n]).snapshot == Stored(cs[j].snap)
    decreases n
  {
    var last := cs[n - 1];
    assert cs[..n] == cs[..n - 1] + [last];
    ExecAppend(w, cs[..n - 1], [last]);
    ExecOne(Exec(w, cs[..n - 1]), last);
    JournalOnDisk(hash, c, w, cs, n - 1);
    if last.Persist? {
      j := n - 1;
    } else {
      j := WrittenBy(hash, c, w, cs, n - 1);
    }
  }

  /** Cleaning up writes no snapshot. */
  lemma CleanupPersistsNothing(hash: string -> string, tunName: string, w: World, plan: PanicPlan)
    ensures forall cmd :: cmd in CleanupCmds(hash, tunName, w, plan) ==> !cmd.Persist?
  {
    var closed := Apply(w, CloseTun(tunName));
    if w.snapshot.Stored? {
      PanicIssues(hash, w, plan.faults);
      PanicIssues(hash, closed, plan.faults);
    }
    forall cmd | cmd in CloseCmds(hash, tunName, w, plan)
      ensures cmd == CloseTun(tunName) || cmd in RunScript(hash, closed, plan).cmds
    {
    }
  }

  /** So every snapshot that a start writes comes from its program, however the start ends. */
  lemma PersistsAreProgram(hash: string -> string, c: Settings, w: World, plan: StartPlan, j: nat)
    requires j < |StartCmds(hash, c, w, plan)| && StartCmds(hash, c, w, plan)[j].Persist?
    ensures j < |Program(hash, c, plan.server, w)|
    ensures StartCmds(hash, c, w, plan)[..j + 1] == Program(hash, c, plan.server, w)[..j + 1]
  {
    hide Program, CleanupCmds;
    var all, k := Program(hash, c, plan.server, w), Stop(hash, c, w, plan);
    var cs := StartCmds(hash, c, w, plan);
    if !Succeeds(hash, c, w, plan) && k > |Prelude(c, w)| {
      var v := Exec(w, all[..k]);
      var cleanup := CleanupCmds(hash, c.tunName, v, plan.cleanup);
      assert forall i :: k <= i < |cs| ==> cs[i] == cleanup[i - k] && cs[i] in cleanup;
      CleanupPersistsNothing(hash, c.tunName, v, plan.cleanup);
    }
  }

  lemma ProgramPersists(hash: string -> string, c: Settings, server: IPv4, w: World, j: nat)
    requires j < |Program(hash, c, server, w)| && Program(hash, c, server, w)[j].Persist?
    ensures Admitted(c, w) && |Prelude(c, w)| <= j
    ensures Program(hash, c, server, w)[|Prelude(c, w)|] == Persist(FirstSnapshot(hash, c, w.host))
  {
    hide Mutations;
    assert forall cmd :: cmd in Prelude(c, w) ==> !cmd.Persist?;
  }

  lemma LaterContinues(hash: string -> string, c: Settings, last: SnapshotFile, cs: seq<Cmd>, i: nat, j: nat)
    requires Journal(hash, c, last, cs) && i < j < |cs| && cs[i].Persist? && cs[j].Persist?
    ensures Continues(cs[i].snap, cs[j].snap)
  {
    JournalDrop(hash, c, last, cs, i);
    JournalContinues(hash, c, cs[i].snap, cs[i + 1..], j - i - 1);
  }

  lemma ContinuesItself(s: Snapshot)
    ensures Continues(s, s)
  {
  }

  /** Every snapshot the program writes carries on the first one. */
  lemma ProgramContinues(hash: string -> string, c: Settings, server: IPv4, w: World, j: nat)
    requires j < |Program(hash, c, server, w)| && Program(hash, c, server, w)[j].Persist?
    ensures Admitted(c, w) && Continues(FirstSnapshot(hash, c, w.host), Program(hash, c, server, w)[j].snap)
  {
    hide Program, Continues, FirstSnapshot, Prelude;
    ProgramPersists(hash, c, server, w, j);
    ProgramJournal(hash, c, server, w);
    if |Prelude(c, w)| < j {
      LaterContinues(hash, c, w.snapshot, Program(hash, c, server, w), |Prelude(c, w)|, j);
    } else {
      ContinuesItself(Program(hash, c, server, w)[j].snap);
    }
  }

  /**
   The log of a start, however it ends: the first snapshot written has an empty log, every
   later one continues every earlier one and extends the one that is on disk, and each is
   numbered 1..n with at most its newest action unconfirmed.
   */
  lemma StartJournal(hash: string -> string, c: Settings, w: World, plan: StartPlan, j: nat)
    requires j < |StartCmds(hash, c, w, plan)| && StartCmds(hash, c, w, plan)[j].Persist?
    ensures Admitted(c, w)
    ensures var cs := StartCmds(hash, c, w, plan);
            var disk := Exec(w, cs[..j]).snapshot;
            && WellLogged(cs[j].snap)
            && Continues(FirstSnapshot(hash, c, w.host), cs[j].snap)
            && (forall i :: 0 <= i < j && cs[i].Persist? ==> Continues(cs[i].snap, cs[j].snap))
            && (if disk.Stored? then Extends(disk.snap, cs[j].snap) else cs[j].snap == FirstSnapshot(hash, c, w.host))
  {
    hide Program, StartCmds, Continues, Extends, WellLogged, FirstSnapshot, Prelude;
    var cs, all := StartCmds(hash, c, w, plan), Program(hash, c, plan.server, w);
    PersistsAreProgram(hash, c, w, plan, j);
    assert cs[..j] == cs[..j + 1][..j] == all[..j + 1][..j] == all[..j] && cs[j] == all[j];
    ProgramPersists(hash, c, plan.server, w, j);
    ProgramJournal(hash, c, plan.server, w);
    JournalOnDisk(hash, c, w, all, j);
    ProgramContinues(hash, c, plan.server, w, j);
    if |Prelude(c, w)| < j {
      SnapshotStays(hash, c, w, all, |Prelude(c, w)|, j);
    }
    forall i | 0 <= i < j && cs[i].Persist?
      ensures Continues(cs[i].snap, cs[j].snap)
    {
      assert cs[i] == cs[..j][i] == all[i];
      LaterContinues(hash, c, w.snapshot, all, i, j);
    }
  }
}
