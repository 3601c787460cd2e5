/**
 What connecting leaves behind, spelled out: every route, rule, file and log entry of a
 complete start, and what is left of one that failed.
 */
module ConnectedState {
  import opened Addresses
  import opened Snapshots
  import opened Hosts
  import opened Panic
  import opened PanicEffects
  import opened Config
  import opened Routing
  import opened Discipline
  import opened Recovery
  import opened StartProgram
  import opened StartSafety

  /** The eight rules as the program lists them: seven destinations for the main table, then all the rest. */
  function ListedRules(base: int, table: int, server: IPv4): seq<Rule> {
    [Rule(base - 7, 254, Some(Cidr(server, 32))),
     Rule(base - 6, 254, Some(Cidr(Dotted(10, 0, 0, 0), 8))),
     Rule(base - 5, 254, Some(Cidr(Dotted(172, 16, 0, 0), 12))),
     Rule(base - 4, 254, Some(Cidr(Dotted(192, 168, 0, 0), 16))),
     Rule(base - 3, 254, Some(Cidr(Dotted(127, 0, 0, 0), 8))),
     Rule(base - 2, 254, Some(Cidr(Dotted(169, 254, 0, 0), 16))),
     Rule(base - 1, 254, Some(Cidr(Dotted(224, 0, 0, 0), 4))),
     Rule(base, table, None)]
  }

  lemma InstalledAsListed(m: OurMarks, server: IPv4)
    ensures Installed(m, server) == ListedRules(m.rulePriority, m.tableId, server)
  {
    var ours, listed := Installed(m, server), ListedRules(m.rulePriority, m.tableId, server);
    forall i | 0 <= i < 8
      ensures ours[i] == listed[i]
    {
    }
  }

  lemma {:induction false} InsertMultiset(rs: seq<Rule>, r: Rule)
    ensures multiset(InsertRule(rs, r)) == multiset(rs) + multiset{r}
  {
    if rs != [] && rs[0].priority <= r.priority {
      InsertMultiset(rs[1..], r);
      assert rs == [rs[0]] + rs[1..];
    }
  }

  lemma {:induction false} InsertAllMultiset(rs: seq<Rule>, more: seq<Rule>)
    ensures multiset(InsertAll(rs, more)) == multiset(rs) + multiset(more)
    decreases |more|
  {
    if more != [] {
      InsertMultiset(rs, more[0]);
      InsertAllMultiset(InsertRule(rs, more[0]), more[1..]);
      assert more == [more[0]] + more[1..];
    }
  }

  /**
   The host after a complete start: two routes in our table over our device - the gateway is
   reached directly, from our own address, and everything else goes by that gateway - the eight
   rules beside those found, the device, IPv6 off, and the nameserver of the settings.
   */
  lemma ConnectedSpelledOut(hash: string -> string, c: Settings, server: IPv4, w: World)
    requires Admitted(c, w)
    ensures var h := Exec(w, Program(hash, c, server, w)).host;
            && h.routes == w.host.routes + {
                 Route(c.routingTableId, c.tunName, OnLink(c.tunGateway, c.tunIP)),
                 Route(c.routingTableId, c.tunName, DefaultVia(c.tunGateway))}
            && multiset(h.rules) == multiset(w.host.rules) + multiset(ListedRules(c.rulePriority, c.routingTableId, server))
            && (Sorted(w.host.rules) ==> Sorted(h.rules))
            && h.links == w.host.links + {c.tunName}
            && h.sysctls == w.host.sysctls["net.ipv6.conf.all.disable_ipv6" := "1"]
            && h.resolv == Regular("# outline-fedora: managed while VPN is active\nnameserver " + c.dnsServerIP + "\n")
  {
    hide Program, Exec, FinalSnapshot;
    StartResult(hash, c, server, w);
    InstalledAsListed(Marks(c), server);
    InsertAllMultiset(w.host.rules, Installed(Marks(c), server));
    if Sorted(w.host.rules) {
      InsertAllMembers(w.host.rules, Installed(Marks(c), server));
    }
  }

  /** With the daemon's default settings, in plain values. */
  lemma DefaultConnection(hash: string -> string, url: string, server: IPv4, w: World)
    requires Admitted(DaemonSettings(url, "", ""), w)
    ensures var h := Exec(w, Program(hash, DaemonSettings(url, "", ""), server, w)).host;
            && h.routes == w.host.routes + {
                 Route(233, "ouftun0", OnLink("10.233.233.2/32", "10.233.233.1")),
                 Route(233, "ouftun0", DefaultVia("10.233.233.2/32"))}
            && multiset(h.rules) == multiset(w.host.rules) + multiset(ListedRules(23333, 233, server))
            && h.links == w.host.links + {"ouftun0"}
            && h.resolv == Regular("# outline-fedora: managed while VPN is active\nnameserver 9.9.9.9\n")
  {
    hide Program, Exec, ListedRules;
    var c := DaemonSettings(url, "", "");
    ConnectedSpelledOut(hash, c, server, w);
    assert "# outline-fedora: managed while VPN is active\nnameserver " + "9.9.9.9" + "\n"
        == "# outline-fedora: managed while VPN is active\nnameserver 9.9.9.9\n";
  }

  /** What a start checks: no snapshot, an IPv6 switch that reads 0 or 1, and a free device name. */
  lemma AdmittedExactly(c: Settings, w: World)
    ensures Admitted(c, w) <==>
              && w.snapshot == Missing
              && "net.ipv6.conf.all.disable_ipv6" in w.host.sysctls
              && (w.host.sysctls["net.ipv6.conf.all.disable_ipv6"] == "0" || w.host.sysctls["net.ipv6.conf.all.disable_ipv6"] == "1")
              && c.tunName !in w.host.links
  {
  }

  // ---- The order of the actions ------------------------------------------------------------

  /** The commands that touch the host, without those on the daemon's own files. */
  function OnHost(cs: seq<Cmd>): seq<Cmd> {
    if cs == [] then []
    else (if cs[0].Persist? || cs[0].TruncateBackup? || cs[0].WriteBackup? then [] else [cs[0]]) + OnHost(cs[1..])
  }

  lemma {:induction false} OnHostAppend(a: seq<Cmd>, b: seq<Cmd>)
    ensures OnHost(a + b) == OnHost(a) + OnHost(b)
  {
    if a == [] {
      assert a + b == b;
    } else {
      assert (a + b)[0] == a[0] && (a + b)[1..] == a[1..] + b;
      OnHostAppend(a[1..], b);
      var head := if a[0].Persist? || a[0].TruncateBackup? || a[0].WriteBackup? then [] else [a[0]];
      assert OnHost(a) == head + OnHost(a[1..]);
      assert OnHost(a + b) == head + OnHost(a[1..] + b);
    }
  }

  lemma OnHostTwo(a: Cmd, b: Cmd)
    ensures OnHost([a]) == if a.Persist? || a.TruncateBackup? || a.WriteBackup? then [] else [a]
    ensures OnHost([a, b]) == OnHost([a]) + OnHost([b])
  {
    assert [a][1..] == [] && [b][1..] == [] && [a, b][1..] == [b];
  }

  lemma OnHostLogged(s: Snapshot, op: Op, cmd: Cmd)
    requires !cmd.Persist? && !cmd.TruncateBackup? && !cmd.WriteBackup?
    ensures OnHost(Logged(s, op, cmd)) == [cmd]
  {
    var cs := Logged(s, op, cmd);
    assert cs == [cs[0], cmd] + [cs[2]];
    OnHostAppend([cs[0], cmd], [cs[2]]);
    OnHostTwo(cs[0], cmd);
    OnHostTwo(cmd, cs[2]);
    OnHostTwo(cs[2], cs[2]);
  }

  function AddAll(rs: seq<Rule>): seq<Cmd> {
    seq(|rs|, i requires 0 <= i < |rs| => AddRule(rs[i]))
  }

  lemma {:induction false} OnHostRules(s: Snapshot, rs: seq<Rule>)
    ensures OnHost(InstallRules(s, rs)) == AddAll(rs)
    decreases |rs|
  {
    if rs != [] {
      var op := RuleOp(rs[0]);
      OnHostLogged(s, op, AddRule(rs[0]));
      OnHostRules(Confirmed(s, op), rs[1..]);
      OnHostAppend(Logged(s, op, AddRule(rs[0])), InstallRules(Confirmed(s, op), rs[1..]));
      assert AddAll(rs) == [AddRule(rs[0])] + AddAll(rs[1..]);
    }
  }

  lemma OnHostBackup(c: Settings, r: Resolv)
    ensures OnHost(BackupCmds(c, r)) == []
  {
    if r.Regular? {
      OnHostTwo(BackupCmds(c, r)[0], BackupCmds(c, r)[1]);
      OnHostTwo(BackupCmds(c, r)[1], BackupCmds(c, r)[1]);
    }
  }

  lemma OnHostTakeOver(hash: string -> string, c: Settings, r: Resolv, s: Snapshot)
    ensures OnHost(TakeOverResolv(hash, c, r, s)) ==
            (if r.Symlink? then [UnlinkResolv] else []) + [RenameToResolv(ManagedContent(c))]
  {
    var first := if r.Symlink? then [UnlinkResolv] else [];
    var rest := Logged(s, ResolvOp(hash, c), RenameToResolv(ManagedContent(c)));
    OnHostLogged(s, ResolvOp(hash, c), RenameToResolv(ManagedContent(c)));
    OnHostAppend(first, rest);
    OnHostTwo(UnlinkResolv, UnlinkResolv);
  }

  lemma OnHostRouting(c: Settings, server: IPv4, s: Snapshot)
    ensures OnHost(InstallRouting(c, server, s)) ==
            [AddRoute(GatewayRoute(c)), AddRoute(DefaultRoute(c))] + AddAll(Installed(Marks(c), server))
  {
    var s1 := Confirmed(s, RouteOp(GatewayRoute(c)));
    var s2 := Confirmed(s1, RouteOp(DefaultRoute(c)));
    var a := Logged(s, RouteOp(GatewayRoute(c)), AddRoute(GatewayRoute(c)));
    var b := Logged(s1, RouteOp(DefaultRoute(c)), AddRoute(DefaultRoute(c)));
    var d := InstallRules(s2, Installed(Marks(c), server));
    hide OnHost, InstallRules;
    OnHostLogged(s, RouteOp(GatewayRoute(c)), AddRoute(GatewayRoute(c)));
    OnHostLogged(s1, RouteOp(DefaultRoute(c)), AddRoute(DefaultRoute(c)));
    OnHostRules(s2, Installed(Marks(c), server));
    OnHostAppend(a, b + d);
    OnHostAppend(b, d);
  }

  lemma OnHostActed(cmd: Cmd, s: Snapshot)
    requires !cmd.Persist? && !cmd.TruncateBackup? && !cmd.WriteBackup?
    ensures OnHost([cmd, Persist(s)]) == [cmd]
  {
    OnHostTwo(cmd, Persist(s));
    OnHostTwo(Persist(s), Persist(s));
  }

  lemma OnHostTunnel(hash: string -> string, c: Settings, server: IPv4, r: Resolv, s: Snapshot)
    ensures OnHost(TunnelCmds(hash, c, server, r, s)) ==
            [CreateTun(c.tunName)] + (if r.Symlink? then [UnlinkResolv] else [])
            + [RenameToResolv(ManagedContent(c)), AddRoute(GatewayRoute(c)), AddRoute(DefaultRoute(c))]
            + AddAll(Installed(Marks(c), server))
  {
    hide OnHost, TakeOverResolv, InstallRouting, ManagedContent, Installed, AddAll, TunSnapshot, Confirmed, GatewayRoute, DefaultRoute;
    var s2 := TunSnapshot(c, s);
    var d, e := TakeOverResolv(hash, c, r, s2), InstallRouting(c, server, Confirmed(s2, ResolvOp(hash, c)));
    OnHostAppend([CreateTun(c.tunName), Persist(s2)], d + e);
    OnHostAppend(d, e);
    OnHostActed(CreateTun(c.tunName), s2);
    OnHostTakeOver(hash, c, r, s2);
    OnHostRouting(c, server, Confirmed(s2, ResolvOp(hash, c)));
  }

  lemma OnHostMutations(hash: string -> string, c: Settings, server: IPv4, r: Resolv, s: Snapshot)
    ensures OnHost(Mutations(hash, c, server, r, s)) ==
            [WriteSysctl(IPV6_KEY, "1"), CreateTun(c.tunName)] + (if r.Symlink? then [UnlinkResolv] else [])
            + [RenameToResolv(ManagedContent(c)), AddRoute(GatewayRoute(c)), AddRoute(DefaultRoute(c))]
            + AddAll(Installed(Marks(c), server))
  {
    hide OnHost, TunnelCmds, ManagedContent, Installed, AddAll, SysctlSnapshot, GatewayRoute, DefaultRoute;
    var cmd, s1 := WriteSysctl(IPV6_KEY, "1"), SysctlSnapshot(s);
    OnHostAppend([cmd, Persist(s1)], TunnelCmds(hash, c, server, r, s1));
    OnHostActed(cmd, s1);
    OnHostTunnel(hash, c, server, r, s1);
  }

  /** Everything a complete start does to the host, in this order and nothing besides. */
  lemma ActionsInOrder(hash: string -> string, c: Settings, server: IPv4, w: World)
    requires Admitted(c, w)
    ensures OnHost(Program(hash, c, server, w)) ==
            [WriteSysctl("net.ipv6.conf.all.disable_ipv6", "1"), CreateTun(c.tunName)]
            + (if w.host.resolv.Symlink? then [UnlinkResolv] else [])
            + [RenameToResolv("# outline-fedora: managed while VPN is active\nnameserver " + c.dnsServerIP + "\n"),
               AddRoute(Route(c.routingTableId, c.tunName, OnLink(c.tunGateway, c.tunIP))),
               AddRoute(Route(c.routingTableId, c.tunName, DefaultVia(c.tunGateway)))]
            + AddAll(ListedRules(c.rulePriority, c.routingTableId, server))
  {
    hide OnHost, Mutations, FirstSnapshot, ListedRules, ManagedContent;
    var s, r := FirstSnapshot(hash, c, w.host), w.host.resolv;
    OnHostAppend(BackupCmds(c, r), BringUp(hash, c, server, r, s));
    OnHostAppend([Persist(s)], Mutations(hash, c, server, r, s));
    OnHostTwo(Persist(s), Persist(s));
    OnHostBackup(c, r);
    OnHostMutations(hash, c, server, r, s);
    ManagedText(c);
    InstalledAsListed(Marks(c), server);
  }

  lemma ManagedText(c: Settings)
    ensures ManagedContent(c) == "# outline-fedora: managed while VPN is active\nnameserver " + c.dnsServerIP + "\n"
  {
  }

  // ---- The log ---------------------------------------------------------------------------

  /** The thirteen actions of a session, in the order in which they are logged. */
  function ListedOps(hash: string -> string, c: Settings, server: IPv4): seq<Op> {
    var rs := ListedRules(c.rulePriority, c.routingTableId, server);
    [OpSysctlSet("net.ipv6.conf.all.disable_ipv6", "1"),
     OpTunCreate(c.tunName),
     OpResolvWrite(c.resolvPath, hash("# outline-fedora: managed while VPN is active\nnameserver " + c.dnsServerIP + "\n")),
     OpRouteAdd(c.routingTableId, OnLink(c.tunGateway, c.tunIP)),
     OpRouteAdd(c.routingTableId, DefaultVia(c.tunGateway))]
    + seq(|rs|, i requires 0 <= i < |rs| => OpRuleAdd(rs[i].priority, rs[i].table, rs[i].dst))
  }

  function DoneFrom(n: nat, ops: seq<Op>): seq<Action> {
    seq(|ops|, i requires 0 <= i < |ops| => Action(n + i, ops[i], true))
  }

  lemma {:induction false} AfterRulesActions(s: Snapshot, rs: seq<Rule>)
    ensures AfterRules(s, rs).actions ==
            s.actions + DoneFrom(|s.actions| + 1, seq(|rs|, i requires 0 <= i < |rs| => RuleOp(rs[i])))
    decreases |rs|
  {
    var ops := seq(|rs|, i requires 0 <= i < |rs| => RuleOp(rs[i]));
    if rs != [] {
      var t, rest := Confirmed(s, RuleOp(rs[0])), rs[1..];
      AfterRulesActions(t, rest);
      assert t.actions == s.actions + [Action(|s.actions| + 1, ops[0], true)];
      var later := seq(|rest|, i requires 0 <= i < |rest| => RuleOp(rest[i]));
      assert DoneFrom(|s.actions| + 1, ops) == [Action(|s.actions| + 1, ops[0], true)] + DoneFrom(|t.actions| + 1, later);
    }
  }

  lemma ConfirmedActions(s: Snapshot, op: Op)
    ensures Confirmed(s, op).actions == s.actions + [Action(|s.actions| + 1, op, true)]
  {
  }

  /** The log of a complete start names every action once, in order, numbered from 1 and confirmed. */
  lemma LogSpelledOut(hash: string -> string, c: Settings, server: IPv4, w: World)
    requires Admitted(c, w)
    ensures var disk := Exec(w, Program(hash, c, server, w)).snapshot;
            disk.Stored? && disk.snap.actions == DoneFrom(1, ListedOps(hash, c, server))
  {
    hide Program, Exec;
    StartResult(hash, c, server, w);
    FinalActions(hash, c, server, FirstSnapshot(hash, c, w.host));
  }

  lemma FinalActions(hash: string -> string, c: Settings, server: IPv4, s: Snapshot)
    requires s.actions == []
    ensures FinalSnapshot(hash, c, server, s).actions == DoneFrom(1, ListedOps(hash, c, server))
  {
    hide Confirmed;
    var s2 := TunSnapshot(c, SysctlSnapshot(s));
    var s3 := Confirmed(s2, ResolvOp(hash, c));
    var s4 := Confirmed(s3, RouteOp(GatewayRoute(c)));
    var s5 := Confirmed(s4, RouteOp(DefaultRoute(c)));
    ConfirmedActions(s2, ResolvOp(hash, c));
    ConfirmedActions(s3, RouteOp(GatewayRoute(c)));
    ConfirmedActions(s4, RouteOp(DefaultRoute(c)));
    var rs := Installed(Marks(c), server);
    InstalledAsListed(Marks(c), server);
    AfterRulesActions(s5, rs);
    var ops := seq(|rs|, i requires 0 <= i < |rs| => RuleOp(rs[i]));
    var all := ListedOps(hash, c, server);
    assert all[5..] == ops;
    assert s5.actions == DoneFrom(1, all[..5]);
    assert DoneFrom(1, all) == DoneFrom(1, all[..5]) + DoneFrom(6, all[5..]);
  }

  // ---- A start that failed ---------------------------------------------------------------

  /** A device that is not there does not appear unless it is created. */
  lemma {:induction false} NoDeviceAppears(w: World, cs: seq<Cmd>, ifname: string)
    requires ifname !in w.host.links && forall cmd :: cmd in cs ==> !cmd.CreateTun?
    ensures ifname !in Exec(w, cs).host.links
    decreases |cs|
  {
    if cs != [] {
      assert cs[0] in cs;
      NoDeviceAppears(Apply(w, cs[0]), cs[1..], ifname);
    }
  }

  lemma ScriptCreatesNoDevice(hash: string -> string, w: World, plan: PanicPlan, ifname: string)
    requires ifname !in w.host.links
    ensures ifname !in Exec(w, RunScript(hash, w, plan).cmds).host.links
  {
    if w.snapshot.Stored? {
      PanicIssues(hash, w, plan.faults);
    }
    NoDeviceAppears(w, RunScript(hash, w, plan).cmds, ifname);
  }

  /** Closing a session takes the device away, whatever becomes of the script. */
  lemma CloseDropsDevice(hash: string -> string, tunName: string, w: World, plan: PanicPlan)
    ensures tunName !in Exec(w, CloseCmds(hash, tunName, w, plan)).host.links
  {
    var closed := Apply(w, CloseTun(tunName));
    ExecAppend(w, [CloseTun(tunName)], RunScript(hash, closed, plan).cmds);
    ExecOne(w, CloseTun(tunName));
    ScriptCreatesNoDevice(hash, closed, plan, tunName);
  }

  /** So does cleaning up; and if the script works, the untouched host is back and no snapshot is left. */
  lemma CleanupRestores(k: Scope, c: Settings, w: World, plan: PanicPlan)
    requires BaselineOk(k) && Revertible(k.marks) && k.marks == Marks(c) && Safe(k, w)
    ensures var v := Exec(w, CleanupCmds(k.hash, c.tunName, w, plan));
            && c.tunName !in v.host.links
            && (plan.found && plan.faults == NO_FAULTS ==> v.host == k.base && v.snapshot == Missing)
  {
    hide ScriptRun;
    var closed := Apply(w, CloseTun(c.tunName));
    if c.tunName in w.host.links {
      CloseDropsDevice(k.hash, c.tunName, w, plan);
      ExecAppend(w, [CloseTun(c.tunName)], RunScript(k.hash, closed, plan).cmds);
      ExecOne(w, CloseTun(c.tunName));
      PermittedKeepsSafe(k, w, CloseTun(c.tunName));
      CompleteRunRestores(k, closed);
    } else {
      ScriptCreatesNoDevice(k.hash, w, plan, c.tunName);
      CompleteRunRestores(k, w);
    }
  }

  /**
   A start that fails, at whatever point, leaves no device behind; and if the script it runs in
   the end works, it leaves the untouched host and no snapshot.
   */
  lemma FailedStartRestores(k: Scope, c: Settings, w: World, plan: StartPlan)
    requires BaselineOk(k) && Revertible(k.marks) && k == ScopeOf(k.hash, c, k.base, plan.server)
    requires FilesApart(c, k.base.resolv) && w.host == k.base && w.snapshot.Missing?
    requires !Succeeds(k.hash, c, w, plan)
    ensures var v := Exec(w, StartCmds(k.hash, c, w, plan));
            && c.tunName !in v.host.links
            && (plan.cleanup.found && plan.cleanup.faults == NO_FAULTS ==> v.host == k.base && v.snapshot == Missing)
  {
    hide Program, CleanupCmds, Prelude;
    var all, n := Program(k.hash, c, plan.server, w), Stop(k.hash, c, w, plan);
    ProgramDisciplined(k, c, w);
    DisciplinedIsSafe(k, w, all, n);
    var v := Exec(w, all[..n]);
    if n <= |Prelude(c, w)| {
      PreludeLeavesHost(k.hash, c, plan.server, w, n);
    } else {
      CleanupRestores(k, c, v, plan.cleanup);
      ExecAppend(w, all[..n], CleanupCmds(k.hash, c.tunName, v, plan.cleanup));
    }
  }

  /** Before the first snapshot nothing but the backup is written. */
  lemma PreludeLeavesHost(hash: string -> string, c: Settings, server: IPv4, w: World, n: nat)
    requires w.snapshot.Missing? && n <= |Prelude(c, w)|
    ensures n <= |Program(hash, c, server, w)|
    ensures var v := Exec(w, Program(hash, c, server, w)[..n]); v.host == w.host && v.snapshot == Missing
  {
    hide BringUp;
    var cs := Program(hash, c, server, w)[..n];
    assert forall cmd :: cmd in Prelude(c, w) ==> cmd.TruncateBackup? || cmd.WriteBackup?;
    assert cs == Prelude(c, w)[..n];
    BackupOnly(w, cs);
  }

  lemma {:induction false} BackupOnly(w: World, cs: seq<Cmd>)
    requires forall cmd :: cmd in cs ==> cmd.TruncateBackup? || cmd.WriteBackup?
    ensures Exec(w, cs).host == w.host && Exec(w, cs).snapshot == w.snapshot
    decreases |cs|
  {
    if cs != [] {
      assert cs[0] in cs;
      BackupOnly(Apply(w, cs[0]), cs[1..]);
    }
  }
}
