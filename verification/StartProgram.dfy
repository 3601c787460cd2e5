/** The commands that bring a session up, as one program, and every way it can stop. */
module StartProgram {
  import opened Addresses
  import opened Snapshots
  import opened Hosts
  import opened Panic
  import opened Config
  import opened Routing
  import opened Discipline

  /** The IPv6 switch can be read, and holds "0" or "1". */
  predicate Readable(h: Host) {
    IPV6_KEY in h.sysctls && h.sysctls[IPV6_KEY] in {"0", "1"}
  }

  function FirstSnapshot(hash: string -> string, c: Settings, h: Host): Snapshot
    requires IPV6_KEY in h.sysctls
  {
    Snapshot(VERSION, Marks(c), RecordedPreState(hash, h, BackupPath(c)), [])
  }

  /** A regular resolv.conf is copied aside before anything else happens. */
  function BackupCmds(c: Settings, r: Resolv): seq<Cmd> {
    if r.Regular? then [TruncateBackup(BackupPath(c)), WriteBackup(BackupPath(c), r.content)] else []
  }

  /** Log the intent, act, confirm. */
  function Logged(s: Snapshot, op: Op, cmd: Cmd): seq<Cmd> {
    [Persist(AppendAction(s, op, false)), cmd, Persist(Confirmed(s, op))]
  }

  function SysctlSnapshot(s: Snapshot): Snapshot {
    AppendAction(s, OpSysctlSet(IPV6_KEY, "1"), true)
  }

  function TunSnapshot(c: Settings, s: Snapshot): Snapshot {
    AppendAction(s, OpTunCreate(c.tunName), true)
  }

  function ResolvOp(hash: string -> string, c: Settings): Op {
    OpResolvWrite(c.resolvPath, hash(ManagedContent(c)))
  }

  function TakeOverResolv(hash: string -> string, c: Settings, r: Resolv, s: Snapshot): seq<Cmd> {
    (if r.Symlink? then [UnlinkResolv] else [])
    + Logged(s, ResolvOp(hash, c), RenameToResolv(ManagedContent(c)))
  }

  function GatewayRoute(c: Settings): Route {
    Route(c.routingTableId, c.tunName, OnLink(c.tunGateway, c.tunIP))
  }

  function DefaultRoute(c: Settings): Route {
    Route(c.routingTableId, c.tunName, DefaultVia(c.tunGateway))
  }

  function RouteOp(r: Route): Op {
    OpRouteAdd(r.table, r.spec)
  }

  function RuleOp(r: Rule): Op {
    OpRuleAdd(r.priority, r.table, r.dst)
  }

  function InstallRules(s: Snapshot, rs: seq<Rule>): seq<Cmd>
    decreases |rs|
  {
    if rs == [] then []
    else Logged(s, RuleOp(rs[0]), AddRule(rs[0])) + InstallRules(Confirmed(s, RuleOp(rs[0])), rs[1..])
  }

  function InstallRouting(c: Settings, server: IPv4, s: Snapshot): seq<Cmd> {
    var s1 := Confirmed(s, RouteOp(GatewayRoute(c)));
    var s2 := Confirmed(s1, RouteOp(DefaultRoute(c)));
    Logged(s, RouteOp(GatewayRoute(c)), AddRoute(GatewayRoute(c)))
    + (Logged(s1, RouteOp(DefaultRoute(c)), AddRoute(DefaultRoute(c)))
       + InstallRules(s2, Installed(Marks(c), server)))
  }

  /** Device, resolv.conf, routes and rules; `s` is the snapshot before, `r` the resolv.conf found. */
  function TunnelCmds(hash: string -> string, c: Settings, server: IPv4, r: Resolv, s: Snapshot): seq<Cmd> {
    var s2 := TunSnapshot(c, s);
    [CreateTun(c.tunName), Persist(s2)]
    + (TakeOverResolv(hash, c, r, s2)
       + InstallRouting(c, server, Confirmed(s2, ResolvOp(hash, c))))
  }

  /** The commands after the first snapshot. */
  function Mutations(hash: string -> string, c: Settings, server: IPv4, r: Resolv, s: Snapshot): seq<Cmd> {
    [WriteSysctl(IPV6_KEY, "1"), Persist(SysctlSnapshot(s))]
    + TunnelCmds(hash, c, server, r, SysctlSnapshot(s))
  }

  /** The commands from the first snapshot on. */
  function BringUp(hash: string -> string, c: Settings, server: IPv4, r: Resolv, s: Snapshot): seq<Cmd> {
    [Persist(s)] + Mutations(hash, c, server, r, s)
  }

  /** A start gets past the read-only checks. */
  predicate Admitted(c: Settings, w: World) {
    w.snapshot.Missing? && Readable(w.host) && c.tunName !in w.host.links
  }

  /** What precedes the first snapshot. */
  function Prelude(c: Settings, w: World): seq<Cmd> {
    if w.snapshot.Missing? then BackupCmds(c, w.host.resolv) else []
  }

  /**
   No file has two roles: resolv.conf is not the snapshot, and a regular resolv.conf, which is
   copied aside, is not its own copy. The program never checks this.
   */
  predicate FilesApart(c: Settings, r: Resolv) {
    c.resolvPath != SnapshotPath(c) && (r.Regular? ==> c.resolvPath != BackupPath(c))
  }

  lemma DefaultFilesApart(c: Settings, r: Resolv)
    requires c.resolvPath == "/etc/resolv.conf" && c.stateDir == "/var/lib/outline-fedora"
    ensures FilesApart(c, r)
  {
    assert c.resolvPath[1] == 'e' && SnapshotPath(c)[1] == 'v' && BackupPath(c)[1] == 'v';
  }

  /** All commands of a start that is neither refused nor fails. */
  function Program(hash: string -> string, c: Settings, server: IPv4, w: World): seq<Cmd> {
    Prelude(c, w)
    + (if Admitted(c, w) then BringUp(hash, c, server, w.host.resolv, FirstSnapshot(hash, c, w.host)) else [])
  }

  /** Whether the script is found at all, and what happens when it runs. */
  datatype PanicPlan = PanicPlan(found: bool, faults: Faults)

  /** The environment's part in one start: the address it resolves, and where it stops. */
  datatype StartPlan = StartPlan(server: IPv4, stop: nat, cleanup: PanicPlan)

  function RunScript(hash: string -> string, w: World, plan: PanicPlan): PanicRun {
    if plan.found then ScriptRun(hash, w, plan.faults) else PanicRun([], 2)
  }

  /** Closing a session: drop the TUN, then run the script. */
  function CloseCmds(hash: string -> string, tunName: string, w: World, plan: PanicPlan): seq<Cmd> {
    [CloseTun(tunName)] + RunScript(hash, Apply(w, CloseTun(tunName)), plan).cmds
  }

  function CloseExit(hash: string -> string, tunName: string, w: World, plan: PanicPlan): int {
    RunScript(hash, Apply(w, CloseTun(tunName)), plan).exit
  }

  /** Cleaning up after a failed start: the TUN is only closed if it got created. */
  function CleanupCmds(hash: string -> string, tunName: string, w: World, plan: PanicPlan): seq<Cmd> {
    if tunName in w.host.links then CloseCmds(hash, tunName, w, plan) else RunScript(hash, w, plan).cmds
  }

  function Stop(hash: string -> string, c: Settings, w: World, plan: StartPlan): nat {
    var n := |Program(hash, c, plan.server, w)|;
    if plan.stop <= n then plan.stop else n
  }

  predicate Succeeds(hash: string -> string, c: Settings, w: World, plan: StartPlan) {
    Admitted(c, w) && plan.stop >= |Program(hash, c, plan.server, w)|
  }

  /** Everything a start does, cleanup included. */
  function StartCmds(hash: string -> string, c: Settings, w: World, plan: StartPlan): seq<Cmd> {
    var all, k := Program(hash, c, plan.server, w), Stop(hash, c, w, plan);
    if Succeeds(hash, c, w, plan) then all
    else if k <= |Prelude(c, w)| then all[..k]
    else all[..k] + CleanupCmds(hash, c.tunName, Exec(w, all[..k]), plan.cleanup)
  }

  // ---- The exact result of a complete start --------------------------------------

  function AfterRules(s: Snapshot, rs: seq<Rule>): Snapshot
    decreases |rs|
  {
    if rs == [] then s else AfterRules(Confirmed(s, RuleOp(rs[0])), rs[1..])
  }

  function FinalSnapshot(hash: string -> string, c: Settings, server: IPv4, s: Snapshot): Snapshot {
    var s3 := Confirmed(TunSnapshot(c, SysctlSnapshot(s)), ResolvOp(hash, c));
    var s5 := Confirmed(Confirmed(s3, RouteOp(GatewayRoute(c))), RouteOp(DefaultRoute(c)));
    AfterRules(s5, Installed(Marks(c), server))
  }

  function ConnectedHost(c: Settings, server: IPv4, h: Host): Host {
    Host(
      InsertAll(h.rules, Installed(Marks(c), server)),
      h.routes + {GatewayRoute(c), DefaultRoute(c)},
      h.links + {c.tunName},
      h.sysctls[IPV6_KEY := "1"],
      Regular(ManagedContent(c)))
  }

  lemma ExecLogged(w: World, s: Snapshot, op: Op, cmd: Cmd)
    requires !cmd.Persist? && !cmd.RemoveSnapshot?
    ensures Exec(w, Logged(s, op, cmd)) == Apply(w, cmd).(snapshot := Stored(Confirmed(s, op)))
  {
    var cs := Logged(s, op, cmd);
    assert cs[1..] == [cmd, Persist(Confirmed(s, op))];
    assert cs[1..][1..] == [Persist(Confirmed(s, op))];
    ExecOne(Apply(Apply(w, cs[0]), cmd), Persist(Confirmed(s, op)));
  }

  lemma {:induction false} ExecInstallRules(w: World, s: Snapshot, rs: seq<Rule>)
    requires w.snapshot == Stored(s)
    ensures Exec(w, InstallRules(s, rs)) ==
            w.(host := w.host.(rules := InsertAll(w.host.rules, rs)), snapshot := Stored(AfterRules(s, rs)))
    decreases |rs|
  {
    if rs != [] {
      ExecLogged(w, s, RuleOp(rs[0]), AddRule(rs[0]));
      ExecAppend(w, Logged(s, RuleOp(rs[0]), AddRule(rs[0])), InstallRules(Confirmed(s, RuleOp(rs[0])), rs[1..]));
      ExecInstallRules(Exec(w, Logged(s, RuleOp(rs[0]), AddRule(rs[0]))), Confirmed(s, RuleOp(rs[0])), rs[1..]);
    }
  }

  lemma ExecInstallRouting(w: World, c: Settings, server: IPv4, s: Snapshot)
    requires w.snapshot == Stored(s)
    ensures var s2 := Confirmed(Confirmed(s, RouteOp(GatewayRoute(c))), RouteOp(DefaultRoute(c)));
            Exec(w, InstallRouting(c, server, s)) ==
            w.(host := w.host.(
                 rules := InsertAll(w.host.rules, Installed(Marks(c), server)),
                 routes := w.host.routes + {GatewayRoute(c), DefaultRoute(c)}),
               snapshot := Stored(AfterRules(s2, Installed(Marks(c), server))))
  {
    var s1 := Confirmed(s, RouteOp(GatewayRoute(c)));
    var s2 := Confirmed(s1, RouteOp(DefaultRoute(c)));
    var a := Logged(s, RouteOp(GatewayRoute(c)), AddRoute(GatewayRoute(c)));
    var b := Logged(s1, RouteOp(DefaultRoute(c)), AddRoute(DefaultRoute(c)));
    var d := InstallRules(s2, Installed(Marks(c), server));
    ExecAppend(w, a, b + d);
    ExecLogged(w, s, RouteOp(GatewayRoute(c)), AddRoute(GatewayRoute(c)));
    var w1 := Exec(w, a);
    ExecAppend(w1, b, d);
    ExecLogged(w1, s1, RouteOp(DefaultRoute(c)), AddRoute(DefaultRoute(c)));
    ExecInstallRules(Exec(w1, b), s2, Installed(Marks(c), server));
    assert w.host.routes + {GatewayRoute(c)} + {DefaultRoute(c)} == w.host.routes + {GatewayRoute(c), DefaultRoute(c)};
  }

  lemma ExecTakeOver(hash: string -> string, w: World, c: Settings, s: Snapshot)
    ensures Exec(w, TakeOverResolv(hash, c, w.host.resolv, s)) ==
            w.(host := w.host.(resolv := Regular(ManagedContent(c))), snapshot := Stored(Confirmed(s, ResolvOp(hash, c))))
  {
    var rest := Logged(s, ResolvOp(hash, c), RenameToResolv(ManagedContent(c)));
    if w.host.resolv.Symlink? {
      ExecAppend(w, [UnlinkResolv], rest);
      ExecOne(w, UnlinkResolv);
      ExecLogged(Apply(w, UnlinkResolv), s, ResolvOp(hash, c), RenameToResolv(ManagedContent(c)));
    } else {
      assert TakeOverResolv(hash, c, w.host.resolv, s) == rest;
      ExecLogged(w, s, ResolvOp(hash, c), RenameToResolv(ManagedContent(c)));
    }
  }

  lemma ExecTwo(w: World, a: Cmd, b: Cmd)
    ensures Exec(w, [a, b]) == Apply(Apply(w, a), b)
  {
    assert [a, b][1..] == [b];
    ExecOne(Apply(w, a), b);
  }

  lemma ExecBackup(c: Settings, w: World)
    ensures Exec(w, BackupCmds(c, w.host.resolv)) ==
            if w.host.resolv.Regular? then w.(backups := w.backups[BackupPath(c) := w.host.resolv.content]) else w
  {
    if w.host.resolv.Regular? {
      ExecTwo(w, TruncateBackup(BackupPath(c)), WriteBackup(BackupPath(c), w.host.resolv.content));
    }
  }

  lemma ExecBringUp(hash: string -> string, w: World, c: Settings, server: IPv4, s: Snapshot)
    ensures Exec(w, BringUp(hash, c, server, w.host.resolv, s)) ==
            World(ConnectedHost(c, server, w.host), Stored(FinalSnapshot(hash, c, server, s)), w.backups)
  {
    var s1 := SysctlSnapshot(s);
    var s2 := TunSnapshot(c, s1);
    var s3 := Confirmed(s2, ResolvOp(hash, c));
    var d, e := TakeOverResolv(hash, c, w.host.resolv, s2), InstallRouting(c, server, s3);
    var tun := [CreateTun(c.tunName), Persist(s2)];
    var ipv6 := [WriteSysctl(IPV6_KEY, "1"), Persist(s1)];
    ExecAppend(w, [Persist(s)], ipv6 + (tun + (d + e)));
    ExecOne(w, Persist(s));
    var w0 := Apply(w, Persist(s));
    ExecAppend(w0, ipv6, tun + (d + e));
    ExecTwo(w0, ipv6[0], ipv6[1]);
    var w1 := Exec(w0, ipv6);
    ExecAppend(w1, tun, d + e);
    ExecTwo(w1, tun[0], tun[1]);
    var w2 := Exec(w1, tun);
    ExecAppend(w2, d, e);
    ExecTakeOver(hash, w2, c, s2);
    ExecInstallRouting(Exec(w2, d), c, server, s3);
  }

  /** A complete start leaves exactly the connected host, the full log and, for a regular file, the backup. */
  lemma StartResult(hash: string -> string, c: Settings, server: IPv4, w: World)
    requires Admitted(c, w)
    ensures Exec(w, Program(hash, c, server, w)) == World(
              ConnectedHost(c, server, w.host),
              Stored(FinalSnapshot(hash, c, server, FirstSnapshot(hash, c, w.host))),
              if w.host.resolv.Regular? then w.backups[BackupPath(c) := w.host.resolv.content] else w.backups)
  {
    var s := FirstSnapshot(hash, c, w.host);
    ExecAppend(w, BackupCmds(c, w.host.resolv), BringUp(hash, c, server, w.host.resolv, s));
    ExecBackup(c, w);
    ExecBringUp(hash, Exec(w, BackupCmds(c, w.host.resolv)), c, server, s);
  }
}
