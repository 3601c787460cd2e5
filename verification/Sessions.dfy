/**
 The session object and the snapshot writer, step by step, proved against the programs of
 `StartProgram`. Failures that the environment decides are picked by `Fault`.
 */
module Sessions {
  import opened Addresses
  import opened Snapshots
  import opened Hosts
  import opened Machines
  import opened PanicScript
  import opened Config
  import opened Routing
  import opened Discipline
  import opened StartProgram

  /** The outside world: any call into it may fail, and it remembers that one did. */
  class Environment {
    var faulted: bool

    constructor ()
      ensures !faulted
    {
      faulted := false;
    }

    method Fault() returns (fault: bool)
      modifies this
      ensures faulted == (old(faulted) || fault)
    {
      fault := *;
      faulted := faulted || fault;
    }
  }

  /** Either all of cs took effect, or a proper prefix of it did. */
  twostate predicate Ran(m: Machine, cs: seq<Cmd>, ok: bool)
    reads m
  {
    && m.Valid()
    && if ok then m.log == old(m.log) + cs else old(m.log) <= m.log < old(m.log) + cs
  }

  /** The snapshot under construction. */
  class Writer {
    const backupPath: string
    var snap: Snapshot
    var nextSeq: int

    ghost predicate Valid()
      reads this
    {
      nextSeq == |snap.actions| + 1
    }

    constructor (marks: OurMarks, backupPath: string)
      ensures Valid() && this.backupPath == backupPath
      ensures snap == Snapshot(VERSION, marks, PreState(ABSENT_RESOLV, false, []), [])
    {
      this.backupPath := backupPath;
      snap := Snapshot(VERSION, marks, PreState(ABSENT_RESOLV, false, []), []);
      nextSeq := 1;
    }

    /** Record what resolv.conf is; a regular file is copied to the backup and the copy hashed. */
    method RecordResolvConf(m: Machine, env: Environment) returns (ok: bool)
      requires Valid() && m.Valid()
      modifies this, m, env
      ensures !ok ==> env.faulted
      ensures Valid() && m.Valid()
      ensures ok ==> snap == old(snap).(pre := old(snap).pre.(resolvConf := RecordedResolv(m.hash, old(m.resolv), backupPath)))
      ensures var cs := if old(m.resolv).Regular?
                        then [TruncateBackup(backupPath), WriteBackup(backupPath, old(m.resolv).content)] else [];
              if ok then m.log == old(m.log) + cs else old(m.log) <= m.log <= old(m.log) + cs
      ensures m.rules == old(m.rules) && m.links == old(m.links) && m.sysctls == old(m.sysctls)
      ensures m.resolv == old(m.resolv) && m.snapshot == old(m.snapshot)
    {
      var fault := env.Fault();
      if fault {
        return false;
      }
      match m.resolv
      case Absent =>
        snap := snap.(pre := snap.pre.(resolvConf := ABSENT_RESOLV));
        return true;
      case Symlink(target) =>
        snap := snap.(pre := snap.pre.(resolvConf := ResolvConfState(true, "", true, target, "")));
        return true;
      case Regular(content) =>
        fault := env.Fault();
        ok := m.TruncateBackup(backupPath, fault);
        if !ok {
          return;
        }
        fault := env.Fault();
        ok := m.WriteBackup(backupPath, content, fault);
        if !ok {
          return;
        }
        fault := env.Fault();
        if fault {
          return false;
        }
        snap := snap.(pre := snap.pre.(
          resolvConf := ResolvConfState(true, backupPath, false, "", m.hash(m.backups[backupPath]))));
    }

    method RecordSysctl(key: string, valueBefore: string)
      requires Valid()
      modifies this
      ensures Valid()
      ensures snap == old(snap).(pre := old(snap).pre.(sysctls := old(snap).pre.sysctls + [SysctlState(key, valueBefore)]))
    {
      snap := snap.(pre := snap.pre.(sysctls := snap.pre.sysctls + [SysctlState(key, valueBefore)]));
    }

    method Append(op: Op, done: bool)
      requires Valid()
      modifies this
      ensures Valid()
      ensures snap == AppendAction(old(snap), op, done)
    {
      snap := snap.(actions := snap.actions + [Action(nextSeq, op, done)]);
      nextSeq := nextSeq + 1;
    }

    method MarkDone()
      requires Valid()
      modifies this
      ensures Valid()
      ensures snap == MarkLastDone(old(snap))
    {
      var n := |snap.actions|;
      if n == 0 {
        return;
      }
      snap := snap.(actions := snap.actions[n - 1 := snap.actions[n - 1].(done := true)]);
    }
  }

  class Session {
    const cfg: Settings
    var tunOpen: bool
    var server: Option<IPv4>
    var stopped: bool

    constructor (cfg: Settings)
      ensures this.cfg == cfg && !tunOpen && server == None && !stopped
    {
      this.cfg := cfg;
      tunOpen, server, stopped := false, None, false;
    }

    /** Log the intent, add the rule, confirm. */
    method AddRuleLogged(m: Machine, w: Writer, env: Environment, rule: Rule) returns (ok: bool)
      requires m.Valid() && w.Valid()
      modifies m, w, env
      ensures !ok ==> env.faulted
      ensures w.Valid() && Ran(m, Logged(old(w.snap), RuleOp(rule), AddRule(rule)), ok)
      ensures ok ==> w.snap == Confirmed(old(w.snap), RuleOp(rule))
      ensures m.links == old(m.links)
    {
      hide Exec;
      ghost var cs := Logged(w.snap, RuleOp(rule), AddRule(rule));
      w.Append(OpRuleAdd(rule.priority, rule.table, rule.dst), false);
      var fault := env.Fault();
      ok := m.Persist(w.snap, fault);
      if !ok {
        return;
      }
      fault := env.Fault();
      ok := m.AddRule(rule, fault);
      if !ok {
        assert m.log == old(m.log) + cs[..1];
        return;
      }
      w.MarkDone();
      fault := env.Fault();
      ok := m.Persist(w.snap, fault);
      assert ok ==> m.log == old(m.log) + cs;
      assert !ok ==> m.log == old(m.log) + cs[..2];
    }

    /** Log the intent, add the route, confirm. */
    method AddRouteLogged(m: Machine, w: Writer, env: Environment, route: Route) returns (ok: bool)
      requires m.Valid() && w.Valid()
      modifies m, w, env
      ensures !ok ==> env.faulted
      ensures w.Valid() && Ran(m, Logged(old(w.snap), RouteOp(route), AddRoute(route)), ok)
      ensures ok ==> w.snap == Confirmed(old(w.snap), RouteOp(route))
      ensures m.links == old(m.links)
    {
      hide Exec;
      ghost var cs := Logged(w.snap, RouteOp(route), AddRoute(route));
      w.Append(OpRouteAdd(route.table, route.spec), false);
      var fault := env.Fault();
      ok := m.Persist(w.snap, fault);
      if !ok {
        return;
      }
      fault := env.Fault();
      ok := m.AddRoute(route, fault);
      if !ok {
        assert m.log == old(m.log) + cs[..1];
        return;
      }
      w.MarkDone();
      fault := env.Fault();
      ok := m.Persist(w.snap, fault);
      assert ok ==> m.log == old(m.log) + cs;
      assert !ok ==> m.log == old(m.log) + cs[..2];
    }

    /** The seven bypass rules in order, then the catchall. */
    method InstallPolicyRules(m: Machine, w: Writer, env: Environment, svr: IPv4) returns (ok: bool)
      requires m.Valid() && w.Valid() && cfg.rulePriority >= 1000
      modifies m, w, env
      ensures !ok ==> env.faulted
      ensures w.Valid() && Ran(m, InstallRules(old(w.snap), Installed(Marks(cfg), svr)), ok)
      ensures m.links == old(m.links)
    {
      ghost var ours := Installed(Marks(cfg), svr);
      ghost var whole := m.log + InstallRules(w.snap, ours);
      var bypasses := BypassCidrs(svr);
      var i := 0;
      assert ours[0..] == ours;
      while i < |bypasses|
        invariant 0 <= i <= |bypasses|
        invariant m.Valid() && w.Valid() && m.links == old(m.links)
        invariant old(m.log) <= m.log
        invariant m.log + InstallRules(w.snap, ours[i..]) == whole
      {
        var pri := cfg.rulePriority - |bypasses| + i;
        assert pri >= 1;
        var rule := Rule(pri, MAIN_TABLE, Some(bypasses[i]));
        assert ours[i] == rule && ours[i..][0] == rule && ours[i..][1..] == ours[i + 1..];
        ghost var before, snap := m.log, w.snap;
        ok := AddRuleLogged(m, w, env, rule);
        if !ok {
          RestIsPrefix(before, Logged(snap, RuleOp(rule), AddRule(rule)), InstallRules(Confirmed(snap, RuleOp(rule)), ours[i + 1..]), m.log);
          return;
        }
        i := i + 1;
      }
      var rule := Rule(cfg.rulePriority, cfg.routingTableId, None);
      assert ours[i] == rule && ours[i..] == [rule] && ours[i..][1..] == [];
      assert InstallRules(w.snap, ours[i..]) == Logged(w.snap, RuleOp(rule), AddRule(rule));
      ok := AddRuleLogged(m, w, env, rule);
    }

    /** A proper prefix of the first part is a proper prefix of the whole. */
    lemma RestIsPrefix(before: seq<Cmd>, a: seq<Cmd>, b: seq<Cmd>, log: seq<Cmd>)
      requires before <= log < before + a
      ensures before <= log < before + (a + b)
    {
      assert before + (a + b) == before + a + b;
    }

    /** Two routes in our own table, then the rules. */
    method InstallRoutes(m: Machine, w: Writer, env: Environment, svr: IPv4) returns (ok: bool)
      requires m.Valid() && w.Valid() && cfg.rulePriority >= 1000
      modifies m, w, env
      ensures !ok ==> env.faulted
      ensures w.Valid() && Ran(m, InstallRouting(cfg, svr, old(w.snap)), ok)
      ensures m.links == old(m.links)
    {
      ghost var s := w.snap;
      ghost var s1 := Confirmed(s, RouteOp(GatewayRoute(cfg)));
      ghost var s2 := Confirmed(s1, RouteOp(DefaultRoute(cfg)));
      ghost var a := Logged(s, RouteOp(GatewayRoute(cfg)), AddRoute(GatewayRoute(cfg)));
      ghost var b := Logged(s1, RouteOp(DefaultRoute(cfg)), AddRoute(DefaultRoute(cfg)));
      ghost var d := InstallRules(s2, Installed(Marks(cfg), svr));
      var fault := env.Fault();
      if fault {
        return false;
      }
      ok := AddRouteLogged(m, w, env, Route(cfg.routingTableId, cfg.tunName, OnLink(cfg.tunGateway, cfg.tunIP)));
      if !ok {
        RestIsPrefix(old(m.log), a, b + d, m.log);
        return;
      }
      ok := AddRouteLogged(m, w, env, Route(cfg.routingTableId, cfg.tunName, DefaultVia(cfg.tunGateway)));
      if !ok {
        RestIsPrefix(old(m.log) + a, b, d, m.log);
        assert old(m.log) + a + (b + d) == old(m.log) + (a + (b + d));
        return;
      }
      ok := InstallPolicyRules(m, w, env, svr);
      assert old(m.log) + a + b + d == old(m.log) + (a + (b + d));
    }

    /** Log the intent, move the new file into place, confirm. */
    method ReplaceResolvLogged(m: Machine, w: Writer, env: Environment) returns (ok: bool)
      requires m.Valid() && w.Valid()
      modifies m, w, env
      ensures !ok ==> env.faulted
      ensures w.Valid()
      ensures Ran(m, Logged(old(w.snap), ResolvOp(m.hash, cfg), RenameToResolv(ManagedContent(cfg))), ok)
      ensures ok ==> w.snap == Confirmed(old(w.snap), ResolvOp(m.hash, cfg))
      ensures m.links == old(m.links)
    {
      var content := ManagedContent(cfg);
      hide Exec, AppendAction, MarkLastDone, ManagedContent;
      ghost var cs := Logged(w.snap, ResolvOp(m.hash, cfg), RenameToResolv(content));
      w.Append(OpResolvWrite(cfg.resolvPath, m.hash(content)), false);
      var fault := env.Fault();
      ok := m.Persist(w.snap, fault);
      if !ok {
        return;
      }
      fault := env.Fault();
      ok := m.RenameToResolv(content, fault);
      if !ok {
        assert m.log == old(m.log) + cs[..1];
        return;
      }
      w.MarkDone();
      fault := env.Fault();
      ok := m.Persist(w.snap, fault);
      assert ok ==> m.log == old(m.log) + cs;
      assert !ok ==> m.log == old(m.log) + cs[..2];
    }

    /** A symlink is unlinked before the new file is written; a plain file is just replaced. */
    method WriteResolvConf(m: Machine, w: Writer, env: Environment) returns (ok: bool)
      requires m.Valid() && w.Valid()
      modifies m, w, env
      ensures !ok ==> env.faulted
      ensures w.Valid() && Ran(m, TakeOverResolv(m.hash, cfg, old(m.resolv), old(w.snap)), ok)
      ensures ok ==> w.snap == Confirmed(old(w.snap), ResolvOp(m.hash, cfg))
      ensures m.links == old(m.links)
    {
      ghost var rest := Logged(w.snap, ResolvOp(m.hash, cfg), RenameToResolv(ManagedContent(cfg)));
      var fault := env.Fault();
      if fault {
        return false;
      }
      if m.resolv.Symlink? {
        fault := env.Fault();
        ok := m.UnlinkResolv(fault);
        if !ok {
          return;
        }
        ok := ReplaceResolvLogged(m, w, env);
        assert old(m.log) + [UnlinkResolv] + rest == old(m.log) + ([UnlinkResolv] + rest);
      } else {
        ok := ReplaceResolvLogged(m, w, env);
        assert TakeOverResolv(m.hash, cfg, old(m.resolv), old(w.snap)) == rest;
      }
    }

    /** Read-only checks, the backup, and the first snapshot. */
    method Prepare(m: Machine, w: Writer, env: Environment) returns (ok: bool)
      requires m.Valid() && w.Valid() && m.snapshot.Missing? && w.backupPath == BackupPath(cfg)
      requires w.snap == Snapshot(VERSION, Marks(cfg), PreState(ABSENT_RESOLV, false, []), [])
      modifies m, w, env
      ensures !ok ==> env.faulted || !Admitted(cfg, old(m.Now()))
      ensures m.Valid() && w.Valid()
      ensures ok ==> Admitted(cfg, old(m.Now())) && w.snap == FirstSnapshot(m.hash, cfg, old(m.Now()).host)
      ensures ok ==> m.log == old(m.log) + BackupCmds(cfg, old(m.resolv)) + [Persist(w.snap)]
      ensures !ok ==> old(m.log) <= m.log <= old(m.log) + BackupCmds(cfg, old(m.resolv))
      ensures m.links == old(m.links) && m.resolv == old(m.resolv) && m.sysctls == old(m.sysctls)
    {
      ok := w.RecordResolvConf(m, env);
      if !ok {
        return;
      }
      var fault := env.Fault();
      if fault || IPV6_KEY !in m.sysctls || m.sysctls[IPV6_KEY] !in ["0", "1"] {
        return false;
      }
      w.RecordSysctl(IPV6_KEY, m.sysctls[IPV6_KEY]);
      if cfg.tunName in m.links {
        return false;
      }
      fault := env.Fault();
      ok := m.Persist(w.snap, fault);
    }

    /** Create the device and bring it up; on a later failure the device is closed again. */
    method NewTunDevice(m: Machine, env: Environment) returns (ok: bool, created: bool)
      requires m.Valid() && !tunOpen
      modifies m, this`tunOpen, env
      ensures !ok ==> env.faulted
      ensures m.Valid() && tunOpen == ok && (ok ==> created)
      ensures m.log == old(m.log) + (if created then [CreateTun(cfg.tunName)] else [])
                                  + (if created && !ok then [CloseTun(cfg.tunName)] else [])
      ensures m.resolv == old(m.resolv)
      ensures m.links == if ok then old(m.links) + {cfg.tunName}
                         else if created then old(m.links) - {cfg.tunName}
                         else old(m.links)
    {
      var fault := env.Fault();
      created := m.CreateTun(cfg.tunName, fault);
      ok := created;
      if created {
        fault := env.Fault();
        if fault {
          m.CloseTun(cfg.tunName);
          ok := false;
        }
      }
      tunOpen := ok;
    }

    /** Switch IPv6 off, then log it: the old value is already in the pre-state. */
    method SuppressIPv6(m: Machine, w: Writer, env: Environment) returns (ok: bool)
      requires m.Valid() && w.Valid() && IPV6_KEY in m.sysctls
      modifies m, w, env
      ensures !ok ==> env.faulted
      ensures w.Valid() && Ran(m, [WriteSysctl(IPV6_KEY, "1"), Persist(SysctlSnapshot(old(w.snap)))], ok)
      ensures ok ==> w.snap == SysctlSnapshot(old(w.snap))
      ensures m.links == old(m.links) && m.resolv == old(m.resolv)
    {
      hide Exec;
      ghost var cs := [WriteSysctl(IPV6_KEY, "1"), Persist(SysctlSnapshot(w.snap))];
      var fault := env.Fault();
      ok := m.WriteSysctl(IPV6_KEY, "1", fault);
      if !ok {
        return;
      }
      w.Append(OpSysctlSet(IPV6_KEY, "1"), true);
      fault := env.Fault();
      ok := m.Persist(w.snap, fault);
      assert ok ==> m.log == old(m.log) + cs;
      assert !ok ==> m.log == old(m.log) + cs[..1];
    }

    /**
     Create the device, then log it: its name is already in the marks. `ran` is what took
     effect; a device that could not be brought up has been `closed` again.
     */
    method RaiseTun(m: Machine, w: Writer, env: Environment) returns (ok: bool, ghost ran: seq<Cmd>, ghost closed: bool)
      requires m.Valid() && w.Valid() && !tunOpen && cfg.tunName !in m.links
      modifies m, w, this`tunOpen, env
      ensures !ok ==> env.faulted
      ensures m.Valid() && w.Valid()
      ensures var cs := [CreateTun(cfg.tunName), Persist(TunSnapshot(cfg, old(w.snap)))];
              if ok then ran == cs && !closed && w.snap == TunSnapshot(cfg, old(w.snap)) else ran < cs
      ensures m.log == old(m.log) + ran + (if closed then [CloseTun(cfg.tunName)] else [])
      ensures closed ==> !tunOpen && ran == [CreateTun(cfg.tunName)]
      ensures !closed ==> (tunOpen <==> cfg.tunName in m.links)
      ensures ok ==> tunOpen
      ensures m.resolv == old(m.resolv)
    {
      var created;
      ok, created := NewTunDevice(m, env);
      ran := if created then [CreateTun(cfg.tunName)] else [];
      closed := created && !ok;
      if !ok {
        return;
      }
      w.Append(OpTunCreate(cfg.tunName), true);
      var fault := env.Fault();
      ok := m.Persist(w.snap, fault);
      if ok {
        ran := ran + [Persist(w.snap)];
      }
    }

    /** Take over resolv.conf, then install routes and rules. */
    method Redirect(m: Machine, w: Writer, env: Environment, svr: IPv4) returns (ok: bool)
      requires m.Valid() && w.Valid() && cfg.rulePriority >= 1000
      modifies m, w, env
      ensures !ok ==> env.faulted
      ensures w.Valid()
      ensures Ran(m, TakeOverResolv(m.hash, cfg, old(m.resolv), old(w.snap))
                     + InstallRouting(cfg, svr, Confirmed(old(w.snap), ResolvOp(m.hash, cfg))), ok)
      ensures m.links == old(m.links)
    {
      ghost var d := TakeOverResolv(m.hash, cfg, m.resolv, w.snap);
      ghost var e := InstallRouting(cfg, svr, Confirmed(w.snap, ResolvOp(m.hash, cfg)));
      ok := WriteResolvConf(m, w, env);
      if !ok {
        RestIsPrefix(old(m.log), d, e, m.log);
        return;
      }
      ok := InstallRoutes(m, w, env, svr);
      assert old(m.log) + d + e == old(m.log) + (d + e);
    }

    /** The device, then resolv.conf, routes and rules. */
    method RaiseAndRedirect(m: Machine, w: Writer, env: Environment, svr: IPv4)
      returns (ok: bool, ghost ran: seq<Cmd>, ghost closed: bool)
      requires m.Valid() && w.Valid() && cfg.rulePriority >= 1000 && !tunOpen && cfg.tunName !in m.links
      modifies m, w, this`tunOpen, env
      ensures !ok ==> env.faulted
      ensures m.Valid() && w.Valid()
      ensures var cs := TunnelCmds(m.hash, cfg, svr, old(m.resolv), old(w.snap));
              if ok then ran == cs && !closed else ran < cs
      ensures m.log == old(m.log) + ran + (if closed then [CloseTun(cfg.tunName)] else [])
      ensures closed ==> !tunOpen && |ran| > 0 && ran[|ran| - 1] == CreateTun(cfg.tunName)
      ensures !closed ==> (tunOpen <==> cfg.tunName in m.links)
      ensures ok ==> tunOpen
    {
      hide TakeOverResolv, InstallRouting;
      ghost var s2 := TunSnapshot(cfg, w.snap);
      ghost var rest := TakeOverResolv(m.hash, cfg, m.resolv, s2)
                        + InstallRouting(cfg, svr, Confirmed(s2, ResolvOp(m.hash, cfg)));
      ok, ran, closed := RaiseTun(m, w, env);
      if !ok {
        return;
      }
      ghost var before := m.log;
      ok := Redirect(m, w, env, svr);
      ghost var part := m.log[|before|..];
      assert m.log == before + part;
      if !ok {
        ProperPrefix(ran, part, rest);
      }
      ran := ran + part;
    }

    /** IPv6 off, then the lookup, which must not hand back an IPv6 address. */
    method SuppressAndResolve(m: Machine, w: Writer, env: Environment, resolved: Option<IPv4>) returns (ok: bool)
      requires m.Valid() && w.Valid() && IPV6_KEY in m.sysctls
      modifies m, w, this`server, env
      ensures !ok ==> env.faulted || resolved.None?
      ensures m.Valid() && w.Valid()
      ensures var cs := [WriteSysctl(IPV6_KEY, "1"), Persist(SysctlSnapshot(old(w.snap)))];
              if ok then m.log == old(m.log) + cs else old(m.log) <= m.log <= old(m.log) + cs
      ensures ok ==> w.snap == SysctlSnapshot(old(w.snap)) && resolved.Some? && server == resolved
      ensures m.links == old(m.links) && m.resolv == old(m.resolv)
    {
      ok := SuppressIPv6(m, w, env);
      if ok {
        server := resolved;
        var fault := env.Fault();
        ok := resolved.Some? && !fault;
      }
    }

    /** Everything after the first snapshot. */
    method Activate(m: Machine, w: Writer, env: Environment, resolved: Option<IPv4>, ghost svr: IPv4)
      returns (ok: bool, ghost ran: seq<Cmd>, ghost closed: bool)
      requires m.Valid() && w.Valid() && cfg.rulePriority >= 1000 && !tunOpen && cfg.tunName !in m.links
      requires (resolved.Some? ==> resolved.value == svr) && IPV6_KEY in m.sysctls
      modifies m, w, this`tunOpen, this`server, env
      ensures !ok ==> env.faulted || resolved.None?
      ensures m.Valid() && w.Valid()
      ensures var cs := Mutations(m.hash, cfg, svr, old(m.resolv), old(w.snap));
              if ok then ran == cs && !closed else ran < cs
      ensures m.log == old(m.log) + ran + (if closed then [CloseTun(cfg.tunName)] else [])
      ensures closed ==> !tunOpen && |ran| > 0 && ran[|ran| - 1] == CreateTun(cfg.tunName)
      ensures !closed ==> (tunOpen <==> cfg.tunName in m.links)
      ensures ok ==> tunOpen && server == resolved == Some(svr)
    {
      ghost var ipv6 := [WriteSysctl(IPV6_KEY, "1"), Persist(SysctlSnapshot(w.snap))];
      ghost var rest := TunnelCmds(m.hash, cfg, svr, m.resolv, SysctlSnapshot(w.snap));
      assert |rest| > 0;
      hide TunnelCmds;
      ok := SuppressAndResolve(m, w, env, resolved);
      if ok {
        ghost var part;
        ok, part, closed := RaiseAndRedirect(m, w, env, resolved.value);
        ran := ipv6 + part;
        Joined(old(m.log), ipv6, part, rest, if closed then [CloseTun(cfg.tunName)] else []);
      } else {
        ran, closed := m.log[|old(m.log)|..], false;
        assert ran <= ipv6 && ipv6 < ipv6 + rest;
      }
    }

    lemma Joined(log: seq<Cmd>, a: seq<Cmd>, part: seq<Cmd>, rest: seq<Cmd>, tail: seq<Cmd>)
      requires part <= rest
      ensures (log + a) + part + tail == log + (a + part) + tail
      ensures part < rest ==> a + part < a + rest
      ensures |part| > 0 ==> |a + part| > 0 && (a + part)[|a + part| - 1] == part[|part| - 1]
    {
    }

    lemma ProperPrefix(a: seq<Cmd>, b: seq<Cmd>, c: seq<Cmd>)
      requires b < c
      ensures a + b < a + c
    {
    }

    /** The script may be missing; otherwise its exit code decides. */
    method RunPanicScript(m: Machine, plan: PanicPlan) returns (exit: int)
      requires m.Valid()
      modifies m
      ensures m.Valid()
      ensures m.log == old(m.log) + RunScript(m.hash, old(m.Now()), plan).cmds
      ensures exit == RunScript(m.hash, old(m.Now()), plan).exit
    {
      if !plan.found {
        return 2;
      }
      exit := RunPanic(m, plan.faults);
    }

    /** Best effort after a failed start: its outcome is not reported. */
    method CleanupOnFailure(m: Machine, plan: PanicPlan)
      requires m.Valid() && (tunOpen <==> cfg.tunName in m.links)
      modifies m, this`tunOpen
      ensures m.Valid() && !tunOpen
      ensures m.log == old(m.log) + CleanupCmds(m.hash, cfg.tunName, old(m.Now()), plan)
    {
      if tunOpen {
        m.CloseTun(cfg.tunName);
        tunOpen := false;
      }
      var _ := RunPanicScript(m, plan);
    }

    /** The world after a failed start stopped after `ran` of its commands. */
    lemma StoppedWorld(m: Machine, before: seq<Cmd>, ran: seq<Cmd>, w: World)
      requires w == Exec(m.origin, before)
      ensures Exec(w, ran) == Exec(m.origin, before + ran)
    {
      ExecAppend(m.origin, before, ran);
    }

    /**
     Bring the session up. `resolved` is what the name lookup yields; `plan` reports where the
     environment stopped the start, and the commands executed are exactly those of the plan.
     */
    method Start(m: Machine, env: Environment, resolved: Option<IPv4>, cleanup: PanicPlan) returns (ok: bool, ghost plan: StartPlan)
      requires m.Valid() && cfg.rulePriority >= 1000 && !tunOpen && !stopped
      modifies m, this`tunOpen, this`server, env
      ensures m.Valid() && plan.cleanup == cleanup
      ensures ok == Succeeds(m.hash, cfg, old(m.Now()), plan)
      ensures m.log == old(m.log) + StartCmds(m.hash, cfg, old(m.Now()), plan)
      ensures m.Now() == Exec(old(m.Now()), StartCmds(m.hash, cfg, old(m.Now()), plan))
      ensures ok ==> tunOpen && server == resolved == Some(plan.server)
      ensures resolved.Some? ==> plan.server == resolved.value
      ensures !ok ==> env.faulted || resolved.None? || !Admitted(cfg, old(m.Now()))
    {
      hide Mutations, CleanupCmds;
      ghost var w0, log0 := m.Now(), m.log;
      ghost var svr: IPv4 := if resolved.Some? then resolved.value else 0;
      if !m.snapshot.Missing? {
        plan := StartPlan(svr, 0, cleanup);
        return false, plan;
      }
      var w := new Writer(Marks(cfg), BackupPath(cfg));
      ok := Prepare(m, w, env);
      if !ok {
        ghost var ran := m.log[|log0|..];
        plan := StartPlan(svr, |ran|, cleanup);
        assert m.log == log0 + ran;
        StoppedEarly(m.hash, w0, plan, ran);
      } else {
        ghost var done;
        ProgramSplit(m.hash, w0, svr);
        ok, done := Commit(m, w, env, resolved, cleanup, w0, log0, Prelude(cfg, w0) + [Persist(w.snap)], svr);
        plan := StartPlan(svr, |done|, cleanup);
        if !ok {
          StoppedLate(m.hash, w0, plan, done);
        }
      }
      StoppedWorld(m, log0, StartCmds(m.hash, cfg, w0, plan), w0);
    }

    /** A start that ends before the first snapshot needs no cleanup. */
    lemma StoppedEarly(hash: string -> string, w: World, plan: StartPlan, ran: seq<Cmd>)
      requires ran <= Prelude(cfg, w) && plan.stop == |ran|
      ensures StartCmds(hash, cfg, w, plan) == ran
      ensures !Succeeds(hash, cfg, w, plan)
    {
      var all := Program(hash, cfg, plan.server, w);
      assert Prelude(cfg, w) <= all;
      assert all[..|ran|] == ran;
    }

    /** What a start that stopped after `done`, past the first snapshot, amounts to. */
    lemma StoppedLate(hash: string -> string, w: World, plan: StartPlan, done: seq<Cmd>)
      requires Admitted(cfg, w) && plan.stop == |done| > |Prelude(cfg, w)|
      requires done < Program(hash, cfg, plan.server, w)
      ensures StartCmds(hash, cfg, w, plan) == done + CleanupCmds(hash, cfg.tunName, Exec(w, done), plan.cleanup)
      ensures !Succeeds(hash, cfg, w, plan)
    {
      assert Program(hash, cfg, plan.server, w)[..|done|] == done;
    }

    /** From the first snapshot on, every failure is followed by a cleanup. `done` is what took effect. */
    method Commit(m: Machine, w: Writer, env: Environment, resolved: Option<IPv4>, cleanup: PanicPlan,
                  ghost w0: World, ghost log0: seq<Cmd>, ghost first: seq<Cmd>, ghost svr: IPv4)
      returns (ok: bool, ghost done: seq<Cmd>)
      requires m.Valid() && w.Valid() && cfg.rulePriority >= 1000 && !tunOpen && cfg.tunName !in m.links
      requires w0 == Exec(m.origin, log0) && m.log == log0 + first
      requires (resolved.Some? ==> resolved.value == svr) && IPV6_KEY in m.sysctls
      modifies m, w, this`tunOpen, this`server, env
      ensures !ok ==> env.faulted || resolved.None?
      ensures m.Valid()
      ensures var all := first + Mutations(m.hash, cfg, svr, old(m.resolv), old(w.snap));
              if ok then done == all else first <= done < all
      ensures m.log == log0 + (if ok then done else done + CleanupCmds(m.hash, cfg.tunName, Exec(w0, done), cleanup))
      ensures ok ==> tunOpen && server == resolved == Some(svr)
    {
      hide RunScript, Mutations;
      ghost var cs := Mutations(m.hash, cfg, svr, m.resolv, w.snap);
      ghost var ran, closed;
      ok, ran, closed := Activate(m, w, env, resolved, svr);
      done := first + ran;
      assert m.log == log0 + done + (if closed then [CloseTun(cfg.tunName)] else []);
      if !ok {
        ProperPrefix(first, ran, cs);
        if closed {
          ClosedWorld(m, w0, log0, done);
        } else {
          assert m.log == log0 + done;
          StoppedWorld(m, log0, done, w0);
        }
        FinishFailedStart(m, Exec(w0, done), log0 + done, closed, cleanup);
        ghost var tail := CleanupCmds(m.hash, cfg.tunName, Exec(w0, done), cleanup);
        assert log0 + done + tail == log0 + (done + tail);
      }
    }

    lemma ProgramSplit(hash: string -> string, w: World, svr: IPv4)
      requires Admitted(cfg, w)
      ensures var s := FirstSnapshot(hash, cfg, w.host);
              Program(hash, cfg, svr, w)
              == (Prelude(cfg, w) + [Persist(s)]) + Mutations(hash, cfg, svr, w.host.resolv, s)
    {
      var s := FirstSnapshot(hash, cfg, w.host);
      var cs := Mutations(hash, cfg, svr, w.host.resolv, s);
      assert Prelude(cfg, w) + ([Persist(s)] + cs) == (Prelude(cfg, w) + [Persist(s)]) + cs;
    }

    /** Cleaning up after the half-made TUN was closed comes to the same as closing it then. */
    lemma SameCleanup(hash: string -> string, stopped: World, now: World, closed: bool, cleanup: PanicPlan)
      requires if closed then
                 cfg.tunName in stopped.host.links && now == Apply(stopped, CloseTun(cfg.tunName))
               else now == stopped
      ensures (if closed then [CloseTun(cfg.tunName)] else []) + CleanupCmds(hash, cfg.tunName, now, cleanup)
           == CleanupCmds(hash, cfg.tunName, stopped, cleanup)
    {
      hide RunScript;
    }

    /** Clean up, whether or not the half-made TUN was closed already. */
    method FinishFailedStart(m: Machine, ghost stopped: World, ghost upTo: seq<Cmd>, ghost closed: bool, cleanup: PanicPlan)
      requires m.Valid() && (tunOpen <==> cfg.tunName in m.links)
      requires m.log == upTo + (if closed then [CloseTun(cfg.tunName)] else [])
      requires if closed then
                 cfg.tunName in stopped.host.links && m.Now() == Apply(stopped, CloseTun(cfg.tunName))
               else m.Now() == stopped
      modifies m, this`tunOpen
      ensures m.Valid()
      ensures m.log == upTo + CleanupCmds(m.hash, cfg.tunName, stopped, cleanup)
    {
      hide RunScript;
      ghost var a, b := if closed then [CloseTun(cfg.tunName)] else [], CleanupCmds(m.hash, cfg.tunName, m.Now(), cleanup);
      SameCleanup(m.hash, stopped, m.Now(), closed, cleanup);
      CleanupOnFailure(m, cleanup);
      assert upTo + a + b == upTo + (a + b);
    }

    lemma ClosedWorld(m: Machine, w0: World, log0: seq<Cmd>, done: seq<Cmd>)
      requires m.Valid() && w0 == Exec(m.origin, log0)
      requires m.log == log0 + done + [CloseTun(cfg.tunName)]
      requires |done| > 0 && done[|done| - 1] == CreateTun(cfg.tunName)
      ensures cfg.tunName in Exec(w0, done).host.links
      ensures m.Now() == Apply(Exec(w0, done), CloseTun(cfg.tunName)) && cfg.tunName !in m.links
    {
      ExecAppend(m.origin, log0, done);
      ExecAppend(m.origin, log0 + done, [CloseTun(cfg.tunName)]);
      ExecOne(Exec(w0, done), CloseTun(cfg.tunName));
      var n := |done| - 1;
      assert done == done[..n] + [done[n]];
      ExecAppend(w0, done[..n], [done[n]]);
      ExecOne(Exec(w0, done[..n]), done[n]);
    }

    /** Close once: drop the TUN, run the script, report its verdict. A second call does nothing. */
    method Close(m: Machine, plan: PanicPlan) returns (ok: bool)
      requires m.Valid() && (!stopped ==> tunOpen)
      modifies m, this`tunOpen, this`stopped
      ensures m.Valid() && stopped && !tunOpen
      ensures old(stopped) ==> ok && m.log == old(m.log) && m.Now() == old(m.Now())
      ensures !old(stopped) ==>
                && m.log == old(m.log) + CloseCmds(m.hash, cfg.tunName, old(m.Now()), plan)
                && m.Now() == Exec(old(m.Now()), CloseCmds(m.hash, cfg.tunName, old(m.Now()), plan))
                && ok == (CloseExit(m.hash, cfg.tunName, old(m.Now()), plan) == 0)
    {
      if stopped {
        tunOpen := false;
        return true;
      }
      stopped := true;
      ghost var w0, log0 := m.Now(), m.log;
      m.CloseTun(cfg.tunName);
      tunOpen := false;
      var exit := RunPanicScript(m, plan);
      assert m.log == log0 + CloseCmds(m.hash, cfg.tunName, w0, plan);
      StoppedWorld(m, log0, CloseCmds(m.hash, cfg.tunName, w0, plan), w0);
      ok := exit == 0;
    }
  }
}
