/**
 Settings that the daemon accepts, and what becomes of a connection made with them: exactly
 when it can be undone, and what happens in each case in which it cannot.
 */
module AcceptedSettings {
  import opened Addresses
  import opened Snapshots
  import opened Hosts
  import opened Panic
  import opened PanicEffects
  import opened Config
  import opened Routing
  import opened Discipline
  import opened StartProgram
  import opened StartSafety
  import opened Journals

  // ---- The final snapshot and the installed rules ---------------------------------------

  lemma {:induction false} AfterRulesMarks(s: Snapshot, rs: seq<Rule>)
    ensures var t := AfterRules(s, rs); t.marks == s.marks && t.version == s.version && t.pre == s.pre
    decreases |rs|
  {
    if rs != [] {
      AfterRulesMarks(Confirmed(s, RuleOp(rs[0])), rs[1..]);
    }
  }

  lemma FinalMarks(hash: string -> string, c: Settings, server: IPv4, s: Snapshot)
    ensures var t := FinalSnapshot(hash, c, server, s); t.marks == s.marks && t.version == s.version && t.pre == s.pre
  {
    var s3 := Confirmed(TunSnapshot(c, SysctlSnapshot(s)), ResolvOp(hash, c));
    var s5 := Confirmed(Confirmed(s3, RouteOp(GatewayRoute(c))), RouteOp(DefaultRoute(c)));
    AfterRulesMarks(s5, Installed(Marks(c), server));
  }

  lemma {:induction false} SweptAfterRules(s: Snapshot, rs: seq<Rule>, p: int)
    ensures p in Swept(AfterRules(s, rs)) <==>
              p in Swept(s) || (p >= 1000 && exists r :: r in rs && r.priority == p)
    decreases |rs|
  {
    if rs != [] {
      var t := Confirmed(s, RuleOp(rs[0]));
      SweptAppend(s, RuleOp(rs[0]), false);
      SweptMarkLastDone(AppendAction(s, RuleOp(rs[0]), false));
      SweptAfterRules(t, rs[1..], p);
      assert forall r :: r in rs <==> r == rs[0] || r in rs[1..];
    }
  }

  lemma SweptOther(s: Snapshot, op: Op)
    requires !op.OpRuleAdd?
    ensures Swept(AppendAction(s, op, true)) == Swept(s) && Swept(Confirmed(s, op)) == Swept(s)
  {
    SweptAppend(s, op, true);
    SweptAppend(s, op, false);
    SweptMarkLastDone(AppendAction(s, op, false));
  }

  /** After a complete start, exactly the priorities of our rules from 1000 up are swept. */
  lemma SweptFinal(hash: string -> string, c: Settings, server: IPv4, s: Snapshot, p: int)
    requires s.marks == Marks(c) && s.actions == [] && c.rulePriority >= 1000
    ensures p in Swept(FinalSnapshot(hash, c, server, s)) <==> InWindow(c.rulePriority, p) && p >= 1000
  {
    var s1 := SysctlSnapshot(s);
    var s2 := TunSnapshot(c, s1);
    var s3 := Confirmed(s2, ResolvOp(hash, c));
    var s4 := Confirmed(s3, RouteOp(GatewayRoute(c)));
    SweptOther(s, OpSysctlSet(IPV6_KEY, "1"));
    SweptOther(s1, OpTunCreate(c.tunName));
    SweptOther(s2, ResolvOp(hash, c));
    SweptOther(s3, RouteOp(GatewayRoute(c)));
    SweptOther(s4, RouteOp(DefaultRoute(c)));
    assert Swept(s) == [c.rulePriority];
    var ours := Installed(Marks(c), server);
    SweptAfterRules(Confirmed(s4, RouteOp(DefaultRoute(c))), ours, p);
    PriorityWindow(Marks(c), server);
    if InWindow(c.rulePriority, p) {
      var i :| 0 <= i <= BYPASS_COUNT && ours[i].priority == p;
      assert ours[i] in ours;
    }
  }

  lemma {:induction false} InsertAllCounts(rs: seq<Rule>, more: seq<Rule>, p: int)
    ensures CountAt(InsertAll(rs, more), p) == CountAt(rs, p) + CountAt(more, p)
    decreases |more|
  {
    if more != [] {
      InsertCounts(rs, more[0], p);
      InsertAllCounts(InsertRule(rs, more[0]), more[1..], p);
    }
  }

  lemma {:induction false} DistinctCounts(rs: seq<Rule>, p: int)
    requires forall i, j :: 0 <= i < j < |rs| ==> rs[i].priority != rs[j].priority
    ensures CountAt(rs, p) <= 1
  {
    if rs != [] {
      DistinctCounts(rs[1..], p);
      CountZero(rs[1..], p);
    }
  }

  /** On the connected host at most one rule sits at each priority of the window. */
  lemma OneRuleEach(k: Scope, c: Settings, p: int)
    requires BaselineOk(k) && k.marks == Marks(c) && InWindow(c.rulePriority, p)
    ensures CountAt(ConnectedHost(c, k.server, k.base).rules, p) <= 1
  {
    InsertAllCounts(k.base.rules, Installed(k.marks, k.server), p);
    PriorityWindow(k.marks, k.server);
    DistinctCounts(Installed(k.marks, k.server), p);
    CountZero(k.base.rules, p);
  }

  // ---- A base priority below 1007 ---------------------------------------------------------

  /** The rules left after the connected host was swept: foreign ones, and ours below 1000. */
  lemma LeftAfterSweep(k: Scope, c: Settings, w: World, r: Rule)
    requires BaselineOk(k) && k.marks == Marks(c) && c.rulePriority >= 1000
    requires w.host == ConnectedHost(c, k.server, k.base)
    requires w.snapshot == Stored(FinalSnapshot(k.hash, c, k.server, FirstSnapshot(k.hash, c, k.base)))
    ensures r in DeleteAll(w.host.rules, Swept(w.snapshot.snap)) <==>
              r in k.base.rules || (r in Installed(k.marks, k.server) && r.priority < 1000)
  {
    var ps := Swept(w.snapshot.snap);
    var left := DeleteAll(w.host.rules, ps);
    SweptFinal(k.hash, c, k.server, FirstSnapshot(k.hash, c, k.base), r.priority);
    InsertAllMembers(k.base.rules, Installed(k.marks, k.server));
    InstalledInWindow(k);
    DeleteAllOutside(w.host.rules, ps);
    OutsideMembers(w.host.rules, AsSet(ps));
    OutsideMembers(left, AsSet(ps));
    if r.priority in ps {
      OneRuleEach(k, c, r.priority);
      DeleteAllCounts(w.host.rules, ps, r.priority);
      CountZero(left, r.priority);
    }
  }

  lemma DeleteAllOutside(rs: seq<Rule>, ps: seq<int>)
    ensures Outside(DeleteAll(rs, ps), AsSet(ps)) == Outside(rs, AsSet(ps))
  {
    OutsideAfter(rs, ps, AsSet(ps));
  }

  lemma {:induction false} OutsideAfter(rs: seq<Rule>, ps: seq<int>, all: set<int>)
    requires forall p :: p in ps ==> p in all
    ensures Outside(DeleteAll(rs, ps), all) == Outside(rs, all)
    decreases |ps|
  {
    if ps != [] {
      RemoveInside(rs, ps[0], all);
      OutsideAfter(RemoveRule(rs, ps[0]), ps[1..], all);
    }
  }

  /** With nothing failing, a run over a complete connection exits with 0 and restores all but the rules. */
  lemma SweptConnection(k: Scope, c: Settings, v: World)
    requires BaselineOk(k) && k == ScopeOf(k.hash, c, k.base, k.server)
    requires Validate(c) == Accepted && !ReservedName(c.tunName)
    requires v.host == ConnectedHost(c, k.server, k.base)
    requires v.snapshot == Stored(FinalSnapshot(k.hash, c, k.server, FirstSnapshot(k.hash, c, k.base)))
    requires k.base.resolv.Regular? ==> k.backupPath in v.backups && v.backups[k.backupPath] == k.base.resolv.content
    ensures var run := ScriptRun(k.hash, v, NO_FAULTS);
            && run.exit == 0
            && Exec(v, run.cmds) == World(
                 k.base.(rules := DeleteAll(v.host.rules, Swept(v.snapshot.snap))), Missing, v.backups)
  {
    hide ScriptRun, Exec, FinalSnapshot;
    var s, s0 := v.snapshot.snap, FirstSnapshot(k.hash, c, k.base);
    FinalMarks(k.hash, c, k.server, s0);
    ValidateVersusGuards(c, s);
    PanicEffect(k.hash, v, NO_FAULTS);
    var es := s.pre.sysctls;
    assert es == [SysctlState(IPV6_KEY, k.base.sysctls[IPV6_KEY])];
    assert !SysctlFails(v.host.sysctls.Keys, es, {}, 0);
    assert !FailedBeforeResolv(v, s, NO_FAULTS);
    assert WriteBack(v.host.sysctls, es, {}, 0) == v.host.sysctls;
    assert WriteBack(v.host.sysctls, es, {}, 1) == k.base.sysctls;
    var h := NetworkReverted(v, s, NO_FAULTS);
    assert h.links == k.base.links;
    assert h.routes == k.base.routes;
  }

  /**
   A base priority of 1000..1006 is accepted, and the script undoes a connection made with it
   without any complaint: it exits with 0 and clears the snapshot. Yet the host is not the
   one found: exactly our rules below priority 1000 are left on it.
   */
  lemma LowBaseLeavesRules(k: Scope, c: Settings, w: World)
    requires BaselineOk(k) && k == ScopeOf(k.hash, c, k.base, k.server)
    requires Validate(c) == Accepted && !ReservedName(c.tunName) && c.rulePriority < 1007
    requires w.host == k.base && Admitted(c, w) && FilesApart(c, k.base.resolv)
    ensures var v := Exec(w, Program(k.hash, c, k.server, w));
            var run := ScriptRun(k.hash, v, NO_FAULTS);
            var after := Exec(v, run.cmds);
            && run.exit == 0 && after.snapshot == Missing && after.host != k.base
            && after.host == k.base.(rules := after.host.rules)
            && (forall r :: r in after.host.rules <==>
                  r in k.base.rules || (r in Installed(k.marks, k.server) && r.priority < 1000))
  {
    hide Program, ScriptRun, Exec, FinalSnapshot, ConnectedHost;
    StartResult(k.hash, c, k.server, w);
    var v := Exec(w, Program(k.hash, c, k.server, w));
    SweptConnection(k, c, v);
    var left := DeleteAll(v.host.rules, Swept(v.snapshot.snap));
    forall r
      ensures r in left <==> r in k.base.rules || (r in Installed(k.marks, k.server) && r.priority < 1000)
    {
      LeftAfterSweep(k, c, v, r);
    }
    InstalledInWindow(k);
    PriorityWindow(k.marks, k.server);
    var lowest := Installed(k.marks, k.server)[0];
    assert lowest in left && lowest !in k.base.rules;
  }

  // ---- A reserved interface name ------------------------------------------------------------

  /**
   A name such as eth5 is accepted, and the script never undoes anything of a connection made
   with it: wherever the start is cut, with the TUN gone or not and whatever fails, a run
   refuses the snapshot and issues no command at all.
   */
  lemma ReservedNameRefused(hash: string -> string, c: Settings, server: IPv4, w: World,
                            crash: nat, tunClosed: bool, f: Faults)
    requires Admitted(c, w) && ReservedName(c.tunName)
    requires crash <= |Program(hash, c, server, w)|
    ensures var dead := Crashed(c, Exec(w, Program(hash, c, server, w)[..crash]), tunClosed);
            ScriptRun(hash, dead, f) == PanicRun([], if dead.snapshot.Missing? then 0 else 2)
  {
    hide Program, Exec, Journal, ReservedName;
    var all := Program(hash, c, server, w);
    var disk := Exec(w, all[..crash]).snapshot;
    ProgramJournal(hash, c, server, w);
    if !disk.Missing? {
      var j := WrittenBy(hash, c, w, all, crash);
      ProgramContinues(hash, c, server, w, j);
      assert disk.snap.marks == Marks(c);
    }
  }

  /** A complete start leaves a changed host, whether or not the TUN outlives the daemon. */
  lemma ConnectedIsChanged(hash: string -> string, c: Settings, server: IPv4, w: World, tunClosed: bool)
    requires Admitted(c, w)
    ensures var dead := Crashed(c, Exec(w, Program(hash, c, server, w)), tunClosed);
            !dead.snapshot.Missing? && dead.host != w.host
  {
    hide Program, Exec, FinalSnapshot;
    var ours := Installed(Marks(c), server);
    StartResult(hash, c, server, w);
    InsertAllCounts(w.host.rules, ours, c.rulePriority);
    CountZero(ours, c.rulePriority);
    assert ours[BYPASS_COUNT] in ours;
  }

  /** Connecting over eth5, whatever the host: accepted, then never undone by any run of the script. */
  lemma AcceptedButRefused(hash: string -> string, server: IPv4, w: World, tunClosed: bool, f: Faults)
    requires w.snapshot.Missing? && Readable(w.host) && "eth5" !in w.host.links
    ensures var c := ApplyDefaults(Settings("eth5", "", "", 0, 0, "", "ss://x", "", ""));
            var dead := Crashed(c, Exec(w, Program(hash, c, server, w)), tunClosed);
            && Validate(c) == Accepted && Admitted(c, w)
            && dead.host != w.host
            && ScriptRun(hash, dead, f) == PanicRun([], 2)
  {
    hide Program, Exec, ScriptRun, Crashed;
    var c := ApplyDefaults(Settings("eth5", "", "", 0, 0, "", "ss://x", "", ""));
    assert "eth" <= "eth5";
    var all := Program(hash, c, server, w);
    ReservedNameRefused(hash, c, server, w, |all|, tunClosed, f);
    assert all[..|all|] == all;
    ConnectedIsChanged(hash, c, server, w, tunClosed);
  }

  /** Base priority 1003 on an ordinary host: the script reports success, the server's bypass rule stays. */
  lemma AcceptedButLeftBehind(hash: string -> string, server: IPv4)
    ensures var c := ApplyDefaults(Settings("", "", "", 0, 1003, "", "ss://x", "", ""));
            var base := Host(KERNEL_RULES, {}, {"lo", "eth0"}, map[IPV6_KEY := "0"], Symlink("stub-resolv.conf"));
            var w := World(base, Missing, map[]);
            var v := Exec(w, Program(hash, c, server, w));
            var run := ScriptRun(hash, v, NO_FAULTS);
            var after := Exec(v, run.cmds);
            && Validate(c) == Accepted && Admitted(c, w)
            && run.exit == 0 && after.snapshot == Missing
            && Rule(996, MAIN_TABLE, Some(Cidr(server, 32))) in after.host.rules
            && Rule(996, MAIN_TABLE, Some(Cidr(server, 32))) !in base.rules
  {
    hide Program, Exec, ScriptRun;
    var c := ApplyDefaults(Settings("", "", "", 0, 1003, "", "ss://x", "", ""));
    var base := Host(KERNEL_RULES, {}, {"lo", "eth0"}, map[IPV6_KEY := "0"], Symlink("stub-resolv.conf"));
    var w := World(base, Missing, map[]);
    DefaultNameAllowed();
    assert c.tunName == "ouftun0" && "lo" != "ouftun0" && "eth0" != "ouftun0" by {
      assert "lo"[0] == 'l' && "eth0"[0] == 'e' && "ouftun0"[0] == 'o';
    }
    DefaultFilesApart(c, base.resolv);
    var k := ScopeOf(hash, c, base, server);
    LowBaseLeavesRules(k, c, w);
    assert Installed(k.marks, server)[0] == Rule(996, MAIN_TABLE, Some(Cidr(server, 32)));
  }

  // ---- A base priority from 32766 up ----------------------------------------------------------

  /** Accepted as well, but over the kernel's own rules such a connection tunnels nothing. */
  lemma HighBaseTunnelsNothing(hash: string -> string, c: Settings, server: IPv4, w: World, local: IPv4 -> bool, dst: IPv4)
    requires Validate(c) == Accepted && c.rulePriority >= 32766
    requires Admitted(c, w) && w.host.rules == KERNEL_RULES
    ensures Select(Exec(w, Program(hash, c, server, w)).host.rules, local, dst) != Some(c.routingTableId)
  {
    hide Program, Exec;
    StartResult(hash, c, server, w);
    MainShadows(Marks(c), server, local, dst);
  }

  /**
   A complete start with accepted settings, over the kernel's own rules: every destination is
   routed as it is classified if and only if the base priority is below 32766. `probe` is any
   destination that ought to be tunnelled.
   */
  lemma ClassifiedExactly(hash: string -> string, c: Settings, server: IPv4, w: World, local: IPv4 -> bool, probe: IPv4)
    requires Validate(c) == Accepted && Admitted(c, w) && w.host.rules == KERNEL_RULES
    requires !local(probe) && !Bypassed(server, probe)
    ensures (forall dst: IPv4 ::
               Select(Exec(w, Program(hash, c, server, w)).host.rules, local, dst)
               == Some(Classify(Marks(c), server, local, dst)))
            <==> c.rulePriority < 32766
  {
    hide Program, Exec, FinalSnapshot, Select, Classify;
    StartResult(hash, c, server, w);
    RoutingRefinement(Marks(c), server, local, probe);
  }

  // ---- The exact condition --------------------------------------------------------------------

  predicate RestoredAfterCrash(k: Scope, c: Settings, w: World, crash: nat)
    requires crash <= |Program(k.hash, c, k.server, w)|
  {
    var v := Exec(w, Program(k.hash, c, k.server, w)[..crash]);
    Exec(v, ScriptRun(k.hash, v, NO_FAULTS).cmds).host == k.base
  }

  /**
   With no file in two roles: for accepted settings, a complete run of the script undoes a
   connection at every crash point if and only if the interface name is one the script will
   touch and the base priority is at least 1007.
   */
  lemma UndoneWhenApart(k: Scope, c: Settings, w: World)
    requires Validate(c) == Accepted && k == ScopeOf(k.hash, c, k.base, k.server)
    requires BaselineOk(k) && w.host == k.base && Admitted(c, w) && FilesApart(c, k.base.resolv)
    ensures (forall crash: nat | crash <= |Program(k.hash, c, k.server, w)| ::
               RestoredAfterCrash(k, c, w, crash))
            <==> !ReservedName(c.tunName) && c.rulePriority >= 1007
  {
    hide Program, Exec, ScriptRun;
    var all := Program(k.hash, c, k.server, w);
    ValidateVersusGuards(c, FirstSnapshot(k.hash, c, w.host));
    if Revertible(k.marks) {
      forall crash: nat | crash <= |all|
        ensures RestoredAfterCrash(k, c, w, crash)
      {
        CrashSafeUndo(k, c, w, crash, false, []);
      }
    } else {
      assert all[..|all|] == all;
      if ReservedName(c.tunName) {
        ReservedNameRefused(k.hash, c, k.server, w, |all|, false, NO_FAULTS);
        ConnectedIsChanged(k.hash, c, k.server, w, false);
        ExecNothing(Exec(w, all));
      } else {
        LowBaseLeavesRules(k, c, w);
      }
      assert !RestoredAfterCrash(k, c, w, |all|);
    }
  }

  lemma ExecNothing(w: World)
    ensures Exec(w, []) == w
  {
  }
}
