/**
 Recovery from any safe world: every run of the revert script is disciplined, a complete
 one restores the untouched host, and interrupted ones do no harm.
 */
module Recovery {
  import opened Addresses
  import opened Snapshots
  import opened Hosts
  import opened Panic
  import opened PanicEffects
  import opened Config
  import opened Routing
  import opened Discipline

  /** Once the catchall is gone, the other deletions are permitted in any order. */
  lemma {:induction false} DeletionsDisciplined(c: Scope, w: World, ps: seq<int>)
    requires BaselineOk(c) && Safe(c, w) && w.snapshot.Stored?
    requires forall p :: p in ps ==> InWindow(c.marks.rulePriority, p)
    requires CountAt(w.host.rules, c.marks.rulePriority) == 0
    ensures Disciplined(c, w, RuleDels(ps))
    ensures forall p :: p in Window(c.marks.rulePriority) && (p in ps || CountAt(w.host.rules, p) == 0) ==>
              CountAt(DeleteAll(w.host.rules, ps), p) == 0
    decreases |ps|
  {
    if ps != [] {
      var next := Apply(w, DeleteRule(ps[0]));
      PermittedKeepsSafe(c, w, DeleteRule(ps[0]));
      DeleteRuleKeepsRules(c, w.snapshot.snap, w.host.rules, ps[0]);
      DeletionsDisciplined(c, next, ps[1..]);
      assert RuleDels(ps)[1..] == RuleDels(ps[1..]);
    }
  }

  /** With the catchall gone, the remaining deletions leave exactly the foreign rules. */
  lemma RestSwept(c: Scope, w: World, rs: seq<Rule>)
    requires BaselineOk(c) && Safe(c, w) && w.snapshot.Stored? && RulesOk(c, w.snapshot.snap, rs)
    requires forall p :: p in Window(c.marks.rulePriority) && (p in Swept(w.snapshot.snap) || CountAt(w.host.rules, p) == 0) ==>
               CountAt(rs, p) == 0
    ensures rs == c.base.rules
  {
    forall p | p in Window(c.marks.rulePriority)
      ensures CountAt(rs, p) == 0
    {
      assert CountAt(w.host.rules, p) <= 1;
    }
    NothingInside(rs, Window(c.marks.rulePriority));
  }

  /** The rule part of the script: disciplined, and it leaves exactly the foreign rules. */
  lemma SweepDisciplined(c: Scope, w: World)
    requires BaselineOk(c) && Safe(c, w) && w.snapshot.Stored?
    ensures Disciplined(c, w, RuleDels(Swept(w.snapshot.snap)))
    ensures DeleteAll(w.host.rules, Swept(w.snapshot.snap)) == c.base.rules
  {
    var s := w.snapshot.snap;
    var ps, base := Swept(s), c.marks.rulePriority;
    assert ps == [base] + ps[1..];
    BaseInWindow(base);
    hide Window;
    var next := Apply(w, DeleteRule(base));
    PermittedKeepsSafe(c, w, DeleteRule(base));
    DeleteRuleKeepsRules(c, s, w.host.rules, base);
    DeletionsDisciplined(c, next, ps[1..]);
    assert RuleDels(ps)[1..] == RuleDels(ps[1..]);
    assert Disciplined(c, w, RuleDels(ps));
    DisciplinedIsSafe(c, w, RuleDels(ps), |ps|);
    assert RuleDels(ps)[..|ps|] == RuleDels(ps);
    ExecRuleDels(w, ps);
    RestSwept(c, w, DeleteAll(w.host.rules, ps));
  }

  lemma SysctlsDisciplined(c: Scope, w: World, f: Faults)
    requires BaselineOk(c) && Safe(c, w) && w.snapshot.Stored?
    ensures var es := w.snapshot.snap.pre.sysctls;
            && Disciplined(c, w, SysctlCmds(w.host.sysctls.Keys, es, f.sysctls, |es|))
            && (!SomeSysctlFails(w.host.sysctls.Keys, es, f.sysctls, |es|) ==>
                  WriteBack(w.host.sysctls, es, f.sysctls, |es|) == c.base.sysctls)
  {
    var es := w.snapshot.snap.pre.sysctls;
    var keys := w.host.sysctls.Keys;
    assert |es| == 1 && es[0] == SysctlState(IPV6_KEY, c.base.sysctls[IPV6_KEY]);
    assert SysctlCmds(keys, es, f.sysctls, 0) == [];
    var cmd := WriteSysctl(es[0].key, es[0].valueBefore);
    if SysctlFails(keys, es, f.sysctls, 0) {
      assert SysctlCmds(keys, es, f.sysctls, 1) == [];
    } else {
      assert SysctlCmds(keys, es, f.sysctls, 1) == [cmd];
      DisciplinedOne(c, w, cmd);
      assert WriteBack(w.host.sysctls, es, f.sysctls, 0) == w.host.sysctls;
      assert WriteBack(w.host.sysctls, es, f.sysctls, 1) == w.host.sysctls[IPV6_KEY := c.base.sysctls[IPV6_KEY]];
    }
  }

  lemma SafeAfter(c: Scope, w: World, cs: seq<Cmd>)
    requires BaselineOk(c) && Safe(c, w) && Disciplined(c, w, cs)
    ensures Safe(c, Exec(w, cs))
  {
    DisciplinedIsSafe(c, w, cs, |cs|);
    assert cs[..|cs|] == cs;
  }

  lemma NetworkDisciplined(c: Scope, w: World, f: Faults)
    requires BaselineOk(c) && Safe(c, w) && w.snapshot.Stored?
    ensures Disciplined(c, w, NetworkCmds(w, w.snapshot.snap, f))
  {
    var s := w.snapshot.snap;
    var es := s.pre.sysctls;
    var a, b := SysctlCmds(w.host.sysctls.Keys, es, f.sysctls, |es|), RuleDels(Swept(s));
    var d, e := [FlushTable(s.marks.tableId)], LinkCmds(w, s, f);
    SysctlsDisciplined(c, w, f);
    SafeAfter(c, w, a);
    ExecSysctls(w, es, f.sysctls, |es|);
    SweepDisciplined(c, Exec(w, a));
    DisciplinedAppend(c, w, a, b);
    DisciplinedOne(c, Exec(w, a + b), d[0]);
    DisciplinedAppend(c, w, a + b, d);
    if e != [] {
      DisciplinedOne(c, Exec(w, a + b + d), e[0]);
    }
    DisciplinedAppend(c, w, a + b + d, e);
  }

  lemma ResolvDisciplined(c: Scope, w: World, failed: bool, putFails: bool)
    requires BaselineOk(c) && Safe(c, w) && w.snapshot.Stored?
    ensures var run := RestoreResolv(c.hash, w.backups, w.snapshot.snap.pre.resolvConf, failed, putFails);
            && Disciplined(c, w, run.cmds)
            && !run.died
            && (!run.failed ==> ResolvAfter(w.host.resolv, w.backups, w.snapshot.snap.pre.resolvConf, run) == c.base.resolv)
            && (!failed && !putFails ==> !run.failed)
  {
    var run := RestoreResolv(c.hash, w.backups, w.snapshot.snap.pre.resolvConf, failed, putFails);
    if run.cmds != [] {
      assert run.cmds[0] == UnlinkResolv;
      if |run.cmds| == 2 {
        assert run.cmds == [run.cmds[0]] + [run.cmds[1]];
        DisciplinedOne(c, Apply(w, UnlinkResolv), run.cmds[1]);
        ExecOne(w, UnlinkResolv);
        DisciplinedOne(c, w, UnlinkResolv);
        DisciplinedAppend(c, w, [UnlinkResolv], [run.cmds[1]]);
      } else {
        DisciplinedOne(c, w, UnlinkResolv);
      }
    }
  }

  /** The host that a run without sysctl or link failures reaches before the resolv.conf branch. */
  lemma NetworkRestored(c: Scope, w: World, f: Faults)
    requires BaselineOk(c) && Safe(c, w) && w.snapshot.Stored?
    requires !FailedBeforeResolv(w, w.snapshot.snap, f)
    ensures NetworkReverted(w, w.snapshot.snap, f) == c.base.(resolv := w.host.resolv)
  {
    var s := w.snapshot.snap;
    SysctlsDisciplined(c, w, f);
    SweepDisciplined(c, w);
    var h := NetworkReverted(w, s, f);
    assert h.links == c.base.links;
    assert h.routes == c.base.routes;
  }

  /** The body of the script: disciplined, and if it did not fail the untouched host is back. */
  lemma BodyDisciplined(c: Scope, w: World, f: Faults)
    requires BaselineOk(c) && Safe(c, w) && w.snapshot.Stored?
    ensures var branch := ResolvPart(c.hash, w, w.snapshot.snap, f);
            var body := NetworkCmds(w, w.snapshot.snap, f) + branch.cmds;
            && Disciplined(c, w, body)
            && !branch.died
            && (!branch.failed ==> Exec(w, body).host == c.base)
  {
    var s := w.snapshot.snap;
    var a, branch := NetworkCmds(w, s, f), ResolvPart(c.hash, w, s, f);
    NetworkDisciplined(c, w, f);
    SafeAfter(c, w, a);
    ExecNetwork(w, s, f);
    var v := Exec(w, a);
    ResolvDisciplined(c, v, FailedBeforeResolv(w, s, f), f.resolvPut);
    DisciplinedAppend(c, w, a, branch.cmds);
    if !branch.failed {
      NetworkRestored(c, w, f);
      ExecAppend(w, a, branch.cmds);
      ExecResolv(v, c.hash, s.pre.resolvConf, FailedBeforeResolv(w, s, f), f.resolvPut);
    }
  }

  /** Any run, with any failures, from any safe world: disciplined, and exit 0 means restored. */
  lemma PanicFromSafe(c: Scope, w: World, f: Faults)
    requires BaselineOk(c) && Revertible(c.marks) && Safe(c, w)
    ensures var run := ScriptRun(c.hash, w, f);
            && Disciplined(c, w, run.cmds)
            && (run.exit == 0 ==> Exec(w, run.cmds).host == c.base)
            && (run.exit == 0 && !f.snapshotRemove ==> Exec(w, run.cmds).snapshot == Missing)
            && (run.exit != 0 ==> Exec(w, run.cmds).snapshot == w.snapshot)
  {
    if w.snapshot.Stored? && !f.toolsMissing {
      var s, run := w.snapshot.snap, ScriptRun(c.hash, w, f);
      assert GuardsPass(s);
      var body := NetworkCmds(w, s, f) + ResolvPart(c.hash, w, s, f).cmds;
      BodyDisciplined(c, w, f);
      PanicEffect(c.hash, w, f);
      if run.exit == 0 && !f.snapshotRemove {
        assert run.cmds == body + [RemoveSnapshot];
        ExecAppend(w, body, [RemoveSnapshot]);
        ExecOne(Exec(w, body), RemoveSnapshot);
        DisciplinedOne(c, Exec(w, body), RemoveSnapshot);
        DisciplinedAppend(c, w, body, [RemoveSnapshot]);
      } else {
        assert run.cmds == body;
      }
    }
  }

  /** One complete run without failures restores the untouched host and clears the snapshot. */
  lemma CompleteRunRestores(c: Scope, w: World)
    requires BaselineOk(c) && Revertible(c.marks) && Safe(c, w)
    ensures var run := ScriptRun(c.hash, w, NO_FAULTS);
            run.exit == 0 && Exec(w, run.cmds) == World(c.base, Missing, w.backups)
  {
    hide Window;
    PanicFromSafe(c, w, NO_FAULTS);
    if w.snapshot.Stored? {
      hide Exec;
      var s := w.snapshot.snap;
      PanicEffect(c.hash, w, NO_FAULTS);
      assert GuardsPass(s);
      assert !FailedBeforeResolv(w, s, NO_FAULTS);
      ExecNetwork(w, s, NO_FAULTS);
      NetworkDisciplined(c, w, NO_FAULTS);
      SafeAfter(c, w, NetworkCmds(w, s, NO_FAULTS));
      ResolvDisciplined(c, Exec(w, NetworkCmds(w, s, NO_FAULTS)), false, false);
    }
  }

  /** One attempt at recovery: its failures, and after how many commands it was cut. */
  datatype Attempt = Attempt(faults: Faults, cut: nat)

  function Cut(cs: seq<Cmd>, k: nat): seq<Cmd> {
    if k <= |cs| then cs[..k] else cs
  }

  /** The world after a series of failing or interrupted runs of the script. */
  function AfterAttempts(hash: string -> string, w: World, attempts: seq<Attempt>): World
    decreases |attempts|
  {
    if attempts == [] then w
    else
      var run := ScriptRun(hash, w, attempts[0].faults);
      AfterAttempts(hash, Exec(w, Cut(run.cmds, attempts[0].cut)), attempts[1..])
  }

  lemma CutRunSafe(c: Scope, w: World, f: Faults, k: nat)
    requires BaselineOk(c) && Revertible(c.marks) && Safe(c, w)
    ensures Safe(c, Exec(w, Cut(ScriptRun(c.hash, w, f).cmds, k)))
    ensures Exec(w, Cut(ScriptRun(c.hash, w, f).cmds, k)).backups == w.backups
  {
    var cs := ScriptRun(c.hash, w, f).cmds;
    PanicFromSafe(c, w, f);
    var n := if k <= |cs| then k else |cs|;
    DisciplinedIsSafe(c, w, cs, n);
    assert Cut(cs, k) == cs[..n];
    if w.snapshot.Stored? {
      PanicFrame(c.hash, w, f, n);
    }
  }

  lemma {:induction false} AttemptsSafe(c: Scope, w: World, attempts: seq<Attempt>)
    requires BaselineOk(c) && Revertible(c.marks) && Safe(c, w)
    ensures Safe(c, AfterAttempts(c.hash, w, attempts))
    ensures AfterAttempts(c.hash, w, attempts).backups == w.backups
    decreases |attempts|
  {
    if attempts != [] {
      var run := ScriptRun(c.hash, w, attempts[0].faults);
      CutRunSafe(c, w, attempts[0].faults, attempts[0].cut);
      AttemptsSafe(c, Exec(w, Cut(run.cmds, attempts[0].cut)), attempts[1..]);
    }
  }

  /**
   Interrupted recovery converges: any number of failing or interrupted runs followed by a
   complete one end exactly where a single complete run ends, and one more run changes nothing.
   */
  lemma RecoveryConverges(c: Scope, w: World, attempts: seq<Attempt>)
    requires BaselineOk(c) && Revertible(c.marks) && Safe(c, w)
    ensures var once := Exec(w, ScriptRun(c.hash, w, NO_FAULTS).cmds);
            var v := AfterAttempts(c.hash, w, attempts);
            && Exec(v, ScriptRun(c.hash, v, NO_FAULTS).cmds) == once
            && once == World(c.base, Missing, w.backups)
            && (forall f :: ScriptRun(c.hash, once, f) == PanicRun([], 0))
  {
    CompleteRunRestores(c, w);
    AttemptsSafe(c, w, attempts);
    CompleteRunRestores(c, AfterAttempts(c.hash, w, attempts));
  }

  /**
   No tunnel loop: in every safe world, mid-install and mid-revert included, a destination
   that must be bypassed - the server above all - is never sent to the tunnel's table.
   */
  lemma NoTunnelLoop(c: Scope, w: World, local: IPv4 -> bool, dst: IPv4)
    requires BaselineOk(c) && Safe(c, w) && Bypassed(c.server, dst)
    requires forall r :: r in c.base.rules ==> r.table != c.marks.tableId
    requires !ReservedTable(c.marks.tableId)
    ensures Select(w.host.rules, local, dst) != Some(c.marks.tableId)
  {
    var rs, m := w.host.rules, c.marks;
    if w.snapshot.Missing? || CountAt(rs, m.rulePriority) == 0 {
      forall r | r in rs
        ensures r.table != m.tableId
      {
        OursOrForeign(c, w, r);
        if r == Catchall(m) {
          CountZero(rs, m.rulePriority);
        }
      }
      NeverSelected(rs, local, dst, m.tableId);
    } else {
      BaseInWindow(m.rulePriority);
      PrefixesAreBypass(c.server, dst);
      var i :| 0 <= i < BYPASS_COUNT && Contains(BypassCidrs(c.server)[i], dst);
      var r := Bypass(m.rulePriority, c.server, i);
      assert Installed(m, c.server)[i] == r;
      forall q | q in rs && q.table == m.tableId
        ensures q.priority > r.priority
      {
        OursOrForeign(c, w, q);
      }
      BelowExcludes(rs, local, dst, r, m.tableId);
    }
  }

  /** A rule in a safe world is foreign, one of the bypasses, or the catchall. */
  lemma OursOrForeign(c: Scope, w: World, r: Rule)
    requires BaselineOk(c) && Safe(c, w) && r in w.host.rules
    ensures r in c.base.rules || r == Catchall(c.marks) || r.table == MAIN_TABLE
  {
    if w.snapshot.Stored? {
      OutsideMembers(w.host.rules, Window(c.marks.rulePriority));
      if r.priority in Window(c.marks.rulePriority) {
        InstalledShape(c.marks, c.server, r);
      }
    }
  }
}
