/** The revert script, command by command, proved against `ScriptRun`. */
module PanicScript {
  import opened Snapshots
  import opened Hosts
  import opened Machines
  import opened Panic

  /** Write every recorded sysctl back; a failure is remembered and the loop goes on. */
  method RevertSysctls(m: Machine, es: seq<SysctlState>, fails: set<int>) returns (failed: bool)
    requires m.Valid()
    modifies m
    ensures m.Valid()
    ensures m.log == old(m.log) + SysctlCmds(old(m.sysctls).Keys, es, fails, |es|)
    ensures failed == SomeSysctlFails(old(m.sysctls).Keys, es, fails, |es|)
    ensures m.sysctls.Keys == old(m.sysctls).Keys
    ensures unchanged(m`rules, m`routes, m`links, m`resolv, m`snapshot, m`backups)
  {
    hide Exec;
    ghost var keys := m.sysctls.Keys;
    failed := false;
    var i := 0;
    while i < |es|
      invariant 0 <= i <= |es|
      invariant m.Valid() && m.sysctls.Keys == keys
      invariant m.log == old(m.log) + SysctlCmds(keys, es, fails, i)
      invariant failed == SomeSysctlFails(keys, es, fails, i)
      invariant unchanged(m`rules, m`routes, m`links, m`resolv, m`snapshot, m`backups)
    {
      var ok := m.WriteSysctl(es[i].key, es[i].valueBefore, i in fails);
      assert ok == !SysctlFails(keys, es, fails, i);
      if !ok {
        failed := true;
      }
      i := i + 1;
    }
  }

  /** What looking at one more recorded priority adds to the deletions. */
  lemma OneMoreRecorded(base: int, recorded: seq<int>, i: nat)
    requires i < |recorded|
    ensures RuleDels([base] + Guarded(recorded[..i + 1]))
         == RuleDels([base] + Guarded(recorded[..i])) + (if recorded[i] >= 1000 then [DeleteRule(recorded[i])] else [])
  {
    var p := recorded[i];
    GuardedAppend(recorded[..i], [p]);
    assert recorded[..i + 1] == recorded[..i] + [p];
    assert [p][1..] == [];
    var more := if p >= 1000 then [p] else [];
    assert Guarded([p]) == more;
    var swept := [base] + Guarded(recorded[..i]);
    assert [base] + Guarded(recorded[..i + 1]) == swept + more;
    assert RuleDels(swept + more) == RuleDels(swept) + RuleDels(more);
  }

  /** Delete the catchall first, then every logged rule that the guard lets through. */
  method RevertRules(m: Machine, s: Snapshot)
    requires m.Valid()
    modifies m
    ensures m.Valid()
    ensures m.log == old(m.log) + RuleDels(Swept(s))
    ensures unchanged(m`sysctls, m`routes, m`links, m`resolv, m`snapshot, m`backups)
  {
    hide RuleDels, Guarded, Exec;
    var base, recorded := s.marks.rulePriority, RulePriorities(s.actions);
    NothingRecorded(base, recorded);
    m.DeleteRule(base);
    var i := 0;
    while i < |recorded|
      invariant 0 <= i <= |recorded|
      invariant m.Valid()
      invariant m.log == old(m.log) + RuleDels([base] + Guarded(recorded[..i]))
      invariant unchanged(m`sysctls, m`routes, m`links, m`resolv, m`snapshot, m`backups)
    {
      var p := recorded[i];
      OneMoreRecorded(base, recorded, i);
      if p >= 1000 {
        m.DeleteRule(p);
      }
      i := i + 1;
    }
    assert recorded[..i] == recorded;
  }

  lemma NothingRecorded(base: int, recorded: seq<int>)
    ensures RuleDels([base] + Guarded(recorded[..0])) == [DeleteRule(base)]
  {
    assert recorded[..0] == [];
  }

  method RevertResolv(m: Machine, r: ResolvConfState, failedBefore: bool, putFails: bool)
    returns (failed: bool, died: bool)
    requires m.Valid()
    modifies m
    ensures m.Valid()
    ensures var run := RestoreResolv(m.hash, old(m.backups), r, failedBefore, putFails);
            m.log == old(m.log) + run.cmds && failed == run.failed && died == run.died
    ensures unchanged(m`rules, m`sysctls, m`routes, m`links, m`snapshot, m`backups)
  {
    failed, died := failedBefore, false;
    if r.existed {
      if !r.wasSymlink && r.backupPath !in m.backups {
        failed := true;
      } else {
        if !r.wasSymlink && r.sha256Before != "" {
          if m.hash(m.backups[r.backupPath]) != r.sha256Before {
            failed := true;
          }
        }
        if !failed || r.wasSymlink {
          var _ := m.UnlinkResolv(false);
          if r.wasSymlink {
            if r.symlinkTarget == "" {
              return failed, true;
            }
            var ok := m.LinkResolv(r.symlinkTarget, putFails);
            if !ok {
              failed := true;
            }
          } else {
            var ok := m.CopyBackupToResolv(r.backupPath, putFails);
            if !ok {
              failed := true;
            }
          }
        }
      }
    } else {
      var _ := m.UnlinkResolv(false);
    }
  }

  /** Flush our table, then delete our device if it is there. */
  method RevertLink(m: Machine, marks: OurMarks, linkDelete: bool) returns (failed: bool)
    requires m.Valid()
    modifies m
    ensures m.Valid()
    ensures failed == (marks.tunIfname in old(m.links) && linkDelete)
    ensures m.log == old(m.log) + [FlushTable(marks.tableId)]
                     + (if marks.tunIfname in old(m.links) && !linkDelete then [DeleteLink(marks.tunIfname)] else [])
    ensures m.backups == old(m.backups)
  {
    failed := false;
    m.FlushTable(marks.tableId);
    if marks.tunIfname in m.links {
      var ok := m.DeleteLink(marks.tunIfname, linkDelete);
      failed := !ok;
    }
  }

  /** Everything up to the resolv.conf branch. */
  method RevertNetwork(m: Machine, s: Snapshot, f: Faults) returns (failed: bool)
    requires m.Valid()
    modifies m
    ensures m.Valid()
    ensures m.log == old(m.log) + NetworkCmds(old(m.Now()), s, f)
    ensures failed == FailedBeforeResolv(old(m.Now()), s, f)
    ensures m.backups == old(m.backups)
  {
    hide RuleDels, SysctlCmds, SomeSysctlFails;
    ghost var w, log := m.Now(), m.log;
    ghost var a := SysctlCmds(w.host.sysctls.Keys, s.pre.sysctls, f.sysctls, |s.pre.sysctls|);
    ghost var b, c := RuleDels(Swept(s)), [FlushTable(s.marks.tableId)];
    failed := RevertSysctls(m, s.pre.sysctls, f.sysctls);
    RevertRules(m, s);
    var linkFailed := RevertLink(m, s.marks, f.linkDelete);
    failed := failed || linkFailed;
    assert m.log == log + a + b + c + LinkCmds(w, s, f);
  }

  /** Everything after the guards. */
  method Revert(m: Machine, s: Snapshot, f: Faults) returns (exit: int)
    requires m.Valid() && m.snapshot == Stored(s) && !f.toolsMissing && GuardsPass(s)
    modifies m
    ensures m.Valid()
    ensures var run := ScriptRun(m.hash, old(m.Now()), f);
            exit == run.exit && m.log == old(m.log) + run.cmds
  {
    hide NetworkCmds, RestoreResolv;
    ghost var w, log := m.Now(), m.log;
    var failed := RevertNetwork(m, s, f);
    var died;
    failed, died := RevertResolv(m, s.pre.resolvConf, failed, f.resolvPut);
    ghost var body := NetworkCmds(w, s, f) + ResolvPart(m.hash, w, s, f).cmds;
    assert m.log == log + body;
    if died {
      return 2;
    }
    if failed {
      return 1;
    }
    m.RemoveSnapshot(f.snapshotRemove);
    assert m.log == log + (body + (if f.snapshotRemove then [] else [RemoveSnapshot]));
    return 0;
  }

  /** The whole script: exit code 0, 1 or 2. */
  method RunPanic(m: Machine, f: Faults) returns (exit: int)
    requires m.Valid()
    modifies m
    ensures m.Valid()
    ensures var run := ScriptRun(m.hash, old(m.Now()), f);
            exit == run.exit && m.log == old(m.log) + run.cmds && m.Now() == Exec(old(m.Now()), run.cmds)
  {
    ghost var w, log := m.Now(), m.log;
    ghost var run := ScriptRun(m.hash, w, f);
    if m.snapshot.Missing? {
      return 0;
    }
    if f.toolsMissing || m.snapshot.Garbage? {
      return 2;
    }
    var s := m.snapshot.snap;
    if s.version != 1 || ReservedName(s.marks.tunIfname) || ReservedTable(s.marks.tableId) || s.marks.rulePriority < 1000 {
      return 2;
    }
    exit := Revert(m, s, f);
    ExecAppend(m.origin, log, run.cmds);
  }
}
