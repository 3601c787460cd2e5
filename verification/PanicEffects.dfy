/**
 What a run of the revert script does to an arbitrary world: its exact final state, what
 its exit code promises, and what it never touches. Nothing here assumes that the snapshot
 came from the daemon.
 */
module PanicEffects {
  import opened Snapshots
  import opened Hosts
  import opened Panic

  function DeleteAll(rs: seq<Rule>, ps: seq<int>): seq<Rule>
    decreases |ps|
  {
    if ps == [] then rs else DeleteAll(RemoveRule(rs, ps[0]), ps[1..])
  }

  /** The sysctls after the first n entries were written back, failures skipped. */
  function WriteBack(m: map<string, string>, es: seq<SysctlState>, fails: set<int>, n: nat): (r: map<string, string>)
    requires n <= |es|
    ensures r.Keys == m.Keys
  {
    if n == 0 then m
    else
      var before := WriteBack(m, es, fails, n - 1);
      if SysctlFails(m.Keys, es, fails, n - 1) then before else before[es[n - 1].key := es[n - 1].valueBefore]
  }

  lemma {:induction false} ExecRuleDels(w: World, ps: seq<int>)
    ensures Exec(w, RuleDels(ps)) == w.(host := w.host.(rules := DeleteAll(w.host.rules, ps)))
    decreases |ps|
  {
    if ps != [] {
      assert RuleDels(ps)[1..] == RuleDels(ps[1..]);
      ExecRuleDels(Apply(w, DeleteRule(ps[0])), ps[1..]);
    }
  }

  lemma {:induction false} ExecSysctls(w: World, es: seq<SysctlState>, fails: set<int>, n: nat)
    requires n <= |es|
    ensures Exec(w, SysctlCmds(w.host.sysctls.Keys, es, fails, n))
         == w.(host := w.host.(sysctls := WriteBack(w.host.sysctls, es, fails, n)))
  {
    var keys := w.host.sysctls.Keys;
    if n > 0 {
      ExecSysctls(w, es, fails, n - 1);
      if SysctlFails(keys, es, fails, n - 1) {
        assert SysctlCmds(keys, es, fails, n) == SysctlCmds(keys, es, fails, n - 1);
      } else {
        var last := WriteSysctl(es[n - 1].key, es[n - 1].valueBefore);
        ExecAppend(w, SysctlCmds(keys, es, fails, n - 1), [last]);
        ExecOne(Exec(w, SysctlCmds(keys, es, fails, n - 1)), last);
      }
    }
  }

  /** A later entry for the same key wins; otherwise the recorded value is back. */
  lemma {:induction false} WrittenBack(m: map<string, string>, es: seq<SysctlState>, fails: set<int>, n: nat, i: nat)
    requires i < n <= |es| && !SomeSysctlFails(m.Keys, es, fails, n)
    requires forall j :: i < j < n ==> es[j].key != es[i].key
    ensures es[i].key in m && WriteBack(m, es, fails, n)[es[i].key] == es[i].valueBefore
  {
    assert !SysctlFails(m.Keys, es, fails, n - 1);
    if i < n - 1 {
      assert forall j :: 0 <= j < n - 1 ==> !SysctlFails(m.Keys, es, fails, j);
      WrittenBack(m, es, fails, n - 1, i);
    }
  }

  function LinkGone(h: Host, s: Snapshot, f: Faults): Host {
    if s.marks.tunIfname in h.links && !f.linkDelete then WithoutLink(h, s.marks.tunIfname) else h
  }

  /** The host when the resolv.conf branch begins. */
  function NetworkReverted(w: World, s: Snapshot, f: Faults): Host {
    LinkGone(
      w.host.(
        sysctls := WriteBack(w.host.sysctls, s.pre.sysctls, f.sysctls, |s.pre.sysctls|),
        rules := DeleteAll(w.host.rules, Swept(s)),
        routes := set r | r in w.host.routes && r.table != s.marks.tableId),
      s, f)
  }

  lemma ExecFour(w: World, a: seq<Cmd>, b: seq<Cmd>, c: seq<Cmd>, d: seq<Cmd>)
    ensures Exec(w, a + b + c + d) == Exec(Exec(Exec(Exec(w, a), b), c), d)
  {
    ExecAppend(w, a + b + c, d);
    ExecAppend(w, a + b, c);
    ExecAppend(w, a, b);
  }

  lemma ExecLink(w: World, v: World, s: Snapshot, f: Faults)
    requires v.host.links == w.host.links
    ensures Exec(v, LinkCmds(w, s, f)) == v.(host := LinkGone(v.host, s, f))
  {
    if LinkCmds(w, s, f) != [] {
      ExecOne(v, DeleteLink(s.marks.tunIfname));
    }
  }

  lemma ExecNetwork(w: World, s: Snapshot, f: Faults)
    ensures Exec(w, NetworkCmds(w, s, f)) == w.(host := NetworkReverted(w, s, f))
  {
    var a := SysctlCmds(w.host.sysctls.Keys, s.pre.sysctls, f.sysctls, |s.pre.sysctls|);
    ExecFour(w, a, RuleDels(Swept(s)), [FlushTable(s.marks.tableId)], LinkCmds(w, s, f));
    ExecSysctls(w, s.pre.sysctls, f.sysctls, |s.pre.sysctls|);
    var w1 := Exec(w, a);
    ExecRuleDels(w1, Swept(s));
    var w2 := Exec(w1, RuleDels(Swept(s)));
    ExecOne(w2, FlushTable(s.marks.tableId));
    ExecLink(w, Apply(w2, FlushTable(s.marks.tableId)), s, f);
  }

  /** What the resolv.conf branch leaves behind. */
  function ResolvAfter(now: Resolv, backups: map<string, string>, r: ResolvConfState, run: ResolvRun): Resolv {
    if run.cmds == [] then now
    else if |run.cmds| == 1 then Absent
    else if r.wasSymlink then Symlink(r.symlinkTarget)
    else if r.backupPath in backups then Regular(backups[r.backupPath])
    else Absent
  }

  lemma ExecResolv(w: World, hash: string -> string, r: ResolvConfState, failed: bool, putFails: bool)
    ensures var run := RestoreResolv(hash, w.backups, r, failed, putFails);
            Exec(w, run.cmds) == w.(host := w.host.(resolv := ResolvAfter(w.host.resolv, w.backups, r, run)))
  {
    var run := RestoreResolv(hash, w.backups, r, failed, putFails);
    if |run.cmds| == 1 {
      ExecOne(w, run.cmds[0]);
    } else if |run.cmds| == 2 {
      assert run.cmds[1..] == [run.cmds[1]];
      ExecOne(Apply(w, run.cmds[0]), run.cmds[1]);
    }
  }

  /** The exact outcome of a run that gets past the guards. */
  lemma PanicEffect(hash: string -> string, w: World, f: Faults)
    requires w.snapshot.Stored? && !f.toolsMissing && GuardsPass(w.snapshot.snap)
    ensures var s := w.snapshot.snap;
            var run := ScriptRun(hash, w, f);
            var branch := ResolvPart(hash, w, s, f);
            var h := NetworkReverted(w, s, f);
            && run.exit == (if branch.died then 2 else if branch.failed then 1 else 0)
            && Exec(w, run.cmds) == World(
                 h.(resolv := ResolvAfter(h.resolv, w.backups, s.pre.resolvConf, branch)),
                 if run.exit == 0 && !f.snapshotRemove then Missing else w.snapshot,
                 w.backups)
  {
    var s := w.snapshot.snap;
    var run := ScriptRun(hash, w, f);
    var branch := ResolvPart(hash, w, s, f);
    var body := NetworkCmds(w, s, f) + branch.cmds;
    ExecNetwork(w, s, f);
    ExecAppend(w, NetworkCmds(w, s, f), branch.cmds);
    ExecResolv(Exec(w, NetworkCmds(w, s, f)), hash, s.pre.resolvConf, FailedBeforeResolv(w, s, f), f.resolvPut);
    if run.exit == 0 && !f.snapshotRemove {
      ExecAppend(w, body, [RemoveSnapshot]);
      ExecOne(Exec(w, body), RemoveSnapshot);
    } else {
      assert run.cmds == body;
    }
  }

  function Less(n: nat, m: nat): nat {
    if n <= m then 0 else n - m
  }

  /** Each deletion takes one rule at its priority, as long as there is one. */
  lemma {:induction false} DeleteAllCounts(rs: seq<Rule>, ps: seq<int>, p: int)
    ensures CountAt(DeleteAll(rs, ps), p) == Less(CountAt(rs, p), multiset(ps)[p])
    decreases |ps|
  {
    if ps != [] {
      RemoveCounts(rs, ps[0], p);
      DeleteAllCounts(RemoveRule(rs, ps[0]), ps[1..], p);
      assert ps == [ps[0]] + ps[1..];
    }
  }

  /** resolv.conf is what the snapshot says it was, as far as the recorded hash can tell. */
  predicate ResolvRestored(hash: string -> string, r: ResolvConfState, now: Resolv) {
    if !r.existed then now == Absent
    else if r.wasSymlink then now == Symlink(r.symlinkTarget)
    else now.Regular? && (r.sha256Before != "" ==> hash(now.content) == r.sha256Before)
  }

  /** Everything that exit code 0 means. */
  ghost predicate Reverted(hash: string -> string, s: Snapshot, before: Host, now: Host) {
    && (forall i :: 0 <= i < |s.pre.sysctls| && (forall j :: i < j < |s.pre.sysctls| ==> s.pre.sysctls[j].key != s.pre.sysctls[i].key)
          ==> s.pre.sysctls[i].key in now.sysctls && now.sysctls[s.pre.sysctls[i].key] == s.pre.sysctls[i].valueBefore)
    && (forall p :: CountAt(now.rules, p) == Less(CountAt(before.rules, p), multiset(Swept(s))[p]))
    && (forall r :: r in now.routes ==> r.table != s.marks.tableId)
    && s.marks.tunIfname !in now.links
    && ResolvRestored(hash, s.pre.resolvConf, now.resolv)
  }

  /**
   Exit codes mean what they say, for any snapshot, any failures and any backup: 0 only when
   everything is reverted, and the snapshot is still there whenever the code is not 0.
   */
  lemma ExitCodeSound(hash: string -> string, w: World, f: Faults)
    requires w.snapshot.Stored?
    ensures var s, run := w.snapshot.snap, ScriptRun(hash, w, f);
            var after := Exec(w, run.cmds);
            && run.exit in {0, 1, 2}
            && (run.exit == 0 ==> Reverted(hash, s, w.host, after.host))
            && (run.exit == 0 ==> after.snapshot == if f.snapshotRemove then w.snapshot else Missing)
            && (run.exit != 0 ==> after.snapshot == w.snapshot)
            && after.backups == w.backups
  {
    var s, run := w.snapshot.snap, ScriptRun(hash, w, f);
    if !f.toolsMissing && GuardsPass(s) {
      PanicEffect(hash, w, f);
      if run.exit == 0 {
        ExitZeroReverts(hash, w, f);
      }
    }
  }

  lemma ExitZeroReverts(hash: string -> string, w: World, f: Faults)
    requires w.snapshot.Stored? && !f.toolsMissing && GuardsPass(w.snapshot.snap)
    requires ScriptRun(hash, w, f).exit == 0
    ensures Reverted(hash, w.snapshot.snap, w.host, Exec(w, ScriptRun(hash, w, f).cmds).host)
  {
    var s := w.snapshot.snap;
    var es := s.pre.sysctls;
    PanicEffect(hash, w, f);
    assert !FailedBeforeResolv(w, s, f);
    forall i | 0 <= i < |es| && (forall j :: i < j < |es| ==> es[j].key != es[i].key)
      ensures es[i].key in w.host.sysctls
      ensures WriteBack(w.host.sysctls, es, f.sysctls, |es|)[es[i].key] == es[i].valueBefore
    {
      WrittenBack(w.host.sysctls, es, f.sysctls, |es|, i);
    }
    forall p
      ensures CountAt(DeleteAll(w.host.rules, Swept(s)), p) == Less(CountAt(w.host.rules, p), multiset(Swept(s))[p])
    {
      DeleteAllCounts(w.host.rules, Swept(s), p);
    }
  }

  /** With a collision-free hash, exit code 0 means the very content that was hashed is back. */
  lemma RegularContentRestored(hash: string -> string, w: World, f: Faults, original: string)
    requires forall x, y :: hash(x) == hash(y) ==> x == y
    requires w.snapshot.Stored? && ScriptRun(hash, w, f).exit == 0
    requires var r := w.snapshot.snap.pre.resolvConf;
             r.existed && !r.wasSymlink && r.sha256Before == hash(original) && hash(original) != ""
    ensures Exec(w, ScriptRun(hash, w, f).cmds).host.resolv == Regular(original)
  {
    ExitCodeSound(hash, w, f);
    assert hash(Exec(w, ScriptRun(hash, w, f).cmds).host.resolv.content) == hash(original);
  }

  /** Exactly when a run past the guards exits with 0: one failure anywhere is never forgotten. */
  lemma FailureIsSticky(hash: string -> string, w: World, f: Faults)
    requires w.snapshot.Stored? && !f.toolsMissing && GuardsPass(w.snapshot.snap)
    ensures var s, run := w.snapshot.snap, ScriptRun(hash, w, f);
            var r := s.pre.resolvConf;
            var intact := r.backupPath in w.backups && (r.sha256Before == "" || hash(w.backups[r.backupPath]) == r.sha256Before);
            && (run.exit == 0 <==>
                  && !FailedBeforeResolv(w, s, f)
                  && (r.existed ==> !f.resolvPut)
                  && (r.existed && r.wasSymlink ==> r.symlinkTarget != "")
                  && (r.existed && !r.wasSymlink ==> intact))
            // A failed sysctl or link deletion also keeps a regular file from being restored.
            && (r.existed && !r.wasSymlink && (FailedBeforeResolv(w, s, f) || !intact) ==>
                  run.exit == 1 && Exec(w, run.cmds).host.resolv == w.host.resolv)
            // A symlink is put back even then.
            && (r.existed && r.wasSymlink && r.symlinkTarget != "" && !f.resolvPut ==>
                  Exec(w, run.cmds).host.resolv == Symlink(r.symlinkTarget))
  {
    PanicEffect(hash, w, f);
  }

  // ---- Best effort ---------------------------------------------------------------

  /** An entry that can be written is written, whatever happens to the others. */
  lemma {:induction false} WrittenBackEach(m: map<string, string>, es: seq<SysctlState>, fails: set<int>, n: nat, i: nat)
    requires i < n <= |es| && i !in fails && es[i].key in m
    requires forall j :: i < j < n ==> es[j].key != es[i].key || j in fails
    ensures WriteBack(m, es, fails, n)[es[i].key] == es[i].valueBefore
  {
    if i < n - 1 {
      WrittenBackEach(m, es, fails, n - 1, i);
    }
  }

  /**
   No failure stops the rest: a run that is not refused empties the table, deletes the marked
   and the recorded rules, writes every sysctl that can be written, and leaves the device only
   if deleting it failed.
   */
  lemma RevertsWhatItCan(hash: string -> string, w: World, f: Faults)
    requires w.snapshot.Stored? && ScriptRun(hash, w, f) != PanicRun([], 2)
    ensures var s, h := w.snapshot.snap, Exec(w, ScriptRun(hash, w, f).cmds).host;
            && (forall r :: r in h.routes ==> r.table != s.marks.tableId)
            && (forall p :: CountAt(h.rules, p) == Less(CountAt(w.host.rules, p), multiset(Swept(s))[p]))
            && (s.marks.tunIfname in h.links <==> s.marks.tunIfname in w.host.links && f.linkDelete)
            && (forall i :: 0 <= i < |s.pre.sysctls| && i !in f.sysctls && s.pre.sysctls[i].key in w.host.sysctls
                  && (forall j :: i < j < |s.pre.sysctls| ==> s.pre.sysctls[j].key != s.pre.sysctls[i].key || j in f.sysctls)
                  ==> s.pre.sysctls[i].key in h.sysctls && h.sysctls[s.pre.sysctls[i].key] == s.pre.sysctls[i].valueBefore)
  {
    var s := w.snapshot.snap;
    var es := s.pre.sysctls;
    PanicEffect(hash, w, f);
    forall p
      ensures CountAt(DeleteAll(w.host.rules, Swept(s)), p) == Less(CountAt(w.host.rules, p), multiset(Swept(s))[p])
    {
      DeleteAllCounts(w.host.rules, Swept(s), p);
    }
    forall i | 0 <= i < |es| && i !in f.sysctls && es[i].key in w.host.sysctls
               && (forall j :: i < j < |es| ==> es[j].key != es[i].key || j in f.sysctls)
      ensures WriteBack(w.host.sysctls, es, f.sysctls, |es|)[es[i].key] == es[i].valueBefore
    {
      WrittenBackEach(w.host.sysctls, es, f.sysctls, |es|, i);
    }
  }

  // ---- Refusal -----------------------------------------------------------------

  /** The names of devices that may not be ours: empty, lo, *, and those of other devices' kinds. */
  predicate ForeignName(name: string) {
    || |name| == 0
    || (|name| == 1 && name[0] == '*')
    || (|name| == 2 && name[0] == 'l' && name[1] == 'o')
    || (|name| >= 2 && name[..2] == "en")
    || (|name| >= 2 && name[..2] == "wl")
    || (|name| >= 3 && name[..3] == "eth")
    || (|name| >= 3 && name[..3] == "br-")
    || (|name| >= 4 && name[..4] == "veth")
    || (|name| >= 5 && name[..5] == "virbr")
    || (|name| >= 6 && name[..6] == "docker")
  }

  /**
   Exactly when the script refuses to do anything, for every world and all failures: there is a
   file, and it is unreadable, or a tool is missing, or the version is not 1, or the device
   has a foreign name, or the table is none or the kernel's, or the priority is below 1000. The
   only other way to exit with 2 is a recorded symlink without target.
   */
  lemma RefusedExactly(hash: string -> string, w: World, f: Faults)
    ensures var run := ScriptRun(hash, w, f);
            var refused :=
              || w.snapshot.Garbage?
              || (w.snapshot.Stored? && var s := w.snapshot.snap;
                    || f.toolsMissing
                    || s.version != 1
                    || ForeignName(s.marks.tunIfname)
                    || s.marks.tableId <= 0 || 253 <= s.marks.tableId <= 255
                    || s.marks.rulePriority < 1000);
            && (run == PanicRun([], 2) <==> refused)
            && (run.exit == 2 <==>
                  || refused
                  || (w.snapshot.Stored? && var r := w.snapshot.snap.pre.resolvConf;
                        r.existed && r.wasSymlink && r.symlinkTarget == ""))
            && (run.cmds == [] ==> run.exit != 1)
  {
    if w.snapshot.Stored? {
      var s := w.snapshot.snap;
      ForeignExactly(s.marks.tunIfname);
      if !f.toolsMissing && GuardsPass(s) {
        hide ReservedName, ForeignName, ResolvPart;
        assert FlushTable(s.marks.tableId) in NetworkCmds(w, s, f);
        var branch := ResolvPart(hash, w, s, f);
        assert FlushTable(s.marks.tableId) in NetworkCmds(w, s, f) + branch.cmds;
        DiedExactly(hash, w.backups, s.pre.resolvConf, FailedBeforeResolv(w, s, f), f.resolvPut);
      }
    }
  }

  lemma ForeignExactly(name: string)
    ensures ReservedName(name) <==> ForeignName(name)
  {
    assert |name| == 2 && name[0] == 'l' && name[1] == 'o' <==> name == "lo";
    assert |name| == 1 && name[0] == '*' <==> name == "*";
  }

  lemma DiedExactly(hash: string -> string, backups: map<string, string>, r: ResolvConfState, failed: bool, putFails: bool)
    ensures RestoreResolv(hash, backups, r, failed, putFails).died <==> r.existed && r.wasSymlink && r.symlinkTarget == ""
  {
  }

  // ---- Frame -------------------------------------------------------------------

  function AsSet(ps: seq<int>): set<int> {
    set p | p in ps
  }

  /** The record says that resolv.conf was a regular file. */
  predicate BackedUp(r: ResolvConfState) {
    r.existed && !r.wasSymlink
  }

  /** The kinds of commands the script issues for a snapshot, and their arguments. */
  predicate Issues(s: Snapshot, keys: set<string>, cmd: Cmd) {
    match cmd
    case WriteSysctl(key, _) => key in keys && exists e :: e in s.pre.sysctls && e.key == key
    case DeleteRule(p) => p in Swept(s)
    case FlushTable(table) => table == s.marks.tableId
    case DeleteLink(ifname) => ifname == s.marks.tunIfname
    case UnlinkResolv => true
    case LinkResolv(target) => s.pre.resolvConf.wasSymlink && target == s.pre.resolvConf.symlinkTarget
    case CopyBackupToResolv(path) => BackedUp(s.pre.resolvConf) && path == s.pre.resolvConf.backupPath
    case RemoveSnapshot => true
    case _ => false
  }

  /** What the script leaves alone. */
  predicate Untouched(s: Snapshot, w: World, v: World) {
    && v.host.links - {s.marks.tunIfname} == w.host.links - {s.marks.tunIfname}
    && (set r | r in v.host.routes && r.table != s.marks.tableId && r.dev != s.marks.tunIfname)
       == (set r | r in w.host.routes && r.table != s.marks.tableId && r.dev != s.marks.tunIfname)
    && Outside(v.host.rules, AsSet(Swept(s))) == Outside(w.host.rules, AsSet(Swept(s)))
    && v.host.sysctls.Keys == w.host.sysctls.Keys
    && (forall k :: k in w.host.sysctls && (forall e :: e in s.pre.sysctls ==> e.key != k) ==>
          v.host.sysctls[k] == w.host.sysctls[k])
    && v.backups == w.backups
  }

  lemma IssuedLeavesUntouched(s: Snapshot, w: World, v: World, cmd: Cmd)
    requires Untouched(s, w, v) && Issues(s, w.host.sysctls.Keys, cmd)
    ensures Untouched(s, w, Apply(v, cmd))
  {
    match cmd
    case DeleteRule(p) => RemoveInside(v.host.rules, p, AsSet(Swept(s)));
    case FlushTable(_) =>
      var now := Apply(v, cmd).host.routes;
      assert (set r | r in now && r.table != s.marks.tableId && r.dev != s.marks.tunIfname)
          == (set r | r in v.host.routes && r.table != s.marks.tableId && r.dev != s.marks.tunIfname);
    case DeleteLink(_) =>
      var now := Apply(v, cmd).host.routes;
      assert (set r | r in now && r.table != s.marks.tableId && r.dev != s.marks.tunIfname)
          == (set r | r in v.host.routes && r.table != s.marks.tableId && r.dev != s.marks.tunIfname);
    case _ =>
  }

  lemma {:induction false} IssuedRunLeavesUntouched(s: Snapshot, w: World, v: World, cs: seq<Cmd>)
    requires Untouched(s, w, v) && forall cmd :: cmd in cs ==> Issues(s, w.host.sysctls.Keys, cmd)
    ensures Untouched(s, w, Exec(v, cs))
    decreases |cs|
  {
    if cs != [] {
      IssuedLeavesUntouched(s, w, v, cs[0]);
      IssuedRunLeavesUntouched(s, w, Apply(v, cs[0]), cs[1..]);
    }
  }

  lemma {:induction false} SysctlCmdsIssued(s: Snapshot, keys: set<string>, fails: set<int>, n: nat)
    requires n <= |s.pre.sysctls|
    ensures forall cmd :: cmd in SysctlCmds(keys, s.pre.sysctls, fails, n) ==> Issues(s, keys, cmd)
  {
    if n > 0 {
      SysctlCmdsIssued(s, keys, fails, n - 1);
      assert s.pre.sysctls[n - 1] in s.pre.sysctls;
    }
  }

  lemma PanicIssues(hash: string -> string, w: World, f: Faults)
    requires w.snapshot.Stored?
    ensures forall cmd :: cmd in ScriptRun(hash, w, f).cmds ==> Issues(w.snapshot.snap, w.host.sysctls.Keys, cmd)
  {
    var s := w.snapshot.snap;
    SysctlCmdsIssued(s, w.host.sysctls.Keys, f.sysctls, |s.pre.sysctls|);
    assert forall cmd :: cmd in RuleDels(Swept(s)) ==> Issues(s, w.host.sysctls.Keys, cmd);
    var branch := ResolvPart(hash, w, s, f);
    assert forall cmd :: cmd in branch.cmds ==> Issues(s, w.host.sysctls.Keys, cmd);
    assert forall cmd :: cmd in NetworkCmds(w, s, f) ==> Issues(s, w.host.sysctls.Keys, cmd);
  }

  /** At no point of a run, whatever the snapshot, is anything but the marked state touched. */
  lemma PanicFrame(hash: string -> string, w: World, f: Faults, k: nat)
    requires w.snapshot.Stored? && k <= |ScriptRun(hash, w, f).cmds|
    ensures Untouched(w.snapshot.snap, w, Exec(w, ScriptRun(hash, w, f).cmds[..k]))
  {
    PanicIssues(hash, w, f);
    IssuedRunLeavesUntouched(w.snapshot.snap, w, w, ScriptRun(hash, w, f).cmds[..k]);
  }

  /** A rule at a priority that is not swept is still there at every point of every run. */
  lemma UnsweptRuleSurvives(hash: string -> string, w: World, f: Faults, k: nat, r: Rule)
    requires w.snapshot.Stored? && k <= |ScriptRun(hash, w, f).cmds|
    requires r in w.host.rules && r.priority !in Swept(w.snapshot.snap)
    ensures r in Exec(w, ScriptRun(hash, w, f).cmds[..k]).host.rules
  {
    hide ScriptRun;
    var ps := AsSet(Swept(w.snapshot.snap));
    PanicFrame(hash, w, f, k);
    OutsideMembers(w.host.rules, ps);
    OutsideMembers(Exec(w, ScriptRun(hash, w, f).cmds[..k]).host.rules, ps);
  }

  /** In particular a rule below priority 1000, whatever the snapshot and whatever fails. */
  lemma LowRuleSurvives(hash: string -> string, w: World, f: Faults, k: nat, r: Rule)
    requires w.snapshot.Stored? && k <= |ScriptRun(hash, w, f).cmds|
    requires r in w.host.rules && r.priority < 1000
    ensures r in Exec(w, ScriptRun(hash, w, f).cmds[..k]).host.rules
  {
    var s := w.snapshot.snap;
    if GuardsPass(s) {
      GuardedMembers(RulePriorities(s.actions));
      UnsweptRuleSurvives(hash, w, f, k, r);
    }
  }

  /** Which actions were confirmed makes no difference to the revert. */
  lemma DoneFlagsIrrelevant(hash: string -> string, w: World, f: Faults, done: seq<bool>)
    requires w.snapshot.Stored? && |done| == |w.snapshot.snap.actions|
    ensures ScriptRun(hash, w.(snapshot := Stored(WithDone(w.snapshot.snap, done))), f) == ScriptRun(hash, w, f)
  {
    var s := w.snapshot.snap;
    SameOpsSamePriorities(s.actions, WithDone(s, done).actions);
    assert Swept(WithDone(s, done)) == Swept(s);
  }
}
