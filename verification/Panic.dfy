/** What one run of the revert script does: the commands that take effect, and its exit code. */
module Panic {
  import opened Snapshots
  import opened Hosts

  /**
   The environment's part in one run of the script: which tools exist, which of the
   checked commands fail, and whether the unchecked removal of the snapshot fails.
   */
  datatype Faults = Faults(
    toolsMissing: bool,
    sysctls: set<int>,
    linkDelete: bool,
    resolvPut: bool,
    snapshotRemove: bool)

  const NO_FAULTS := Faults(false, {}, false, false, false)

  datatype PanicRun = PanicRun(cmds: seq<Cmd>, exit: int)

  predicate HasPrefix(s: string, prefix: string) {
    prefix <= s
  }

  /** The interface names that the script refuses to touch. */
  predicate ReservedName(name: string) {
    || name in {"", "lo", "*"}
    || HasPrefix(name, "eth") || HasPrefix(name, "en") || HasPrefix(name, "wl")
    || HasPrefix(name, "virbr") || HasPrefix(name, "docker") || HasPrefix(name, "br-")
    || HasPrefix(name, "veth")
  }

  predicate ReservedTable(table: int) {
    table <= 0 || table in {253, 254, 255}
  }

  predicate GuardsPass(s: Snapshot) {
    && s.version == 1
    && !ReservedName(s.marks.tunIfname)
    && !ReservedTable(s.marks.tableId)
    && s.marks.rulePriority >= 1000
  }

  predicate SysctlFails(keys: set<string>, es: seq<SysctlState>, fails: set<int>, i: int)
    requires 0 <= i < |es|
  {
    i in fails || es[i].key !in keys
  }

  /** The sysctl writes among the first n entries that succeed. */
  function SysctlCmds(keys: set<string>, es: seq<SysctlState>, fails: set<int>, n: nat): seq<Cmd>
    requires n <= |es|
  {
    if n == 0 then []
    else
      SysctlCmds(keys, es, fails, n - 1) +
      (if SysctlFails(keys, es, fails, n - 1) then [] else [WriteSysctl(es[n - 1].key, es[n - 1].valueBefore)])
  }

  predicate SomeSysctlFails(keys: set<string>, es: seq<SysctlState>, fails: set<int>, n: nat)
    requires n <= |es|
  {
    exists i :: 0 <= i < n && SysctlFails(keys, es, fails, i)
  }

  function RuleDels(ps: seq<int>): seq<Cmd> {
    seq(|ps|, i requires 0 <= i < |ps| => DeleteRule(ps[i]))
  }

  datatype ResolvRun = ResolvRun(cmds: seq<Cmd>, failed: bool, died: bool)

  /** The resolv.conf branch, given whether anything failed before it. */
  function RestoreResolv(hash: string -> string, backups: map<string, string>, r: ResolvConfState,
                         failed: bool, putFails: bool): ResolvRun
  {
    if !r.existed then ResolvRun([UnlinkResolv], failed, false)
    else if r.wasSymlink then
      if r.symlinkTarget == "" then ResolvRun([UnlinkResolv], failed, true)
      else if putFails then ResolvRun([UnlinkResolv], true, false)
      else ResolvRun([UnlinkResolv, LinkResolv(r.symlinkTarget)], failed, false)
    else if r.backupPath !in backups then ResolvRun([], true, false)
    else if failed || (r.sha256Before != "" && hash(backups[r.backupPath]) != r.sha256Before) then
      ResolvRun([], true, false)
    else if putFails then ResolvRun([UnlinkResolv], true, false)
    else ResolvRun([UnlinkResolv, CopyBackupToResolv(r.backupPath)], false, false)
  }

  predicate LinkDeleteFails(w: World, s: Snapshot, f: Faults) {
    s.marks.tunIfname in w.host.links && f.linkDelete
  }

  function LinkCmds(w: World, s: Snapshot, f: Faults): seq<Cmd> {
    if s.marks.tunIfname in w.host.links && !f.linkDelete then [DeleteLink(s.marks.tunIfname)] else []
  }

  /** FAILED as it stands when the resolv.conf branch begins. */
  predicate FailedBeforeResolv(w: World, s: Snapshot, f: Faults) {
    || SomeSysctlFails(w.host.sysctls.Keys, s.pre.sysctls, f.sysctls, |s.pre.sysctls|)
    || LinkDeleteFails(w, s, f)
  }

  function NetworkCmds(w: World, s: Snapshot, f: Faults): seq<Cmd> {
    SysctlCmds(w.host.sysctls.Keys, s.pre.sysctls, f.sysctls, |s.pre.sysctls|)
    + RuleDels(Swept(s))
    + [FlushTable(s.marks.tableId)]
    + LinkCmds(w, s, f)
  }

  function ResolvPart(hash: string -> string, w: World, s: Snapshot, f: Faults): ResolvRun {
    RestoreResolv(hash, w.backups, s.pre.resolvConf, FailedBeforeResolv(w, s, f), f.resolvPut)
  }

  /** One uninterrupted run of the script. A run that is cut leaves a prefix of its commands. */
  function ScriptRun(hash: string -> string, w: World, f: Faults): PanicRun {
    match w.snapshot
    case Missing => PanicRun([], 0)
    case Garbage => PanicRun([], 2)
    case Stored(s) =>
      if f.toolsMissing || !GuardsPass(s) then PanicRun([], 2)
      else
        var resolv := ResolvPart(hash, w, s, f);
        var body := NetworkCmds(w, s, f) + resolv.cmds;
        if resolv.died then PanicRun(body, 2)
        else if resolv.failed then PanicRun(body, 1)
        else PanicRun(body + (if f.snapshotRemove then [] else [RemoveSnapshot]), 0)
  }
}
