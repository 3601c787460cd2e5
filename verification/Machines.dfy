/**
 The mutable host. Each method is one system call or shell command: it either has the
 effect of its `Cmd`, or fails and changes nothing. `fault` is the environment's
 choice; a command also fails when the kernel would refuse it.
 */
module Machines {
  import opened Snapshots
  import opened Hosts

  class Machine {
    const hash: string -> string

    var rules: seq<Rule>
    var routes: set<Route>
    var links: set<string>
    var sysctls: map<string, string>
    var resolv: Resolv
    var snapshot: SnapshotFile
    var backups: map<string, string>

    ghost const origin: World
    /** Every command that took effect since `origin`, oldest first. */
    ghost var log: seq<Cmd>

    ghost function Now(): World
      reads this
    {
      World(Host(rules, routes, links, sysctls, resolv), snapshot, backups)
    }

    /** The current state is what the logged commands made of the original one. */
    ghost predicate Valid()
      reads this
    {
      Now() == Exec(origin, log)
    }

    /** Exactly one command took effect. */
    twostate predicate Did(c: Cmd)
      reads this
    {
      && Valid()
      && log == old(log) + [c]
      && Now() == Apply(old(Now()), c)
    }

    constructor (hash: string -> string, w: World)
      ensures Valid() && Now() == w && log == [] && this.hash == hash
    {
      this.hash := hash;
      rules, routes, links := w.host.rules, w.host.routes, w.host.links;
      sysctls, resolv := w.host.sysctls, w.host.resolv;
      snapshot, backups := w.snapshot, w.backups;
      origin, log := w, [];
    }

    ghost method Record(c: Cmd, before: World)
      requires before == Exec(origin, log) && Now() == Apply(before, c)
      modifies this`log
      ensures Valid() && log == old(log) + [c]
    {
      ExecAppend(origin, log, [c]);
      ExecOne(before, c);
      log := log + [c];
    }

    /** Atomic replacement of the snapshot file: temp file, fsync, rename. */
    method Persist(s: Snapshot, fault: bool) returns (ok: bool)
      requires Valid()
      modifies this
      ensures ok == !fault
      ensures if ok then Did(Cmd.Persist(s)) else unchanged(this)
    {
      ok := !fault;
      if ok {
        ghost var before := Now();
        snapshot := Stored(s);
        Record(Cmd.Persist(s), before);
      }
    }

    method RemoveSnapshot(fault: bool)
      requires Valid()
      modifies this
      ensures if fault then unchanged(this) else Did(Cmd.RemoveSnapshot)
    {
      if !fault {
        ghost var before := Now();
        snapshot := Missing;
        Record(Cmd.RemoveSnapshot, before);
      }
    }

    method TruncateBackup(path: string, fault: bool) returns (ok: bool)
      requires Valid()
      modifies this
      ensures ok == !fault
      ensures if ok then Did(Cmd.TruncateBackup(path)) else unchanged(this)
    {
      ok := !fault;
      if ok {
        ghost var before := Now();
        backups := backups[path := ""];
        Record(Cmd.TruncateBackup(path), before);
      }
    }

    method WriteBackup(path: string, content: string, fault: bool) returns (ok: bool)
      requires Valid()
      modifies this
      ensures ok == !fault
      ensures if ok then Did(Cmd.WriteBackup(path, content)) else unchanged(this)
    {
      ok := !fault;
      if ok {
        ghost var before := Now();
        backups := backups[path := content];
        Record(Cmd.WriteBackup(path, content), before);
      }
    }

    method WriteSysctl(key: string, value: string, fault: bool) returns (ok: bool)
      requires Valid()
      modifies this
      ensures ok == (!fault && key in old(sysctls))
      ensures if ok then Did(Cmd.WriteSysctl(key, value)) else unchanged(this)
    {
      ok := !fault && key in sysctls;
      if ok {
        ghost var before := Now();
        sysctls := sysctls[key := value];
        Record(Cmd.WriteSysctl(key, value), before);
      }
    }

    method CreateTun(ifname: string, fault: bool) returns (ok: bool)
      requires Valid()
      modifies this
      ensures ok == !fault
      ensures if ok then Did(Cmd.CreateTun(ifname)) else unchanged(this)
    {
      ok := !fault;
      if ok {
        ghost var before := Now();
        links := links + {ifname};
        Record(Cmd.CreateTun(ifname), before);
      }
    }

    /** Closing the last descriptor of a non-persistent TUN makes the kernel drop the link. */
    method CloseTun(ifname: string)
      requires Valid()
      modifies this
      ensures Did(Cmd.CloseTun(ifname))
    {
      ghost var before := Now();
      links, routes := links - {ifname}, set r | r in routes && r.dev != ifname;
      Record(Cmd.CloseTun(ifname), before);
    }

    method DeleteLink(ifname: string, fault: bool) returns (ok: bool)
      requires Valid()
      modifies this
      ensures ok == !fault
      ensures if ok then Did(Cmd.DeleteLink(ifname)) else unchanged(this)
    {
      ok := !fault;
      if ok {
        ghost var before := Now();
        links, routes := links - {ifname}, set r | r in routes && r.dev != ifname;
        Record(Cmd.DeleteLink(ifname), before);
      }
    }

    method AddRoute(route: Route, fault: bool) returns (ok: bool)
      requires Valid()
      modifies this
      ensures ok == !fault
      ensures if ok then Did(Cmd.AddRoute(route)) else unchanged(this)
    {
      ok := !fault;
      if ok {
        ghost var before := Now();
        routes := routes + {route};
        Record(Cmd.AddRoute(route), before);
      }
    }

    method FlushTable(table: int)
      requires Valid()
      modifies this
      ensures Did(Cmd.FlushTable(table))
    {
      ghost var before := Now();
      routes := set r | r in routes && r.table != table;
      Record(Cmd.FlushTable(table), before);
    }

    method AddRule(rule: Rule, fault: bool) returns (ok: bool)
      requires Valid()
      modifies this
      ensures ok == !fault
      ensures if ok then Did(Cmd.AddRule(rule)) else unchanged(this)
    {
      ok := !fault;
      if ok {
        ghost var before := Now();
        rules := InsertRule(rules, rule);
        Record(Cmd.AddRule(rule), before);
      }
    }

    /** Without a rule at p this is a failure that nobody looks at: nothing changes. */
    method DeleteRule(p: int)
      requires Valid()
      modifies this
      ensures Did(Cmd.DeleteRule(p))
    {
      ghost var before := Now();
      rules := RemoveRule(rules, p);
      Record(Cmd.DeleteRule(p), before);
    }

    method UnlinkResolv(fault: bool) returns (ok: bool)
      requires Valid()
      modifies this
      ensures ok == !fault
      ensures if ok then Did(Cmd.UnlinkResolv) else unchanged(this)
    {
      ok := !fault;
      if ok {
        ghost var before := Now();
        resolv := Absent;
        Record(Cmd.UnlinkResolv, before);
      }
    }

    method LinkResolv(target: string, fault: bool) returns (ok: bool)
      requires Valid()
      modifies this
      ensures ok == !fault
      ensures if ok then Did(Cmd.LinkResolv(target)) else unchanged(this)
    {
      ok := !fault;
      if ok {
        ghost var before := Now();
        resolv := Symlink(target);
        Record(Cmd.LinkResolv(target), before);
      }
    }

    method CopyBackupToResolv(path: string, fault: bool) returns (ok: bool)
      requires Valid() && path in backups
      modifies this
      ensures ok == !fault
      ensures if ok then Did(Cmd.CopyBackupToResolv(path)) else unchanged(this)
    {
      ok := !fault;
      if ok {
        ghost var before := Now();
        resolv := Regular(backups[path]);
        Record(Cmd.CopyBackupToResolv(path), before);
      }
    }

    method RenameToResolv(content: string, fault: bool) returns (ok: bool)
      requires Valid()
      modifies this
      ensures ok == !fault
      ensures if ok then Did(Cmd.RenameToResolv(content)) else unchanged(this)
    {
      ok := !fault;
      if ok {
        ghost var before := Now();
        resolv := Regular(content);
        Record(Cmd.RenameToResolv(content), before);
      }
    }
  }
}
