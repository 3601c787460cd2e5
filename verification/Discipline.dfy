/**
 The write-ahead discipline. `Safe` says what every reachable world looks like relative to
 the host before the first connect; `Permitted` says when a command may be issued; and
 every permitted command keeps the world safe, so a crash anywhere leaves a safe world.
 */
module Discipline {
  import opened Addresses
  import opened Snapshots
  import opened Hosts
  import opened Config
  import opened Routing

  /** What stays fixed while one daemon manages one host; `base` is the untouched host. */
  datatype Scope = Scope(
    hash: string -> string,
    marks: OurMarks,
    backupPath: string,
    managed: string,
    base: Host,
    server: IPv4)

  /** The assumptions about the untouched host that the program does not check. */
  predicate BaselineOk(c: Scope) {
    && Sorted(c.base.rules)
    && (forall r :: r in c.base.rules ==> !InWindow(c.marks.rulePriority, r.priority))
    && (forall r :: r in c.base.routes ==> r.table != c.marks.tableId && r.dev != c.marks.tunIfname)
    && c.marks.tunIfname !in c.base.links
    && IPV6_KEY in c.base.sysctls
    && (c.base.resolv.Symlink? ==> c.base.resolv.target != "")
  }

  function RecordedResolv(hash: string -> string, r: Resolv, backupPath: string): ResolvConfState {
    match r
    case Absent => ABSENT_RESOLV
    case Symlink(target) => ResolvConfState(true, "", true, target, "")
    case Regular(content) => ResolvConfState(true, backupPath, false, "", hash(content))
  }

  function RecordedPreState(hash: string -> string, h: Host, backupPath: string): PreState
    requires IPV6_KEY in h.sysctls
  {
    PreState(RecordedResolv(hash, h.resolv, backupPath), false, [SysctlState(IPV6_KEY, h.sysctls[IPV6_KEY])])
  }

  /** The snapshot names what we own and describes the untouched host, backup included. */
  predicate Describes(c: Scope, s: Snapshot, backups: map<string, string>)
    requires IPV6_KEY in c.base.sysctls
  {
    && s.version == VERSION
    && s.marks == c.marks
    && s.pre == RecordedPreState(c.hash, c.base, c.backupPath)
    && (forall p :: p in Swept(s) ==> InWindow(c.marks.rulePriority, p))
    && (c.base.resolv.Regular? ==> c.backupPath in backups && backups[c.backupPath] == c.base.resolv.content)
  }

  /** Rules: foreign ones as before, at most one of ours per priority, and only where recorded. */
  predicate RulesOk(c: Scope, s: Snapshot, rs: seq<Rule>) {
    var base := c.marks.rulePriority;
    && Sorted(rs)
    && Outside(rs, Window(base)) == c.base.rules
    && (forall p :: p in Window(base) ==> CountAt(rs, p) <= 1)
    && (forall p :: p in Window(base) && CountAt(rs, p) == 1 ==> p in Swept(s))
    && (forall r :: r in rs && r.priority in Window(base) ==> r in Installed(c.marks, c.server))
    && (CountAt(rs, base) == 1 ==> forall r :: r in Installed(c.marks, c.server) ==> r in rs)
  }

  /** The host differs from the untouched one only in what is recorded or marked as ours. */
  predicate DiffersOnlyWhereMarked(c: Scope, s: Snapshot, h: Host) {
    && RulesOk(c, s, h.rules)
    && (set r | r in h.routes && r.table != c.marks.tableId && r.dev != c.marks.tunIfname) == c.base.routes
    && (forall r :: r in h.routes && r.dev == c.marks.tunIfname ==> c.marks.tunIfname in h.links)
    && h.links - {c.marks.tunIfname} == c.base.links
    && h.sysctls.Keys == c.base.sysctls.Keys
    && (forall k :: k in h.sysctls && k != IPV6_KEY ==> h.sysctls[k] == c.base.sysctls[k])
    && h.resolv in {c.base.resolv, Absent, Regular(c.managed)}
  }

  predicate Safe(c: Scope, w: World)
    requires BaselineOk(c)
  {
    match w.snapshot
    case Missing => w.host == c.base
    case Garbage => false
    case Stored(s) => Describes(c, s, w.backups) && DiffersOnlyWhereMarked(c, s, w.host)
  }

  /** When each command may be issued. */
  predicate Permitted(c: Scope, w: World, cmd: Cmd)
    requires BaselineOk(c)
  {
    var rs, base := w.host.rules, c.marks.rulePriority;
    match cmd
    // Only a faithful record may be written, and it never forgets a priority.
    case Persist(s) =>
      Describes(c, s, w.backups) && (w.snapshot.Stored? ==> forall p :: p in Swept(w.snapshot.snap) ==> p in Swept(s))
    case RemoveSnapshot => w.host == c.base
    // The backup is written before there is a snapshot that relies on it.
    case TruncateBackup(_) => w.snapshot.Missing?
    case WriteBackup(_, _) => w.snapshot.Missing?
    // The host is touched only under a snapshot, and only where the snapshot says.
    case WriteSysctl(key, _) => w.snapshot.Stored? && key == IPV6_KEY
    case CreateTun(ifname) => w.snapshot.Stored? && ifname == c.marks.tunIfname
    case CloseTun(ifname) => ifname == c.marks.tunIfname
    case DeleteLink(ifname) => ifname == c.marks.tunIfname
    case AddRoute(route) =>
      && w.snapshot.Stored? && route.table == c.marks.tableId
      && (route.dev == c.marks.tunIfname ==> c.marks.tunIfname in w.host.links)
    case FlushTable(table) => table == c.marks.tableId
    // The catchall comes last.
    case AddRule(r) =>
      && w.snapshot.Stored? && r.priority in Swept(w.snapshot.snap)
      && r in Installed(c.marks, c.server) && CountAt(rs, r.priority) == 0
      && (r.priority == base ==> forall q :: q in Installed(c.marks, c.server) ==> q in rs || q == r)
    // The catchall goes first.
    case DeleteRule(p) =>
      w.snapshot.Stored? && InWindow(base, p) && (p == base || CountAt(rs, base) == 0)
    case UnlinkResolv => w.snapshot.Stored?
    case LinkResolv(target) => w.snapshot.Stored? && c.base.resolv == Symlink(target)
    case CopyBackupToResolv(path) => w.snapshot.Stored? && c.base.resolv.Regular? && path == c.backupPath
    case RenameToResolv(content) => w.snapshot.Stored? && content == c.managed
  }

  lemma InstalledInWindow(c: Scope)
    ensures forall r :: r in Installed(c.marks, c.server) ==> r.priority in Window(c.marks.rulePriority)
    ensures forall r, q ::
              r in Installed(c.marks, c.server) && q in Installed(c.marks, c.server) && r.priority == q.priority ==> r == q
    ensures Catchall(c.marks) in Installed(c.marks, c.server)
  {
    var ours := Installed(c.marks, c.server);
    assert ours[BYPASS_COUNT] == Catchall(c.marks);
    forall r | r in ours
      ensures r.priority in Window(c.marks.rulePriority)
      ensures ours[r.priority - c.marks.rulePriority + BYPASS_COUNT] == r
    {
      InstalledShape(c.marks, c.server, r);
      assert InWindow(c.marks.rulePriority, r.priority);
    }
  }

  lemma AddRuleKeepsRules(c: Scope, s: Snapshot, rs: seq<Rule>, r: Rule)
    requires RulesOk(c, s, rs)
    requires r in Installed(c.marks, c.server) && r.priority in Swept(s) && CountAt(rs, r.priority) == 0
    requires r.priority == c.marks.rulePriority ==> forall q :: q in Installed(c.marks, c.server) ==> q in rs || q == r
    ensures RulesOk(c, s, InsertRule(rs, r))
  {
    var base := c.marks.rulePriority;
    InstalledInWindow(c);
    InsertKeepsSorted(rs, r);
    InsertInside(rs, r, Window(base));
    forall p | p in Window(base)
      ensures CountAt(InsertRule(rs, r), p) == CountAt(rs, p) + (if r.priority == p then 1 else 0)
    {
      InsertCounts(rs, r, p);
    }
    BaseInWindow(base);
  }

  lemma DeleteRuleKeepsRules(c: Scope, s: Snapshot, rs: seq<Rule>, p: int)
    requires RulesOk(c, s, rs)
    requires InWindow(c.marks.rulePriority, p)
    requires p == c.marks.rulePriority || CountAt(rs, c.marks.rulePriority) == 0
    ensures RulesOk(c, s, RemoveRule(rs, p))
    ensures CountAt(RemoveRule(rs, p), p) == 0
    ensures CountAt(RemoveRule(rs, p), c.marks.rulePriority) == 0
    ensures forall q :: q in Window(c.marks.rulePriority) && CountAt(rs, q) == 0 ==> CountAt(RemoveRule(rs, p), q) == 0
  {
    var base := c.marks.rulePriority;
    assert p in Window(base);
    BaseInWindow(base);
    RemoveKeepsSorted(rs, p);
    RemoveInside(rs, p, Window(base));
    forall q | q in Window(base)
      ensures CountAt(RemoveRule(rs, p), q) == if p == q && CountAt(rs, p) > 0 then CountAt(rs, q) - 1 else CountAt(rs, q)
    {
      RemoveCounts(rs, p, q);
    }
  }

  /** The untouched host differs nowhere, whatever the record says. */
  lemma BaselineDiffersNowhere(c: Scope, s: Snapshot)
    requires BaselineOk(c)
    ensures DiffersOnlyWhereMarked(c, s, c.base)
  {
    var base := c.marks.rulePriority;
    forall p | p in Window(base)
      ensures CountAt(c.base.rules, p) == 0
    {
      CountZero(c.base.rules, p);
    }
    NothingInside(c.base.rules, Window(base));
    BaseInWindow(base);
    assert forall r :: r in c.base.rules && r.priority in Window(base) ==> InWindow(base, r.priority);
  }

  /** A safe world stays safe under every permitted command. */
  lemma PermittedKeepsSafe(c: Scope, w: World, cmd: Cmd)
    requires BaselineOk(c) && Safe(c, w) && Permitted(c, w, cmd)
    ensures Safe(c, Apply(w, cmd))
  {
    if w.snapshot.Missing? {
      match cmd
      case Persist(s) => BaselineDiffersNowhere(c, s);
      case CloseTun(_) => NoLinkNoChange(c);
      case DeleteLink(_) => NoLinkNoChange(c);
      case FlushTable(_) => NoLinkNoChange(c);
      case _ =>
    } else {
      var s := w.snapshot.snap;
      match cmd
      case AddRule(r) => AddRuleKeepsRules(c, s, w.host.rules, r);
      case DeleteRule(p) => DeleteRuleKeepsRules(c, s, w.host.rules, p);
      case _ => OtherCommandsKeepSafe(c, w, cmd);
    }
  }

  lemma NoLinkNoChange(c: Scope)
    requires BaselineOk(c)
    ensures WithoutLink(c.base, c.marks.tunIfname) == c.base
    ensures (set r | r in c.base.routes && r.table != c.marks.tableId) == c.base.routes
  {
  }

  lemma OtherCommandsKeepSafe(c: Scope, w: World, cmd: Cmd)
    requires BaselineOk(c) && Safe(c, w) && Permitted(c, w, cmd)
    requires w.snapshot.Stored? && !cmd.AddRule? && !cmd.DeleteRule?
    ensures Safe(c, Apply(w, cmd))
  {
    var h := w.host;
    match cmd
    case CloseTun(_) => LinkLossIsMarked(c, h);
    case DeleteLink(_) => LinkLossIsMarked(c, h);
    case _ =>
  }

  lemma LinkLossIsMarked(c: Scope, h: Host)
    ensures WithoutLink(h, c.marks.tunIfname).links - {c.marks.tunIfname} == h.links - {c.marks.tunIfname}
    ensures (set r | r in WithoutLink(h, c.marks.tunIfname).routes && r.table != c.marks.tableId && r.dev != c.marks.tunIfname)
         == (set r | r in h.routes && r.table != c.marks.tableId && r.dev != c.marks.tunIfname)
  {
  }

  // ---- Whole programs ----------------------------------------------------------

  /** Every command of the program is permitted in the world in which it is issued. */
  predicate Disciplined(c: Scope, w: World, cs: seq<Cmd>)
    requires BaselineOk(c)
    decreases |cs|
  {
    cs != [] ==> Permitted(c, w, cs[0]) && Disciplined(c, Apply(w, cs[0]), cs[1..])
  }

  /** A disciplined program can be cut anywhere. */
  lemma {:induction false} DisciplinedIsSafe(c: Scope, w: World, cs: seq<Cmd>, k: nat)
    requires BaselineOk(c) && Safe(c, w) && Disciplined(c, w, cs) && k <= |cs|
    ensures Safe(c, Exec(w, cs[..k]))
    decreases k
  {
    if k == 0 {
      assert cs[..0] == [];
    } else {
      PermittedKeepsSafe(c, w, cs[0]);
      DisciplinedIsSafe(c, Apply(w, cs[0]), cs[1..], k - 1);
      ExecPrefix(w, cs, k);
    }
  }

  lemma {:induction false} DisciplinedAppend(c: Scope, w: World, a: seq<Cmd>, b: seq<Cmd>)
    requires BaselineOk(c) && Disciplined(c, w, a) && Disciplined(c, Exec(w, a), b)
    ensures Disciplined(c, w, a + b)
    decreases |a|
  {
    if a == [] {
      assert a + b == b;
    } else {
      assert (a + b)[1..] == a[1..] + b;
      DisciplinedAppend(c, Apply(w, a[0]), a[1..], b);
    }
  }

  lemma DisciplinedOne(c: Scope, w: World, cmd: Cmd)
    requires BaselineOk(c) && Permitted(c, w, cmd)
    ensures Disciplined(c, w, [cmd])
  {
    assert [cmd][1..] == [];
  }
}
