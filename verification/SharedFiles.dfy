/**
 What happens when the managed resolv.conf is also the backup or the snapshot file: nothing in
 the program rules that out. Every command then acts on a file in two roles, and what the
 program and the script read in one role is what they wrote in the other.
 */
module SharedFiles {
  import opened Addresses
  import opened Snapshots
  import opened Hosts
  import opened Panic
  import opened PanicEffects
  import opened Config
  import opened Routing
  import opened Discipline
  import opened StartProgram
  import opened StartSafety
  import opened Journals
  import opened AcceptedSettings

  /** The second role of resolv.conf, if it has one. */
  datatype Sharing = Apart | AsBackup(path: string) | AsSnapshot

  function SharingOf(c: Settings): Sharing {
    if c.resolvPath == BackupPath(c) then AsBackup(c.resolvPath)
    else if c.resolvPath == SnapshotPath(c) then AsSnapshot
    else Apart
  }

  /**
   resolv.conf was written: so was the other file. As a snapshot such text is unreadable, and
   a link leads nowhere, or else no start would have been admitted.
   */
  function Mirrored(sh: Sharing, w: World): World {
    match sh
    case Apart => w
    case AsBackup(path) =>
      w.(backups := if w.host.resolv.Regular? then w.backups[path := w.host.resolv.content] else w.backups - {path})
    case AsSnapshot => w.(snapshot := if w.host.resolv.Regular? then Garbage else Missing)
  }

  function WithResolv(w: World, r: Resolv): World {
    w.(host := w.host.(resolv := r))
  }

  /** `Apply` with the files shared; `text` is the text of a snapshot. A file cannot be copied over itself. */
  function ApplyShared(text: Snapshot -> string, sh: Sharing, w: World, cmd: Cmd): World {
    var v := Apply(w, cmd);
    match cmd
    case Persist(s) => if sh.AsSnapshot? then WithResolv(v, Regular(text(s))) else v
    case RemoveSnapshot => if sh.AsSnapshot? then WithResolv(v, Absent) else v
    case TruncateBackup(path) => if sh == AsBackup(path) then WithResolv(v, Regular("")) else v
    case WriteBackup(path, content) => if sh == AsBackup(path) then WithResolv(v, Regular(content)) else v
    case CopyBackupToResolv(path) => if sh == AsBackup(path) then w else Mirrored(sh, v)
    case UnlinkResolv => Mirrored(sh, v)
    case LinkResolv(_) => Mirrored(sh, v)
    case RenameToResolv(_) => Mirrored(sh, v)
    case _ => v
  }

  function ExecShared(text: Snapshot -> string, sh: Sharing, w: World, cs: seq<Cmd>): World
    decreases |cs|
  {
    if cs == [] then w else ExecShared(text, sh, ApplyShared(text, sh, w, cs[0]), cs[1..])
  }

  /** The copy of a file over itself finds it already cut to nothing. */
  function AsCopied(r: Resolv): Resolv {
    if r.Regular? then Regular("") else r
  }

  /**
   The commands of a start. With one file as resolv.conf and backup, the empty copy is what
   gets recorded; with one file as resolv.conf and snapshot, the first snapshot makes it regular.
   */
  function ProgramShared(hash: string -> string, c: Settings, server: IPv4, w: World): seq<Cmd> {
    match SharingOf(c)
    case Apart => Program(hash, c, server, w)
    case AsBackup(_) => Program(hash, c, server, WithResolv(w, AsCopied(w.host.resolv)))
    case AsSnapshot =>
      if Admitted(c, w) then BringUp(hash, c, server, Regular(""), FirstSnapshot(hash, c, w.host)) else []
  }

  /** The script would copy the backup back over resolv.conf after unlinking it. */
  predicate CopiesFrom(w: World, path: string) {
    w.snapshot.Stored? && BackedUp(w.snapshot.snap.pre.resolvConf) && w.snapshot.snap.pre.resolvConf.backupPath == path
  }

  /** A run of the script with nothing failing but what must: that copy, if the file is its own backup. */
  function ScriptShared(hash: string -> string, c: Settings, w: World): PanicRun {
    ScriptRun(hash, w, NO_FAULTS.(resolvPut := SharingOf(c).AsBackup? && CopiesFrom(w, c.resolvPath)))
  }

  predicate RestoredShared(text: Snapshot -> string, k: Scope, c: Settings, w: World, crash: nat)
    requires crash <= |ProgramShared(k.hash, c, k.server, w)|
  {
    var v := ExecShared(text, SharingOf(c), w, ProgramShared(k.hash, c, k.server, w)[..crash]);
    ExecShared(text, SharingOf(c), v, ScriptShared(k.hash, c, v).cmds).host == k.base
  }

  lemma {:induction false} SharedSnoc(text: Snapshot -> string, sh: Sharing, w: World, cs: seq<Cmd>, cmd: Cmd)
    ensures ExecShared(text, sh, w, cs + [cmd]) == ApplyShared(text, sh, ExecShared(text, sh, w, cs), cmd)
    decreases |cs|
  {
    if cs == [] {
      assert cs + [cmd] == [cmd] && [cmd][1..] == [];
      assert ExecShared(text, sh, ApplyShared(text, sh, w, cmd), []) == ApplyShared(text, sh, w, cmd);
    } else {
      assert (cs + [cmd])[1..] == cs[1..] + [cmd];
      SharedSnoc(text, sh, ApplyShared(text, sh, w, cs[0]), cs[1..], cmd);
    }
  }

  lemma SharedPrefix(text: Snapshot -> string, sh: Sharing, w: World, cs: seq<Cmd>, n: nat)
    requires 0 < n <= |cs|
    ensures ExecShared(text, sh, w, cs[..n]) == ApplyShared(text, sh, ExecShared(text, sh, w, cs[..n - 1]), cs[n - 1])
  {
    assert cs[..n] == cs[..n - 1] + [cs[n - 1]];
    SharedSnoc(text, sh, w, cs[..n - 1], cs[n - 1]);
  }

  // ---- Files that are apart, or shared without harm ------------------------------------------

  /** No command that reads or writes the backup. */
  predicate SparesBackup(cmd: Cmd) {
    !cmd.TruncateBackup? && !cmd.WriteBackup? && !cmd.CopyBackupToResolv?
  }

  /** Two worlds alike up to the backups. */
  predicate Alike(v: World, w: World) {
    v.host == w.host && v.snapshot == w.snapshot
  }

  lemma {:induction false} SharedAlike(text: Snapshot -> string, sh: Sharing, v: World, w: World, cs: seq<Cmd>)
    requires !sh.AsSnapshot? && Alike(v, w) && forall cmd :: cmd in cs ==> SparesBackup(cmd)
    ensures Alike(ExecShared(text, sh, v, cs), Exec(w, cs))
    decreases |cs|
  {
    if cs != [] {
      assert cs[0] in cs;
      SharedAlike(text, sh, ApplyShared(text, sh, v, cs[0]), Apply(w, cs[0]), cs[1..]);
    }
  }

  lemma {:induction false} ApartIsPlain(text: Snapshot -> string, w: World, cs: seq<Cmd>)
    ensures ExecShared(text, Apart, w, cs) == Exec(w, cs)
    decreases |cs|
  {
    if cs != [] {
      ApartIsPlain(text, Apply(w, cs[0]), cs[1..]);
    }
  }

  /** Without a regular resolv.conf no command of a start concerns the backup. */
  lemma ProgramSparesBackup(hash: string -> string, c: Settings, server: IPv4, w: World)
    requires Admitted(c, w) && !w.host.resolv.Regular?
    ensures forall cmd :: cmd in Program(hash, c, server, w) ==> SparesBackup(cmd)
  {
    hide Mutations, Journal;
    var all := Program(hash, c, server, w);
    ProgramJournal(hash, c, server, w);
    assert all[0] == Persist(FirstSnapshot(hash, c, w.host));
    forall i | 0 <= i < |all|
      ensures SparesBackup(all[i])
    {
      JournalOnDisk(hash, c, w, all, i);
      if i > 0 {
        SnapshotStays(hash, c, w, all, 0, i);
      }
    }
  }

  /** Nor does the script, and it does the same whatever the backups hold. */
  lemma ScriptSparesBackup(hash: string -> string, v: World, w: World, f: Faults)
    requires Alike(v, w) && (w.snapshot.Stored? ==> !BackedUp(w.snapshot.snap.pre.resolvConf))
    ensures ScriptRun(hash, v, f) == ScriptRun(hash, w, f)
    ensures forall cmd :: cmd in ScriptRun(hash, w, f).cmds ==> SparesBackup(cmd)
  {
    if w.snapshot.Stored? {
      PanicIssues(hash, w, f);
    }
  }

  /** The record a crashed start leaves says what resolv.conf was. */
  lemma RecordOnDisk(hash: string -> string, c: Settings, server: IPv4, w: World, crash: nat)
    requires Admitted(c, w) && crash <= |Program(hash, c, server, w)|
    ensures var disk := Exec(w, Program(hash, c, server, w)[..crash]).snapshot;
            !disk.Missing? ==>
              disk.Stored? && disk.snap.pre.resolvConf == RecordedResolv(hash, w.host.resolv, BackupPath(c))
  {
    hide Program, Exec, Journal;
    ProgramJournal(hash, c, server, w);
    if !Exec(w, Program(hash, c, server, w)[..crash]).snapshot.Missing? {
      var j := WrittenBy(hash, c, w, Program(hash, c, server, w), crash);
      ProgramContinues(hash, c, server, w, j);
    }
  }

  /** Wherever no file has two roles that matter, sharing changes nothing. */
  lemma HarmlessSharing(text: Snapshot -> string, k: Scope, c: Settings, w: World, crash: nat)
    requires w.host == k.base && Admitted(c, w) && FilesApart(c, k.base.resolv)
    requires crash <= |Program(k.hash, c, k.server, w)|
    ensures ProgramShared(k.hash, c, k.server, w) == Program(k.hash, c, k.server, w)
    ensures RestoredShared(text, k, c, w, crash) <==> RestoredAfterCrash(k, c, w, crash)
  {
    hide Program, Exec, ScriptRun, ExecShared;
    var all := Program(k.hash, c, k.server, w);
    var sh := SharingOf(c);
    if sh.Apart? {
      ApartIsPlain(text, w, all[..crash]);
      var v := Exec(w, all[..crash]);
      ApartIsPlain(text, v, ScriptShared(k.hash, c, v).cmds);
      assert NO_FAULTS.(resolvPut := false) == NO_FAULTS;
    } else {
      assert WithResolv(w, AsCopied(w.host.resolv)) == w;
      ProgramSparesBackup(k.hash, c, k.server, w);
      RecordOnDisk(k.hash, c, k.server, w, crash);
      SharedAlike(text, sh, w, w, all[..crash]);
      var v, plain := ExecShared(text, sh, w, all[..crash]), Exec(w, all[..crash]);
      assert NO_FAULTS.(resolvPut := false) == NO_FAULTS;
      ScriptSparesBackup(k.hash, v, plain, NO_FAULTS);
      SharedAlike(text, sh, v, plain, ScriptRun(k.hash, plain, NO_FAULTS).cmds);
    }
  }

  // ---- Sharing that does harm ------------------------------------------------------------------

  /** The commands of a start up to the takeover of a resolv.conf that is no symlink. */
  lemma FirstCommands(hash: string -> string, c: Settings, server: IPv4, r: Resolv, s: Snapshot)
    requires !r.Symlink?
    ensures var cs := BringUp(hash, c, server, r, s);
            && |cs| > 7
            && cs[0] == Persist(s) && cs[1] == WriteSysctl(IPV6_KEY, "1") && cs[2] == Persist(SysctlSnapshot(s))
            && cs[3] == CreateTun(c.tunName) && cs[4].Persist? && cs[5].Persist?
            && cs[6] == RenameToResolv(ManagedContent(c))
            && (forall i :: 7 <= i < |cs| ==> cs[i].Persist? || cs[i].AddRoute? || cs[i].AddRule?)
  {
    var s2 := TunSnapshot(c, SysctlSnapshot(s));
    var taken := ResolvOp(hash, c);
    RoutingCommands(c, server, Confirmed(s2, taken));
    hide InstallRouting, AppendAction, Confirmed, SysctlSnapshot, TunSnapshot, ResolvOp, ManagedContent;
    var rest := InstallRouting(c, server, Confirmed(s2, taken));
    var head := [Persist(s), WriteSysctl(IPV6_KEY, "1"), Persist(SysctlSnapshot(s)), CreateTun(c.tunName), Persist(s2),
                 Persist(AppendAction(s2, taken, false)), RenameToResolv(ManagedContent(c)), Persist(Confirmed(s2, taken))];
    assert BringUp(hash, c, server, r, s) == head + rest;
    assert forall i :: 8 <= i < |head + rest| ==> (head + rest)[i] == rest[i - 8] && rest[i - 8] in rest;
  }

  lemma RoutingCommands(c: Settings, server: IPv4, s: Snapshot)
    ensures forall cmd :: cmd in InstallRouting(c, server, s) ==> cmd.Persist? || cmd.AddRoute? || cmd.AddRule?
  {
    var s1 := Confirmed(s, RouteOp(GatewayRoute(c)));
    RuleCommands(Confirmed(s1, RouteOp(DefaultRoute(c))), Installed(Marks(c), server));
  }

  lemma {:induction false} RuleCommands(s: Snapshot, rs: seq<Rule>)
    ensures forall cmd :: cmd in InstallRules(s, rs) ==> cmd.Persist? || cmd.AddRule?
    decreases |rs|
  {
    if rs != [] {
      RuleCommands(Confirmed(s, RuleOp(rs[0])), rs[1..]);
    }
  }

  /**
   resolv.conf as the snapshot file: a start that dies right after the takeover has replaced
   the snapshot by text that the script cannot read, so nothing is undone.
   */
  lemma SnapshotReplaced(text: Snapshot -> string, k: Scope, c: Settings, w: World)
    requires c.resolvPath == SnapshotPath(c) && w.host == k.base && Admitted(c, w) && !w.host.resolv.Regular?
    ensures |ProgramShared(k.hash, c, k.server, w)| > 7 && !RestoredShared(text, k, c, w, 7)
  {
    SnapshotIsNoBackup(c);
    hide BringUp, ExecShared, ManagedContent, FirstSnapshot, Program, SnapshotPath, BackupPath;
    assert SharingOf(c) == AsSnapshot;
    FirstCommands(k.hash, c, k.server, Regular(""), FirstSnapshot(k.hash, c, w.host));
    var all := ProgramShared(k.hash, c, k.server, w);
    SharedPrefix(text, AsSnapshot, w, all, 7);
    var v := ExecShared(text, AsSnapshot, w, all[..7]);
    assert v.snapshot == Garbage && v.host.resolv.Regular?;
    SharedNothing(text, AsSnapshot, v);
  }

  lemma SnapshotIsNoBackup(c: Settings)
    ensures SnapshotPath(c) != BackupPath(c)
  {
    assert SnapshotPath(c)[|SnapshotPath(c)| - 1] == 'n' && BackupPath(c)[|BackupPath(c)| - 1] == 'f';
  }

  lemma SharedNothing(text: Snapshot -> string, sh: Sharing, w: World)
    ensures ExecShared(text, sh, w, []) == w
  {
  }

  /** The commands of a start when a regular resolv.conf is its own backup. */
  lemma CommandsOverItself(hash: string -> string, c: Settings, server: IPv4, w: World)
    requires c.resolvPath == BackupPath(c) && Admitted(c, w) && w.host.resolv.Regular?
    ensures var cs := ProgramShared(hash, c, server, w);
            && |cs| > 9
            && cs[0] == TruncateBackup(c.resolvPath) && cs[1] == WriteBackup(c.resolvPath, "")
            && cs[2] == Persist(FirstSnapshot(hash, c, WithResolv(w, Regular("")).host))
            && cs[3].WriteSysctl? && cs[4].Persist? && cs[4].snap.marks == Marks(c) && cs[5] == CreateTun(c.tunName)
            && cs[6].Persist? && cs[7].Persist? && cs[8] == RenameToResolv(ManagedContent(c))
            && (forall i :: 9 <= i < |cs| ==> cs[i].Persist? || cs[i].AddRoute? || cs[i].AddRule?)
  {
    hide BringUp, ManagedContent;
    var s := FirstSnapshot(hash, c, WithResolv(w, Regular("")).host);
    FirstCommands(hash, c, server, Regular(""), s);
    var rest := BringUp(hash, c, server, Regular(""), s);
    assert ProgramShared(hash, c, server, w) == [TruncateBackup(c.resolvPath), WriteBackup(c.resolvPath, "")] + rest;
    assert forall i :: 2 <= i < |rest| + 2 ==> ProgramShared(hash, c, server, w)[i] == rest[i - 2];
  }

  /** The world right after the first snapshot of such a start. */
  lemma BackedUpOverItself(text: Snapshot -> string, hash: string -> string, c: Settings, server: IPv4, w: World)
    requires c.resolvPath == BackupPath(c) && Admitted(c, w) && w.host.resolv.Regular?
    ensures var all := ProgramShared(hash, c, server, w);
            |all| > 9 &&
            ExecShared(text, AsBackup(c.resolvPath), w, all[..3]) == World(
              w.host.(resolv := Regular("")),
              Stored(FirstSnapshot(hash, c, WithResolv(w, Regular("")).host)),
              w.backups[c.resolvPath := ""])
  {
    hide ProgramShared, ExecShared, FirstSnapshot;
    var sh, all := AsBackup(c.resolvPath), ProgramShared(hash, c, server, w);
    CommandsOverItself(hash, c, server, w);
    assert all[..0] == [];
    SharedNothing(text, sh, w);
    SharedPrefix(text, sh, w, all, 1);
    SharedPrefix(text, sh, w, all, 2);
    SharedPrefix(text, sh, w, all, 3);
    assert w.backups[c.resolvPath := ""][c.resolvPath := ""] == w.backups[c.resolvPath := ""];
  }

  /** What a run of the script does to it: the empty file passes the hash check and is then lost. */
  lemma EmptyBackupLost(text: Snapshot -> string, k: Scope, c: Settings, w: World)
    requires c.resolvPath == BackupPath(c) && w.host == k.base && Admitted(c, w) && k.base.resolv.Regular?
    requires Validate(c) == Accepted && !ReservedName(c.tunName)
    ensures |ProgramShared(k.hash, c, k.server, w)| > 9 && !RestoredShared(text, k, c, w, 3)
  {
    hide ExecShared, ReservedName, ProgramShared;
    BackedUpOverItself(text, k.hash, c, k.server, w);
    var sh := AsBackup(c.resolvPath);
    var v := ExecShared(text, sh, w, ProgramShared(k.hash, c, k.server, w)[..3]);
    var s, f := v.snapshot.snap, NO_FAULTS.(resolvPut := true);
    ValidateVersusGuards(c, s);
    var es := s.pre.sysctls;
    assert es == [SysctlState(IPV6_KEY, w.host.sysctls[IPV6_KEY])];
    assert !SysctlFails(v.host.sysctls.Keys, es, {}, 0);
    assert !FailedBeforeResolv(v, s, f);
    assert ScriptRun(k.hash, v, f).cmds == NetworkCmds(v, s, f) + [UnlinkResolv];
    SharedSnoc(text, sh, v, NetworkCmds(v, s, f), UnlinkResolv);
  }

  /** With a reserved name, nothing is undone either. */
  lemma ReservedWhenShared(text: Snapshot -> string, k: Scope, c: Settings, w: World)
    requires c.resolvPath == BackupPath(c) && w.host == k.base && Admitted(c, w) && k.base.resolv.Regular?
    requires ReservedName(c.tunName)
    ensures |ProgramShared(k.hash, c, k.server, w)| > 9 && !RestoredShared(text, k, c, w, 6)
  {
    hide ExecShared, ReservedName, ProgramShared;
    CommandsOverItself(k.hash, c, k.server, w);
    var sh, all := AsBackup(c.resolvPath), ProgramShared(k.hash, c, k.server, w);
    SharedPrefix(text, sh, w, all, 4);
    SharedPrefix(text, sh, w, all, 5);
    SharedPrefix(text, sh, w, all, 6);
    var v := ExecShared(text, sh, w, all[..6]);
    assert c.tunName in v.host.links && v.snapshot.Stored? && v.snapshot.snap.marks == Marks(c);
    SharedNothing(text, sh, v);
  }

  /** The original content is gone: file and backup hold our text, the record has the hash of nothing. */
  predicate Overwritten(hash: string -> string, c: Settings, v: World) {
    && v.host.resolv == Regular(ManagedContent(c))
    && c.resolvPath in v.backups && v.backups[c.resolvPath] == ManagedContent(c)
    && v.snapshot.Stored? && v.snapshot.snap.pre.resolvConf == ResolvConfState(true, c.resolvPath, false, "", hash(""))
  }

  /** Every snapshot such a start writes records the copy that was cut to nothing. */
  lemma RecordsNothing(hash: string -> string, c: Settings, server: IPv4, w: World, j: nat)
    requires c.resolvPath == BackupPath(c) && w.host.resolv.Regular?
    requires j < |ProgramShared(hash, c, server, w)| && ProgramShared(hash, c, server, w)[j].Persist?
    ensures ProgramShared(hash, c, server, w)[j].snap.pre.resolvConf == ResolvConfState(true, c.resolvPath, false, "", hash(""))
  {
    hide Program;
    ProgramContinues(hash, c, server, WithResolv(w, Regular("")), j);
  }

  lemma OverwrittenStays(text: Snapshot -> string, hash: string -> string, c: Settings, v: World, cmd: Cmd)
    requires Overwritten(hash, c, v)
    requires cmd.Persist? || cmd.AddRoute? || cmd.AddRule?
    requires cmd.Persist? ==> cmd.snap.pre.resolvConf == v.snapshot.snap.pre.resolvConf
    ensures Overwritten(hash, c, ApplyShared(text, AsBackup(c.resolvPath), v, cmd))
  {
  }

  lemma TakenOver(text: Snapshot -> string, hash: string -> string, c: Settings, server: IPv4, w: World)
    requires c.resolvPath == BackupPath(c) && Admitted(c, w) && w.host.resolv.Regular?
    ensures |ProgramShared(hash, c, server, w)| > 9
    ensures Overwritten(hash, c, ExecShared(text, AsBackup(c.resolvPath), w, ProgramShared(hash, c, server, w)[..9]))
  {
    hide ExecShared, ProgramShared, ManagedContent;
    var sh, all := AsBackup(c.resolvPath), ProgramShared(hash, c, server, w);
    CommandsOverItself(hash, c, server, w);
    SharedPrefix(text, sh, w, all, 8);
    SharedPrefix(text, sh, w, all, 9);
    RecordsNothing(hash, c, server, w, 7);
  }

  lemma {:induction false} OverwrittenFromTakeover(text: Snapshot -> string, hash: string -> string, c: Settings,
                                                   server: IPv4, w: World, n: nat)
    requires c.resolvPath == BackupPath(c) && Admitted(c, w) && w.host.resolv.Regular?
    requires 9 <= n <= |ProgramShared(hash, c, server, w)|
    ensures Overwritten(hash, c, ExecShared(text, AsBackup(c.resolvPath), w, ProgramShared(hash, c, server, w)[..n]))
    decreases n
  {
    hide ExecShared, ProgramShared, Overwritten, ApplyShared, Admitted, FirstSnapshot, ManagedContent;
    var sh, all := AsBackup(c.resolvPath), ProgramShared(hash, c, server, w);
    if n == 9 {
      TakenOver(text, hash, c, server, w);
    } else {
      OverwrittenFromTakeover(text, hash, c, server, w, n - 1);
      CommandsOverItself(hash, c, server, w);
      SharedPrefix(text, sh, w, all, n);
      var v := ExecShared(text, sh, w, all[..n - 1]);
      if all[n - 1].Persist? {
        RecordsNothing(hash, c, server, w, n - 1);
        OverwrittenRecord(hash, c, v);
      }
      OverwrittenStays(text, hash, c, v, all[n - 1]);
    }
  }

  lemma OverwrittenRecord(hash: string -> string, c: Settings, v: World)
    requires Overwritten(hash, c, v)
    ensures v.snapshot.Stored? && v.snapshot.snap.pre.resolvConf == ResolvConfState(true, c.resolvPath, false, "", hash(""))
  {
  }

  /** A daemon told to manage the very file that it copies resolv.conf to: its settings are accepted. */
  lemma SharedPathAccepted(url: string)
    requires url != ""
    ensures var c := DaemonSettings(url, "", "/var/lib/outline-fedora/backup/resolv.conf");
            Validate(c) == Accepted && Revertible(Marks(c)) && SharingOf(c) == AsBackup(BackupPath(c))
  {
    hide Revertible, Validate, Marks;
    DaemonSettingsRevertible(url, "", "/var/lib/outline-fedora/backup/resolv.conf");
  }

  /**
   With such settings, from the takeover on no run of the script, whatever fails in it, exits
   with 0, touches resolv.conf or clears the snapshot - if our text and the empty one hash differently.
   */
  lemma AcceptedButOverwritten(text: Snapshot -> string, hash: string -> string, c: Settings, server: IPv4, w: World,
                               n: nat, f: Faults)
    requires c.resolvPath == BackupPath(c) && Admitted(c, w) && w.host.resolv.Regular?
    requires hash("") !in {"", hash(ManagedContent(c))}
    requires 9 <= n <= |ProgramShared(hash, c, server, w)|
    ensures var v := ExecShared(text, SharingOf(c), w, ProgramShared(hash, c, server, w)[..n]);
            && v.host.resolv == Regular(ManagedContent(c))
            && ScriptRun(hash, v, f).exit != 0
            && forall cmd :: cmd in ScriptRun(hash, v, f).cmds ==>
                 !cmd.UnlinkResolv? && !cmd.LinkResolv? && !cmd.CopyBackupToResolv? && !cmd.RemoveSnapshot?
  {
    hide ExecShared, ProgramShared, ManagedContent, ScriptRun, Admitted;
    OverwrittenFromTakeover(text, hash, c, server, w, n);
    RefusedRestore(hash, c, ExecShared(text, SharingOf(c), w, ProgramShared(hash, c, server, w)[..n]), f);
  }

  lemma RefusedRestore(hash: string -> string, c: Settings, v: World, f: Faults)
    requires Overwritten(hash, c, v) && hash("") !in {"", hash(ManagedContent(c))}
    ensures ScriptRun(hash, v, f).exit != 0
    ensures forall cmd :: cmd in ScriptRun(hash, v, f).cmds ==>
              !cmd.UnlinkResolv? && !cmd.LinkResolv? && !cmd.CopyBackupToResolv? && !cmd.RemoveSnapshot?
  {
    var s := v.snapshot.snap;
    SysctlCommands(v.host.sysctls.Keys, s.pre.sysctls, f.sysctls, |s.pre.sysctls|);
    assert ResolvPart(hash, v, s, f).cmds == [];
    assert NetworkCmds(v, s, f) + [] == NetworkCmds(v, s, f);
  }

  lemma {:induction false} SysctlCommands(keys: set<string>, es: seq<SysctlState>, fails: set<int>, n: nat)
    requires n <= |es|
    ensures forall cmd :: cmd in SysctlCmds(keys, es, fails, n) ==> cmd.WriteSysctl?
  {
    if n > 0 {
      SysctlCommands(keys, es, fails, n - 1);
    }
  }

  /**
   The exact condition for everything that the daemon accepts: a complete run of the script
   undoes a connection at every crash point if and only if the script will touch the interface
   name, the base priority is at least 1007, and no file has two roles.
   */
  lemma UndoneExactlyWhenRevertible(text: Snapshot -> string, k: Scope, c: Settings, w: World)
    requires Validate(c) == Accepted && k == ScopeOf(k.hash, c, k.base, k.server)
    requires BaselineOk(k) && w.host == k.base && Admitted(c, w)
    // One file: where no snapshot is found there is no regular resolv.conf.
    requires c.resolvPath == SnapshotPath(c) ==> !k.base.resolv.Regular?
    ensures (forall crash: nat | crash <= |ProgramShared(k.hash, c, k.server, w)| ::
               RestoredShared(text, k, c, w, crash))
            <==> !ReservedName(c.tunName) && c.rulePriority >= 1007 && FilesApart(c, k.base.resolv)
  {
    hide Program, ProgramShared, RestoredShared, RestoredAfterCrash, ReservedName;
    if FilesApart(c, k.base.resolv) {
      HarmlessSharing(text, k, c, w, 0);
      forall crash: nat | crash <= |Program(k.hash, c, k.server, w)|
        ensures RestoredShared(text, k, c, w, crash) <==> RestoredAfterCrash(k, c, w, crash)
      {
        HarmlessSharing(text, k, c, w, crash);
      }
      UndoneWhenApart(k, c, w);
    } else if c.resolvPath == SnapshotPath(c) {
      SnapshotReplaced(text, k, c, w);
    } else if ReservedName(c.tunName) {
      ReservedWhenShared(text, k, c, w);
    } else {
      EmptyBackupLost(text, k, c, w);
    }
  }
}
