/** Safety of the daemon over every finite sequence of requests, crashes and script runs. */
module DaemonRuns {
  import opened Addresses
  import opened Hosts
  import opened Panic
  import opened PanicEffects
  import opened Config
  import opened Routing
  import opened Discipline
  import opened Recovery
  import opened StartProgram
  import opened KeyStates
  import opened Names
  import opened Daemon

  // ---- Keys and sessions ---------------------------------------------------------

  lemma NamesAreNotEmpty(keys: seq<Key>)
    requires KeysOk(keys)
    ensures !Has(keys, "")
  {
  }

  lemma ReloadedOk(s: State)
    requires StateOk(s)
    ensures StateOk(Reloaded(s))
  {
  }

  lemma FoundIsKept(keys: seq<Key>, name: string)
    requires Has(keys, name)
    ensures HasKey(keys, name, URLOf(keys, name))
  {
    FoundWhenPresent(keys, name);
    assert keys[Find(keys, name)].name == name;
  }

  /** The key requests keep keys and session in agreement. */
  lemma KeyRequestKeepsSession(d: Setup, s: Sys, req: Request)
    requires StateOk(s.keys) && SessionOk(s)
    requires req.AddKey? || req.RemoveKey? || req.RenameKey? || req.UseKey?
    ensures StateOk(KeysAfter(d, s, req))
    ensures SessionOk(Sys(s.world, KeysAfter(d, s, req), SessionAfter(d, s, req), SessKeyAfter(d, s, req)))
  {
    var op := KeyOpOf(req);
    StepKeepsStateOk(d.unescape, s.keys, op);
    NamesAreNotEmpty(s.keys.mem.keys);
    if s.session.Some? && !(req.RemoveKey? && req.name == s.sessKey) {
      KeySurvives(d.unescape, s.keys, op, s.sessKey, s.session.value.url);
    }
    if req.RenameKey? && s.sessKey == req.oldName && Outcome(d.unescape, s.keys.mem, op) == Done {
      assert ValidName(req.newName);
    }
  }

  /** Keys, session and session name after a request, without the host. */
  function Bookkeeping(d: Setup, s: Sys, req: Request): Sys {
    Sys(s.world, KeysAfter(d, s, req), SessionAfter(d, s, req), SessKeyAfter(d, s, req))
  }

  lemma ConnectKeepsSession(d: Setup, s: Sys, req: Request)
    requires StateOk(s.keys) && SessionOk(s) && req.Connect?
    ensures StateOk(Bookkeeping(d, s, req).keys) && SessionOk(Bookkeeping(d, s, req))
  {
    hide Succeeds, Validate, CloseSucceeds, Step, SettingsFor;
    if ConnectSucceeds(d, s, req.keyName, req.close, req.start) {
      var target := Target(s, req.keyName);
      var op := MarkConnected(target, req.now, req.markIo);
      StepKeepsStateOk(d.unescape, s.keys, op);
      FoundIsKept(s.keys.mem.keys, target);
      KeySurvives(d.unescape, s.keys, op, target, URLOf(s.keys.mem.keys, target));
    }
  }

  /** So do connecting, switching and everything that ends a session. */
  lemma ServedKeepsSession(d: Setup, s: Sys, req: Request)
    requires StateOk(s.keys) && SessionOk(s)
    ensures StateOk(Bookkeeping(d, s, req).keys) && SessionOk(Bookkeeping(d, s, req))
  {
    if req.Connect? {
      ConnectKeepsSession(d, s, req);
    } else if req.Disconnect? || req.Undo? || req.Shutdown? {
      ReloadedOk(s.keys);
    } else {
      KeyRequestKeepsSession(d, s, req);
    }
  }

  // ---- Runs --------------------------------------------------------------------------

  /** The host side of the invariant, for the server that matters. */
  lemma IdleServer(d: Setup, base: Host, s: Sys) returns (idle: IPv4)
    requires HostOk(d, base) && SysOk(d, base, s)
    ensures SafeWith(d, base, idle, s.world)
    ensures s.session.Some? ==> idle == s.session.value.server
  {
    if s.session.Some? {
      idle := s.session.value.server;
    } else {
      idle :| SafeWith(d, base, idle, s.world);
    }
  }

  /** After a request the world is safe, with the new session's server if there is one. */
  lemma ServedSafe(d: Setup, base: Host, s: Sys, req: Request, idle: IPv4) returns (server: IPv4)
    requires HostOk(d, base)
    requires SafeWith(d, base, if s.session.Some? then s.session.value.server else idle, s.world)
    ensures SafeWith(d, base, server, Exec(s.world, HostCmds(d, s, req)))
    ensures SessionAfter(d, s, req).Some? ==> server == SessionAfter(d, s, req).value.server
  {
    var cs := HostCmds(d, s, req);
    EveryMomentSafe(d, base, s, req, idle, |cs|);
    assert cs[..|cs|] == cs;
    server := ServerDuring(d, s, req, idle, |cs|);
    SessionServer(d, s, req, idle);
  }

  lemma SessionServer(d: Setup, s: Sys, req: Request, idle: IPv4)
    ensures SessionAfter(d, s, req).Some? ==>
              SessionAfter(d, s, req).value.server == ServerDuring(d, s, req, idle, |HostCmds(d, s, req)|)
  {
    if req.Connect? && ConnectSucceeds(d, s, req.keyName, req.close, req.start) {
      assert |StartFor(d, s, req.keyName, req.close, req.start)| > 0;
    }
  }

  lemma TunLossSafe(d: Setup, base: Host, server: IPv4, w: World)
    requires HostOk(d, base) && SafeWith(d, base, server, w)
    ensures SafeWith(d, base, server, Apply(w, CloseTun(TunName(d))))
  {
    AnyServer(d, base, server);
    PermittedKeepsSafe(ScopeFor(d, base, server), w, CloseTun(TunName(d)));
  }

  lemma CutMomentSafe(d: Setup, base: Host, s: Sys, req: Request, idle: IPv4, k: nat) returns (server: IPv4)
    requires HostOk(d, base)
    requires SafeWith(d, base, if s.session.Some? then s.session.value.server else idle, s.world)
    ensures SafeWith(d, base, server, Exec(s.world, Cut(HostCmds(d, s, req), k)))
  {
    var cs := HostCmds(d, s, req);
    var n := if k <= |cs| then k else |cs|;
    EveryMomentSafe(d, base, s, req, idle, n);
    assert Cut(cs, k) == cs[..n];
    server := ServerDuring(d, s, req, idle, n);
  }

  /** The daemon dies after k commands of a request; its TUN goes with it. */
  lemma CrashSafe(d: Setup, base: Host, s: Sys, req: Request, idle: IPv4, k: nat) returns (server: IPv4)
    requires HostOk(d, base)
    requires SafeWith(d, base, if s.session.Some? then s.session.value.server else idle, s.world)
    ensures SafeWith(d, base, server, DeadWorld(d, s, req, k))
  {
    server := CutMomentSafe(d, base, s, req, idle, k);
    TunLossSafe(d, base, server, Exec(s.world, Cut(HostCmds(d, s, req), k)));
  }

  lemma BootSafe(d: Setup, base: Host, server: IPv4, w: World)
    requires HostOk(d, base) && SafeWith(d, base, server, w)
    ensures SafeWith(d, base, server, Booted(base, w))
  {
    AnyServer(d, base, server);
    if w.snapshot.Stored? {
      BaselineDiffersNowhere(ScopeFor(d, base, server), w.snapshot.snap);
    }
  }

  /** The power fails after k commands of a request; only the files survive. */
  lemma PowerLossSafe(d: Setup, base: Host, s: Sys, req: Request, idle: IPv4, k: nat) returns (server: IPv4)
    requires HostOk(d, base)
    requires SafeWith(d, base, if s.session.Some? then s.session.value.server else idle, s.world)
    ensures SafeWith(d, base, server, Booted(base, Exec(s.world, Cut(HostCmds(d, s, req), k))))
  {
    server := CutMomentSafe(d, base, s, req, idle, k);
    BootSafe(d, base, server, Exec(s.world, Cut(HostCmds(d, s, req), k)));
  }

  lemma ScriptSafe(d: Setup, base: Host, s: Sys, server: IPv4, f: Faults, k: nat)
    requires HostOk(d, base) && SafeWith(d, base, server, s.world)
    ensures SafeWith(d, base, server, Next(d, base, s, Script(f, k)).world)
  {
    hide HostCmds, KeysAfter, SessionAfter, SessKeyAfter, ScriptRun, DeadWorld, Reloaded, Exec;
    AnyServer(d, base, server);
    CutRunSafe(ScopeFor(d, base, server), s.world, f, k);
  }

  /** Whatever happens next, the invariant holds after it. */
  lemma NextKeepsSysOk(d: Setup, base: Host, s: Sys, e: Event)
    requires HostOk(d, base) && SysOk(d, base, s)
    ensures SysOk(d, base, Next(d, base, s, e))
  {
    hide HostCmds, KeysAfter, SessionAfter, SessKeyAfter, ScriptRun, Booted, DeadWorld, Exec, StateOk, Reloaded, SafeWith, HostOk;
    match e
    case Serve(req) =>
      ServedKeepsSession(d, s, req);
      var idle := IdleServer(d, base, s);
      var server := ServedSafe(d, base, s, req, idle);
      assert SafeWith(d, base, server, Next(d, base, s, e).world);
    case Crash(req, k) =>
      var idle := IdleServer(d, base, s);
      var server := CrashSafe(d, base, s, req, idle, k);
      assert SafeWith(d, base, server, Next(d, base, s, e).world);
      ReloadedOk(s.keys);
    case PowerLoss(req, k) =>
      var idle := IdleServer(d, base, s);
      var server := PowerLossSafe(d, base, s, req, idle, k);
      assert SafeWith(d, base, server, Next(d, base, s, e).world);
      ReloadedOk(s.keys);
    case Script(f, k) =>
      var idle := IdleServer(d, base, s);
      ScriptSafe(d, base, s, idle, f, k);
  }

  /** The invariant holds after every finite run. */
  lemma {:induction false} RunsKeepSysOk(d: Setup, base: Host, s: Sys, events: seq<Event>)
    requires HostOk(d, base) && SysOk(d, base, s)
    ensures SysOk(d, base, After(d, base, s, events))
    decreases |events|
  {
    if events != [] {
      NextKeepsSysOk(d, base, s, events[0]);
      RunsKeepSysOk(d, base, Next(d, base, s, events[0]), events[1..]);
    }
  }

  /**
   Whole-run safety. Start on an untouched host with any sound key file. After any run:
   no snapshot on disk means that the host is untouched; a snapshot on disk describes the
   untouched host, backup included, and the host differs only in what is marked as ours.
   */
  lemma WholeRunSafety(d: Setup, base: Host, backups: map<string, string>, keys: State, events: seq<Event>)
    requires HostOk(d, base) && StateOk(keys)
    ensures var s := After(d, base, Sys(World(base, Missing, backups), keys, None, ""), events);
            && SysOk(d, base, s)
            && (s.world.snapshot.Missing? ==> s.world.host == base)
            && !s.world.snapshot.Garbage?
            && (s.world.snapshot.Stored? ==>
                  exists server: IPv4 ::
                    var c := ScopeFor(d, base, server);
                    BaselineOk(c)
                    && Describes(c, s.world.snapshot.snap, s.world.backups)
                    && DiffersOnlyWhereMarked(c, s.world.snapshot.snap, s.world.host))
  {
    var init := Sys(World(base, Missing, backups), keys, None, "");
    AnyServer(d, base, 0);
    assert SafeWith(d, base, 0, init.world);
    RunsKeepSysOk(d, base, init, events);
    var s := After(d, base, init, events);
    var idle := IdleServer(d, base, s);
    AnyServer(d, base, idle);
    var c := ScopeFor(d, base, idle);
    if s.world.snapshot.Stored? {
      assert Describes(c, s.world.snapshot.snap, s.world.backups);
    }
  }

  /**
   No baseline drift: however many sessions, crashes and recoveries came before, a snapshot
   on disk records the values of the untouched host, and its backup holds the original content.
   */
  lemma NoBaselineDrift(d: Setup, base: Host, s: Sys, events: seq<Event>)
    requires HostOk(d, base) && SysOk(d, base, s)
    ensures var w := After(d, base, s, events).world;
            var path := BackupPath(SettingsFor(d, ""));
            w.snapshot.Stored? ==>
              && IPV6_KEY in base.sysctls && w.snapshot.snap.pre == RecordedPreState(d.hash, base, path)
              && (base.resolv.Regular? ==> path in w.backups && w.backups[path] == base.resolv.content)
  {
    RunsKeepSysOk(d, base, s, events);
    var t := After(d, base, s, events);
    var idle := IdleServer(d, base, t);
    AnyServer(d, base, idle);
  }

  /**
   The assumptions are met by an ordinary host - kernel rules only, IPv6 on, resolv.conf a
   symlink - exactly if the managed path is not the snapshot's; the default flags are fine.
   */
  lemma OrdinaryHost(d: Setup)
    ensures var base := Host(KERNEL_RULES, {}, {"lo", "eth0"}, map[IPV6_KEY := "0"], Symlink("stub-resolv.conf"));
            && (HostOk(d, base) <==> SettingsFor(d, "").resolvPath != SnapshotPath(SettingsFor(d, "")))
            && (d.stateDir == "" && d.resolvPath == "" ==> HostOk(d, base))
  {
    hide SnapshotPath, BackupPath;
    if d.stateDir == "" && d.resolvPath == "" {
      DefaultFilesApart(SettingsFor(d, ""), Symlink("stub-resolv.conf"));
    }
    assert TunName(d) == "ouftun0" && "lo" != "ouftun0" && "eth0" != "ouftun0" by {
      assert "lo"[0] == 'l' && "eth0"[0] == 'e' && "ouftun0"[0] == 'o';
    }
  }

  /** When the daemon reports neither a connection nor a dirty snapshot, the host is untouched. */
  lemma CleanStatusIsTrue(d: Setup, base: Host, s: Sys)
    requires HostOk(d, base) && SysOk(d, base, s)
    ensures !StatusOf(s).connected && !StatusOf(s).dirtySnapshot ==> s.world.host == base
  {
    var idle := IdleServer(d, base, s);
    AnyServer(d, base, idle);
  }

  /** Sessions never stack: Start acts only after the previous session is closed and no snapshot is left. */
  lemma SessionsNeverStack(d: Setup, base: Host, s: Sys, req: Request)
    requires HostOk(d, base) && SysOk(d, base, s) && req.Connect?
    requires StartFor(d, s, req.keyName, req.close, req.start) != []
    ensures CloseSucceeds(d, s, req.close)
    ensures Exec(s.world, CloseFor(d, s, req.close)).snapshot.Missing?
    ensures Exec(s.world, CloseFor(d, s, req.close)).host == base
  {
    var idle := IdleServer(d, base, s);
    ConnectStarting(d, base, s, req.keyName, req.close, req.start, idle, 1);
  }

  /** Right after a connect that succeeds - switching from another session included - the host is the connected one. */
  lemma ConnectConnects(d: Setup, base: Host, s: Sys, req: Request)
    requires HostOk(d, base) && SysOk(d, base, s) && req.Connect?
    requires ConnectSucceeds(d, s, req.keyName, req.close, req.start)
    ensures Served(d, s, req).world.host == ConnectedHost(SettingsFor(d, ""), req.start.server, base)
  {
    hide Program, Exec, CloseFor, FinalSnapshot, Validate;
    var close, start := req.close, req.start;
    var c := SettingsFor(d, URLOf(s.keys.mem.keys, Target(s, req.keyName)));
    var w := Exec(s.world, CloseFor(d, s, close));
    var all := Program(d.hash, c, start.server, w);
    assert StartFor(d, s, req.keyName, close, start) == all;
    ProgramNotEmpty(d.hash, c, start.server, w);
    SessionsNeverStack(d, base, s, req);
    StartResult(d.hash, c, start.server, w);
    ExecAppend(s.world, CloseFor(d, s, close), all);
  }

  /** If there is a session, the host is still exactly as connecting left it. */
  predicate Intact(d: Setup, base: Host, s: Sys) {
    s.session.Some? ==> s.world.host == ConnectedHost(SettingsFor(d, ""), s.session.value.server, base)
  }

  /** A request that neither starts nor ends a session issues no command. */
  lemma SessionUndisturbed(d: Setup, s: Sys, req: Request)
    requires SessionAfter(d, s, req).Some?
    requires req.Connect? ==> !ConnectSucceeds(d, s, req.keyName, req.close, req.start)
    ensures SessionAfter(d, s, req) == s.session && HostCmds(d, s, req) == []
  {
  }

  lemma NextKeepsIntact(d: Setup, base: Host, s: Sys, e: Event)
    requires HostOk(d, base) && SysOk(d, base, s) && Intact(d, base, s) && !e.Script?
    ensures Intact(d, base, Next(d, base, s, e))
  {
    hide ConnectedHost, HostCmds, ConnectSucceeds;
    if e.Serve? && SessionAfter(d, s, e.req).Some? {
      if e.req.Connect? && ConnectSucceeds(d, s, e.req.keyName, e.req.close, e.req.start) {
        ConnectConnects(d, base, s, e.req);
      } else {
        SessionUndisturbed(d, s, e.req);
      }
    }
  }

  /**
   A session that nobody undoes from outside stays intact over every run of requests, crashes
   and power losses: if a session is up, the host is exactly the connected one.
   */
  lemma {:induction false} SessionStaysIntact(d: Setup, base: Host, s: Sys, events: seq<Event>)
    requires HostOk(d, base) && SysOk(d, base, s) && Intact(d, base, s)
    requires forall e :: e in events ==> !e.Script?
    ensures Intact(d, base, After(d, base, s, events))
    decreases |events|
  {
    if events != [] {
      assert events[0] in events;
      NextKeepsSysOk(d, base, s, events[0]);
      NextKeepsIntact(d, base, s, events[0]);
      SessionStaysIntact(d, base, Next(d, base, s, events[0]), events[1..]);
    }
  }

  /**
   So from any state without a session, and until somebody runs the script from outside, a
   session that is up has its host connected and every destination routed as it is classified,
   if the kernel's local rule is the only one up to the catchall.
   */
  lemma ConnectedRouting(d: Setup, base: Host, s: Sys, events: seq<Event>, local: IPv4 -> bool, dst: IPv4)
    requires HostOk(d, base) && SysOk(d, base, s) && s.session.None?
    requires forall e :: e in events ==> !e.Script?
    requires LOCAL_RULE in base.rules && forall q :: q in base.rules && q != LOCAL_RULE ==> q.priority > 23333
    ensures var t, c := After(d, base, s, events), SettingsFor(d, "");
            t.session.Some? ==>
              && t.world.host == ConnectedHost(c, t.session.value.server, base)
              && Select(t.world.host.rules, local, dst) == Some(Classify(Marks(c), t.session.value.server, local, dst))
  {
    hide SysOk, After, Select, Classify;
    SessionStaysIntact(d, base, s, events);
    var t := After(d, base, s, events);
    if t.session.Some? {
      AnyServer(d, base, t.session.value.server);
      InstalledClassifies(base.rules, Marks(SettingsFor(d, "")), t.session.value.server, local, dst);
    }
  }

  /** A run of the script from outside is what breaks a session: the daemon goes on reporting it, on an untouched host. */
  lemma ScriptEndsSessionUnnoticed(d: Setup, base: Host, s: Sys)
    requires HostOk(d, base) && SysOk(d, base, s) && s.session.Some?
    ensures var t := Next(d, base, s, Script(NO_FAULTS, |ScriptRun(d.hash, s.world, NO_FAULTS).cmds|));
            && t.world.host == base && t.world.snapshot.Missing?
            && StatusOf(t).connected && StatusOf(t).keyName == s.sessKey
            && TunName(d) !in t.world.host.links
  {
    hide ScriptRun, Exec;
    var server := s.session.value.server;
    AnyServer(d, base, server);
    CompleteRunRestores(ScopeFor(d, base, server), s.world);
    var cs := ScriptRun(d.hash, s.world, NO_FAULTS).cmds;
    assert Cut(cs, |cs|) == cs[..|cs|] == cs;
  }

  lemma ProgramNotEmpty(hash: string -> string, c: Settings, server: IPv4, w: World)
    requires Admitted(c, w)
    ensures Program(hash, c, server, w) != []
  {
  }

  /** Closing a session, or running the script without one: what success means. */
  lemma EndVerdict(d: Setup, base: Host, server: IPv4, w: World, close: bool, plan: PanicPlan)
    requires HostOk(d, base) && SafeWith(d, base, server, w)
    ensures var cs := if close then CloseCmds(d.hash, TunName(d), w, plan) else RunScript(d.hash, w, plan).cmds;
            var exit := if close then CloseExit(d.hash, TunName(d), w, plan) else RunScript(d.hash, w, plan).exit;
            exit == 0 ==>
              && Exec(w, cs).host == base
              && Exec(w, cs).snapshot == if plan.faults.snapshotRemove then w.snapshot else Missing
  {
    hide ScriptRun, RunScript, Disciplined, DiffersOnlyWhereMarked;
    AnyServer(d, base, server);
    if close {
      var first := CloseTun(TunName(d));
      CloseDisciplined(d, base, server, w, plan);
      ExecAppend(w, [first], RunScript(d.hash, Apply(w, first), plan).cmds);
      ExecOne(w, first);
      if CloseExit(d.hash, TunName(d), w, plan) == 0 {
        ScriptSnapshot(d.hash, Apply(w, first), plan);
      }
    } else {
      ScriptDisciplined(d, base, server, w, plan);
      if RunScript(d.hash, w, plan).exit == 0 {
        ScriptSnapshot(d.hash, w, plan);
      }
    }
  }

  lemma UndoVerdict(d: Setup, base: Host, s: Sys, plan: PanicPlan)
    requires HostOk(d, base) && SysOk(d, base, s) && Accepts(d, s, Undo(plan))
    ensures Served(d, s, Undo(plan)).world.host == base
    ensures Served(d, s, Undo(plan)).world.snapshot.Missing? <==> s.world.snapshot.Missing? || !plan.faults.snapshotRemove
  {
    hide RunScript, CloseCmds, CloseExit;
    var idle := IdleServer(d, base, s);
    EndVerdict(d, base, idle, s.world, s.session.Some?, plan);
  }

  lemma ScriptSnapshot(hash: string -> string, w: World, plan: PanicPlan)
    requires !w.snapshot.Garbage? && RunScript(hash, w, plan).exit == 0
    ensures Exec(w, RunScript(hash, w, plan).cmds).snapshot ==
            if plan.faults.snapshotRemove then w.snapshot else Missing
  {
    if w.snapshot.Stored? {
      ExitCodeSound(hash, w, plan.faults);
    }
  }

  /**
   Undo always unblocks. From every reachable state, an undo that is answered with success
   leaves no session and the untouched host; no snapshot is left exactly if there was none or
   its removal did not fail, and then no connect is refused any more.
   */
  lemma UndoUnblocks(d: Setup, base: Host, s: Sys, plan: PanicPlan, url: string)
    requires HostOk(d, base) && SysOk(d, base, s) && Readable(base)
    requires Accepts(d, s, Undo(plan))
    ensures var t := Served(d, s, Undo(plan));
            && t.session == None && t.sessKey == ""
            && t.world.host == base
            && (Admitted(SettingsFor(d, url), t.world) <==> s.world.snapshot.Missing? || !plan.faults.snapshotRemove)
  {
    UndoVerdict(d, base, s, plan);
    AnyServer(d, base, 0);
    AnyURL(d, base, 0, url);
  }

  /** And an undo whose commands all work is always answered with success. */
  lemma UndoSucceeds(d: Setup, base: Host, s: Sys)
    requires HostOk(d, base) && SysOk(d, base, s)
    ensures Accepts(d, s, Undo(PanicPlan(true, NO_FAULTS)))
  {
    var idle := IdleServer(d, base, s);
    AnyServer(d, base, idle);
    var c := ScopeFor(d, base, idle);
    PermittedKeepsSafe(c, s.world, CloseTun(TunName(d)));
    CompleteRunRestores(c, s.world);
    CompleteRunRestores(c, Apply(s.world, CloseTun(TunName(d))));
  }

  /** While a session is up, its server and all private destinations stay off the tunnel. */
  lemma SessionNeverLoops(d: Setup, base: Host, s: Sys, local: IPv4 -> bool, dst: IPv4)
    requires HostOk(d, base) && SysOk(d, base, s) && s.session.Some?
    requires forall r :: r in base.rules ==> r.table != 233
    requires Bypassed(s.session.value.server, dst)
    ensures Select(s.world.host.rules, local, dst) != Some(233)
  {
    AnyServer(d, base, s.session.value.server);
    NoTunnelLoop(ScopeFor(d, base, s.session.value.server), s.world, local, dst);
  }
}
