/**
 What each request does to host, session and keys, and when it is answered with success,
 spelled out for every state the daemon can be in.
 */
module Requests {
  import opened Addresses
  import opened Hosts
  import opened Panic
  import opened PanicEffects
  import opened Config
  import opened Discipline
  import opened Recovery
  import opened StartProgram
  import opened ConnectedState
  import opened KeyStates
  import opened KeyOperations
  import opened Daemon
  import opened DaemonRuns

  lemma ExecNone(w: World)
    ensures Exec(w, []) == w
  {
  }

  // ---- Connect -----------------------------------------------------------------------------

  /** The key with this name. */
  predicate KeyAt(s: Sys, i: nat, name: string) {
    i < |s.keys.mem.keys| && s.keys.mem.keys[i].name == name
  }

  lemma URLAt(s: Sys, i: nat)
    requires StateOk(s.keys) && i < |s.keys.mem.keys|
    ensures Has(s.keys.mem.keys, s.keys.mem.keys[i].name)
    ensures URLOf(s.keys.mem.keys, s.keys.mem.keys[i].name) == s.keys.mem.keys[i].url
  {
    FoundAt(s.keys.mem.keys, i);
  }

  /** A start is called with the defaults, the key's URL and the two paths of the daemon's flags. */
  lemma SettingsMeant(d: Setup, url: string)
    ensures SettingsFor(d, url) == Settings(
              "ouftun0", "10.233.233.1", "10.233.233.2/32", 233, 23333, "9.9.9.9", url,
              if |d.resolvPath| > 0 then d.resolvPath else "/etc/resolv.conf",
              if |d.stateDir| > 0 then d.stateDir else "/var/lib/outline-fedora")
  {
    DaemonSettingsExactly(url, d.stateDir, d.resolvPath);
  }

  /**
   A connect by name means the key with that name and no other; without a name it means the
   active key. If it is accepted, that key is the session's, with the URL stored under it; a new
   session has the address that was resolved, and the key store notes key and time if it can.
   */
  lemma ConnectMeans(d: Setup, base: Host, s: Sys, n: string, i: nat, close: PanicPlan, start: StartPlan, now: int, io: bool)
    requires HostOk(d, base) && SysOk(d, base, s)
    requires KeyAt(s, i, if n == "" then s.keys.mem.active else n)
    requires Accepts(d, s, Connect(n, close, start, now, io))
    ensures var t, k := Served(d, s, Connect(n, close, start, now, io)), s.keys.mem.keys[i];
            && t.sessKey == k.name && t.session.Some? && t.session.value.url == k.url
            && (if s.session.Some? && s.sessKey == k.name then t == s
                else
                  && t.session.value.server == start.server
                  && t.keys == (if io then Written(FileState(s.keys.mem.keys, k.name, now)) else s.keys))
  {
    hide Succeeds, Validate, CloseSucceeds, HostCmds;
    var k := s.keys.mem.keys[i];
    URLAt(s, i);
    if s.session.Some? && s.sessKey == k.name {
      SameURL(s, i);
      ConnectedIsIdle(d, s, n, close, start, now, io);
    } else {
      MarkConnectedEffect(d.unescape, s.keys, i, now);
      FailedMark(d, s, k.name, now);
    }
  }

  lemma SameURL(s: Sys, i: nat)
    requires StateOk(s.keys) && SessionOk(s) && s.session.Some? && KeyAt(s, i, s.sessKey)
    ensures s.session.value.url == s.keys.mem.keys[i].url
  {
  }

  lemma FailedMark(d: Setup, s: Sys, name: string, now: int)
    ensures Step(d.unescape, s.keys, MarkConnected(name, now, false)) == s.keys
  {
  }

  /** A connect to the connected key is answered with success and does nothing. */
  lemma ConnectedIsIdle(d: Setup, s: Sys, n: string, close: PanicPlan, start: StartPlan, now: int, io: bool)
    requires StateOk(s.keys) && SessionOk(s) && s.session.Some?
    requires s.sessKey == if n == "" then s.keys.mem.active else n
    ensures HostCmds(d, s, Connect(n, close, start, now, io)) == []
    ensures Served(d, s, Connect(n, close, start, now, io)) == s
    ensures Accepts(d, s, Connect(n, close, start, now, io))
  {
    hide CloseFor, StartFor, Succeeds, Validate, CloseSucceeds;
    ExecNone(s.world);
    NamesAreNotEmpty(s.keys.mem.keys);
    KeyIsStored(s.keys.mem.keys, s.sessKey, s.session.value.url);
  }

  lemma KeyIsStored(keys: seq<Key>, name: string, url: string)
    requires HasKey(keys, name, url)
    ensures Has(keys, name)
  {
  }

  /** A connect to a name that is not stored, or to no name without an active key, is refused and changes nothing. */
  lemma UnknownIsRefused(d: Setup, s: Sys, n: string, close: PanicPlan, start: StartPlan, now: int, io: bool)
    requires StateOk(s.keys) && SessionOk(s)
    requires var name := if n == "" then s.keys.mem.active else n; name == "" || Unused(s.keys.mem.keys, name)
    ensures HostCmds(d, s, Connect(n, close, start, now, io)) == []
    ensures Served(d, s, Connect(n, close, start, now, io)) == s
    ensures !Accepts(d, s, Connect(n, close, start, now, io))
  {
    hide CloseFor, StartFor, Succeeds, Validate, CloseSucceeds;
    ExecNone(s.world);
    UnusedIsAbsent(s.keys.mem.keys, if n == "" then s.keys.mem.active else n);
  }

  /** Any other connect that is refused leaves no session, and keys as they were. */
  lemma RefusedConnectEnds(d: Setup, s: Sys, n: string, close: PanicPlan, start: StartPlan, now: int, io: bool)
    requires StateOk(s.keys) && SessionOk(s) && !Accepts(d, s, Connect(n, close, start, now, io))
    ensures var t := Served(d, s, Connect(n, close, start, now, io));
            t.keys == s.keys && (t == s || (t.session == None && t.sessKey == ""))
  {
    hide CloseFor, StartFor, Succeeds, Validate, CloseSucceeds;
    ExecNone(s.world);
  }

  /** On a clean host without a session, a connect to a stored key succeeds unless something fails on the way. */
  lemma ConnectWorks(d: Setup, base: Host, s: Sys, n: string, i: nat, close: PanicPlan, start: StartPlan, now: int, io: bool)
    requires HostOk(d, base) && SysOk(d, base, s) && Readable(base)
    requires s.session.None? && s.world.snapshot.Missing?
    requires KeyAt(s, i, if n == "" then s.keys.mem.active else n) && s.keys.mem.keys[i].url != ""
    requires start.stop >= |Program(d.hash, DaemonSettings(s.keys.mem.keys[i].url, d.stateDir, d.resolvPath), start.server, s.world)|
    ensures Accepts(d, s, Connect(n, close, start, now, io))
  {
    hide Program, Validate;
    var url := s.keys.mem.keys[i].url;
    URLAt(s, i);
    NamesAreNotEmpty(s.keys.mem.keys);
    DaemonSettingsRevertible(url, d.stateDir, d.resolvPath);
    var idle := IdleServer(d, base, s);
    CleanIsSafe(d, base, idle, 0, s.world);
    ExecNone(s.world);
    assert CloseFor(d, s, close) == [];
  }

  /** With a session, the same for a switch whose close works. */
  lemma SwitchWorks(d: Setup, base: Host, s: Sys, n: string, i: nat, start: StartPlan, now: int, io: bool)
    requires HostOk(d, base) && SysOk(d, base, s) && Readable(base)
    requires s.session.Some? && n != s.sessKey && KeyAt(s, i, n) && s.keys.mem.keys[i].url != ""
    requires start.stop >= |Program(d.hash, DaemonSettings(s.keys.mem.keys[i].url, d.stateDir, d.resolvPath), start.server,
                                    World(base, Missing, s.world.backups))|
    ensures Accepts(d, s, Connect(n, PanicPlan(true, NO_FAULTS), start, now, io))
  {
    hide Program, Validate, Exec, CloseSucceeds, CloseFor, Admitted;
    var plan := PanicPlan(true, NO_FAULTS);
    var url := s.keys.mem.keys[i].url;
    URLAt(s, i);
    NamesAreNotEmpty(s.keys.mem.keys);
    DaemonSettingsRevertible(url, d.stateDir, d.resolvPath);
    CloseRestores(d, base, s);
    BaseAdmits(d, base, url, s.world.backups);
  }

  lemma BaseAdmits(d: Setup, base: Host, url: string, backups: map<string, string>)
    requires HostOk(d, base) && Readable(base)
    ensures Admitted(SettingsFor(d, url), World(base, Missing, backups))
  {
  }

  /** Closing a session with nothing failing: success, the untouched host, and no snapshot. */
  lemma CloseRestores(d: Setup, base: Host, s: Sys)
    requires HostOk(d, base) && SysOk(d, base, s) && s.session.Some?
    ensures var plan := PanicPlan(true, NO_FAULTS);
            CloseSucceeds(d, s, plan) && Exec(s.world, CloseFor(d, s, plan)) == World(base, Missing, s.world.backups)
  {
    hide ScriptRun;
    var server := s.session.value.server;
    AnyServer(d, base, server);
    var c, first := ScopeFor(d, base, server), CloseTun(TunName(d));
    PermittedKeepsSafe(c, s.world, first);
    CompleteRunRestores(c, Apply(s.world, first));
    ExecAppend(s.world, [first], ScriptRun(d.hash, Apply(s.world, first), NO_FAULTS).cmds);
    ExecOne(s.world, first);
  }

  // ---- Disconnect, undo, shutdown ------------------------------------------------------------

  /** The host when the script runs: a session's device is closed first. */
  function BeforeScript(s: Sys): World {
    if s.session.Some? then Apply(s.world, CloseTun("ouftun0")) else s.world
  }

  /** The script is there and exits with 0. */
  predicate ScriptWorks(d: Setup, s: Sys, plan: PanicPlan) {
    plan.found && ScriptRun(d.hash, BeforeScript(s), plan.faults).exit == 0
  }

  /** The three requests that end a session. */
  predicate Ends(req: Request) {
    req.Disconnect? || req.Undo? || req.Shutdown?
  }

  /** With a session: success exactly if the script is there and exits with 0. */
  lemma EndAccepted(d: Setup, s: Sys, req: Request)
    requires Ends(req) && s.session.Some?
    ensures Accepts(d, s, req) <==> ScriptWorks(d, s, req.plan)
  {
    hide ScriptRun;
  }

  /** Without one: a disconnect is refused, a shutdown has nothing to do, an undo runs the script. */
  lemma EndWithoutSession(d: Setup, s: Sys, req: Request)
    requires Ends(req) && s.session.None? && SessionOk(s)
    ensures req.Disconnect? ==> !Accepts(d, s, req) && Served(d, s, req) == s
    ensures req.Shutdown? ==> Accepts(d, s, req) && Served(d, s, req).world == s.world
    ensures req.Undo? ==> (Accepts(d, s, req) <==> ScriptWorks(d, s, req.plan))
  {
    hide ScriptRun;
  }

  /**
   Whatever its verdict, such a request leaves no session, keys as they were (a shutdown: as on
   file), and no device if there was a session. With success and a session the untouched host is back,
   and no snapshot is left exactly if there was none or its removal worked; without success a snapshot that was there stays.
   */
  lemma EndEffect(d: Setup, base: Host, s: Sys, req: Request)
    requires HostOk(d, base) && SysOk(d, base, s) && Ends(req)
    ensures var t, ok := Served(d, s, req), Accepts(d, s, req);
            && t.session == None && t.sessKey == ""
            && t.keys == (if req.Shutdown? then State(OnFile(s.keys), s.keys.file) else s.keys)
            && (s.session.Some? ==> "ouftun0" !in t.world.host.links)
            && (ok && (s.session.Some? || req.Undo?) ==>
                  && t.world.host == base
                  && (t.world.snapshot.Missing? <==> s.world.snapshot.Missing? || !req.plan.faults.snapshotRemove))
            && (!ok ==> t.world.snapshot == s.world.snapshot)
  {
    hide ScriptRun, Exec, RunScript, CloseCmds, CloseExit, SafeWith, HostOk, StateOk;
    var idle := IdleServer(d, base, s);
    if s.session.Some? {
      EndVerdict(d, base, idle, s.world, true, req.plan);
      CloseDropsDevice(d.hash, "ouftun0", s.world, req.plan);
      FailedCloseKeepsSnapshot(d.hash, "ouftun0", s.world, req.plan);
    } else if req.Undo? {
      EndVerdict(d, base, idle, s.world, false, req.plan);
      FailedScriptKeepsSnapshot(d.hash, s.world, req.plan);
    } else {
      ExecNone(s.world);
    }
  }

  lemma FailedScriptKeepsSnapshot(hash: string -> string, w: World, plan: PanicPlan)
    ensures RunScript(hash, w, plan).exit != 0 ==> Exec(w, RunScript(hash, w, plan).cmds).snapshot == w.snapshot
  {
    if w.snapshot.Stored? {
      ExitCodeSound(hash, w, plan.faults);
    }
  }

  lemma FailedCloseKeepsSnapshot(hash: string -> string, tunName: string, w: World, plan: PanicPlan)
    ensures CloseExit(hash, tunName, w, plan) != 0 ==> Exec(w, CloseCmds(hash, tunName, w, plan)).snapshot == w.snapshot
  {
    hide ScriptRun;
    var first := CloseTun(tunName);
    ExecAppend(w, [first], RunScript(hash, Apply(w, first), plan).cmds);
    ExecOne(w, first);
    FailedScriptKeepsSnapshot(hash, Apply(w, first), plan);
  }

  // ---- Keys and status ---------------------------------------------------------------------

  /**
   The key requests leave the host alone and amount to the key operation of the same name; the
   connected key cannot be removed, and renaming it renames the session's key along with it.
   */
  lemma KeyRequestMeans(d: Setup, s: Sys, name: string, other: string, now: int, io: bool)
    ensures var t := Served(d, s, AddKey(name, other, now, io));
            && t == s.(keys := Step(d.unescape, s.keys, Add(name, other, now, io)))
            && (Accepts(d, s, AddKey(name, other, now, io)) <==> Outcome(d.unescape, s.keys.mem, Add(name, other, now, io)) == Done)
    ensures var t := Served(d, s, RemoveKey(name, io));
            && t == (if name == s.sessKey then s else s.(keys := Step(d.unescape, s.keys, Remove(name, io))))
            && (Accepts(d, s, RemoveKey(name, io)) <==>
                  name != s.sessKey && Outcome(d.unescape, s.keys.mem, Remove(name, io)) == Done)
    ensures var t, ok := Served(d, s, RenameKey(name, other, io)), Outcome(d.unescape, s.keys.mem, Rename(name, other, io)) == Done;
            && t == s.(keys := Step(d.unescape, s.keys, Rename(name, other, io)),
                       sessKey := if ok && s.sessKey == name then other else s.sessKey)
            && (Accepts(d, s, RenameKey(name, other, io)) <==> ok)
    ensures var t := Served(d, s, UseKey(name, io));
            && t == s.(keys := Step(d.unescape, s.keys, Use(name, io)))
            && (Accepts(d, s, UseKey(name, io)) <==> Outcome(d.unescape, s.keys.mem, Use(name, io)) == Done)
  {
    hide Step, Outcome;
  }

  /** The status: connected with which key, and dirty exactly if a snapshot is there although no session is. */
  lemma StatusMeans(d: Setup, base: Host, s: Sys)
    requires HostOk(d, base) && SysOk(d, base, s)
    ensures var v := StatusOf(s);
            && (v.connected <==> s.session.Some?) && (v.connected <==> s.sessKey != "") && v.keyName == s.sessKey
            && (v.dirtySnapshot <==> s.session.None? && s.world.snapshot.Stored?)
  {
    var idle := IdleServer(d, base, s);
    AnyServer(d, base, idle);
  }

  /** After a disconnect or undo that worked, snapshot removal included, the status is all clear. */
  lemma AllClear(d: Setup, base: Host, s: Sys, req: Request)
    requires HostOk(d, base) && SysOk(d, base, s) && (req.Disconnect? || req.Undo?)
    requires Accepts(d, s, req) && !req.plan.faults.snapshotRemove
    ensures StatusOf(Served(d, s, req)) == StatusView(false, "", false)
  {
    hide HostCmds, ScriptRun;
    EndEffect(d, base, s, req);
  }
}
